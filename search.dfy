/** The project search engine (`ProjectSearchEngine` in lib/search.ts): a text stage
    delegated to a fuzzy index, three attribute filters, a sort switch, the enumeration
    of filter options, the category rule and the suggestion list. */
module ProjectSearch {
  import opened Wrappers
  import opened Levels
  import opened Seqs
  import opened Text

  /** A catalogue record, reduced to the fields the engine reads itself; title, tagline,
      description, features and the rest only feed the fuzzy index. */
  datatype Project = Project(
    slug: string,
    title: string,
    stack: seq<string>,
    concepts: seq<string>,
    instructions: seq<string>)

  datatype SearchResult = SearchResult(project: Project, relevanceScore: real, matchedFields: seq<string>)

  /** One hit of the fuzzy index: the record, its distance (absent means 0) and the keys
      of the fields that matched (absent means none). */
  datatype FuseHit = FuseHit(item: Project, score: Option<real>, matchKeys: Option<seq<string>>)

  /** The fuzzy index built once over the catalogue. How it scores is not modelled: it is
      whatever function from query to hits it was built as. */
  datatype TextIndex = TextIndex(search: string -> seq<FuseHit>)

  /** A search request; an absent field of the source's `Partial<SearchFilters>` is the
      empty string or the empty list here. */
  datatype Filters = Filters(
    query: string,
    stack: seq<string>,
    difficulty: seq<string>,
    duration: seq<string>,
    categories: seq<string>,
    sortBy: string)

  // ------------------------------------------------------------------
  // Derived classification

  /** The complexity weight of each known technology. */
  const ComplexityTable: map<string, nat> := map[
    "HTML" := 1, "CSS" := 1, "JavaScript" := 2,
    "React" := 3, "Vue" := 3, "Angular" := 4,
    "TypeScript" := 2, "Node.js" := 3,
    "Express" := 2, "Next.js" := 4,
    "MongoDB" := 3, "PostgreSQL" := 3,
    "Docker" := 4, "AWS" := 4,
    "GraphQL" := 4, "WebSocket" := 3]

  /** `complexityMap[tech] || 2`: the table weight, or 2 for a name the table lacks
      (looked up exactly, so "react" or "Next" weigh 2). */
  function Weight(tech: string): (w: nat)
    ensures 1 <= w <= 4
    ensures tech !in ComplexityTable ==> w == 2
  {
    if tech in ComplexityTable && ComplexityTable[tech] != 0 then ComplexityTable[tech] else 2
  }

  /** The sum of the weights of a stack. */
  function StackComplexity(stack: seq<string>): (c: nat)
    ensures |stack| <= c <= 4 * |stack|
    decreases |stack|
  {
    if stack == [] then 0 else Weight(stack[0]) + StackComplexity(stack[1..])
  }

  lemma {:induction false} StackComplexityConcat(a: seq<string>, b: seq<string>)
    ensures StackComplexity(a + b) == StackComplexity(a) + StackComplexity(b)
    decreases |a|
  {
    if a == [] {
      assert a + b == b;
    } else {
      assert (a + b)[0] == a[0];
      assert (a + b)[1..] == a[1..] + b;
      StackComplexityConcat(a[1..], b);
    }
  }

  /** Adding a technology to a stack always makes it strictly more complex. */
  lemma StackComplexityGrows(stack: seq<string>, tech: string)
    ensures StackComplexity(stack + [tech]) == StackComplexity(stack) + Weight(tech)
    ensures StackComplexity(stack + [tech]) > StackComplexity(stack)
  {
    StackComplexityConcat(stack, [tech]);
    assert [tech][1..] == [];
  }

  /** The difficulty bucket, derived from stack complexity and the number of concepts;
      the record's own `difficulty` field is never consulted. */
  function Difficulty(p: Project): (l: Level)
    ensures |p.stack| >= 8 || |p.concepts| >= 10 ==> l == Advanced
    ensures |p.stack| <= 1 && |p.concepts| < 6 ==> l == Beginner
  {
    var complexity := StackComplexity(p.stack);
    var concepts := |p.concepts|;
    if complexity >= 8 || concepts >= 10 then Advanced
    else if complexity >= 5 || concepts >= 6 then Intermediate
    else Beginner
  }

  /** Both directions of the difficulty thresholds. */
  lemma DifficultyThresholds(p: Project)
    ensures Difficulty(p) == Advanced
        <==> StackComplexity(p.stack) >= 8 || |p.concepts| >= 10
    ensures Difficulty(p) == Intermediate
        <==> !(StackComplexity(p.stack) >= 8 || |p.concepts| >= 10)
             && (StackComplexity(p.stack) >= 5 || |p.concepts| >= 6)
    ensures Difficulty(p) == Beginner
        <==> StackComplexity(p.stack) < 5 && |p.concepts| < 6
  {
  }

  /** Adding a technology or a concept never makes a project easier. */
  lemma DifficultyMonotone(p: Project, q: Project)
    requires IsPrefix(p.stack, q.stack) && |p.concepts| <= |q.concepts|
    ensures LevelOrder(Difficulty(p)) <= LevelOrder(Difficulty(q))
  {
    var extra := q.stack[|p.stack|..];
    assert q.stack == p.stack + extra;
    StackComplexityConcat(p.stack, extra);
  }

  predicate IsPrefix(a: seq<string>, b: seq<string>) {
    |a| <= |b| && b[..|a|] == a
  }

  datatype Span = Short | Medium | Long

  function SpanName(d: Span): string {
    match d
    case Short => "short"
    case Medium => "medium"
    case Long => "long"
  }

  /** The ordinal used when sorting by duration: short 1, medium 2, long 3. */
  function SpanOrder(d: Span): (n: int)
    ensures 1 <= n <= 3
  {
    match d
    case Short => 1
    case Medium => 2
    case Long => 3
  }

  /** Ten times the estimate `0.5 * instructions + 0.3 * concepts` hours, in integers. */
  function TenthsOfHours(p: Project): nat {
    5 * |p.instructions| + 3 * |p.concepts|
  }

  /** The duration bucket: long from 20 hours, medium from 8 hours. */
  function Duration(p: Project): (d: Span)
    ensures var hours := 0.5 * (|p.instructions| as real) + 0.3 * (|p.concepts| as real);
      && (d == Long <==> hours >= 20.0)
      && (d == Medium <==> 8.0 <= hours < 20.0)
      && (d == Short <==> hours < 8.0)
  {
    var tenths := TenthsOfHours(p);
    if tenths >= 200 then Long
    else if tenths >= 80 then Medium
    else Short
  }

  /** Both directions of the duration thresholds. */
  lemma DurationThresholds(p: Project)
    ensures Duration(p) == Long <==> 5 * |p.instructions| + 3 * |p.concepts| >= 200
    ensures Duration(p) == Medium <==> 80 <= 5 * |p.instructions| + 3 * |p.concepts| < 200
    ensures Duration(p) == Short <==> 5 * |p.instructions| + 3 * |p.concepts| < 80
  {
  }

  /** More instructions or concepts never make a project shorter. */
  lemma DurationMonotone(p: Project, q: Project)
    requires |p.instructions| <= |q.instructions| && |p.concepts| <= |q.concepts|
    ensures SpanOrder(Duration(p)) <= SpanOrder(Duration(q))
  {
  }

  /** The lower-cased, space-joined stack that the category rule inspects. */
  function StackText(p: Project): string {
    Lower(Join(p.stack, ' '))
  }

  /** The keyword rule: the first matching clause decides. */
  function Category(p: Project): (c: string)
    ensures c in ["Frontend Framework", "Backend/API", "Vanilla Web", "Mobile", "Full Stack"]
    ensures c == "Vanilla Web" ==> Contains(StackText(p), "html") && Contains(StackText(p), "css")
  {
    var s := StackText(p);
    if Contains(s, "react") || Contains(s, "vue") || Contains(s, "angular") then "Frontend Framework"
    else if Contains(s, "node") || Contains(s, "express") || Contains(s, "api") then "Backend/API"
    else if Contains(s, "html") && Contains(s, "css") && !Contains(s, "react") then "Vanilla Web"
    else if Contains(s, "mobile") || Contains(s, "react native") then "Mobile"
    else "Full Stack"
  }

  /** The "react native" test of the mobile clause can never decide anything: any such
      stack has already been classified by the "react" test of the first clause, so only
      the word "mobile" leads to "Mobile". */
  lemma ReactNativeIsFrontend(p: Project)
    ensures Contains(StackText(p), "react native") ==> Category(p) == "Frontend Framework"
    ensures Category(p) == "Mobile" ==> Contains(StackText(p), "mobile")
  {
    if Contains(StackText(p), "react native") {
      assert "react" + " native" == "react native";
      ContainsPrefixOf(StackText(p), "react", " native");
    }
  }

  /** The first catalogue record (content/projects.ts). */
  const SpotifyStack: seq<string> := ["Next.js", "React", "Supabase", "TypeScript", "Tailwind CSS", "PostgreSQL"]

  const SpotifyClone := Project(
    "spotify-clone",
    "Spotify Clone",
    SpotifyStack,
    ["Next.js App Router", "Supabase authentication", "File upload and storage", "Audio streaming",
     "Real-time subscriptions", "Database relationships", "State management with Zustand"],
    ["Clone the repository from GitHub", "Install dependencies with npm install",
     "Set up Supabase database and authentication", "Configure environment variables",
     "Study the component structure and state management",
     "Understand the file upload and audio streaming logic",
     "Examine the real-time features implementation"])

  /** Its stack weighs 4 + 3 + 2 + 2 + 2 + 3 = 16 (two unknown names at 2 each). */
  lemma SpotifyCloneComplexity()
    ensures StackComplexity(SpotifyStack) == 16
  {
  }

  /** So it is advanced however few concepts it lists. */
  lemma SpotifyCloneAdvanced()
    ensures Difficulty(SpotifyClone) == Advanced
  {
    SpotifyCloneComplexity();
  }

  /** With 7 instructions and 7 concepts it is estimated at 5.6 hours, a short project. */
  lemma SpotifyCloneShort()
    ensures Duration(SpotifyClone) == Short
  {
  }

  /** Three of its technologies are popular: Next.js, React and TypeScript. */
  lemma SpotifyClonePopular()
    ensures PopularCount(SpotifyStack) == 3
  {
  }

  // ------------------------------------------------------------------
  // The search pipeline

  /** Every catalogue record with score 1 and no matched fields. */
  function Seed(catalog: seq<Project>): (rs: seq<SearchResult>)
    ensures |rs| == |catalog|
    ensures forall i :: 0 <= i < |catalog| ==> rs[i] == SearchResult(catalog[i], 1.0, [])
  {
    seq(|catalog|, i requires 0 <= i < |catalog| => SearchResult(catalog[i], 1.0, []))
  }

  /** A fuzzy hit as a result: score `1 - (distance || 0)`. */
  function FromHit(h: FuseHit): SearchResult {
    SearchResult(h.item, 1.0 - h.score.GetOr(0.0), h.matchKeys.GetOr([]))
  }

  function FromHits(hits: seq<FuseHit>): (rs: seq<SearchResult>)
    ensures |rs| == |hits|
    ensures forall i :: 0 <= i < |hits| ==> rs[i] == FromHit(hits[i])
  {
    seq(|hits|, i requires 0 <= i < |hits| => FromHit(hits[i]))
  }

  /** The text stage: only a non-empty query on a built index replaces the seed. */
  function TextStage(catalog: seq<Project>, fuse: Option<TextIndex>, query: string): seq<SearchResult> {
    if query != "" && fuse.Some? then FromHits(fuse.value.search(query)) else Seed(catalog)
  }

  /** Some requested token, lower-cased, occurs in some lower-cased stack entry. */
  predicate MatchesStack(tokens: seq<string>, p: Project) {
    exists tech, entry :: tech in tokens && entry in p.stack && Contains(Lower(entry), Lower(tech))
  }

  /** The three attribute filters; an empty list leaves its axis unconstrained. */
  predicate PassesFilters(f: Filters, p: Project) {
    && (|f.stack| > 0 ==> MatchesStack(f.stack, p))
    && (|f.difficulty| > 0 ==> LevelName(Difficulty(p)) in f.difficulty)
    && (|f.duration| > 0 ==> SpanName(Duration(p)) in f.duration)
  }

  /** The list after the text stage and the three filters, before sorting. */
  function Candidates(catalog: seq<Project>, fuse: Option<TextIndex>, f: Filters): (rs: seq<SearchResult>)
    ensures IsSubseq(rs, TextStage(catalog, fuse, f.query))
    ensures forall r :: r in rs <==> r in TextStage(catalog, fuse, f.query) && PassesFilters(f, r.project)
  {
    var texted := TextStage(catalog, fuse, f.query);
    var byStack :=
      if |f.stack| > 0 then Filter(texted, (r: SearchResult) => MatchesStack(f.stack, r.project))
      else texted;
    var byDifficulty :=
      if |f.difficulty| > 0 then Filter(byStack, (r: SearchResult) => LevelName(Difficulty(r.project)) in f.difficulty)
      else byStack;
    var byDuration :=
      if |f.duration| > 0 then Filter(byDifficulty, (r: SearchResult) => SpanName(Duration(r.project)) in f.duration)
      else byDifficulty;
    SubseqReflexive(texted);
    SubseqReflexive(byStack);
    SubseqReflexive(byDifficulty);
    SubseqTransitive(byDifficulty, byStack, texted);
    SubseqTransitive(byDuration, byDifficulty, texted);
    byDuration
  }

  /** The sort key of a mode, ascending; descending orders use the negated value. */
  function SortKey(sortBy: string): SearchResult -> real {
    if sortBy == "difficulty" then DifficultyKey
    else if sortBy == "duration" then DurationKey
    else if sortBy == "popularity" then PopularityKey
    else RelevanceKey
  }

  function DifficultyKey(r: SearchResult): real { LevelOrder(Difficulty(r.project)) as real }
  function DurationKey(r: SearchResult): real { SpanOrder(Duration(r.project)) as real }
  function PopularityKey(r: SearchResult): real { -(PopularCount(r.project.stack) as real) }
  function RelevanceKey(r: SearchResult): real { -r.relevanceScore }

  const PopularStacks: seq<string> := ["React", "Next.js", "TypeScript", "JavaScript"]

  /** How many stack entries are (exactly) one of the popular technologies. */
  function PopularCount(stack: seq<string>): (n: nat)
    ensures n <= |stack|
    decreases |stack|
  {
    if stack == [] then 0
    else (if stack[0] in PopularStacks then 1 else 0) + PopularCount(stack[1..])
  }

  /** The sort switch: "newest" reverses, the other named modes sort stably by their key,
      and every other value (including an absent one) sorts by descending relevance. */
  function SortResults(rs: seq<SearchResult>, sortBy: string): (sorted: seq<SearchResult>)
    ensures |sorted| == |rs| && multiset(sorted) == multiset(rs)
    ensures sortBy == "difficulty" ==>
      forall i, j :: 0 <= i < j < |sorted| ==>
        LevelOrder(Difficulty(sorted[i].project)) <= LevelOrder(Difficulty(sorted[j].project))
    ensures sortBy == "duration" ==>
      forall i, j :: 0 <= i < j < |sorted| ==>
        SpanOrder(Duration(sorted[i].project)) <= SpanOrder(Duration(sorted[j].project))
    ensures sortBy == "popularity" ==>
      forall i, j :: 0 <= i < j < |sorted| ==>
        PopularCount(sorted[i].project.stack) >= PopularCount(sorted[j].project.stack)
    ensures sortBy == "newest" ==> forall i :: 0 <= i < |rs| ==> sorted[i] == rs[|rs| - 1 - i]
    ensures sortBy !in ["difficulty", "duration", "popularity", "newest"] ==>
      forall i, j :: 0 <= i < j < |sorted| ==> sorted[i].relevanceScore >= sorted[j].relevanceScore
  {
    if sortBy == "newest" then
      ReverseMultiset(rs);
      Reverse(rs)
    else
      var sorted := SortBy(rs, SortKey(sortBy));
      assert forall i, j :: 0 <= i < j < |sorted| ==> SortKey(sortBy)(sorted[i]) <= SortKey(sortBy)(sorted[j]);
      sorted
  }

  /** Ties keep their prior order in every mode except "newest". */
  lemma SortResultsKeepsTies(rs: seq<SearchResult>, sortBy: string, k: real)
    requires sortBy != "newest"
    ensures TieClass(SortResults(rs, sortBy), SortKey(sortBy), k) == TieClass(rs, SortKey(sortBy), k)
  {
    SortByStable(rs, SortKey(sortBy), k);
  }

  /** `searchProjects`: the candidates, sorted. */
  function SearchOver(catalog: seq<Project>, fuse: Option<TextIndex>, f: Filters): (results: seq<SearchResult>)
    ensures multiset(results) == multiset(Candidates(catalog, fuse, f))
    ensures forall r :: r in results <==> r in TextStage(catalog, fuse, f.query) && PassesFilters(f, r.project)
  {
    var candidates := Candidates(catalog, fuse, f);
    var results := SortResults(candidates, f.sortBy);
    assert forall r :: r in results <==> r in multiset(results);
    assert forall r :: r in candidates <==> r in multiset(candidates);
    results
  }

  /** With no query, no filter and the default order, the result is the whole catalogue
      in catalogue order, each with score 1: the stable sort leaves equal scores alone.
      The `categories` field plays no part. */
  lemma DefaultSearchIsCatalog(catalog: seq<Project>, fuse: Option<TextIndex>, f: Filters)
    requires f.query == "" && f.stack == [] && f.difficulty == [] && f.duration == []
    requires f.sortBy !in ["difficulty", "duration", "popularity", "newest"]
    ensures SearchOver(catalog, fuse, f) == Seed(catalog)
  {
    var seed := Seed(catalog);
    assert Candidates(catalog, fuse, f) == seed;
    assert SortKey(f.sortBy) == RelevanceKey;
    SortByAllTied(seed, RelevanceKey, -1.0);
  }

  /** Before the index is built a query is inert: every record passes the text stage. */
  lemma QueryIgnoredWithoutIndex(catalog: seq<Project>, f: Filters)
    ensures TextStage(catalog, None, f.query) == Seed(catalog)
    ensures SearchOver(catalog, None, f) == SearchOver(catalog, None, f.(query := ""))
  {
  }

  /** The filters only remove entries: before sorting, the result is the text-stage list
      with some entries deleted, in the same order. */
  lemma FiltersOnlyRemove(catalog: seq<Project>, fuse: Option<TextIndex>, f: Filters)
    ensures IsSubseq(Candidates(catalog, fuse, f), TextStage(catalog, fuse, f.query))
    ensures |Candidates(catalog, fuse, f)| <= |TextStage(catalog, fuse, f.query)|
  {
    var c := Candidates(catalog, fuse, f);
    var t := TextStage(catalog, fuse, f.query);
    SubseqLength(c, t);
  }

  /** Sorting by popularity puts every record with more popular technologies before
      every record with fewer. */
  lemma PopularFirst(rs: seq<SearchResult>, i: int, j: int)
    requires 0 <= i < |SortResults(rs, "popularity")| && 0 <= j < |SortResults(rs, "popularity")|
    requires PopularCount(SortResults(rs, "popularity")[i].project.stack)
           > PopularCount(SortResults(rs, "popularity")[j].project.stack)
    ensures i < j
  {
  }

  // ------------------------------------------------------------------
  // Filter options

  datatype FilterOptions = FilterOptions(
    allStacks: seq<string>,
    difficulties: seq<string>,
    durations: seq<string>,
    categories: seq<string>)

  /** `projects.flatMap(p => p.stack)`. */
  function AllStackEntries(catalog: seq<Project>): (entries: seq<string>)
    ensures forall t :: t in entries <==> exists p :: p in catalog && t in p.stack
    decreases |catalog|
  {
    if catalog == [] then []
    else
      var rest := AllStackEntries(catalog[1..]);
      assert forall p :: p in catalog <==> p == catalog[0] || p in catalog[1..];
      catalog[0].stack + rest
  }

  /** `projects.map(getProjectCategory)`. */
  function AllCategories(catalog: seq<Project>): (names: seq<string>)
    ensures forall c :: c in names <==> exists p :: p in catalog && Category(p) == c
    decreases |catalog|
  {
    if catalog == [] then []
    else
      var rest := AllCategories(catalog[1..]);
      assert forall p :: p in catalog <==> p == catalog[0] || p in catalog[1..];
      [Category(catalog[0])] + rest
  }

  /** The selectable values: every stack entry and every category once, sorted, and
      the fixed bucket names. */
  function GetFilterOptions(catalog: seq<Project>): (o: FilterOptions)
    ensures StrictlySorted(o.allStacks)
    ensures forall t :: t in o.allStacks <==> exists p :: p in catalog && t in p.stack
    ensures StrictlySorted(o.categories)
    ensures forall c :: c in o.categories <==> exists p :: p in catalog && Category(p) == c
    ensures o.difficulties == [LevelName(Beginner), LevelName(Intermediate), LevelName(Advanced)]
    ensures o.durations == [SpanName(Short), SpanName(Medium), SpanName(Long)]
  {
    FilterOptions(
      SortedSet(AllStackEntries(catalog)),
      ["beginner", "intermediate", "advanced"],
      ["short", "medium", "long"],
      SortedSet(AllCategories(catalog)))
  }

  // ------------------------------------------------------------------
  // Suggestions

  /** The stack entries of one record that contain the lower-cased query `ql`. */
  function StackMatches(stack: seq<string>, ql: string): (ms: seq<string>)
    ensures forall t :: t in ms <==> t in stack && Contains(Lower(t), ql)
  {
    Filter(stack, (t: string) => Contains(Lower(t), ql))
  }

  /** What one record contributes, in visiting order: its title, then its stack entries. */
  function RecordMatches(p: Project, ql: string): seq<string> {
    (if Contains(Lower(p.title), ql) then [p.title] else []) + StackMatches(p.stack, ql)
  }

  /** `s` is the title or one of the stack entries of `p`. */
  predicate Offers(p: Project, s: string) {
    s == p.title || s in p.stack
  }

  /** Every matching title and stack entry, in visiting order, repetitions included. */
  function AllMatches(catalog: seq<Project>, ql: string): seq<string>
    decreases |catalog|
  {
    if catalog == [] then []
    else AllMatches(catalog[..|catalog| - 1], ql) + RecordMatches(catalog[|catalog| - 1], ql)
  }

  /** Everything in the match list matches and comes from some record. */
  lemma {:induction false} AllMatchesSound(catalog: seq<Project>, ql: string, s: string)
    requires s in AllMatches(catalog, ql)
    ensures Contains(Lower(s), ql)
    ensures exists p :: p in catalog && Offers(p, s)
    decreases |catalog|
  {
    var init := catalog[..|catalog| - 1];
    var last := catalog[|catalog| - 1];
    assert AllMatches(catalog, ql) == AllMatches(init, ql) + RecordMatches(last, ql);
    if s in AllMatches(init, ql) {
      AllMatchesSound(init, ql, s);
      var p :| p in init && Offers(p, s);
      assert p in catalog;
    } else {
      RecordMatchesSound(last, ql, s);
    }
  }

  lemma RecordMatchesSound(p: Project, ql: string, s: string)
    requires s in RecordMatches(p, ql)
    ensures Contains(Lower(s), ql) && Offers(p, s)
  {
    if s !in StackMatches(p.stack, ql) {
      assert s == p.title;
    }
  }

  /** Every matching title and stack entry of the catalogue is in the match list. */
  lemma {:induction false} AllMatchesComplete(catalog: seq<Project>, ql: string, p: Project, s: string)
    requires p in catalog && Offers(p, s) && Contains(Lower(s), ql)
    ensures s in AllMatches(catalog, ql)
    decreases |catalog|
  {
    var init := catalog[..|catalog| - 1];
    var last := catalog[|catalog| - 1];
    if p == last {
      assert s in RecordMatches(last, ql);
    } else {
      assert catalog == init + [last];
      assert p in init;
      AllMatchesComplete(init, ql, p, s);
    }
  }

  lemma StackMatchesStep(stack: seq<string>, j: int, ql: string)
    requires 0 <= j < |stack|
    ensures StackMatches(stack[..j + 1], ql)
         == StackMatches(stack[..j], ql) + (if Contains(Lower(stack[j]), ql) then [stack[j]] else [])
  {
    var s := stack[..j + 1];
    assert s[..|s| - 1] == stack[..j];
    assert s[|s| - 1] == stack[j];
  }

  lemma StackLoopStep(base: seq<string>, stack: seq<string>, j: int, ql: string)
    requires 0 <= j < |stack|
    ensures AddAll(base, StackMatches(stack[..j + 1], ql))
         == if Contains(Lower(stack[j]), ql) then AddNew(AddAll(base, StackMatches(stack[..j], ql)), stack[j])
            else AddAll(base, StackMatches(stack[..j], ql))
  {
    var sofar := StackMatches(stack[..j], ql);
    var x := stack[j];
    StackMatchesStep(stack, j, ql);
    if Contains(Lower(x), ql) {
      assert StackMatches(stack[..j + 1], ql) == sofar + [x];
      AddAllSnoc(base, sofar, x);
    } else {
      assert StackMatches(stack[..j + 1], ql) == sofar + [];
      assert sofar + [] == sofar;
    }
  }
  /** The inner visit of `getSuggestions`: adds, in order, each stack entry containing
      `ql` to the insertion-ordered set `suggestions`. */
  method AddStackMatches(suggestions: seq<string>, stack: seq<string>, ql: string) returns (r: seq<string>)
    ensures r == AddAll(suggestions, StackMatches(stack, ql))
  {
    r := suggestions;
    for j := 0 to |stack|
      invariant r == AddAll(suggestions, StackMatches(stack[..j], ql))
    {
      StackLoopStep(suggestions, stack, j, ql);
      if Contains(Lower(stack[j]), ql) {
        r := AddNew(r, stack[j]);
      }
    }
    assert stack[..|stack|] == stack;
  }
  /** The `projects.forEach` callback of `getSuggestions`: the title when it matches,
      then the matching stack entries. */
  method AddProjectMatches(suggestions: seq<string>, p: Project, ql: string) returns (r: seq<string>)
    ensures r == AddAll(suggestions, RecordMatches(p, ql))
  {
    ghost var titlePart: seq<string> := if Contains(Lower(p.title), ql) then [p.title] else [];
    r := suggestions;
    if Contains(Lower(p.title), ql) {
      r := AddNew(r, p.title);
    }
    assert r == AddAll(suggestions, titlePart) by {
      AddAllSnoc(suggestions, [], p.title);
      assert [] + [p.title] == [p.title];
    }
    r := AddStackMatches(r, p.stack, ql);
    AddAllConcat(suggestions, titlePart, StackMatches(p.stack, ql));
  }

  lemma AllMatchesStep(catalog: seq<Project>, i: int, ql: string)
    requires 0 <= i < |catalog|
    ensures AllMatches(catalog[..i + 1], ql) == AllMatches(catalog[..i], ql) + RecordMatches(catalog[i], ql)
  {
    var c := catalog[..i + 1];
    assert c[..|c| - 1] == catalog[..i];
    assert c[|c| - 1] == catalog[i];
  }

  lemma AddAllSnoc(s: seq<string>, xs: seq<string>, x: string)
    ensures AddAll(s, xs + [x]) == AddNew(AddAll(s, xs), x)
  {
    assert (xs + [x])[..|xs|] == xs;
  }

  /** `getSuggestions`: nothing for a query shorter than two characters, otherwise the
      first eight distinct matches in the order they are first met. */
  function Suggestions(catalog: seq<Project>, query: string): (r: seq<string>)
    ensures |query| < 2 ==> r == []
    ensures |r| <= 8
    ensures Distinct(r)
  {
    if |query| < 2 then [] else Take(AddAll([], AllMatches(catalog, Lower(query))), 8)
  }

  /** Every suggestion contains the query, ignoring ASCII case, and is the title or a
      stack entry of some record. */
  lemma SuggestionsSound(catalog: seq<Project>, query: string, s: string)
    requires s in Suggestions(catalog, query)
    ensures Contains(Lower(s), Lower(query))
    ensures exists p :: p in catalog && Offers(p, s)
  {
    SuggestionsUnfold(catalog, query);
    var all := AddAll([], AllMatches(catalog, Lower(query)));
    assert s in all;
    AllMatchesSound(catalog, Lower(query), s);
  }

  lemma DedupedSuggested(catalog: seq<Project>, query: string, s: string)
    requires |query| >= 2 && |Suggestions(catalog, query)| < 8
    requires s in AllMatches(catalog, Lower(query))
    ensures s in Suggestions(catalog, query)
  {
    SuggestionsUnfold(catalog, query);
  }

  lemma SuggestionsUnfold(catalog: seq<Project>, query: string)
    requires |query| >= 2
    ensures Suggestions(catalog, query) == Take(AddAll([], AllMatches(catalog, Lower(query))), 8)
  {
  }

  /** Fewer than eight suggestions means every matching title and stack entry is among them. */
  lemma SuggestionsComplete(catalog: seq<Project>, query: string, p: Project, s: string)
    requires |query| >= 2 && |Suggestions(catalog, query)| < 8
    requires p in catalog && Offers(p, s) && Contains(Lower(s), Lower(query))
    ensures s in Suggestions(catalog, query)
  {
    AllMatchesComplete(catalog, Lower(query), p, s);
    DedupedSuggested(catalog, query, s);
  }

  /** The suggestions are the first eight distinct matches, each at the place where it
      is first met: records in order, each record's title before its stack. */
  lemma SuggestionsFirstEight(catalog: seq<Project>, query: string)
    requires |query| >= 2
    ensures Suggestions(catalog, query) == Take(Dedup(AllMatches(catalog, Lower(query))), 8)
  {
    AddAllDedup(AllMatches(catalog, Lower(query)));
  }

  // ------------------------------------------------------------------
  // The engine object

  /** The engine: the catalogue it searches and the fuzzy index, absent until built. */
  class ProjectSearchEngine {
    const catalog: seq<Project>
    var fuse: Option<TextIndex>

    constructor (catalog: seq<Project>)
      ensures this.catalog == catalog && fuse == None
    {
      this.catalog := catalog;
      fuse := None;
    }

    /** `initializeSearch`: outside a browser nothing happens; otherwise the index is
        (re)built, so calling it again has the same effect. */
    method InitializeSearch(inBrowser: bool, index: TextIndex)
      modifies this
      ensures fuse == if inBrowser then Some(index) else old(fuse)
    {
      if inBrowser {
        fuse := Some(index);
      }
    }

    /** `searchProjects`, stage by stage. */
    method SearchProjects(f: Filters) returns (results: seq<SearchResult>)
      ensures results == SearchOver(catalog, fuse, f)
    {
      results := Seed(catalog);
      if f.query != "" && fuse.Some? {
        results := FromHits(fuse.value.search(f.query));
      }
      if |f.stack| > 0 {
        results := Filter(results, (r: SearchResult) => MatchesStack(f.stack, r.project));
      }
      if |f.difficulty| > 0 {
        results := Filter(results, (r: SearchResult) => LevelName(Difficulty(r.project)) in f.difficulty);
      }
      if |f.duration| > 0 {
        results := Filter(results, (r: SearchResult) => SpanName(Duration(r.project)) in f.duration);
      }
      results := SortResults(results, f.sortBy);
    }

    /** `getSuggestions`, filling an insertion-ordered set while visiting every title and
        stack entry. */
    method GetSuggestions(query: string) returns (r: seq<string>)
      ensures r == Suggestions(catalog, query)
    {
      if |query| < 2 {
        return [];
      }
      var ql := Lower(query);
      var suggestions: seq<string> := [];
      for i := 0 to |catalog|
        invariant suggestions == AddAll([], AllMatches(catalog[..i], ql))
      {
        suggestions := AddProjectMatches(suggestions, catalog[i], ql);
        assert suggestions == AddAll([], AllMatches(catalog[..i + 1], ql)) by {
          AddAllConcat([], AllMatches(catalog[..i], ql), RecordMatches(catalog[i], ql));
          AllMatchesStep(catalog, i, ql);
        }
      }
      assert catalog[..|catalog|] == catalog;
      r := Take(suggestions, 8);
      SuggestionsUnfold(catalog, query);
    }
  }
}
