/** `ProgressTracker` of lib/progress.ts: per-project progress entries kept in browser
    storage (the field `stored`), and the statistics derived from them. */
module Progress {
  import opened Wrappers
  import opened Levels
  import opened Seqs

  /** One user's work on one project. Timestamps are integers supplied by the caller;
      `completedAt` present means completed. */
  datatype ProgressEntry = ProgressEntry(
    id: string,
    projectSlug: string,
    userId: string,
    startedAt: int,
    completedAt: Option<int>,
    timeSpent: int,
    currentStep: int,
    totalSteps: int,
    notes: seq<string>,
    challenges: seq<string>,
    rating: Option<int>)

  /** A `Partial<ProgressEntry>`: each present field overrides the stored one. */
  datatype EntryPatch = EntryPatch(
    id: Option<string>,
    projectSlug: Option<string>,
    userId: Option<string>,
    startedAt: Option<int>,
    completedAt: Option<int>,
    timeSpent: Option<int>,
    currentStep: Option<int>,
    totalSteps: Option<int>,
    notes: Option<seq<string>>,
    challenges: Option<seq<string>>,
    rating: Option<int>)

  const NoChange := EntryPatch(None, None, None, None, None, None, None, None, None, None, None)

  /** `{ ...entry, ...patch }`. */
  function ApplyPatch(e: ProgressEntry, patch: EntryPatch): ProgressEntry {
    ProgressEntry(
      patch.id.GetOr(e.id),
      patch.projectSlug.GetOr(e.projectSlug),
      patch.userId.GetOr(e.userId),
      patch.startedAt.GetOr(e.startedAt),
      if patch.completedAt.Some? then patch.completedAt else e.completedAt,
      patch.timeSpent.GetOr(e.timeSpent),
      patch.currentStep.GetOr(e.currentStep),
      patch.totalSteps.GetOr(e.totalSteps),
      patch.notes.GetOr(e.notes),
      patch.challenges.GetOr(e.challenges),
      if patch.rating.Some? then patch.rating else e.rating)
  }

  /** The decimal digits of a natural number, as `toString` writes them. */
  function NatToString(n: nat): (s: string)
    ensures |s| >= 1
    ensures forall i :: 0 <= i < |s| ==> '0' <= s[i] <= '9'
  {
    var d := ['0', '1', '2', '3', '4', '5', '6', '7', '8', '9'][n % 10];
    if n < 10 then [d] else NatToString(n / 10) + [d]
  }

  /** `${userId}-${projectSlug}-${Date.now()}`. */
  function EntryId(userId: string, projectSlug: string, now: nat): string {
    userId + "-" + projectSlug + "-" + NatToString(now)
  }

  /** `findIndex(p => p.id === entryId)`. */
  function FirstWithId(entries: seq<ProgressEntry>, entryId: string): (r: Option<nat>)
    ensures r.None? <==> forall i :: 0 <= i < |entries| ==> entries[i].id != entryId
    ensures r.Some? ==>
      && r.value < |entries|
      && entries[r.value].id == entryId
      && forall j :: 0 <= j < r.value ==> entries[j].id != entryId
    decreases |entries|
  {
    if entries == [] then None
    else if entries[0].id == entryId then Some(0)
    else
      var r := FirstWithId(entries[1..], entryId);
      if r.Some? then Some(r.value + 1) else None
  }

  /** The level of a catalogue project as the tracker knows it: five listed slugs, every
      other slug intermediate. Only the portfolio site is a beginner project. */
  function ProjectDifficulty(slug: string): (l: Level)
    ensures l == Beginner <==> slug == "portfolio-site"
    ensures l == Advanced <==> slug == "ecommerce-app" || slug == "dashboard-analytics"
  {
    if slug == "portfolio-site" then Beginner
    else if slug == "todo-app-react" then Intermediate
    else if slug == "ecommerce-app" then Advanced
    else if slug == "blog-platform" then Intermediate
    else if slug == "dashboard-analytics" then Advanced
    else Intermediate
  }

  /** The integer part of `LearningStats`. */
  datatype Stats = Stats(
    totalProjects: nat,
    completedProjects: nat,
    inProgressProjects: nat,
    totalTimeSpent: int,
    beginner: nat,
    intermediate: nat,
    advanced: nat)

  /** `reduce((sum, p) => sum + p.timeSpent, 0)`. */
  function TotalTime(entries: seq<ProgressEntry>): int
    decreases |entries|
  {
    if entries == [] then 0 else TotalTime(entries[..|entries| - 1]) + entries[|entries| - 1].timeSpent
  }

  function Completed(entries: seq<ProgressEntry>): seq<ProgressEntry> {
    Filter(entries, (e: ProgressEntry) => e.completedAt.Some?)
  }

  function InProgress(entries: seq<ProgressEntry>): seq<ProgressEntry> {
    Filter(entries, (e: ProgressEntry) => e.completedAt.None?)
  }

  function AtLevel(entries: seq<ProgressEntry>, l: Level): seq<ProgressEntry> {
    Filter(entries, (e: ProgressEntry) => ProjectDifficulty(e.projectSlug) == l)
  }

  /** Every entry is either completed or in progress, never both. */
  lemma {:induction false} CompletedPartition(entries: seq<ProgressEntry>)
    ensures |Completed(entries)| + |InProgress(entries)| == |entries|
    ensures TotalTime(Completed(entries)) + TotalTime(InProgress(entries)) == TotalTime(entries)
    decreases |entries|
  {
    if entries != [] {
      var init := entries[..|entries| - 1];
      var x := entries[|entries| - 1];
      CompletedPartition(init);
      if x.completedAt.Some? {
        var c := Completed(init);
        assert (c + [x])[..|c + [x]| - 1] == c;
      } else {
        var p := InProgress(init);
        assert (p + [x])[..|p + [x]| - 1] == p;
      }
    }
  }

  /** Every entry has exactly one of the three levels. */
  lemma {:induction false} LevelPartition(entries: seq<ProgressEntry>)
    ensures |AtLevel(entries, Beginner)| + |AtLevel(entries, Intermediate)| + |AtLevel(entries, Advanced)| == |entries|
    decreases |entries|
  {
    if entries != [] {
      LevelPartition(entries[..|entries| - 1]);
    }
  }

  /** The entries of one user, in stored order. */
  function Mine(entries: seq<ProgressEntry>, userId: string): seq<ProgressEntry> {
    Filter(entries, (e: ProgressEntry) => e.userId == userId)
  }

  /** `getUserStats`, without the average (a float division), the weekly histogram (date
      arithmetic) and the favourite stack (a constant). The counts are those of the
      user's entries, and they partition: completed plus open is the total, and the
      three skill levels split the completed ones. */
  function UserStats(entries: seq<ProgressEntry>, userId: string): (st: Stats)
    ensures st.totalProjects == |Mine(entries, userId)|
    ensures st.completedProjects == |Completed(Mine(entries, userId))|
    ensures st.inProgressProjects == |InProgress(Mine(entries, userId))|
    ensures st.totalTimeSpent == TotalTime(Mine(entries, userId))
    ensures st.beginner == |AtLevel(Completed(Mine(entries, userId)), Beginner)|
    ensures st.intermediate == |AtLevel(Completed(Mine(entries, userId)), Intermediate)|
    ensures st.advanced == |AtLevel(Completed(Mine(entries, userId)), Advanced)|
    ensures st.totalProjects == st.completedProjects + st.inProgressProjects
    ensures st.beginner + st.intermediate + st.advanced == st.completedProjects
    ensures forall e :: e in entries && e.userId == userId && e.completedAt.None? ==> st.inProgressProjects > 0
  {
    var mine := Mine(entries, userId);
    var completed := Completed(mine);
    CompletedPartition(mine);
    LevelPartition(completed);
    Stats(
      |mine|,
      |completed|,
      |InProgress(mine)|,
      TotalTime(mine),
      |AtLevel(completed, Beginner)|,
      |AtLevel(completed, Intermediate)|,
      |AtLevel(completed, Advanced)|)
  }

  /** The time total is split without loss between completed and open projects. */
  lemma UserStatsTime(entries: seq<ProgressEntry>, userId: string)
    ensures var mine := Mine(entries, userId);
      UserStats(entries, userId).totalTimeSpent == TotalTime(Completed(mine)) + TotalTime(InProgress(mine))
  {
    CompletedPartition(Mine(entries, userId));
  }

  /** The tracker; `stored` is the whole list kept in browser storage. */
  class ProgressTracker {
    var stored: seq<ProgressEntry>

    constructor ()
      ensures stored == []
    {
      stored := [];
    }

    /** `startProject`: appends a fresh entry and returns it. */
    method StartProject(projectSlug: string, userId: string, totalSteps: int, now: nat) returns (e: ProgressEntry)
      modifies this
      ensures e == ProgressEntry(EntryId(userId, projectSlug, now), projectSlug, userId, now, None, 0, 0, totalSteps, [], [], None)
      ensures stored == old(stored) + [e]
    {
      e := ProgressEntry(EntryId(userId, projectSlug, now), projectSlug, userId, now, None, 0, 0, totalSteps, [], [], None);
      stored := stored + [e];
    }

    /** `updateProgress`: the first entry with that id is merged with the patch; an
        unknown id changes nothing. */
    method UpdateProgress(entryId: string, patch: EntryPatch)
      modifies this
      ensures FirstWithId(old(stored), entryId).None? ==> stored == old(stored)
      ensures FirstWithId(old(stored), entryId).Some? ==>
        var i := FirstWithId(old(stored), entryId).value;
        stored == old(stored)[i := ApplyPatch(old(stored)[i], patch)]
    {
      var index := FirstWithId(stored, entryId);
      if index.Some? {
        stored := stored[index.value := ApplyPatch(stored[index.value], patch)];
      }
    }

    /** `completeProject`: stamps completion, sets the step to -1 and records the rating. */
    method CompleteProject(entryId: string, rating: int, now: int)
      modifies this
      ensures FirstWithId(old(stored), entryId).None? ==> stored == old(stored)
      ensures FirstWithId(old(stored), entryId).Some? ==>
        var i := FirstWithId(old(stored), entryId).value;
        && |stored| == |old(stored)|
        && stored[i] == old(stored)[i].(completedAt := Some(now), currentStep := -1, rating := Some(rating))
        && forall j :: 0 <= j < |stored| && j != i ==> stored[j] == old(stored)[j]
    {
      UpdateProgress(entryId, NoChange.(completedAt := Some(now), currentStep := Some(-1), rating := Some(rating)));
    }

    /** `addNote`: the note goes at the end of the first matching entry's notes. */
    method AddNote(entryId: string, note: string)
      modifies this
      ensures FirstWithId(old(stored), entryId).None? ==> stored == old(stored)
      ensures FirstWithId(old(stored), entryId).Some? ==>
        var i := FirstWithId(old(stored), entryId).value;
        && |stored| == |old(stored)|
        && stored[i] == old(stored)[i].(notes := old(stored)[i].notes + [note])
        && forall j :: 0 <= j < |stored| && j != i ==> stored[j] == old(stored)[j]
    {
      var index := FirstWithId(stored, entryId);
      if index.Some? {
        var entry := stored[index.value];
        stored := stored[index.value := entry.(notes := entry.notes + [note])];
      }
    }

    /** `getUserStats` over the stored entries. */
    function GetUserStats(userId: string): (st: Stats)
      reads this
      ensures st == UserStats(stored, userId)
      ensures st.totalProjects == st.completedProjects + st.inProgressProjects
      ensures st.beginner + st.intermediate + st.advanced == st.completedProjects
    {
      UserStats(stored, userId)
    }
  }

  /** Completing a project moves it from the open count to the completed count. */
  lemma CompletingMovesCount(entries: seq<ProgressEntry>, i: int, now: int, rating: int)
    requires 0 <= i < |entries| && entries[i].completedAt.None?
    ensures var e := entries[i];
      var after := entries[i := e.(completedAt := Some(now), currentStep := -1, rating := Some(rating))];
      |Completed(after)| == |Completed(entries)| + 1
      && |InProgress(after)| + 1 == |InProgress(entries)|
  {
    var e := entries[i];
    var e' := e.(completedAt := Some(now), currentStep := -1, rating := Some(rating));
    var after := entries[i := e'];
    assert entries == entries[..i] + [e] + entries[i + 1..];
    assert after == entries[..i] + [e'] + entries[i + 1..];
    var keep := (x: ProgressEntry) => x.completedAt.Some?;
    var open := (x: ProgressEntry) => x.completedAt.None?;
    FilterConcat(entries[..i] + [e], entries[i + 1..], keep);
    FilterConcat(entries[..i], [e], keep);
    FilterConcat(entries[..i] + [e'], entries[i + 1..], keep);
    FilterConcat(entries[..i], [e'], keep);
    FilterConcat(entries[..i] + [e], entries[i + 1..], open);
    FilterConcat(entries[..i], [e], open);
    FilterConcat(entries[..i] + [e'], entries[i + 1..], open);
    FilterConcat(entries[..i], [e'], open);
    assert Filter([e], keep) == [] && Filter([e'], keep) == [e'];
    assert Filter([e], open) == [e] && Filter([e'], open) == [];
  }
  lemma MineConcat(a: seq<ProgressEntry>, b: seq<ProgressEntry>, userId: string)
    ensures Mine(a + b, userId) == Mine(a, userId) + Mine(b, userId)
  {
    FilterConcat(a, b, (x: ProgressEntry) => x.userId == userId);
  }

  lemma MineSingle(e: ProgressEntry, userId: string)
    requires e.userId == userId
    ensures Mine([e], userId) == [e]
  {
    assert [e][..0] == [];
  }

  /** Replacing one of the user's entries by another of the user's entries replaces it
      in the user's list, at the position it has there. */
  lemma MineUpdate(entries: seq<ProgressEntry>, userId: string, i: int, e': ProgressEntry)
    requires 0 <= i < |entries| && entries[i].userId == userId && e'.userId == userId
    ensures var k := |Mine(entries[..i], userId)|;
      && k < |Mine(entries, userId)|
      && Mine(entries, userId)[k] == entries[i]
      && Mine(entries[i := e'], userId) == Mine(entries, userId)[k := e']
  {
    var e := entries[i];
    var pre, post := entries[..i], entries[i + 1..];
    assert entries == (pre + [e]) + post;
    assert entries[i := e'] == (pre + [e']) + post;
    MineConcat(pre + [e], post, userId);
    MineConcat(pre, [e], userId);
    MineConcat(pre + [e'], post, userId);
    MineConcat(pre, [e'], userId);
    MineSingle(e, userId);
    MineSingle(e', userId);
    var m1, m2 := Mine(pre, userId), Mine(post, userId);
    assert Mine(entries, userId) == (m1 + [e]) + m2;
    assert Mine(entries[i := e'], userId) == (m1 + [e']) + m2;
    UpdateMiddle(m1, e, e', m2);
  }

  lemma UpdateMiddle<T>(a: seq<T>, x: T, y: T, b: seq<T>)
    ensures ((a + [x]) + b)[|a| := y] == (a + [y]) + b
  {
    var l, r := ((a + [x]) + b)[|a| := y], (a + [y]) + b;
    assert |l| == |r|;
    forall j | 0 <= j < |l|
      ensures l[j] == r[j]
    {
    }
  }

  /** Completing one of the user's open projects moves it from the open count to the
      completed count of `getUserStats`; the total is unchanged. */
  lemma CompletingMovesStats(entries: seq<ProgressEntry>, userId: string, i: int, now: int, rating: int)
    requires 0 <= i < |entries| && entries[i].completedAt.None? && entries[i].userId == userId
    ensures var e := entries[i];
      var after := entries[i := e.(completedAt := Some(now), currentStep := -1, rating := Some(rating))];
      && UserStats(after, userId).completedProjects == UserStats(entries, userId).completedProjects + 1
      && UserStats(after, userId).inProgressProjects + 1 == UserStats(entries, userId).inProgressProjects
      && UserStats(after, userId).totalProjects == UserStats(entries, userId).totalProjects
  {
    var e' := entries[i].(completedAt := Some(now), currentStep := -1, rating := Some(rating));
    MineUpdate(entries, userId, i, e');
    CompletingMovesCount(Mine(entries, userId), |Mine(entries[..i], userId)|, now, rating);
  }
}
