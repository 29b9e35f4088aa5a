/** The learning-path table and `LearningPathManager` of lib/learning-paths.ts. The
    browser storage the manager reads and writes is the field `stored`. */
module LearningPaths {
  import opened Wrappers
  import opened Levels
  import opened Seqs

  /** A path, reduced to the fields the manager reads. */
  datatype LearningPath = LearningPath(
    id: string,
    title: string,
    difficulty: Level,
    projects: seq<string>,
    prerequisites: Option<seq<string>>)

  const Paths: seq<LearningPath> := [
    LearningPath("frontend-fundamentals", "Frontend Fundamentals", Beginner,
      ["portfolio-site", "todo-app-vanilla", "weather-app"], None),
    LearningPath("react-mastery", "React Mastery", Intermediate,
      ["todo-app-react", "ecommerce-app", "social-media-dashboard"], Some(["HTML", "CSS", "JavaScript"])),
    LearningPath("fullstack-javascript", "Full-Stack JavaScript", Advanced,
      ["blog-platform", "chat-application", "project-management-tool"], Some(["JavaScript", "React", "HTML/CSS"])),
    LearningPath("typescript-professional", "TypeScript Professional", Intermediate,
      ["typescript-api", "type-safe-react-app", "cli-tool"], Some(["JavaScript", "Node.js"])),
    LearningPath("nextjs-expert", "Next.js Expert", Advanced,
      ["nextjs-blog", "ecommerce-nextjs", "dashboard-analytics"], Some(["React", "JavaScript", "TypeScript"])),
    LearningPath("mobile-development", "Mobile Development", Intermediate,
      ["mobile-todo", "weather-mobile-app", "social-mobile-app"], Some(["React", "JavaScript"]))]

  /** One user's progress along one path; `startedAt` is a timestamp supplied by the caller. */
  datatype LearningProgress = LearningProgress(
    pathId: string,
    userId: string,
    currentProjectIndex: int,
    completedProjects: seq<string>,
    startedAt: int,
    skillsAcquired: seq<string>,
    timeSpent: int)

  /** A `Partial<LearningProgress>`: each present field overrides the stored one. */
  datatype ProgressPatch = ProgressPatch(
    pathId: Option<string>,
    userId: Option<string>,
    currentProjectIndex: Option<int>,
    completedProjects: Option<seq<string>>,
    startedAt: Option<int>,
    skillsAcquired: Option<seq<string>>,
    timeSpent: Option<int>)

  /** `{ ...entry, ...patch }`. */
  function ApplyPatch(e: LearningProgress, patch: ProgressPatch): LearningProgress {
    LearningProgress(
      patch.pathId.GetOr(e.pathId),
      patch.userId.GetOr(e.userId),
      patch.currentProjectIndex.GetOr(e.currentProjectIndex),
      patch.completedProjects.GetOr(e.completedProjects),
      patch.startedAt.GetOr(e.startedAt),
      patch.skillsAcquired.GetOr(e.skillsAcquired),
      patch.timeSpent.GetOr(e.timeSpent))
  }

  /** `learningPaths.find(p => p.id === id)`. */
  function FindPath(id: string): Option<LearningPath> {
    FindPathIn(Paths, id)
  }

  /** The lookup finds a path of the table with that id, and nothing only when no path
      has it. */
  lemma FindPathSpec(id: string)
    ensures FindPath(id).None? <==> forall p :: p in Paths ==> p.id != id
    ensures FindPath(id).Some? ==> FindPath(id).value in Paths && FindPath(id).value.id == id
  {
  }

  function FindPathIn(paths: seq<LearningPath>, id: string): (r: Option<LearningPath>)
    ensures r.None? <==> forall p :: p in paths ==> p.id != id
    ensures r.Some? ==> r.value in paths && r.value.id == id
    decreases |paths|
  {
    if paths == [] then None
    else if paths[0].id == id then Some(paths[0])
    else
      assert forall p :: p in paths <==> p == paths[0] || p in paths[1..];
      FindPathIn(paths[1..], id)
  }

  /** Every path of the table has three projects and a distinct id. */
  lemma PathTableShape()
    ensures forall p :: p in Paths ==> |p.projects| == 3
    ensures forall i, j :: 0 <= i < j < |Paths| ==> Paths[i].id != Paths[j].id
  {
  }

  /** `projects.length || 0` of the path with that id, 0 for an unknown id. */
  function PathLength(id: string): nat {
    if FindPath(id).Some? then |FindPath(id).value.projects| else 0
  }

  /** An unknown path has length 0 and every known one has three projects. */
  lemma PathLengthSpec(id: string)
    ensures FindPath(id).None? ==> PathLength(id) == 0
    ensures FindPath(id).Some? ==> PathLength(id) == |FindPath(id).value.projects| == 3
  {
    PathTableShape();
    FindPathSpec(id);
  }

  /** The first entry of `entries` for path `pathId`. */
  function FindByPath(entries: seq<LearningProgress>, pathId: string): Option<LearningProgress>
    decreases |entries|
  {
    if entries == [] then None
    else if entries[0].pathId == pathId then Some(entries[0])
    else FindByPath(entries[1..], pathId)
  }

  lemma {:induction false} FindByPathAppend(a: seq<LearningProgress>, b: seq<LearningProgress>, pathId: string)
    ensures FindByPath(a + b, pathId) == if FindByPath(a, pathId).Some? then FindByPath(a, pathId) else FindByPath(b, pathId)
    decreases |a|
  {
    if a == [] {
      assert a + b == b;
    } else {
      assert (a + b)[0] == a[0];
      assert (a + b)[1..] == a[1..] + b;
      FindByPathAppend(a[1..], b, pathId);
    }
  }

  predicate IsEntryFor(e: LearningProgress, userId: string, pathId: string) {
    e.userId == userId && e.pathId == pathId
  }

  /** `findIndex` of the first entry for (userId, pathId). */
  function FirstMatch(entries: seq<LearningProgress>, userId: string, pathId: string): (r: Option<nat>)
    ensures r.None? <==> forall i :: 0 <= i < |entries| ==> !IsEntryFor(entries[i], userId, pathId)
    ensures r.Some? ==>
      && r.value < |entries|
      && IsEntryFor(entries[r.value], userId, pathId)
      && forall j :: 0 <= j < r.value ==> !IsEntryFor(entries[j], userId, pathId)
    decreases |entries|
  {
    if entries == [] then None
    else if IsEntryFor(entries[0], userId, pathId) then Some(0)
    else
      var r := FirstMatch(entries[1..], userId, pathId);
      if r.Some? then Some(r.value + 1) else None
  }

  /** The entries of one user, in stored order. */
  function UserEntries(entries: seq<LearningProgress>, userId: string): seq<LearningProgress> {
    Filter(entries, (e: LearningProgress) => e.userId == userId)
  }

  lemma {:induction false} FirstMatchSnoc(init: seq<LearningProgress>, x: LearningProgress, userId: string, pathId: string)
    ensures FirstMatch(init + [x], userId, pathId)
         == if FirstMatch(init, userId, pathId).Some? then FirstMatch(init, userId, pathId)
            else if IsEntryFor(x, userId, pathId) then Some(|init|)
            else None
    decreases |init|
  {
    var entries := init + [x];
    if init == [] {
      assert entries == [x];
      assert entries[1..] == [];
    } else {
      assert entries[0] == init[0];
      assert entries[1..] == init[1..] + [x];
      FirstMatchSnoc(init[1..], x, userId, pathId);
    }
  }

  /** Looking a path up among a user's entries finds the very entry `findIndex` finds
      among all entries. */
  lemma {:induction false} FindAmongUserEntries(entries: seq<LearningProgress>, userId: string, pathId: string)
    ensures FindByPath(UserEntries(entries, userId), pathId)
         == if FirstMatch(entries, userId, pathId).Some? then Some(entries[FirstMatch(entries, userId, pathId).value]) else None
    decreases |entries|
  {
    if entries != [] {
      var init := entries[..|entries| - 1];
      var x := entries[|entries| - 1];
      assert entries == init + [x];
      FindAmongUserEntries(init, userId, pathId);
      var mine := UserEntries(init, userId);
      var tail: seq<LearningProgress> := if x.userId == userId then [x] else [];
      assert UserEntries(entries, userId) == mine + tail;
      FindByPathAppend(mine, tail, pathId);
      FirstMatchSnoc(init, x, userId, pathId);
      var m := FirstMatch(init, userId, pathId);
      if m.Some? {
        assert entries[m.value] == init[m.value];
      }
    }
  }

  /** A path may be recommended: no prerequisite list, an empty one, or at least one
      completed project (each prerequisite is deemed met by any completed project). */
  predicate Eligible(path: LearningPath, completedProjects: seq<string>): (b: bool)
    ensures b <==> path.prerequisites.None?
                   || forall skill :: skill in path.prerequisites.value ==>
                        exists project :: project in completedProjects
  {
    assert completedProjects != [] ==> completedProjects[0] in completedProjects;
    assert path.prerequisites.Some? && path.prerequisites.value != [] ==>
      path.prerequisites.value[0] in path.prerequisites.value;
    path.prerequisites.None? || path.prerequisites.value == [] || completedProjects != []
  }

  /** The sort key of recommendations: beginner 1, intermediate 2, advanced 3. */
  function DifficultyRank(path: LearningPath): real {
    LevelOrder(path.difficulty) as real
  }

  /** The ids of the paths a list of entries has started. */
  function StartedIds(entries: seq<LearningProgress>): (ids: seq<string>)
    ensures forall id :: id in ids <==> exists e :: e in entries && e.pathId == id
    decreases |entries|
  {
    if entries == [] then []
    else
      assert forall e :: e in entries <==> e == entries[0] || e in entries[1..];
      [entries[0].pathId] + StartedIds(entries[1..])
  }

  /** The recommendations computed from the stored entries, over a table of paths. */
  function Recommendations(table: seq<LearningPath>, entries: seq<LearningProgress>, userId: string,
                           completedProjects: seq<string>): (r: seq<LearningPath>)
    ensures forall p :: p in r <==>
      p in table && Eligible(p, completedProjects)
      && forall e :: e in entries && e.userId == userId ==> e.pathId != p.id
    ensures forall i, j :: 0 <= i < j < |r| ==> LevelOrder(r[i].difficulty) <= LevelOrder(r[j].difficulty)
  {
    var active := StartedIds(UserEntries(entries, userId));
    var open := Filter(table, (p: LearningPath) => p.id !in active && Eligible(p, completedProjects));
    var sorted := SortBy(open, DifficultyRank);
    assert forall p :: p in sorted <==> p in open by {
      assert forall p :: p in sorted <==> p in multiset(sorted);
      assert forall p :: p in open <==> p in multiset(open);
    }
    assert forall i, j :: 0 <= i < j < |sorted| ==> DifficultyRank(sorted[i]) <= DifficultyRank(sorted[j]);
    sorted
  }

  /** Paths of the same difficulty keep their table order. */
  lemma RecommendationsStable(table: seq<LearningPath>, entries: seq<LearningProgress>, userId: string,
                              completedProjects: seq<string>, k: real)
    ensures TieClass(Recommendations(table, entries, userId, completedProjects), DifficultyRank, k)
         == TieClass(Filter(table, (p: LearningPath) => p.id !in StartedIds(UserEntries(entries, userId))
                                                    && Eligible(p, completedProjects)), DifficultyRank, k)
  {
    var open := Filter(table, (p: LearningPath) => p.id !in StartedIds(UserEntries(entries, userId))
                                               && Eligible(p, completedProjects));
    SortByStable(open, DifficultyRank, k);
  }

  /** With no progress and no completed project, a table whose only eligible path is
      its first is recommended that path alone. */
  lemma OnlyFirstOpen(table: seq<LearningPath>, userId: string)
    requires table != [] && Eligible(table[0], [])
    requires forall p :: p in table[1..] ==> !Eligible(p, [])
    ensures Recommendations(table, [], userId, []) == [table[0]]
  {
    var active := StartedIds(UserEntries([], userId));
    assert active == [];
    var keep := (p: LearningPath) => p.id !in active && Eligible(p, []);
    var open := Filter(table, keep);
    assert table == [table[0]] + table[1..];
    FilterConcat([table[0]], table[1..], keep);
    FilterNone(table[1..], keep);
    assert Filter([table[0]], keep) == [table[0]];
    assert open == [table[0]];
    assert SortBy(open, DifficultyRank) == open;
  }

  /** A newcomer with no progress and no completed project is recommended the beginner
      path alone. */
  lemma NewcomerRecommendation(userId: string)
    ensures Recommendations(Paths, [], userId, []) == [Paths[0]]
  {
    OnlyBeginnerPathOpen();
    OnlyFirstOpen(Paths, userId);
  }

  /** Without any completed project, only the path without prerequisites is eligible. */
  lemma OnlyBeginnerPathOpen()
    ensures Paths != [] && Eligible(Paths[0], [])
    ensures forall p :: p in Paths[1..] ==> !Eligible(p, [])
  {
  }

  /** A quotient whose dividend exceeds its positive divisor exceeds 1. */
  lemma RatioAboveOne(d: real, t: real)
    requires t > 0.0
    ensures d > t ==> d / t > 1.0
  {
    assert (d / t) * t == d;
  }

  /** `(done / total) * 100` in exact arithmetic. */
  function Percent(done: nat, total: nat): (pct: real)
    requires total > 0
    ensures pct >= 0.0
    ensures done == total ==> pct == 100.0
    ensures done < total ==> pct < 100.0
    ensures done > total ==> pct > 100.0
  {
    var ratio := done as real / total as real;
    assert done == total ==> ratio == 1.0;
    assert done < total ==> ratio < 1.0;
    RatioAboveOne(done as real, total as real);
    ratio * 100.0
  }

  /** Percentage of a path completed; 0 when the user has not started it or the path
      is unknown. */
  function Completion(entries: seq<LearningProgress>, userId: string, pathId: string): (pct: real)
    ensures FindByPath(UserEntries(entries, userId), pathId).None? ==> pct == 0.0
    ensures FindPath(pathId).None? ==> pct == 0.0
    ensures pct >= 0.0
  {
    var progress := FindByPath(UserEntries(entries, userId), pathId);
    var path := FindPath(pathId);
    if progress.None? || path.None? then 0.0
    else
      PathLengthSpec(pathId);
      Percent(|progress.value.completedProjects|, |path.value.projects|)
  }

  /** The manager; `stored` is the whole list kept in browser storage. */
  class LearningPathManager {
    var stored: seq<LearningProgress>

    constructor ()
      ensures stored == []
    {
      stored := [];
    }

    /** `getPathProgress`: the user's entries, in stored order. */
    function GetPathProgress(userId: string): (r: seq<LearningProgress>)
      reads this
      ensures forall e :: e in r <==> e in stored && e.userId == userId
      ensures IsSubseq(r, stored)
    {
      UserEntries(stored, userId)
    }

    /** `startLearningPath`: an unknown path is an error and stores nothing; otherwise a
        fresh entry is appended, even if the user already follows that path. */
    method StartLearningPath(pathId: string, userId: string, now: int) returns (r: Result<LearningProgress, string>)
      modifies this
      ensures FindPath(pathId).None? ==> r == Failure("Learning path not found") && stored == old(stored)
      ensures FindPath(pathId).Some? ==>
        && r == Success(LearningProgress(pathId, userId, 0, [], now, [], 0))
        && stored == old(stored) + [r.value]
    {
      var path := FindPath(pathId);
      if path.None? {
        return Failure("Learning path not found");
      }
      var progress := LearningProgress(pathId, userId, 0, [], now, [], 0);
      stored := stored + [progress];
      r := Success(progress);
    }

    /** `updateProgress`: the first entry for (userId, pathId) is merged with the patch;
        without one nothing changes. */
    method UpdateProgress(userId: string, pathId: string, patch: ProgressPatch)
      modifies this
      ensures FirstMatch(old(stored), userId, pathId).None? ==> stored == old(stored)
      ensures FirstMatch(old(stored), userId, pathId).Some? ==>
        var i := FirstMatch(old(stored), userId, pathId).value;
        stored == old(stored)[i := ApplyPatch(old(stored)[i], patch)]
    {
      var index := FirstMatch(stored, userId, pathId);
      if index.Some? {
        stored := stored[index.value := ApplyPatch(stored[index.value], patch)];
      }
    }

    /** `completeProject`: with no entry for the path, or a slug already completed,
        nothing changes; otherwise the slug is appended and the index advances, capped at
        the path's length. */
    method CompleteProject(userId: string, pathId: string, projectSlug: string)
      modifies this
      ensures FirstMatch(old(stored), userId, pathId).None? ==> stored == old(stored)
      ensures FirstMatch(old(stored), userId, pathId).Some? ==>
        var i := FirstMatch(old(stored), userId, pathId).value;
        var e := old(stored)[i];
        if projectSlug in e.completedProjects then stored == old(stored)
        else
          && |stored| == |old(stored)|
          && stored[i] == e.(completedProjects := e.completedProjects + [projectSlug],
                             currentProjectIndex := if e.currentProjectIndex + 1 < PathLength(pathId)
                                                    then e.currentProjectIndex + 1 else PathLength(pathId))
          && stored[i].currentProjectIndex <= PathLength(pathId)
          && (Distinct(e.completedProjects) ==> Distinct(stored[i].completedProjects))
          && forall j :: 0 <= j < |stored| && j != i ==> stored[j] == old(stored)[j]
    {
      FindAmongUserEntries(stored, userId, pathId);
      var found := FindByPath(GetPathProgress(userId), pathId);
      if found.None? {
        return;
      }
      var entry := found.value;
      if projectSlug !in entry.completedProjects {
        var done := entry.completedProjects + [projectSlug];
        assert Distinct(entry.completedProjects) ==> Distinct(done);
        var length := PathLength(pathId);
        var index := if entry.currentProjectIndex + 1 < length then entry.currentProjectIndex + 1 else length;
        var patch := ProgressPatch(None, None, Some(index), Some(done), None, None, None);
        assert ApplyPatch(entry, patch) == entry.(completedProjects := done, currentProjectIndex := index);
        UpdateProgress(userId, pathId, patch);
      }
    }

    /** `getPathRecommendations`. */
    function GetPathRecommendations(userId: string, completedProjects: seq<string>): (r: seq<LearningPath>)
      reads this
      ensures forall p :: p in r ==> p in Paths && Eligible(p, completedProjects)
      ensures forall p :: p in r ==> forall e :: e in stored && e.userId == userId ==> e.pathId != p.id
      ensures forall p ::
        (p in Paths && Eligible(p, completedProjects)
         && forall e :: e in stored && e.userId == userId ==> e.pathId != p.id) ==> p in r
      ensures forall i, j :: 0 <= i < j < |r| ==> LevelOrder(r[i].difficulty) <= LevelOrder(r[j].difficulty)
    {
      Recommendations(Paths, stored, userId, completedProjects)
    }

    /** `calculatePathCompletion`. */
    function CalculatePathCompletion(userId: string, pathId: string): (pct: real)
      reads this
      ensures FirstMatch(stored, userId, pathId).None? ==> pct == 0.0
      ensures FindPath(pathId).None? ==> pct == 0.0
      ensures pct >= 0.0
    {
      FindAmongUserEntries(stored, userId, pathId);
      Completion(stored, userId, pathId)
    }
  }
}
