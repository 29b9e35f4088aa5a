/** `AuthService` and the achievement table of lib/auth.ts. The signed-in user is the
    field `currentUser`; the copy kept in browser storage is the field `stored`. */
module Auth {
  import opened Wrappers
  import opened Levels
  import opened Seqs

  datatype UserStats = UserStats(
    projectsCompleted: int,
    totalTimeSpent: int,
    streakDays: int,
    longestStreak: int,
    badgesEarned: seq<string>)

  /** A user account, without avatar, join date and preferences. */
  datatype User = User(
    id: string,
    username: string,
    email: string,
    completedProjects: seq<string>,
    bookmarkedProjects: seq<string>,
    skillLevel: Level,
    stats: UserStats)

  /** A `Partial<User>`: each present field overrides the current one. */
  datatype UserPatch = UserPatch(
    id: Option<string>,
    username: Option<string>,
    email: Option<string>,
    completedProjects: Option<seq<string>>,
    bookmarkedProjects: Option<seq<string>>,
    skillLevel: Option<Level>,
    stats: Option<UserStats>)

  /** `{ ...user, ...patch }`. */
  function ApplyPatch(u: User, patch: UserPatch): User {
    User(
      patch.id.GetOr(u.id),
      patch.username.GetOr(u.username),
      patch.email.GetOr(u.email),
      patch.completedProjects.GetOr(u.completedProjects),
      patch.bookmarkedProjects.GetOr(u.bookmarkedProjects),
      patch.skillLevel.GetOr(u.skillLevel),
      patch.stats.GetOr(u.stats))
  }

  /** The user after completing a project not completed before: the slug is appended and
      the counter goes up by exactly one. */
  function RecordCompletion(u: User, projectSlug: string): (r: User)
    requires projectSlug !in u.completedProjects
    ensures r.completedProjects == u.completedProjects + [projectSlug]
    ensures r.stats.projectsCompleted == u.stats.projectsCompleted + 1
    ensures r == u.(completedProjects := r.completedProjects,
                    stats := u.stats.(projectsCompleted := r.stats.projectsCompleted))
    ensures Distinct(u.completedProjects) ==> Distinct(r.completedProjects)
  {
    u.(completedProjects := u.completedProjects + [projectSlug],
       stats := u.stats.(projectsCompleted := u.stats.projectsCompleted + 1))
  }

  /** The user after toggling a bookmark: every occurrence removed if present,
      otherwise appended. */
  function ToggledBookmark(u: User, projectSlug: string): (r: User)
    ensures projectSlug in r.bookmarkedProjects <==> projectSlug !in u.bookmarkedProjects
    ensures forall q :: q != projectSlug ==> (q in r.bookmarkedProjects <==> q in u.bookmarkedProjects)
    ensures r == u.(bookmarkedProjects := r.bookmarkedProjects)
  {
    if projectSlug in u.bookmarkedProjects then
      u.(bookmarkedProjects := Filter(u.bookmarkedProjects, (p: string) => p != projectSlug))
    else
      u.(bookmarkedProjects := u.bookmarkedProjects + [projectSlug])
  }

  /** Toggling twice restores membership of every slug, and the very list when the slug
      was not bookmarked. */
  lemma ToggleTwice(u: User, projectSlug: string)
    ensures forall q :: q in ToggledBookmark(ToggledBookmark(u, projectSlug), projectSlug).bookmarkedProjects
                    <==> q in u.bookmarkedProjects
    ensures projectSlug !in u.bookmarkedProjects ==>
      ToggledBookmark(ToggledBookmark(u, projectSlug), projectSlug) == u
  {
    if projectSlug !in u.bookmarkedProjects {
      var b := u.bookmarkedProjects + [projectSlug];
      var keep := (p: string) => p != projectSlug;
      assert b[..|b| - 1] == u.bookmarkedProjects;
      FilterAll(u.bookmarkedProjects, keep);
      assert Filter(b, keep) == u.bookmarkedProjects;
    }
  }

  // ------------------------------------------------------------------
  // Achievements

  /** The unlock conditions of the table, each a threshold on one figure of the user. */
  datatype Condition =
    | ProjectsCompletedAtLeast(n: int)
    | StreakDaysAtLeast(n: int)
    | CompletedListAtLeast(n: int)
    | TimeSpentAtLeast(n: int)

  predicate Holds(c: Condition, u: User) {
    match c
    case ProjectsCompletedAtLeast(n) => u.stats.projectsCompleted >= n
    case StreakDaysAtLeast(n) => u.stats.streakDays >= n
    case CompletedListAtLeast(n) => |u.completedProjects| >= n
    case TimeSpentAtLeast(n) => u.stats.totalTimeSpent >= n
  }

  datatype AchievementDef = AchievementDef(id: string, title: string, description: string, condition: Condition)

  const Achievements: seq<AchievementDef> := [
    AchievementDef("first-project", "First Steps", "Complete your first project", ProjectsCompletedAtLeast(1)),
    AchievementDef("week-streak", "Week Warrior", "Maintain a 7-day learning streak", StreakDaysAtLeast(7)),
    AchievementDef("react-master", "React Master", "Complete 5 React projects", CompletedListAtLeast(5)),
    AchievementDef("code-veteran", "Code Veteran", "Spend 100+ hours learning", TimeSpentAtLeast(6000))]

  /** `getUnlockedAchievements`: the achievements whose condition holds, in table order. */
  function GetUnlockedAchievements(u: User): (r: seq<AchievementDef>)
    ensures forall a :: a in r <==> a in Achievements && Holds(a.condition, u)
    ensures IsSubseq(r, Achievements)
  {
    Filter(Achievements, (a: AchievementDef) => Holds(a.condition, u))
  }

  /** Completing a project never takes an achievement away. */
  lemma CompletionKeepsAchievements(u: User, projectSlug: string)
    requires projectSlug !in u.completedProjects
    ensures forall a :: a in GetUnlockedAchievements(u) ==> a in GetUnlockedAchievements(RecordCompletion(u, projectSlug))
  {
    var after := RecordCompletion(u, projectSlug);
    var before := GetUnlockedAchievements(u);
    forall a | a in before
      ensures a in GetUnlockedAchievements(after)
    {
      assert Holds(a.condition, after);
    }
  }

  /** The account `login` creates (12 projects, a 7-day streak, two listed projects and
      2480 minutes) unlocks the first two achievements and no other. */
  lemma MockUserAchievements()
    ensures GetUnlockedAchievements(MockUser("dev@example.com")) == Achievements[..2]
  {
    var u := MockUser("dev@example.com");
    var keep := (a: AchievementDef) => Holds(a.condition, u);
    var a := Achievements;
    var unlocked, locked := [a[0], a[1]], [a[2], a[3]];
    assert a == unlocked + locked;
    assert keep(a[0]) && keep(a[1]);
    assert !keep(a[2]) && !keep(a[3]);
    FilterConcat(unlocked, locked, keep);
    FilterAll(unlocked, keep);
    FilterNone(locked, keep);
    assert a[..2] == unlocked;
  }

  /** The fixed account of `login`, for the given e-mail. */
  function MockUser(email: string): User {
    User("user-1", "developer_pro", email, ["portfolio-site", "todo-app-react"], ["ecommerce-app", "blog-platform"],
      Intermediate, UserStats(12, 2480, 7, 15, ["first-project", "week-streak", "react-master"]))
  }

  // ------------------------------------------------------------------
  // The service

  class AuthService {
    var currentUser: Option<User>
    var stored: Option<User>

    constructor (stored: Option<User>)
      ensures currentUser == None && this.stored == stored
    {
      currentUser := None;
      this.stored := stored;
    }

    /** `getCurrentUser`: outside a browser, no user and no change; otherwise the cached
        user, loading (and caching) the stored copy when nothing is cached. */
    method GetCurrentUser(inBrowser: bool) returns (u: Option<User>)
      modifies this
      ensures !inBrowser ==> u == None && currentUser == old(currentUser)
      ensures inBrowser ==> u == currentUser
      ensures inBrowser && old(currentUser).Some? ==> currentUser == old(currentUser)
      ensures inBrowser && old(currentUser).None? ==> currentUser == stored
      ensures stored == old(stored)
    {
      if !inBrowser {
        return None;
      }
      if currentUser.None? {
        if stored.Some? {
          currentUser := stored;
        }
      }
      u := currentUser;
    }

    /** `logout`: no current user and no stored copy. */
    method Logout()
      modifies this
      ensures currentUser == None && stored == None
    {
      currentUser := None;
      stored := None;
    }

    /** `updateUser`: signed out, nothing happens; otherwise the patch is merged and the
        result stored. */
    method UpdateUser(patch: UserPatch)
      modifies this
      ensures old(currentUser).None? ==> currentUser == None && stored == old(stored)
      ensures old(currentUser).Some? ==>
        currentUser == Some(ApplyPatch(old(currentUser).value, patch)) && stored == currentUser
    {
      if currentUser.Some? {
        currentUser := Some(ApplyPatch(currentUser.value, patch));
        stored := currentUser;
      }
    }

    /** `completeProject`: signed out, or the project already completed, nothing
        happens; otherwise the completion is recorded and stored. */
    method CompleteProject(projectSlug: string)
      modifies this
      ensures old(currentUser).None? || projectSlug in old(currentUser).value.completedProjects ==>
        currentUser == old(currentUser) && stored == old(stored)
      ensures old(currentUser).Some? && projectSlug !in old(currentUser).value.completedProjects ==>
        currentUser == Some(RecordCompletion(old(currentUser).value, projectSlug)) && stored == currentUser
    {
      if currentUser.Some? && projectSlug !in currentUser.value.completedProjects {
        var u := RecordCompletion(currentUser.value, projectSlug);
        currentUser := Some(u);
        UpdateUser(UserPatch(Some(u.id), Some(u.username), Some(u.email), Some(u.completedProjects),
          Some(u.bookmarkedProjects), Some(u.skillLevel), Some(u.stats)));
      }
    }

    /** `toggleBookmark`: signed out, nothing happens; otherwise the bookmark flips and
        the user is stored. */
    method ToggleBookmark(projectSlug: string)
      modifies this
      ensures old(currentUser).None? ==> currentUser == None && stored == old(stored)
      ensures old(currentUser).Some? ==>
        currentUser == Some(ToggledBookmark(old(currentUser).value, projectSlug)) && stored == currentUser
    {
      if currentUser.None? {
        return;
      }
      var u := ToggledBookmark(currentUser.value, projectSlug);
      currentUser := Some(u);
      UpdateUser(UserPatch(Some(u.id), Some(u.username), Some(u.email), Some(u.completedProjects),
        Some(u.bookmarkedProjects), Some(u.skillLevel), Some(u.stats)));
    }
  }
}
