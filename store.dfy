/** The application store of lib/store.ts: each action is a reducer from the old state
    to the new one. Only the fields the reducers touch are kept; UI flags, search
    settings and preferences are not part of this model. */
module AppStore {
  import opened Wrappers
  import opened Seqs

  datatype Badge = Badge(id: string, name: string, description: string, rarity: string)

  datatype User = User(
    id: string,
    name: string,
    email: string,
    level: int,
    xp: int,
    streak: int,
    totalProjects: int,
    totalHours: int,
    badges: seq<Badge>)

  /** A notification; `createdAt` is a timestamp supplied by the caller. */
  datatype Notification = Notification(
    id: string,
    title: string,
    message: string,
    kind: string,
    createdAt: int,
    read: bool)

  datatype Reward = Reward(xp: int, badge: Option<Badge>)

  datatype Achievement = Achievement(
    id: string,
    title: string,
    progress: int,
    maxProgress: int,
    completed: bool,
    completedAt: Option<int>,
    reward: Reward)

  datatype AppState = AppState(
    user: Option<User>,
    isAuthenticated: bool,
    theme: string,
    notifications: seq<Notification>,
    unreadCount: int,
    achievements: seq<Achievement>,
    completedProjects: seq<string>,
    bookmarkedProjects: seq<string>,
    projectProgress: map<string, int>,
    studyTime: map<string, int>)

  const BeginnerBadge := Badge("beginner", "Beginner", "Started your learning journey", "common")

  const InitialAchievements: seq<Achievement> := [
    Achievement("first-project", "First Steps", 0, 1, false, None, Reward(100, Some(BeginnerBadge))),
    Achievement("week-streak", "Week Warrior", 0, 7, false, None, Reward(500, None)),
    Achievement("ten-projects", "Project Master", 0, 10, false, None, Reward(1000, None))]

  const InitialState := AppState(None, false, "auto", [], 0, InitialAchievements, [], [], map[], map[])

  // ------------------------------------------------------------------
  // User

  /** `setUser`: the flag follows the presence of a user. */
  function SetUser(s: AppState, u: Option<User>): (r: AppState)
    ensures r.user == u
    ensures r.isAuthenticated <==> u.Some?
    ensures r == s.(user := u, isAuthenticated := r.isAuthenticated)
  {
    s.(user := u, isAuthenticated := u.Some?)
  }

  /** The level that goes with an amount of XP: `Math.floor(xp / 1000) + 1`. Dafny's
      division by a positive constant rounds down, as `Math.floor` does. */
  function LevelFor(xp: int): int {
    xp / 1000 + 1
  }

  /** A level covers exactly one band of 1000 XP. */
  lemma LevelBand(xp: int)
    ensures (LevelFor(xp) - 1) * 1000 <= xp < LevelFor(xp) * 1000
    ensures xp >= 0 ==> LevelFor(xp) >= 1
  {
  }

  /** `addXP`: without a user nothing changes; otherwise XP grows by `delta` and the
      level is recomputed from the new total, every other field kept. */
  function AddXP(s: AppState, delta: int): (r: AppState)
    ensures s.user.None? ==> r == s
    ensures s.user.Some? ==>
      && r.user.Some?
      && r.user.value == s.user.value.(xp := s.user.value.xp + delta, level := r.user.value.level)
      && (r.user.value.level - 1) * 1000 <= r.user.value.xp < r.user.value.level * 1000
    ensures r == s.(user := r.user)
  {
    if s.user.None? then s
    else
      var u := s.user.value;
      var newXP := u.xp + delta;
      LevelBand(newXP);
      s.(user := Some(u.(xp := newXP, level := LevelFor(newXP))))
  }

  /** Two awards amount to one award of their sum. */
  lemma AddXPAdditive(s: AppState, a: int, b: int)
    ensures AddXP(AddXP(s, a), b) == AddXP(s, a + b)
  {
  }

  /** `incrementStreak`. */
  function IncrementStreak(s: AppState): (r: AppState)
    ensures s.user.None? ==> r == s
    ensures s.user.Some? ==> r.user == Some(s.user.value.(streak := s.user.value.streak + 1))
    ensures r == s.(user := r.user)
  {
    if s.user.None? then s else s.(user := Some(s.user.value.(streak := s.user.value.streak + 1)))
  }

  // ------------------------------------------------------------------
  // Notifications

  function CountUnread(ns: seq<Notification>): (n: nat)
    ensures n <= |ns|
  {
    if ns == [] then 0 else (if ns[0].read then 0 else 1) + CountUnread(ns[1..])
  }

  /** How many unread notifications carry the identifier `id`. */
  function CountUnreadWith(ns: seq<Notification>, id: string): (n: nat)
    ensures n <= CountUnread(ns)
  {
    if ns == [] then 0 else (if !ns[0].read && ns[0].id == id then 1 else 0) + CountUnreadWith(ns[1..], id)
  }

  /** The counter agrees with the list it counts. */
  predicate UnreadConsistent(s: AppState) {
    s.unreadCount == CountUnread(s.notifications)
  }

  /** `addNotification`: the new, unread notification goes first. */
  function AddNotification(s: AppState, id: string, title: string, message: string, kind: string, createdAt: int): (r: AppState)
    ensures |r.notifications| == |s.notifications| + 1
    ensures r.notifications[0] == Notification(id, title, message, kind, createdAt, false)
    ensures r.notifications[1..] == s.notifications
    ensures r.unreadCount == s.unreadCount + 1
    ensures UnreadConsistent(s) ==> UnreadConsistent(r)
    ensures r == s.(notifications := r.notifications, unreadCount := r.unreadCount)
  {
    var n := Notification(id, title, message, kind, createdAt, false);
    assert ([n] + s.notifications)[1..] == s.notifications;
    s.(notifications := [n] + s.notifications, unreadCount := s.unreadCount + 1)
  }

  /** The list with every notification carrying `id` marked read, in place. */
  function MarkRead(ns: seq<Notification>, id: string): (r: seq<Notification>)
    ensures |r| == |ns|
    ensures forall i :: 0 <= i < |ns| ==> r[i] == if ns[i].id == id then ns[i].(read := true) else ns[i]
  {
    seq(|ns|, i requires 0 <= i < |ns| => if ns[i].id == id then ns[i].(read := true) else ns[i])
  }

  /** Marking removes from the unread count exactly the unread notifications with `id`. */
  lemma {:induction false} MarkReadCount(ns: seq<Notification>, id: string)
    ensures CountUnread(MarkRead(ns, id)) == CountUnread(ns) - CountUnreadWith(ns, id)
    decreases |ns|
  {
    if ns != [] {
      assert MarkRead(ns, id)[1..] == MarkRead(ns[1..], id);
      MarkReadCount(ns[1..], id);
    }
  }

  /** With no unread notification carrying `id`, marking changes nothing. */
  lemma {:induction false} MarkReadUnchanged(ns: seq<Notification>, id: string)
    requires CountUnreadWith(ns, id) == 0
    ensures MarkRead(ns, id) == ns
    decreases |ns|
  {
    if ns != [] {
      MarkReadUnchanged(ns[1..], id);
      assert MarkRead(ns, id) == [MarkRead(ns, id)[0]] + MarkRead(ns[1..], id);
    }
  }

  /** `markNotificationRead` as the source writes it: the counter drops by one (never
      below 0) whatever `id` names, even an unknown or already-read notification. */
  function MarkNotificationReadAsWritten(s: AppState, id: string): (r: AppState)
    ensures r.notifications == MarkRead(s.notifications, id)
    ensures r.unreadCount >= 0
    ensures s.unreadCount > 0 ==> r.unreadCount == s.unreadCount - 1
    ensures s.unreadCount <= 0 ==> r.unreadCount == 0
    ensures r == s.(notifications := r.notifications, unreadCount := r.unreadCount)
  {
    s.(notifications := MarkRead(s.notifications, id),
       unreadCount := if s.unreadCount - 1 > 0 then s.unreadCount - 1 else 0)
  }

  /** One unread notification "a", then marking the unknown id "b": the counter says no
      notification is unread while "a" still is. */
  lemma UnknownIdBreaksCounter()
    ensures var n := Notification("a", "Welcome", "", "info", 0, false);
            var s := InitialState.(notifications := [n], unreadCount := 1);
            UnreadConsistent(s) && !UnreadConsistent(MarkNotificationReadAsWritten(s, "b"))
  {
    var n := Notification("a", "Welcome", "", "info", 0, false);
    var s := InitialState.(notifications := [n], unreadCount := 1);
    var r := MarkNotificationReadAsWritten(s, "b");
    assert r.notifications == [n];
    assert CountUnread([n]) == 1;
  }

  /** `markNotificationRead` with the counter recomputed from the list: it drops by the
      number of unread notifications actually marked. */
  function MarkNotificationRead(s: AppState, id: string): (r: AppState)
    ensures r.notifications == MarkRead(s.notifications, id)
    ensures UnreadConsistent(r)
    ensures UnreadConsistent(s) ==> r.unreadCount == s.unreadCount - CountUnreadWith(s.notifications, id)
    ensures r == s.(notifications := r.notifications, unreadCount := r.unreadCount)
  {
    var ns := MarkRead(s.notifications, id);
    MarkReadCount(s.notifications, id);
    s.(notifications := ns, unreadCount := CountUnread(ns))
  }

  /** On a consistent state, an id naming no unread notification changes nothing, and
      an id naming exactly one gives what the source computes. */
  lemma MarkNotificationReadAgrees(s: AppState, id: string)
    requires UnreadConsistent(s)
    ensures CountUnreadWith(s.notifications, id) == 0 ==> MarkNotificationRead(s, id) == s
    ensures CountUnreadWith(s.notifications, id) == 1 ==>
      MarkNotificationRead(s, id) == MarkNotificationReadAsWritten(s, id)
  {
    if CountUnreadWith(s.notifications, id) == 0 {
      MarkReadUnchanged(s.notifications, id);
    }
  }

  /** `clearNotifications`. */
  function ClearNotifications(s: AppState): (r: AppState)
    ensures r.notifications == [] && r.unreadCount == 0
    ensures UnreadConsistent(r)
    ensures r == s.(notifications := [], unreadCount := 0)
  {
    s.(notifications := [], unreadCount := 0)
  }

  /** From the initial state, any run of adds, clears and (corrected) marks keeps the
      counter equal to the number of unread notifications. */
  datatype NotificationAction = Add(id: string, title: string, message: string, kind: string, at: int) | Mark(markId: string) | Clear

  function ApplyNotification(s: AppState, a: NotificationAction): AppState {
    match a
    case Add(id, title, message, kind, at) => AddNotification(s, id, title, message, kind, at)
    case Mark(id) => MarkNotificationRead(s, id)
    case Clear => ClearNotifications(s)
  }

  function ApplyAll(s: AppState, actions: seq<NotificationAction>): AppState
    decreases |actions|
  {
    if actions == [] then s else ApplyAll(ApplyNotification(s, actions[0]), actions[1..])
  }

  lemma {:induction false} CounterStaysConsistent(s: AppState, actions: seq<NotificationAction>)
    requires UnreadConsistent(s)
    ensures UnreadConsistent(ApplyAll(s, actions))
    ensures ApplyAll(s, actions).unreadCount >= 0
    decreases |actions|
  {
    if actions != [] {
      CounterStaysConsistent(ApplyNotification(s, actions[0]), actions[1..]);
    }
  }

  // ------------------------------------------------------------------
  // Achievements

  /** `updateAchievement`: every achievement with that id gets the progress clamped to
      its maximum; the others are untouched. */
  function UpdateAchievement(s: AppState, id: string, progress: int): (r: AppState)
    ensures |r.achievements| == |s.achievements|
    ensures forall i :: 0 <= i < |s.achievements| && s.achievements[i].id != id ==>
      r.achievements[i] == s.achievements[i]
    ensures forall i :: 0 <= i < |s.achievements| && s.achievements[i].id == id ==>
      var a := s.achievements[i];
      && r.achievements[i] == a.(progress := r.achievements[i].progress)
      && r.achievements[i].progress <= progress
      && r.achievements[i].progress <= a.maxProgress
      && (r.achievements[i].progress == progress || r.achievements[i].progress == a.maxProgress)
    ensures r == s.(achievements := r.achievements)
  {
    var achs := s.achievements;
    s.(achievements := seq(|achs|, i requires 0 <= i < |achs| =>
      if achs[i].id == id then achs[i].(progress := if progress < achs[i].maxProgress then progress else achs[i].maxProgress)
      else achs[i]))
  }

  /** `achievements.find(a => a.id === id)`. */
  function FindAchievement(achs: seq<Achievement>, id: string): (r: Option<Achievement>)
    ensures r.None? <==> forall a :: a in achs ==> a.id != id
    ensures r.Some? ==>
      exists i :: 0 <= i < |achs| && achs[i] == r.value && r.value.id == id
                  && forall j :: 0 <= j < i ==> achs[j].id != id
    decreases |achs|
  {
    if achs == [] then None
    else if achs[0].id == id then Some(achs[0])
    else
      var r := FindAchievement(achs[1..], id);
      assert forall a :: a in achs <==> a == achs[0] || a in achs[1..];
      if r.Some? then
        var i :| 0 <= i < |achs[1..]| && achs[1..][i] == r.value && r.value.id == id
          && forall j :: 0 <= j < i ==> achs[1..][j].id != id;
        assert achs[i + 1] == r.value;
        r
      else r
  }

  /** Every achievement with that id marked completed at `now`. */
  function MarkCompleted(achs: seq<Achievement>, id: string, now: int): (r: seq<Achievement>)
    ensures |r| == |achs|
    ensures forall i :: 0 <= i < |achs| ==>
      r[i] == if achs[i].id == id then achs[i].(completed := true, completedAt := Some(now)) else achs[i]
  {
    seq(|achs|, i requires 0 <= i < |achs| =>
      if achs[i].id == id then achs[i].(completed := true, completedAt := Some(now)) else achs[i])
  }

  /** The user after collecting a reward: its XP added and its badge, if any, appended;
      the level is not recomputed. */
  function Rewarded(u: User, reward: Reward): (v: User)
    ensures v.xp == u.xp + reward.xp
    ensures |v.badges| == |u.badges| + (if reward.badge.Some? then 1 else 0)
    ensures v.level == u.level
  {
    u.(xp := u.xp + reward.xp, badges := u.badges + (if reward.badge.Some? then [reward.badge.value] else []))
  }

  /** `completeAchievement`: an unknown id, or one whose first achievement is already
      completed, changes nothing; otherwise the reward goes to the user, without
      recomputing the level, and every achievement with that id is marked completed. */
  function CompleteAchievement(s: AppState, id: string, now: int): (r: AppState)
    ensures var found := FindAchievement(s.achievements, id);
      && (found.None? ==> r == s)
      && (found.Some? && found.value.completed ==> r == s)
      && (found.Some? && !found.value.completed ==>
            && r.achievements == MarkCompleted(s.achievements, id, now)
            && r.user == (if s.user.Some? then Some(Rewarded(s.user.value, found.value.reward)) else None)
            && r == s.(user := r.user, achievements := r.achievements))
  {
    var found := FindAchievement(s.achievements, id);
    if found.None? || found.value.completed then s
    else
      var user := if s.user.None? then None else Some(Rewarded(s.user.value, found.value.reward));
      s.(user := user, achievements := MarkCompleted(s.achievements, id, now))
  }

  /** The reward is paid once: completing the same achievement again changes nothing. */
  lemma CompleteAchievementOnce(s: AppState, id: string, now: int, later: int)
    ensures CompleteAchievement(CompleteAchievement(s, id, now), id, later) == CompleteAchievement(s, id, now)
  {
    var r := CompleteAchievement(s, id, now);
    var found := FindAchievement(s.achievements, id);
    if found.Some? && !found.value.completed {
      var again := FindAchievement(r.achievements, id);
      assert again.Some?;
      var i :| 0 <= i < |r.achievements| && r.achievements[i] == again.value && again.value.id == id;
      assert s.achievements[i].id == id;
    }
  }

  // ------------------------------------------------------------------
  // Learning progress

  /** The achievement list after the `count`-th distinct project is completed. */
  function ProjectAchievements(achs: seq<Achievement>, count: int): (r: seq<Achievement>)
    ensures |r| == |achs|
    ensures forall i :: 0 <= i < |achs| ==>
      r[i] == if achs[i].id == "first-project" && count >= 1 then achs[i].(progress := 1)
              else if achs[i].id == "ten-projects" && count <= 10 then achs[i].(progress := count)
              else achs[i]
  {
    seq(|achs|, i requires 0 <= i < |achs| =>
      if achs[i].id == "first-project" && count >= 1 then achs[i].(progress := 1)
      else if achs[i].id == "ten-projects" && count <= 10 then achs[i].(progress := count)
      else achs[i])
  }

  /** `markProjectCompleted`: an already completed project changes nothing; otherwise it
      is appended, its progress set to 100, and the two project achievements updated. */
  function MarkProjectCompleted(s: AppState, projectId: string): (r: AppState)
    ensures projectId in r.completedProjects
    ensures projectId in s.completedProjects ==> r == s
    ensures projectId !in s.completedProjects ==>
      && r.completedProjects == s.completedProjects + [projectId]
      && r.projectProgress == s.projectProgress[projectId := 100]
      && r.achievements == ProjectAchievements(s.achievements, |r.completedProjects|)
      && r == s.(completedProjects := r.completedProjects, projectProgress := r.projectProgress,
                 achievements := r.achievements)
    ensures Distinct(s.completedProjects) ==> Distinct(r.completedProjects)
  {
    if projectId in s.completedProjects then s
    else
      var done := s.completedProjects + [projectId];
      s.(completedProjects := done,
         projectProgress := s.projectProgress[projectId := 100],
         achievements := ProjectAchievements(s.achievements, |done|))
  }

  /** Completing the same project twice is the same as completing it once. */
  lemma MarkProjectCompletedIdempotent(s: AppState, projectId: string)
    ensures MarkProjectCompleted(MarkProjectCompleted(s, projectId), projectId) == MarkProjectCompleted(s, projectId)
  {
  }

  /** The first completion sets "first-project" to 1; "ten-projects" follows the count up
      to 10 and then stays. */
  lemma ProjectAchievementProgress(s: AppState, projectId: string, i: int)
    requires projectId !in s.completedProjects && 0 <= i < |s.achievements|
    ensures var r := MarkProjectCompleted(s, projectId);
      && (s.achievements[i].id == "first-project" ==> r.achievements[i].progress == 1)
      && (s.achievements[i].id == "ten-projects" && |s.completedProjects| < 10 ==>
            r.achievements[i].progress == |s.completedProjects| + 1)
      && (s.achievements[i].id == "ten-projects" && |s.completedProjects| >= 10 ==>
            r.achievements[i] == s.achievements[i])
  {
  }

  /** `toggleBookmark`: removes every occurrence if present, otherwise appends. */
  function ToggleBookmark(s: AppState, projectId: string): (r: AppState)
    ensures projectId in r.bookmarkedProjects <==> projectId !in s.bookmarkedProjects
    ensures forall q :: q != projectId ==> (q in r.bookmarkedProjects <==> q in s.bookmarkedProjects)
    ensures r == s.(bookmarkedProjects := r.bookmarkedProjects)
  {
    if projectId in s.bookmarkedProjects then
      s.(bookmarkedProjects := Filter(s.bookmarkedProjects, (q: string) => q != projectId))
    else
      s.(bookmarkedProjects := s.bookmarkedProjects + [projectId])
  }

  /** Toggling twice restores membership of every project; starting from a list without
      the project, it restores the list itself. */
  lemma ToggleBookmarkTwice(s: AppState, projectId: string)
    ensures forall q :: q in ToggleBookmark(ToggleBookmark(s, projectId), projectId).bookmarkedProjects
                    <==> q in s.bookmarkedProjects
    ensures projectId !in s.bookmarkedProjects ==>
      ToggleBookmark(ToggleBookmark(s, projectId), projectId) == s
  {
    if projectId !in s.bookmarkedProjects {
      var b := s.bookmarkedProjects + [projectId];
      var p := (q: string) => q != projectId;
      assert b[..|b| - 1] == s.bookmarkedProjects;
      FilterAll(s.bookmarkedProjects, p);
      assert Filter(b, p) == s.bookmarkedProjects;
    }
  }

  /** `updateProjectProgress`: overwrites one entry. */
  function UpdateProjectProgress(s: AppState, projectId: string, progress: int): (r: AppState)
    ensures projectId in r.projectProgress && r.projectProgress[projectId] == progress
    ensures forall q :: q != projectId ==>
      (q in r.projectProgress <==> q in s.projectProgress)
      && (q in s.projectProgress ==> r.projectProgress[q] == s.projectProgress[q])
    ensures r == s.(projectProgress := r.projectProgress)
  {
    s.(projectProgress := s.projectProgress[projectId := progress])
  }

  /** The time recorded for a project, 0 when none is. */
  function StudyTimeOf(s: AppState, projectId: string): int {
    if projectId in s.studyTime then s.studyTime[projectId] else 0
  }

  /** `addStudyTime`: adds to the recorded time, starting from 0. */
  function AddStudyTime(s: AppState, projectId: string, minutes: int): (r: AppState)
    ensures StudyTimeOf(r, projectId) == StudyTimeOf(s, projectId) + minutes
    ensures forall q :: q != projectId ==>
      (q in r.studyTime <==> q in s.studyTime) && StudyTimeOf(r, q) == StudyTimeOf(s, q)
    ensures r == s.(studyTime := r.studyTime)
  {
    s.(studyTime := s.studyTime[projectId := StudyTimeOf(s, projectId) + minutes])
  }

  /** Two sessions add up to one session of their combined length. */
  lemma AddStudyTimeAdditive(s: AppState, projectId: string, a: int, b: int)
    ensures AddStudyTime(AddStudyTime(s, projectId, a), projectId, b) == AddStudyTime(s, projectId, a + b)
  {
    var left := AddStudyTime(AddStudyTime(s, projectId, a), projectId, b).studyTime;
    var right := AddStudyTime(s, projectId, a + b).studyTime;
    assert left == right;
  }

  // ------------------------------------------------------------------
  // Persistence

  /** The slice written to storage. */
  datatype PersistedState = PersistedState(
    user: Option<User>,
    theme: string,
    completedProjects: seq<string>,
    bookmarkedProjects: seq<string>,
    projectProgress: map<string, int>,
    studyTime: map<string, int>,
    achievements: seq<Achievement>,
    notifications: seq<Notification>)

  /** `partialize`: the durable fields, and only the 50 most recent notifications. */
  function Partialize(s: AppState): (p: PersistedState)
    ensures |p.notifications| <= 50
    ensures |p.notifications| == if |s.notifications| <= 50 then |s.notifications| else 50
    ensures p.notifications == s.notifications[..|p.notifications|]
    ensures p.user == s.user && p.theme == s.theme && p.achievements == s.achievements
    ensures p.completedProjects == s.completedProjects && p.bookmarkedProjects == s.bookmarkedProjects
    ensures p.projectProgress == s.projectProgress && p.studyTime == s.studyTime
  {
    PersistedState(s.user, s.theme, s.completedProjects, s.bookmarkedProjects,
      s.projectProgress, s.studyTime, s.achievements, Take(s.notifications, 50))
  }

  /** The newest notification always survives persistence. */
  lemma NewestNotificationPersisted(s: AppState, id: string, title: string, message: string, kind: string, at: int)
    ensures var p := Partialize(AddNotification(s, id, title, message, kind, at));
      p.notifications != [] && p.notifications[0] == Notification(id, title, message, kind, at, false)
  {
  }
}
