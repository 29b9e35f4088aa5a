# TraceReverse core, modelled in Dafny

TraceReverse is a Next.js site for studying open-source projects by reading their code.
Its logic sits in five `lib/` modules and one component. This project models them in
Dafny and proves what they promise:

- **`ProjectSearch`** (lib/search.ts) models the project search engine:
  - the seed list and the text stage;
  - the stack, difficulty and duration filters;
  - the sort switch and the filter options;
  - the derived difficulty, duration and category of a project;
  - the suggestion list.
  The class `ProjectSearchEngine` holds the fuzzy index, which is absent until it is
  built. `SearchProjects` runs the stages one after another. `GetSuggestions` fills an
  insertion-ordered set in nested loops.
- **`AppStore`** (lib/store.ts) models the store actions as functions from the old state
  to the new state:
  - the user, XP and level;
  - notifications and their unread counter;
  - achievements, completed projects and bookmarks;
  - study time and the persisted slice.
- **`LearningPaths`** (lib/learning-paths.ts) holds the table of six paths and the class
  `LearningPathManager`. Its field `stored` is the progress list kept in browser storage.
- **`Progress`** (lib/progress.ts) holds the class `ProgressTracker`, with its stored
  entries, and the integer part of the user statistics.
- **`Auth`** (lib/auth.ts) holds the class `AuthService` and the achievement table:
  - `currentUser` is the signed-in user;
  - `stored` is the copy kept in browser storage.
- **`CodeViewer`** (components/CodeViewer.tsx) models:
  - folder toggling;
  - the tree `organizeFiles` builds;
  - the full path `renderTree` gives a node;
  - the choice of the displayed file.

  The nested object tree is represented flat, as a map from the segments leading to a
  node to that node. A walk that reaches a file where a folder is expected is the
  source's `TypeError`. It is modelled as a `Failure`.

The shared modules are:

- `Wrappers` for `Option` and `Result`;
- `Levels` for the beginner, intermediate and advanced scale;
- `Seqs` for the array operations the source calls: `filter`, a stable `sort`,
  `reverse`, `slice`, and insertion into a `Set`;
- `Text` for `toLowerCase`, `includes`, `split`, `join` and the default string order of
  `sort`.

The fuzzy index, the clock, the browser test and storage are not computed by the model.
They are either parameters or fields:

- The index is a value of type `TextIndex` passed to `InitializeSearch`.
- Timestamps and `Date.now()` are integer parameters.
- `typeof window` is the parameter `inBrowser`.
- Storage is a field of the class that reads and writes it.

## Model

| member | source | states |
|---|---|---|
| Levels.LevelOrder | lib/search.ts:132-133 | the difficulty ordinal is 1 to 3: 1 exactly for beginner, 3 exactly for advanced |
| Levels.LevelNameInjective | lib/search.ts:132 | distinct levels have distinct names, so filtering by name is filtering by level |
| Text.Split | components/CodeViewer.tsx:55 | `split('/')` always yields at least one piece and no piece contains the separator |
| Text.JoinSplit | components/CodeViewer.tsx:55 | joining the pieces of a split with the same separator gives back the string |
| Text.SortedSet | lib/search.ts:163 | `Array.from(new Set(xs)).sort()` is strictly ascending and has exactly the elements of `xs` |
| Text.StrictlySortedUnique | lib/search.ts:163 | two strictly sorted lists with the same elements are equal, so the option lists are determined by their contents |
| Seqs.Filter | lib/search.ts:63-83 | `filter` keeps exactly the elements that satisfy the test, in order, as a subsequence |
| Seqs.SortBy | lib/search.ts:129-158 | `sort` by a numeric key returns a permutation whose keys do not decrease |
| Seqs.SortByStable | lib/search.ts:129-158 | the sort is stable: the elements with any one key keep their relative order |
| Seqs.Reverse | lib/search.ts:155 | `reverse` puts element `i` at position `n-1-i` |
| Seqs.Take | lib/search.ts:208 | `slice(0, n)` is the prefix of length `min(n, len)` |
| Seqs.AddAll | lib/search.ts:192-206 | adding to a `Set` in turn keeps it duplicate-free, with exactly the old and the added members |
| Seqs.Dedup | lib/search.ts:192-208 | the first occurrences of a list: no element twice, and exactly the list's elements |
| Seqs.DedupPrefix | lib/search.ts:192-208 | the de-duplicated prefix of a list is a prefix of its de-duplicated whole, so later elements never move ahead of earlier ones |
| Seqs.DedupPosition | lib/search.ts:192-208 | a first occurrence comes right after the distinct elements met before it |
| Seqs.DedupOrder | lib/search.ts:192-208 | of two first occurrences, the earlier one comes first, at the positions given by the distinct elements before each |
| Seqs.AddAllDedup | lib/search.ts:192-208 | a `Set` filled in turn from empty iterates in first-occurrence order: the list of its additions with repeats dropped |
| ProjectSearch.Weight | lib/search.ts:113-123 | a technology weighs 1 to 4, and a name missing from the table (by exact key) weighs 2 |
| ProjectSearch.StackComplexity | lib/search.ts:112-124 | the sum of weights lies between the stack's length and four times it |
| ProjectSearch.StackComplexityConcat | lib/search.ts:123 | the complexity of two stacks joined is the sum of their complexities |
| ProjectSearch.StackComplexityGrows | lib/search.ts:123 | appending a technology adds its weight and strictly increases the complexity |
| ProjectSearch.Difficulty | lib/search.ts:91-98 | eight or more technologies, or ten or more concepts, make a project advanced; at most one technology and under six concepts make it beginner |
| ProjectSearch.DifficultyThresholds | lib/search.ts:92-99 | both directions: advanced iff complexity ≥ 8 or concepts ≥ 10; intermediate iff not advanced and (complexity ≥ 5 or concepts ≥ 6); beginner otherwise |
| ProjectSearch.DifficultyMonotone | lib/search.ts:92-99 | adding technologies or concepts never lowers the difficulty |
| ProjectSearch.Duration | lib/search.ts:100-110 | with hours = 0.5·instructions + 0.3·concepts: long iff hours ≥ 20, medium iff 8 ≤ hours < 20, short iff hours < 8 |
| ProjectSearch.DurationThresholds | lib/search.ts:101-110 | both directions: long iff 5·instructions + 3·concepts ≥ 200; medium iff that value is between 80 and 200; short below 80 |
| ProjectSearch.DurationMonotone | lib/search.ts:101-110 | more instructions or concepts never give a shorter duration |
| ProjectSearch.SpanOrder | lib/search.ts:140-141 | the duration ordinal is 1 to 3 |
| ProjectSearch.Category | lib/search.ts:171-187 | the category is one of the five names, and "Vanilla Web" only for a stack mentioning both html and css |
| ProjectSearch.ReactNativeIsFrontend | lib/search.ts:171-187 | a stack containing "react native" is always "Frontend Framework", so "Mobile" is reached only through "mobile" |
| ProjectSearch.SpotifyCloneComplexity | lib/search.ts:112-124 | the Spotify Clone stack (content/projects.ts line 16) weighs 16 |
| ProjectSearch.SpotifyCloneAdvanced | lib/search.ts:92-99 | the Spotify Clone is advanced |
| ProjectSearch.SpotifyCloneShort | lib/search.ts:101-110 | with 7 instructions and 7 concepts the Spotify Clone is a short project |
| ProjectSearch.SpotifyClonePopular | lib/search.ts:147-149 | three of the Spotify Clone's technologies are popular |
| ProjectSearch.Seed | lib/search.ts:45-49 | one result per catalogue record, in order, with score 1 and no matched fields |
| ProjectSearch.FromHits | lib/search.ts:54-58 | one result per fuzzy hit, in hit order |
| ProjectSearch.Candidates | lib/search.ts:51-84 | a subsequence of the text-stage list whose members are exactly those passing every non-empty filter |
| ProjectSearch.PopularCount | lib/search.ts:147-149 | the popular count never exceeds the stack length |
| ProjectSearch.SortResults | lib/search.ts:126-160 | a permutation. Difficulty and duration ordinals do not decrease, popularity counts do not increase, "newest" is the exact reverse, and any other mode has non-increasing relevance |
| ProjectSearch.SortResultsKeepsTies | lib/search.ts:126-158 | every mode except "newest" keeps results with equal keys in their prior order |
| ProjectSearch.SearchOver | lib/search.ts:44-90 | the result is a permutation of the filtered list and holds exactly the text-stage results that pass the filters |
| ProjectSearch.DefaultSearchIsCatalog | lib/search.ts:45-49 | with no query, no filters and the default sort, the result is the catalogue in order, each record with score 1 and no matched fields |
| ProjectSearch.QueryIgnoredWithoutIndex | lib/search.ts:52 | before the index is built a query changes nothing: the text stage is the seed list |
| ProjectSearch.FiltersOnlyRemove | lib/search.ts:62-84 | before sorting, the filtered list is a subsequence of the text-stage list and no longer than it |
| ProjectSearch.PopularFirst | lib/search.ts:144-151 | after a popularity sort, a record with more popular technologies comes before one with fewer |
| ProjectSearch.AllStackEntries | lib/search.ts:163 | `flatMap` yields exactly the stack entries of the catalogue |
| ProjectSearch.AllCategories | lib/search.ts:166 | the mapped list holds exactly the categories of the catalogue's records |
| ProjectSearch.GetFilterOptions | lib/search.ts:162-169 | the stacks and categories are each strictly sorted and complete; the difficulty and duration names are the three fixed buckets in order |
| ProjectSearch.StackMatches | lib/search.ts:201-205 | exactly the stack entries whose lower-case form contains the query |
| ProjectSearch.AllMatchesSound | lib/search.ts:195-206 | everything visited contains the query and is the title or a stack entry of some record |
| ProjectSearch.RecordMatchesSound | lib/search.ts:196-204 | what one record contributes contains the query and is its title or one of its stack entries |
| ProjectSearch.AllMatchesComplete | lib/search.ts:195-206 | every matching title and stack entry of the catalogue is visited |
| ProjectSearch.AddStackMatches | lib/search.ts:201-205 | the inner loop adds the matching stack entries to the set, in order |
| ProjectSearch.AddProjectMatches | lib/search.ts:195-206 | one callback adds the matching title, then the matching stack entries |
| ProjectSearch.Suggestions | lib/search.ts:189-209 | nothing for a query shorter than 2; otherwise at most 8 suggestions, none repeated |
| ProjectSearch.SuggestionsSound | lib/search.ts:189-209 | every suggestion contains the query, ignoring case, and is a title or stack entry of the catalogue |
| ProjectSearch.SuggestionsComplete | lib/search.ts:189-209 | when there are fewer than 8 suggestions, every matching title and stack entry is among them |
| ProjectSearch.SuggestionsFirstEight | lib/search.ts:189-209 | for a query of two or more characters, the suggestions are the first eight of the de-duplicated match list, each where it is first met (records in order, each title before its stack) |
| ProjectSearch.ProjectSearchEngine.constructor | lib/search.ts:21 | the engine starts without an index |
| ProjectSearch.ProjectSearchEngine.InitializeSearch | lib/search.ts:23-42 | outside a browser nothing changes; otherwise the index is set, so calling again has the same effect |
| ProjectSearch.ProjectSearchEngine.SearchProjects | lib/search.ts:44-90 | the stage-by-stage reassignment computes `SearchOver` on the current index |
| ProjectSearch.ProjectSearchEngine.GetSuggestions | lib/search.ts:189-209 | the nested loops filling the set compute `Suggestions` |
| AppStore.SetUser | lib/store.ts:196 | the user is set and `isAuthenticated` holds exactly when a user is present; nothing else changes |
| AppStore.LevelBand | lib/store.ts:205 | the level computed from XP covers exactly that XP's band of 1000 and is at least 1 for non-negative XP |
| AppStore.AddXP | lib/store.ts:202-209 | no user: unchanged. Otherwise XP grows by the amount and the level matches the new XP's band; nothing else changes |
| AppStore.AddXPAdditive | lib/store.ts:202-209 | two awards equal one award of their sum |
| AppStore.IncrementStreak | lib/store.ts:211-216 | no user: unchanged; otherwise the streak goes up by one and nothing else changes |
| AppStore.CountUnreadWith | lib/store.ts:235-240 | the unread notifications with one id are at most all unread ones |
| AppStore.AddNotification | lib/store.ts:222-233 | one unread notification is put first, the counter goes up by one, and a counter that matched the list still does |
| AppStore.MarkRead | lib/store.ts:236-238 | exactly the notifications with that id become read, in place |
| AppStore.MarkReadCount | lib/store.ts:236-238 | marking lowers the number of unread notifications by the unread ones with that id |
| AppStore.MarkNotificationReadAsWritten | lib/store.ts:235-240 | the counter drops by one whatever the id names, and is 0 when it was not positive; only the matching notifications are marked |
| AppStore.UnknownIdBreaksCounter | lib/store.ts:239 | one unread notification, then marking an unknown id: the counter says 0 while one notification is unread |
| AppStore.MarkNotificationRead | lib/store.ts:235-240 | corrected: the counter always equals the number of unread notifications after marking |
| AppStore.MarkNotificationReadAgrees | lib/store.ts:235-240 | on a consistent state the corrected action equals the source when exactly one unread notification has the id, and changes nothing when none has |
| AppStore.ClearNotifications | lib/store.ts:242 | no notifications and a zero counter; nothing else changes |
| AppStore.CounterStaysConsistent | lib/store.ts:222-242 | any run of adds, marks and clears keeps the counter equal to the unread count, and never negative |
| AppStore.UpdateAchievement | lib/store.ts:244-248 | achievements with that id get the smaller of the new progress and the maximum; the others are unchanged |
| AppStore.FindAchievement | lib/store.ts:251 | `find` returns the first achievement with that id, and nothing only when none has it |
| AppStore.MarkCompleted | lib/store.ts:265-267 | exactly the achievements with that id become completed at the given time |
| AppStore.CompleteAchievement | lib/store.ts:250-269 | an unknown or completed id changes nothing. Otherwise every achievement with that id is marked completed at `now`, and the user gains exactly the reward XP and badge, every other user field (the level included) unchanged |
| AppStore.CompleteAchievementOnce | lib/store.ts:250-269 | completing the same achievement again changes nothing: the reward is paid once |
| AppStore.ProjectAchievements | lib/store.ts:289-298 | "first-project" becomes 1 once a project is completed; "ten-projects" follows the count while it is at most 10 |
| AppStore.MarkProjectCompleted | lib/store.ts:280-301 | an already completed project changes nothing. Otherwise it is appended, its progress set to 100 and the achievements updated; the list stays duplicate-free |
| AppStore.MarkProjectCompletedIdempotent | lib/store.ts:280-301 | completing the same project twice is the same as completing it once |
| AppStore.ProjectAchievementProgress | lib/store.ts:289-298 | after a new completion, "first-project" is 1; "ten-projects" is the new count below 10 and unchanged from 10 on |
| AppStore.ToggleBookmark | lib/store.ts:303-307 | the project's membership flips and every other project's stays; nothing else changes |
| AppStore.ToggleBookmarkTwice | lib/store.ts:303-307 | toggling twice restores every membership, and the very list when the project was not bookmarked |
| AppStore.UpdateProjectProgress | lib/store.ts:309-311 | one entry is overwritten; every other entry is unchanged |
| AppStore.AddStudyTime | lib/store.ts:313-318 | the project's time grows by the minutes, starting from 0; the others are unchanged |
| AppStore.AddStudyTimeAdditive | lib/store.ts:313-318 | two sessions equal one session of their combined length |
| AppStore.Partialize | lib/store.ts:322-331 | the durable fields are kept as they are, with only the 50 newest notifications |
| AppStore.NewestNotificationPersisted | lib/store.ts:322-331 | a notification just added is always in the persisted slice, first |
| LearningPaths.FindPathIn | lib/learning-paths.ts:169 | `find` returns a path of the table with that id, and nothing only when no path has it |
| LearningPaths.FindPathSpec | lib/learning-paths.ts:169 | the same for the path table |
| LearningPaths.PathTableShape | lib/learning-paths.ts:19-145 | every path of the table has three projects, and the ids are distinct |
| LearningPaths.PathLengthSpec | lib/learning-paths.ts:209 | `projects.length \|\| 0` is 0 for an unknown path and 3 for a known one |
| LearningPaths.FindByPathAppend | lib/learning-paths.ts:202 | searching a concatenation finds the first list's match if it has one |
| LearningPaths.FirstMatch | lib/learning-paths.ts:191-193 | `findIndex` gives the first entry for the user and path, and nothing only when there is none |
| LearningPaths.FirstMatchSnoc | lib/learning-paths.ts:191-193 | an appended entry is found only when no earlier entry matches |
| LearningPaths.FindAmongUserEntries | lib/learning-paths.ts:189-202 | looking among the user's entries finds the very entry `findIndex` finds among all entries |
| LearningPaths.StartedIds | lib/learning-paths.ts:221 | exactly the path ids of the entries |
| LearningPaths.Eligible | lib/learning-paths.ts:227-237 | a path is eligible iff it has no prerequisite list or every prerequisite is met by some completed project, as `every` and `some` compute it |
| LearningPaths.Recommendations | lib/learning-paths.ts:219-246 | exactly the eligible paths the user has not started, in non-decreasing difficulty |
| LearningPaths.RecommendationsStable | lib/learning-paths.ts:242-245 | paths of one difficulty keep their table order |
| LearningPaths.OnlyFirstOpen | lib/learning-paths.ts:224-239 | if only a table's first path is eligible without completed projects, a newcomer is recommended just that path |
| LearningPaths.OnlyBeginnerPathOpen | lib/learning-paths.ts:19-145 | in the table only the first path has no prerequisites |
| LearningPaths.NewcomerRecommendation | lib/learning-paths.ts:219-246 | a user with no progress and no completed project is recommended "Frontend Fundamentals" alone |
| LearningPaths.Percent | lib/learning-paths.ts:254 | the percentage is non-negative; it is 100 when as many projects are done as the path has, below 100 when fewer, and above 100 when more (completeProject does not check that a slug belongs to the path) |
| LearningPaths.Completion | lib/learning-paths.ts:248-255 | 0 when the user has no entry for the path or the path is unknown; never negative |
| LearningPaths.LearningPathManager.constructor | lib/learning-paths.ts:257-261 | storage starts empty |
| LearningPaths.LearningPathManager.GetPathProgress | lib/learning-paths.ts:161-166 | exactly the stored entries of the user, in stored order |
| LearningPaths.LearningPathManager.StartLearningPath | lib/learning-paths.ts:168-187 | an unknown path is an error and stores nothing; otherwise a fresh entry (index 0, nothing completed, no time) is appended, with no duplicate check |
| LearningPaths.LearningPathManager.UpdateProgress | lib/learning-paths.ts:189-199 | only the first entry for the user and path is merged with the patch; without one, storage is unchanged |
| LearningPaths.LearningPathManager.CompleteProject | lib/learning-paths.ts:201-217 | no entry or a slug already done: unchanged. Otherwise the slug is appended and the index advances, capped at the path length; all other entries are unchanged |
| LearningPaths.LearningPathManager.GetPathRecommendations | lib/learning-paths.ts:219-246 | never a started path; a path with prerequisites only once a project is completed; every eligible unstarted path; ordered beginner first |
| LearningPaths.LearningPathManager.CalculatePathCompletion | lib/learning-paths.ts:248-255 | 0 when the user has no entry for the path or the path is unknown |
| Progress.NatToString | lib/progress.ts:52 | the decimal form of the timestamp is non-empty and made of digits |
| Progress.FirstWithId | lib/progress.ts:73 | `findIndex` gives the first entry with that id, and nothing only when there is none |
| Progress.ProjectDifficulty | lib/progress.ts:159-170 | only "portfolio-site" is beginner, only "ecommerce-app" and "dashboard-analytics" are advanced, and every other slug is intermediate |
| Progress.CompletedPartition | lib/progress.ts:101-104 | completed and in-progress entries split the entries and their time without loss |
| Progress.LevelPartition | lib/progress.ts:121-123 | the three level counts add up to the number of entries counted |
| Progress.UserStats | lib/progress.ts:99-126 | the counts and the time are those of the user's entries, their completed and open ones, and the completed ones per level; total = completed + in progress; the level counts add up to the completed count |
| Progress.UserStatsTime | lib/progress.ts:104 | the total time is the completed time plus the open time |
| Progress.CompletingMovesCount | lib/progress.ts:81-87 | completing an open entry moves one entry from the in-progress list to the completed list |
| Progress.MineUpdate | lib/progress.ts:100 | replacing one of the user's entries by another of theirs replaces it in the user's list, at its position there |
| Progress.CompletingMovesStats | lib/progress.ts:81-104 | completing one of the user's open projects raises the completed count of `getUserStats` by one and lowers the in-progress count by one, the total unchanged |
| Progress.ProgressTracker.constructor | lib/progress.ts:39-43 | storage starts empty |
| Progress.ProgressTracker.StartProject | lib/progress.ts:49-66 | exactly one fresh entry (step 0, no time, no notes or challenges) is appended and returned; earlier entries are unchanged |
| Progress.ProgressTracker.UpdateProgress | lib/progress.ts:68-79 | only the first entry with that id is merged with the patch; an unknown id changes nothing |
| Progress.ProgressTracker.CompleteProject | lib/progress.ts:81-87 | that entry gets the completion time, step -1 and the rating, and every other entry is unchanged |
| Progress.ProgressTracker.AddNote | lib/progress.ts:89-97 | the note is appended to the first matching entry's notes only; an unknown id changes nothing |
| Progress.ProgressTracker.GetUserStats | lib/progress.ts:99-126 | the statistics of the stored entries, as `UserStats` states them; total = completed + in progress; the level counts add up to the completed count |
| Auth.RecordCompletion | lib/auth.ts:88-90 | the slug is appended and `projectsCompleted` goes up by exactly one; nothing else changes and the list stays duplicate-free |
| Auth.ToggledBookmark | lib/auth.ts:98-103 | the slug's membership flips and every other slug's stays; nothing else changes |
| Auth.ToggleTwice | lib/auth.ts:95-105 | toggling twice restores every membership, and the very list when the slug was not bookmarked |
| Auth.GetUnlockedAchievements | lib/auth.ts:109-142 | exactly the achievements whose threshold holds (≥1 project, ≥7 streak days, ≥5 listed projects, ≥6000 minutes), in table order |
| Auth.CompletionKeepsAchievements | lib/auth.ts:140-142 | completing a project never takes an achievement away |
| Auth.MockUserAchievements | lib/auth.ts:45-66 | the account `login` creates unlocks exactly the first two achievements |
| Auth.AuthService.constructor | lib/auth.ts:27 | no user is signed in |
| Auth.AuthService.GetCurrentUser | lib/auth.ts:29-39 | outside a browser: no user, no change. Otherwise the cached user, loaded and cached from storage when none is cached; storage is unchanged |
| Auth.AuthService.Logout | lib/auth.ts:75-78 | no current user and no stored copy |
| Auth.AuthService.UpdateUser | lib/auth.ts:80-85 | signed out: nothing changes; otherwise the patch is merged and the result stored |
| Auth.AuthService.CompleteProject | lib/auth.ts:87-93 | signed out or already completed: nothing changes; otherwise the completion is recorded and stored |
| Auth.AuthService.ToggleBookmark | lib/auth.ts:95-105 | signed out: nothing changes; otherwise the bookmark flips and the user is stored |
| CodeViewer.ToggleFolder | components/CodeViewer.tsx:39-49 | the folder's membership flips and every other folder's stays |
| CodeViewer.ToggleFolderTwice | components/CodeViewer.tsx:39-49 | toggling the same folder twice restores the set |
| CodeViewer.InitialToggle | components/CodeViewer.tsx:37-49 | only "root" starts expanded: toggling it leaves nothing expanded, toggling another folder leaves exactly it and "root" |
| CodeViewer.Parts | components/CodeViewer.tsx:55 | a file's path always splits into at least one segment |
| CodeViewer.BlockedGrows | components/CodeViewer.tsx:58-64 | a file in the way of the first folders stays in the way of more folders |
| CodeViewer.WithFoldersShape | components/CodeViewer.tsx:58-64 | the walk adds exactly the missing folders on the way, as folders, and changes no existing node |
| CodeViewer.PlaceShape | components/CodeViewer.tsx:66-67 | the leaf is assigned; the node it replaces disappears with everything below it, and every other node stays |
| CodeViewer.Insert | components/CodeViewer.tsx:54-68 | a successful insertion has the file at its location |
| CodeViewer.InsertPlacesFile | components/CodeViewer.tsx:54-68 | after an insertion the file is at its location and every location above it is a folder |
| CodeViewer.InsertKeepsOthers | components/CodeViewer.tsx:59-63 | folders are reused: every node not at or below the new file's location is kept |
| CodeViewer.WithFoldersPresent | components/CodeViewer.tsx:60-62 | when every folder on the way exists, the walk changes nothing |
| CodeViewer.InsertSamePathOverrides | components/CodeViewer.tsx:66-67 | a later file at the same location replaces the earlier leaf: the result is as if only the later one was inserted |
| CodeViewer.InsertKeys | components/CodeViewer.tsx:54-68 | after an insertion every location is old, a folder on the way, or the file's own |
| CodeViewer.InsertKeepsTree | components/CodeViewer.tsx:54-68 | an insertion keeps the tree shape: every location above a node is a folder |
| CodeViewer.Organize | components/CodeViewer.tsx:51-71 | a successful build has the last file at its location; the only failure is the TypeError |
| CodeViewer.OrganizeIsTree | components/CodeViewer.tsx:51-71 | the tree `organizeFiles` builds has the tree shape |
| CodeViewer.OrganizeKeepsFile | components/CodeViewer.tsx:51-71 | every file is in the tree unless a later file sits at the same location or above it |
| CodeViewer.OrganizeFailureSticks | components/CodeViewer.tsx:54-68 | once a file cannot be inserted, `organizeFiles` fails |
| CodeViewer.InsertLeaves | components/CodeViewer.tsx:55-67 | after one insertion every file leaf is the inserted file or a leaf that was already there |
| CodeViewer.OrganizeLeaves | components/CodeViewer.tsx:51-71 | every file leaf of the built tree holds one of the files, at that file's own location |
| CodeViewer.OrganizeSucceeds | components/CodeViewer.tsx:51-71 | `organizeFiles` does not throw when no file's location lies strictly above a later file's location |
| CodeViewer.OrganizeFailsBelowPrevious | components/CodeViewer.tsx:58-67 | a file whose location lies strictly below the previous file's location makes `organizeFiles` throw a TypeError |
| CodeViewer.InsertFile | components/CodeViewer.tsx:55-67 | the loop with a moving `current` cursor computes `Insert`, including the TypeError |
| CodeViewer.OrganizeFiles | components/CodeViewer.tsx:51-71 | the `forEach` over the files computes `Organize` |
| CodeViewer.LeadingSlashCollides | components/CodeViewer.tsx:75 | the folders reached by "/src" and by "src" get the same full path, which is not their joined path |
| CodeViewer.FullPathAsWritten | components/CodeViewer.tsx:75 | as written: the full path ends with the node's own name |
| CodeViewer.FullPath | components/CodeViewer.tsx:75 | corrected: the full path is the node's segments joined with "/" |
| CodeViewer.JoinSnoc | components/CodeViewer.tsx:75 | appending a segment appends "/" and the segment to the full path |
| CodeViewer.FullPathAsWrittenAgrees | components/CodeViewer.tsx:75 | the source's full path is the corrected one whenever the first segment is not empty |
| CodeViewer.FullPathRoundTrip | components/CodeViewer.tsx:55-75 | the full path of a file's location is its path (or its name) again |
| CodeViewer.SplitJoin | components/CodeViewer.tsx:75 | splitting a full path gives back its segments |
| CodeViewer.FullPathInjective | components/CodeViewer.tsx:75 | distinct locations have distinct full paths, so each folder has its own expanded state |
| CodeViewer.KeysAreSegments | components/CodeViewer.tsx:55-67 | every location in the tree is made of separator-free segments |
| CodeViewer.InitialCurrentFile | components/CodeViewer.tsx:139 | a non-empty default file, else the first file's name, else "" |
| CodeViewer.FindByName | components/CodeViewer.tsx:145 | `find` returns the first file with that name, and nothing only when there is none |
| CodeViewer.DisplayedFile | components/CodeViewer.tsx:145 | the first file named as the current file if there is one, else the first file; nothing only without files |
| CodeViewer.InitialDisplay | components/CodeViewer.tsx:139-145 | on first render the named default file is shown when it exists, otherwise the first file |

## Left out

- The fuzzy index (Fuse.js in lib/search.ts:23-42). Its scoring and its dynamic import are not modelled. It is any function from a query to hits. Scores are exact reals, not floating point.
- `relevanceScore` arithmetic is exact, so `1 - score` has no rounding.
- JavaScript `number` counters are unbounded integers here: XP and reward XP (lib/store.ts:204-205, 257), achievement progress (lib/store.ts:244-248), project progress and study minutes (lib/store.ts:309-318), and `timeSpent`, `currentStep` and `rating` (lib/progress.ts:9-14, lib/learning-paths.ts:155). Fractional values and the loss of precision above 2^53 are not captured.
- `ProjectSearch.Filters`: `categories`, `onlyCompleted` and `onlyBookmarked` are accepted and ignored, as in the source. An absent field is an empty string or list.
- `ProjectSearch.ProjectSearchEngine.SearchProjects`: `Array.sort` works in place. Here it is a stable insertion sort on a sequence, since the source has no loop of its own there. `Array.reverse` is a function.
- `ProjectSearch.AddStackMatches`, `ProjectSearch.AddProjectMatches` and `CodeViewer.InsertFile` are the `forEach` callbacks, written as separate methods.
- `Text.Lower`: only the ASCII letters are lowered, not the full Unicode case mapping of `toLowerCase`.
- String lengths and the default string order count characters, not UTF-16 code units.
- `AppStore.CompleteAchievement`: the source mutates the user object in place, so the previous state's user is altered too. The model returns a new user and leaves the old state as it was.
- `Auth.AuthService.CompleteProject` and `Auth.AuthService.ToggleBookmark` push onto, increment and reassign fields of the very user object that `getCurrentUser` handed out (lib/auth.ts:89-90, 99-102). A caller still holding that object sees the change. The model keeps the user as a value in the field `currentUser`, so that aliasing is not captured.
- The store's UI and search setters are not modelled: `setSidebarOpen`, `setTheme`, `setLoading`, the five search setters, `setCurrentProject` and `updateUserPreferences`. They only assign one field. Preferences, avatars and join dates are not modelled.
- Zustand's `create` and `persist` mechanics are not modelled; `AppStore.Partialize` is the persisted slice.
- Ids and timestamps are parameters: `Date.now()` and `new Date()` in lib/store.ts, lib/progress.ts and lib/learning-paths.ts.
- `login` (lib/auth.ts:41-73) waits on a timer. Only the account it creates is modelled, as `Auth.MockUser`.
- `Auth.AuthService.GetCurrentUser`: the JSON round trip through storage is the identity.
- The `typeof window` guards are the parameter `inBrowser` in `Auth.AuthService.GetCurrentUser` and `ProjectSearch.ProjectSearchEngine.InitializeSearch`.
- The managers' storage starts empty; outside a browser it reads as empty.
- `LearningPaths.Percent` requires a positive total: the source divides by the path length, which is 3 for every path of the table (`LearningPaths.PathLengthSpec`). The percentage is an exact real, not a float.
- `getUserStats` is only partly modelled in lib/progress.ts. `averageTimePerProject` (a float division), `generateWeeklyProgress` (calendar arithmetic), `getFavoriteStack` (a constant list) and `useTimeTracker` (a clock) are left out.
- `CodeViewer.Insert`: a file in the way of a folder is a `Failure("TypeError")`. The source throws a TypeError from the render, and the message is not modelled.
- `CodeViewer.Organize`: the tree is a map, so the order in which `Object.entries` lists children is not modelled. That order puts integer-like names first.
- Segment names that are properties of every object (such as "constructor") are truthy in the source's `!current[part]` test. The model treats them like any other name.
- `ProjectSearch.Weight`: a technology named like an inherited object property ("constructor", "toString") finds a function in `complexityMap` (lib/search.ts:123), and the sum becomes a string. The model weighs such a name 2, like any other name missing from the table.
- `Progress.ProjectDifficulty`: a slug named like an inherited object property finds a function in `difficultyMap` (lib/progress.ts:169), so it lands in no level and the three level counts no longer add up to the completed count. The model makes such a slug intermediate.
- `AppStore.AddStudyTime`: a project id named like an inherited object property starts from a function in `studyTime` (lib/store.ts:316), and the time becomes a string. The model starts it from 0.
- `renderTree`'s markup, indentation and animation are not modelled. The clipboard, the theme and the toast are not modelled either.
- The catalogue of content/projects.ts is a parameter. Only the Spotify Clone record is transcribed, as `ProjectSearch.SpotifyClone`.

## Findings

| source | as written | input that shows it | evidently intended | confidence | as-written member | corrected member |
|---|---|---|---|---|---|---|
| lib/store.ts:235-240 | `markNotificationRead` lowers `unreadCount` by one (never below 0) whatever the id names, even an unknown or already-read notification | one unread notification "a" with counter 1, then marking "b": the counter is 0 while "a" is still unread | lower the counter by the number of unread notifications actually marked, so it always equals the number of unread notifications | not executed | AppStore.MarkNotificationReadAsWritten, AppStore.UnknownIdBreaksCounter | AppStore.MarkNotificationRead, AppStore.CounterStaysConsistent |
| components/CodeViewer.tsx:75 | `path ? path + "/" + name : name` treats an empty parent path as no parent, so a leading "/" is lost | files at "/src/a.ts" and "src/b.ts": both folders named "src" get the full path "src" and open and close together | join the segments with "/" at every depth, so distinct folders have distinct full paths | not executed | CodeViewer.FullPathAsWritten, CodeViewer.LeadingSlashCollides | CodeViewer.FullPath, CodeViewer.FullPathInjective |
