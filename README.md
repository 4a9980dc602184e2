# BecVisionTracker core in Dafny

This project models the core of BecVisionTracker, a career-development tracker. The core has three parts:

- **The server's in-memory store.** `MemStorage` holds eight tables: users, projects, project stages, skills, achievements, user-achievements, learning paths and activities. Each table has its own auto-increment id counter.
- **The REST handlers.** These answer with a status code and a body. The dashboard aggregate and the achievements join are part of this layer.
- **The pure helpers the client pages use.** They count tasks in the project tree, toggle expanded nodes, bucket elapsed time, map categories and icons, work out a stage's state, band skill colours, compute the level window, and build initials.

Module layout:

| file | module | what it holds |
|---|---|---|
| `wrappers.dfy` | `Wrappers` | `Option` |
| `seqs.dfy` | `Seqs` | `filter`, `find` and the stable `sort` with a numeric key, with their lemmas |
| `tables.dfy` | `Tables` | a JavaScript `Map` with integer keys, as a sequence of entries in insertion order, with `get`, `set` and the update used by `update*` |
| `schema.dfy` | `Schema` | the records, the creation inputs, the partial updates, the builders `create*` uses and the shallow merges |
| `storage.dfy` | `Storage` | `class MemStorage` (tables and counters as fields, creates and updates as methods, queries as functions) |
| `routes.dfy` | `Routes` | `Response`, the GET/PUT/POST handlers, the achievements join, the dashboard |
| `text.dfy` | `Text` | `split(' ')`, `join(' ')`, word initials, ASCII upper-casing, decimal rendering |
| `time_ago.dfy` | `TimeAgo` | `formatTimeAgo` |
| `icons.dfy` | `Icons` | `getIcon` |
| `achievements_page.dfy` | `AchievementsPage` | category icon and colour, XP sum, per-category count, initials |
| `achievements_panel.dfy` | `AchievementsPanel` | the panel's colour map and its rows |
| `current_project_card.dfy` | `CurrentProjectCard` | stage state and its four renderings, progress ratio |
| `skill_card.dfy` | `SkillCard` | colour bands and `formatLevel` |
| `welcome.dfy` | `Welcome` | first name, next level, level window, bar width |
| `projects.dfy` | `Projects` | the project tree, `countTasks`, the expanded/selected state as `class ProjectsView` |

Modelling choices:

- **Store contents.** A `Map` becomes a `seq<Entry<V>>` in insertion order:
  - `set` on a present key replaces that entry in place;
  - `set` on a fresh key appends;
  - `get` answers the first entry with the key.

  `MemStorage.Valid()` says that every table's keys are distinct and lie in `1 ..` its counter `- 1`. The constructor establishes it, and every create and update keeps it.
- **Clock.** The clock is a parameter `now` (milliseconds). A `Date` is its millisecond count.
- **Path ids.** A path id is `Option<int>`. `None` stands for the `NaN` that `parseInt` yields on a malformed segment; it matches no key and no owner.
- **Request validation.** What `schema.parse(req.body)` does is an input `Parse<T>`: it returns `Accepted(data)`, throws a ZodError (`Rejected(errors)`), or throws anything else (`Threw`). The handlers' `catch` turns the second into 400 and the third into 500. `ParseWith(Unbound, …)` is the evaluation of a schema name that is not in scope: it throws before the body is read.
- **Partial updates.** A partial update has one `Option` field per record field, so an absent key is `None`. For a nullable field the type is `Option<Option<…>>`, and `Some(None)` sets the field to null. An `id` inside the update is merged like any other field.

## Model

| member | source | states |
|---|---|---|
| Storage.MemStorage.constructor | BecVisionTracker/server/storage.ts:68-158 | The seed is loaded, the counters are 2, 2, 6, 5, 4, 4, 1 and 1, and every table's keys lie strictly below its counter. |
| Storage.MemStorage.GetUser | BecVisionTracker/server/storage.ts:161-163 | Answers `None` exactly when no entry has the id; otherwise it answers the value stored under that id. |
| Storage.MemStorage.GetUserByUsername | BecVisionTracker/server/storage.ts:165-167 | Answers the first user in creation order with the username, and `None` exactly when no user has it. |
| Storage.MemStorage.CreateUser | BecVisionTracker/server/storage.ts:169-179 | The new user's id is the counter before the call, and the counter advances by one. `createdAt` and `lastActive` are stamped. The entry is appended, so no existing record changes and no uniqueness is checked. The key invariant is kept. |
| Storage.MemStorage.UpdateUser | BecVisionTracker/server/storage.ts:181-188 | For an absent id: `None`, and the table is unchanged. Otherwise the shallow merge is stored in place, returned, and answered by `get`. |
| Storage.MemStorage.GetProject | BecVisionTracker/server/storage.ts:191-193 | Answers `None` exactly when no entry has the id; otherwise it answers the stored value. |
| Storage.MemStorage.GetUserProjects | BecVisionTracker/server/storage.ts:195-197 | Answers exactly the user's projects: every result has the `userId`, and every stored project with it is in the result. |
| Storage.MemStorage.CreateProject | BecVisionTracker/server/storage.ts:199-209 | Fresh id from the counter, counter + 1. `startDate` is now and `completedAt` is null. Appended; the key invariant is kept. |
| Storage.MemStorage.UpdateProject | BecVisionTracker/server/storage.ts:211-218 | For an absent id: `None`, table unchanged. Otherwise the merge is stored in place, returned, and answered by `get`. |
| Storage.MemStorage.GetProjectStages | BecVisionTracker/server/storage.ts:221-225 | A stable sort of the project's stages by ascending `stageNumber`: a permutation of the filtered stages, in ascending order, with stages of equal number in creation order. |
| Storage.MemStorage.CreateProjectStage | BecVisionTracker/server/storage.ts:227-236 | Fresh id, counter + 1. `completedAt` is null even when `isCompleted` is true. Appended. |
| Storage.MemStorage.UpdateProjectStage | BecVisionTracker/server/storage.ts:238-245 | For an absent id: `None`, table unchanged. Otherwise the merge is stored in place and returned. |
| Storage.MemStorage.GetUserSkills | BecVisionTracker/server/storage.ts:248-250 | Answers exactly the user's skills. |
| Storage.MemStorage.CreateSkill | BecVisionTracker/server/storage.ts:252-257 | Fresh id from the counter, counter + 1, appended. The stored skill is the input as given, so a defaulted column the body left out (`proficiency`, `level`, `xpEarned`) stays absent. |
| Storage.MemStorage.UpdateSkill | BecVisionTracker/server/storage.ts:259-266 | For an absent id: `None`, table unchanged. Otherwise the merge is stored in place and returned. |
| Storage.MemStorage.GetAllAchievements | BecVisionTracker/server/storage.ts:269-271 | The catalog's values, in creation order. |
| Storage.MemStorage.GetUserAchievements | BecVisionTracker/server/storage.ts:273-277 | A stable sort of the user's unlocks, newest `unlockedAt` first. |
| Storage.MemStorage.CreateUserAchievement | BecVisionTracker/server/storage.ts:279-289 | Fresh id, counter + 1, `unlockedAt` is now, appended. |
| Storage.MemStorage.GetUserLearningPaths | BecVisionTracker/server/storage.ts:291-294 | Answers exactly the user's learning paths. |
| Storage.MemStorage.CreateLearningPath | BecVisionTracker/server/storage.ts:296-305 | Fresh id, counter + 1, `createdAt` is now, appended. |
| Storage.MemStorage.UpdateLearningPath | BecVisionTracker/server/storage.ts:307-314 | For an absent id: `None`, table unchanged. Otherwise the merge is stored in place and returned. |
| Storage.MemStorage.GetUserActivities | BecVisionTracker/server/storage.ts:317-321 | A stable sort of the user's activities, newest `createdAt` first. |
| Storage.MemStorage.CreateActivity | BecVisionTracker/server/storage.ts:323-332 | Fresh id, counter + 1, `createdAt` is now, appended. An `xpGained` the body left out stays absent. |
| Storage.UpdateUserIdempotent | BecVisionTracker/server/storage.ts:181-188 | Applying the same user update twice stores and returns what one application does. |
| Storage.UpdateProjectIdempotent | BecVisionTracker/server/storage.ts:211-218 | The same, for projects. |
| Storage.UpdateProjectStageIdempotent | BecVisionTracker/server/storage.ts:238-245 | The same, for project stages. |
| Storage.UpdateSkillIdempotent | BecVisionTracker/server/storage.ts:259-266 | The same, for skills. |
| Storage.UpdateLearningPathIdempotent | BecVisionTracker/server/storage.ts:307-314 | The same, for learning paths. |
| Storage.UpdateProjectKeepsUserProjects | BecVisionTracker/server/storage.ts:211-218 | An update without `userId` leaves the owner's project list the same length and in the same order: each position keeps its project or holds that project merged. |
| Storage.UpdateSkillKeepsUserSkills | BecVisionTracker/server/storage.ts:259-266 | The same, for the owner's skills. |
| Storage.UpdateLearningPathKeepsUserPaths | BecVisionTracker/server/storage.ts:307-314 | The same, for the owner's learning paths. |
| Tables.Get | BecVisionTracker/server/storage.ts:161-163 | `Map.get`: `None` exactly when the key is absent; otherwise the value of the first entry with the key. |
| Tables.Set | BecVisionTracker/server/storage.ts:186 | `Map.set`: a present key's entry is replaced at its position; a fresh key is appended at the end. |
| Tables.GetAfterSet | BecVisionTracker/server/storage.ts:185-187 | After `set(k, v)`, `get(k)` answers `v` and every other key answers as before. |
| Tables.SetFresh | BecVisionTracker/server/storage.ts:199-208 | Setting the counter's key in a table keyed below the counter appends, and leaves the table keyed below counter + 1. |
| Tables.GetFresh | BecVisionTracker/server/storage.ts:169-178 | After a create appends under the counter, `get` by the new id answers exactly the created record, and every other id answers as before. |
| Tables.SetPresent | BecVisionTracker/server/storage.ts:185-187 | Setting a present key keeps the table's keys, their order and the key invariant. |
| Tables.SetIdempotent | BecVisionTracker/server/storage.ts:186 | Setting the same key to the same value twice is setting it once. |
| Tables.UpdateIdempotent | BecVisionTracker/server/storage.ts:211-218 | An update whose merge is idempotent gives the same answer and table when applied twice. |
| Tables.FilterValuesAfterAppend | BecVisionTracker/server/storage.ts:195-197 | After a create, a filtered listing gains the new record at its end when it qualifies, and is unchanged otherwise. |
| Tables.FilterValuesAfterSet | BecVisionTracker/server/storage.ts:211-218 | Rewriting a present key with a record that qualifies alike rewrites the filtered listing in place. |
| Tables.UpdateKeepsListing | BecVisionTracker/server/storage.ts:195-197 | An update that keeps qualification keeps the listing's length and order. |
| Tables.Update | BecVisionTracker/server/storage.ts:181-188 | An absent key answers `None` and leaves the table as it was. A present key answers the merge of its record, which `get` now answers, and every other key answers as before. |
| Tables.Values | BecVisionTracker/server/storage.ts:196 | `Array.from(map.values())`: one value per entry, in insertion order. |
| Schema.NewUser | BecVisionTracker/server/storage.ts:169-178 | The new user has the given id and both stamps set to now. Read back as an input, it is the input with `lastActive` overwritten by now. |
| Schema.NewProject | BecVisionTracker/server/storage.ts:199-208 | The new project has the given id, `startDate` now and `completedAt` null. Read back as an input, it is the input unchanged. |
| Schema.NewProjectStage | BecVisionTracker/server/storage.ts:227-235 | The new stage has the given id and `completedAt` null, whatever `isCompleted` says. Read back as an input, it is the input unchanged. |
| Schema.NewSkill | BecVisionTracker/server/storage.ts:252-256 | The new skill has the given id, and read back as an input it is the input unchanged, so each defaulted column the input omits is absent from the record (no default is filled in). |
| Schema.NewUserAchievement | BecVisionTracker/server/storage.ts:278-287 | The new unlock has the given id and `unlockedAt` now, and read back as an input it is the input unchanged. |
| Schema.NewLearningPath | BecVisionTracker/server/storage.ts:296-305 | The new path has the given id and `createdAt` now, and read back as an input it is the input unchanged. |
| Schema.NewActivity | BecVisionTracker/server/storage.ts:323-332 | The new activity has the given id and `createdAt` now, and read back as an input it is the input unchanged, so an omitted `xpGained` stays absent. |
| Schema.MergeUser | BecVisionTracker/server/storage.ts:185 | An empty update copies the user. An `id` key in the update replaces the user's id, so the record can disagree with the key it is stored under. |
| Schema.MergeProject | BecVisionTracker/server/storage.ts:215 | An empty update copies the project. An `id` or `userId` key in the update replaces that field; otherwise the field is kept. |
| Schema.MergeProjectStage | BecVisionTracker/server/storage.ts:242 | An empty update copies the stage. An `id` or `projectId` key replaces that field; otherwise the field is kept. |
| Schema.MergeSkill | BecVisionTracker/server/storage.ts:263 | An empty update copies the skill. An `id` or `userId` key replaces that field; otherwise the field is kept. |
| Schema.MergeLearningPath | BecVisionTracker/server/storage.ts:311 | An empty update copies the path. An `id` or `userId` key replaces that field; otherwise the field is kept. |
| Schema.MergesAreIdempotent | BecVisionTracker/server/storage.ts:185 | Merging the same update a second time changes nothing, for each of the five merges. |
| Seqs.Filter | BecVisionTracker/server/storage.ts:195-197 | `filter` is no longer than its input, and every element it keeps satisfies the predicate. |
| Seqs.FilterMember | BecVisionTracker/server/storage.ts:248-250 | An element is kept exactly when it occurs in the input and satisfies the predicate. |
| Seqs.FilterAppend | BecVisionTracker/server/storage.ts:291-294 | Filtering a concatenation filters each part, so input order is kept. |
| Seqs.FilterUpdate | BecVisionTracker/server/storage.ts:185-187 | Replacing an element by one treated alike replaces it at the matching position of the filtered sequence. |
| Seqs.FilterAll | BecVisionTracker/server/storage.ts:221-224 | When every element passes, the filter keeps the whole input. |
| Seqs.Count | BecVisionTracker/server/routes.ts:280 | `filter(p).length` never exceeds the input's length. |
| Seqs.CountIsIndices | BecVisionTracker/client/src/pages/achievements.tsx:251 | `filter(p).length` is the number of positions whose element satisfies `p`. |
| Seqs.Find | BecVisionTracker/server/storage.ts:165-167 | `find` answers `None` exactly when nothing passes; otherwise it answers the first element that passes. |
| Seqs.SortByIsStableSort | BecVisionTracker/server/storage.ts:221-225 | The insertion sort by a numeric key is a permutation of its input, in ascending key order, and elements with equal keys keep their relative order. |
| Seqs.SortBy | BecVisionTracker/server/storage.ts:221-225 | The sort keeps the length of its input; `SortByIsStableSort` gives the rest. |
| Seqs.InsertBy | BecVisionTracker/server/storage.ts:221-225 | Inserting one element lengthens the sorted run by one. |
| Routes.GetUserRoute | BecVisionTracker/server/routes.ts:12-23 | 404 "User not found" exactly when the id is unparsable or absent; otherwise 200 with the stored user. |
| Routes.UserProjectsRoute | BecVisionTracker/server/routes.ts:40-48 | Always 200. For a parsable id, the list is every stored project with that owner, in the order the store holds them: a project is listed exactly when it is stored with that `userId`. For an unparsable id the list is empty. |
| Routes.ProjectStagesRoute | BecVisionTracker/server/routes.ts:78-86 | Always 200. For a parsable id, the list is a stable sort by stage number of every stored stage of that project: the same stages, ascending, ties in creation order. For an unparsable id the list is empty. |
| Routes.UserSkillsRoute | BecVisionTracker/server/routes.ts:116-124 | Always 200. For a parsable id, every stored skill with that owner, in store order, and no other. For an unparsable id the list is empty. |
| Routes.AchievementsRoute | BecVisionTracker/server/routes.ts:154-161 | Always 200, with every catalog achievement in store order. |
| Routes.UserLearningPathsRoute | BecVisionTracker/server/routes.ts:181-189 | Always 200. For a parsable id, every stored learning path with that owner, in store order, and no other. For an unparsable id the list is empty. |
| Routes.UserActivitiesRoute | BecVisionTracker/server/routes.ts:219-227 | Always 200. For a parsable id, a stable sort, newest first, of every stored activity of that user: the same activities, ties in creation order. For an unparsable id the list is empty. |
| Routes.CatalogEntry | BecVisionTracker/server/routes.ts:167 | The first catalog achievement with the id, or `None` exactly when the catalog has none. |
| Routes.WithDetails | BecVisionTracker/server/routes.ts:166-169 | One entry per unlock, in the same order. Each entry pairs its unlock with `CatalogEntry` of the unlock's `achievementId`: the first catalog achievement with that id, or none. |
| Routes.WithDetailsPrefix | BecVisionTracker/server/routes.ts:266-270 | Joining the first n unlocks gives the first n entries of the full join. |
| Routes.UserAchievementsRoute | BecVisionTracker/server/routes.ts:163-178 | Always 200. Entry i holds the i-th of the user's unlocks, newest first, and its achievement is the first catalog entry with the unlock's `achievementId`, or none when the catalog has none. |
| Routes.FirstActive | BecVisionTracker/server/routes.ts:259 | The first project, in creation order, whose status is "active"; `None` exactly when none is active. |
| Routes.RecentAchievements | BecVisionTracker/server/routes.ts:266-270 | It has length min(3, unlocks) and is that prefix of the achievements route's list. |
| Routes.Dashboard | BecVisionTracker/server/routes.ts:243-291 | See the dashboard note below the table. |
| Routes.SeedDashboard | BecVisionTracker/server/routes.ts:243-291 | On the seeded store, user 1's dashboard answers 200 with project 1 as the current project, five stages, one project and none completed. |
| Routes.PutUser | BecVisionTracker/server/routes.ts:25-37 | 404 "User not found" exactly when the id is unparsable or absent, with the table unchanged. Otherwise 200 with the merged user. The new table is the store's update of the old one, and every other id answers as before. |
| Routes.PutProject | BecVisionTracker/server/routes.ts:63-75 | 404 "Project not found" exactly when the id is unparsable or absent, table unchanged. Otherwise 200 with the merged project, stored under the id. Every other id answers as before. |
| Routes.PutProjectStage | BecVisionTracker/server/routes.ts:101-113 | 404 "Project stage not found" exactly when the id is unparsable or absent, table unchanged. Otherwise 200 with the stored merge. Every other id answers as before. |
| Routes.PutSkill | BecVisionTracker/server/routes.ts:139-151 | 404 "Skill not found" exactly when the id is unparsable or absent, table unchanged. Otherwise 200 with the stored merge. Every other id answers as before. |
| Routes.PutLearningPath | BecVisionTracker/server/routes.ts:204-216 | 404 "Learning path not found" exactly when the id is unparsable or absent, table unchanged. Otherwise 200 with the stored merge. Every other id answers as before. |
| Routes.PostSkill | BecVisionTracker/server/routes.ts:126-137 | 400 "Invalid skill data" with the errors on a ZodError, and 500 "Failed to create skill" on any other exception; in both cases the table and counter are unchanged. Otherwise 201 with the new skill: its id is the old counter, the entry is appended, the counter advances by one, and the user's skill list now ends with it. An accepted body may omit `proficiency`, `level` and `xpEarned`, and the 201 body then lacks them. |
| Routes.PostActivity | BecVisionTracker/server/routes.ts:229-240 | 400 on a ZodError and 500 on any other exception, with the table and counter unchanged. Otherwise 201 with the new activity: appended under the old counter, the counter advances by one, and the activity is in the user's activity list. An accepted body may omit `xpGained`, and the 201 body then lacks it. |
| Routes.PostProjectAsWritten | BecVisionTracker/server/routes.ts:50-61 | As written, the schema name is unbound, so every request answers 500 "Failed to create project" and nothing is stored (see Findings). |
| Routes.ParseWith | BecVisionTracker/server/routes.ts:52 | `name.parse(body)` throws exactly when the name is unbound or validation throws; with a bound name it answers what validation decides, and it accepts or rejects only when the name is bound. |
| Routes.ProjectPostDiffers | BecVisionTracker/server/routes.ts:50-61 | On the same valid body and the same store, the handler as written answers 500 and stores nothing. The corrected handler then answers 201 with the new project, appended under the old counter. |
| Routes.PostProjectStageAsWritten | BecVisionTracker/server/routes.ts:88-99 | As written, the schema name is unbound, so every request answers 500 "Failed to create project stage" and nothing is stored. |
| Routes.ProjectStagePostDiffers | BecVisionTracker/server/routes.ts:88-99 | On the same valid body and the same store, the handler as written answers 500 and stores nothing. The corrected handler then answers 201 with the new stage, appended under the old counter. |
| Routes.PostLearningPathAsWritten | BecVisionTracker/server/routes.ts:191-202 | As written, the schema name is unbound, so every request answers 500 "Failed to create learning path" and nothing is stored. |
| Routes.LearningPathPostDiffers | BecVisionTracker/server/routes.ts:191-202 | On the same valid body and the same store, the handler as written answers 500 and stores nothing. The corrected handler then answers 201 with the new path, appended under the old counter. |
| Routes.PostProject | BecVisionTracker/server/routes.ts:50-61 | With the schema in scope: 400 "Invalid project data" on a ZodError and 500 on any other exception, store unchanged. Otherwise 201 with the new project, appended under the old counter; the counter advances and the user's project list now ends with it. |
| Routes.PostProjectStage | BecVisionTracker/server/routes.ts:88-99 | With the schema in scope: 400 on a ZodError and 500 on any other exception, store unchanged. Otherwise 201 with the new stage, appended under the old counter; the counter advances and the stage is among the project's stages. |
| Routes.PostLearningPath | BecVisionTracker/server/routes.ts:191-202 | With the schema in scope: 400 on a ZodError and 500 on any other exception, store unchanged. Otherwise 201 with the new path, appended under the old counter; the counter advances and the user's learning-path list now ends with it. |
| Text.Split | BecVisionTracker/client/src/components/welcome-section.tsx:21 | `split(' ')` has at least one piece, and no piece holds a space. The first piece is a prefix of the string, followed by a space or by the end. |
| Text.JoinSplit | BecVisionTracker/client/src/pages/achievements.tsx:25 | Joining the pieces of `split(' ')` with spaces gives back the string. |
| Text.Join | BecVisionTracker/client/src/pages/achievements.tsx:25 | The inverse of `split(' ')`, used to state that splitting loses nothing: the text starts with the first word, followed by a space when more words follow. |
| Text.SplitJoin | BecVisionTracker/client/src/pages/achievements.tsx:25 | Splitting a space-join of space-free words gives back the words. |
| Text.SplitWord | BecVisionTracker/client/src/pages/achievements.tsx:25 | A word without spaces splits into itself. |
| Text.SplitWordThenSpace | BecVisionTracker/client/src/pages/achievements.tsx:25 | A space-free word followed by a space is the first piece, and the rest splits on its own. |
| Text.Heads | BecVisionTracker/client/src/pages/achievements.tsx:25 | `map(n => n[0]).join('')` has at most one character per word. |
| Text.WordStarts | BecVisionTracker/client/src/pages/achievements.tsx:25 | The reference reading: only characters that are not spaces, at most one per input character. |
| Text.HeadsOfSplit | BecVisionTracker/client/src/pages/achievements.tsx:25 | The first characters of the pieces are exactly the characters that start a word. Empty words contribute nothing. |
| Text.HeadsOfLaterPieces | BecVisionTracker/client/src/pages/achievements.tsx:25 | The same, for every piece after the first. |
| Text.UpperChar | BecVisionTracker/client/src/pages/achievements.tsx:25 | ASCII lower-case letters move up by 32, and every other character is kept. No lower-case letter results. |
| Text.Upper | BecVisionTracker/client/src/pages/achievements.tsx:25 | `toUpperCase` keeps the length and leaves no lower-case ASCII letter. |
| Text.UpperIdempotent | BecVisionTracker/client/src/pages/achievements.tsx:25 | Upper-casing twice is upper-casing once, and it keeps a string empty exactly when it was empty. |
| Text.DigitChar | BecVisionTracker/client/src/pages/achievements.tsx:76 | A digit's character denotes that digit. |
| Text.NatToString | BecVisionTracker/client/src/pages/achievements.tsx:76 | A number renders as at least one decimal digit, with no leading zero. |
| Text.NatToStringRoundTrip | BecVisionTracker/client/src/pages/achievements.tsx:76 | Reading the rendering back gives the number. |
| Text.IntToString | BecVisionTracker/client/src/pages/achievements.tsx:76 | The rendering starts with a minus sign exactly for negative numbers, and it is followed by the magnitude's digits. |
| TimeAgo.HoursSince | BecVisionTracker/client/src/pages/achievements.tsx:73 | The floored hours h satisfy h·3600000 ≤ now − past < (h+1)·3600000. |
| TimeAgo.Bucket | BecVisionTracker/client/src/pages/achievements.tsx:75-81 | The three buckets are disjoint and exhaustive: hours below 24, negative hours included; days from 24 to 167, with a count of 1..6; weeks from 168 up, with a count of at least 1. |
| TimeAgo.FloorOfFloor | BecVisionTracker/client/src/pages/achievements.tsx:78 | Flooring hours by 24 (or 168) equals flooring milliseconds by a day (or a week). |
| TimeAgo.FormatTimeAgoMeaning | BecVisionTracker/client/src/pages/achievements.tsx:71-82 | Read off the elapsed milliseconds: below a day, "{hours}h ago"; below a week, "{days}d ago" with 1..6 days; otherwise "{weeks}w ago" with at least one week. The panel's copy (achievements-panel.tsx:45-56) is the same function. |
| TimeAgo.FormatTimeAgo | BecVisionTracker/client/src/pages/achievements.tsx:71-82 | The unit is "h ago" exactly below a day of elapsed milliseconds, "d ago" exactly from a day to below a week, and "w ago" exactly from a week on; `FormatTimeAgoMeaning` gives the number. |
| Icons.GetIcon | BecVisionTracker/client/src/components/achievements-panel.tsx:19-30 | Medal exactly for "fas fa-medal", Star exactly for "fas fa-star", Trophy for everything else. The page's copy (achievements.tsx:28-39) is the same map. |
| AchievementsPage.GetCategoryIcon | BecVisionTracker/client/src/pages/achievements.tsx:41-54 | Each known category gets its own icon, exactly, and every other category gets the trophy. |
| AchievementsPage.GetIconColor | BecVisionTracker/client/src/pages/achievements.tsx:56-69 | Each known category gets its own colour, exactly, and every other category gets grey. |
| AchievementsPage.AchievementXp | BecVisionTracker/client/src/pages/achievements.tsx:275-277 | 0 while loading. Otherwise the sum of the joined achievements' rewards, where entries without an achievement add nothing. |
| AchievementsPage.FoldXpIsSum | BecVisionTracker/client/src/pages/achievements.tsx:275-277 | The `reduce` from an accumulator equals the accumulator plus the reference sum. |
| AchievementsPage.FoldXp | BecVisionTracker/client/src/pages/achievements.tsx:275-277 | The `reduce` never falls below its start when no reward is negative; `FoldXpIsSum` gives its value. |
| AchievementsPage.SumXpAppend | BecVisionTracker/client/src/pages/achievements.tsx:275-277 | The sum over two runs of entries is the sum of their sums. |
| AchievementsPage.SumXpOfJoined | BecVisionTracker/client/src/pages/achievements.tsx:276 | Dropping the entries without an achievement leaves the sum unchanged. |
| AchievementsPage.SumXpNonNegative | BecVisionTracker/client/src/pages/achievements.tsx:275-277 | Non-negative rewards give a non-negative total. |
| AchievementsPage.CategoryCount | BecVisionTracker/client/src/pages/achievements.tsx:251 | 0 while loading. Otherwise the number of positions whose entry has an achievement of that category, which is at most the number of entries. |
| AchievementsPage.CategoryCountsBound | BecVisionTracker/client/src/pages/achievements.tsx:241-251 | The four category tiles together count at most the number of entries. |
| AchievementsPage.Initials | BecVisionTracker/client/src/pages/achievements.tsx:25 | "JS" without a name or without any word start. Otherwise the upper-cased first characters of the space-separated words, in order. |
| AchievementsPanel.GetIconColor | BecVisionTracker/client/src/components/achievements-panel.tsx:32-43 | skill, collaboration and milestone each get their colour, exactly, and every other category gets `bg-primary`. |
| AchievementsPanel.PanelColorsMatchPage | BecVisionTracker/client/src/components/achievements-panel.tsx:32-43 | The panel's colour plus " text-white" is the page's colour exactly for the four known categories, so the two maps differ only in the default. |
| AchievementsPanel.Rows | BecVisionTracker/client/src/components/achievements-panel.tsx:70-71 | At most one row per entry. |
| AchievementsPanel.RowOf | BecVisionTracker/client/src/components/achievements-panel.tsx:72-86 | A row is keyed by the unlock's id and shows its achievement's name and description and how long ago it was unlocked, in one of the three units. |
| AchievementsPanel.RowsOfJoined | BecVisionTracker/client/src/components/achievements-panel.tsx:70-88 | The rows are exactly the joined entries, in order, each rendered with its icon, colour, name, description and time ago. Entries without an achievement produce nothing. |
| CurrentProjectCard.StateOf | BecVisionTracker/client/src/components/current-project-card.tsx:46-76 | Completed exactly when `isCompleted`. In Progress exactly when not completed and numbered `currentStage`. Upcoming otherwise. |
| CurrentProjectCard.CircleClass | BecVisionTracker/client/src/components/current-project-card.tsx:46-52 | Each circle colour is chosen exactly for one state. |
| CurrentProjectCard.StageMarker | BecVisionTracker/client/src/components/current-project-card.tsx:53-59 | Check, code icon or stage number, each exactly for one state. |
| CurrentProjectCard.NameClass | BecVisionTracker/client/src/components/current-project-card.tsx:61-67 | Each name style is chosen exactly for one state. |
| CurrentProjectCard.Label | BecVisionTracker/client/src/components/current-project-card.tsx:70-76 | "+{xpReward} XP" for completed stages, "In Progress" and "Upcoming" for the others. |
| CurrentProjectCard.OnlyCompletedShowXp | BecVisionTracker/client/src/components/current-project-card.tsx:71 | A label ends in " XP" exactly when the stage is completed. |
| CurrentProjectCard.ConditionalsAgree | BecVisionTracker/client/src/components/current-project-card.tsx:46-76 | The four conditionals agree on every stage. |
| CurrentProjectCard.ProgressPercent | BecVisionTracker/client/src/components/current-project-card.tsx:25 | Undefined exactly for zero stages. Otherwise `currentStage · 100 / totalStages`, which lies in 0..100 when the stage is in range. |
| SkillCard.SkillColor | BecVisionTracker/client/src/components/skill-development-card.tsx:14-19 | ≥ 80 success, 60..79 primary, 40..59 secondary, < 40 warning, each exactly. |
| SkillCard.SkillColorMonotone | BecVisionTracker/client/src/components/skill-development-card.tsx:14-19 | A higher proficiency never lands in a lower band. |
| SkillCard.FormatLevel | BecVisionTracker/client/src/components/skill-development-card.tsx:21-23 | Keeps the length. The first character is upper-cased and the rest is unchanged. `""` maps to `""`. |
| SkillCard.FormatLevelIdempotent | BecVisionTracker/client/src/components/skill-development-card.tsx:21-23 | Formatting twice is formatting once. |
| Welcome.BannerFor | BecVisionTracker/client/src/components/welcome-section.tsx:11-40 | See the banner note below the table. |
| Welcome.SeedUserBanner | BecVisionTracker/client/src/components/welcome-section.tsx:13 | The seeded user, with 2847 XP at level 12, greets as "John" with progress −8153 and a negative bar. |
| Projects.CountTasksIsTasksInTree | BecVisionTracker/client/src/pages/projects.tsx:360-366 | `countTasks` equals the number of task nodes anywhere in the tree, counted over a pre-order listing. |
| Projects.CountTasks | BecVisionTracker/client/src/pages/projects.tsx:360-366 | A task counts at least itself; `CountTasksIsTasksInTree` gives the exact count. |
| Projects.FoldTasks | BecVisionTracker/client/src/pages/projects.tsx:363 | The `reduce` never falls below its start, and it adds at least the first node's count. |
| Projects.TotalTasks | BecVisionTracker/client/src/pages/projects.tsx:359-368 | The header total is the number of task nodes anywhere in the forest of top-level projects. |
| Projects.FoldTasksIsTasksInForest | BecVisionTracker/client/src/pages/projects.tsx:363-364 | The `reduce` over children equals its start plus the tasks in the children's subtrees. |
| Projects.LeafCount | BecVisionTracker/client/src/pages/projects.tsx:361-362 | A node without children counts 1 when it is a task and 0 otherwise. |
| Projects.AllLeaves | BecVisionTracker/client/src/pages/projects.tsx:360-366 | Childless tasks count one each. |
| Projects.FoldTasksShift | BecVisionTracker/client/src/pages/projects.tsx:363 | The `reduce` from an accumulator is that accumulator more than the `reduce` from 0. |
| Projects.SumOfCounts | BecVisionTracker/client/src/pages/projects.tsx:363 | The `reduce` over two or three nodes is the sum of their counts. |
| Projects.TedxTasks | BecVisionTracker/client/src/pages/projects.tsx:39-151 | The "tedx" subtree holds 8 tasks. |
| Projects.BleadTasks | BecVisionTracker/client/src/pages/projects.tsx:152-209 | The "blead" subtree holds 3 tasks. |
| Projects.BecProjectsTaskTotal | BecVisionTracker/client/src/pages/projects.tsx:359-368 | The header's total over the literal tree is 11. |
| Projects.BecProjects | BecVisionTracker/client/src/pages/projects.tsx:38-210 | The literal data has two top-level project nodes, "tedx" and "blead", each with children. |
| Projects.Toggled | BecVisionTracker/client/src/pages/projects.tsx:212-220 | The id is in the new set exactly when it was not in the old one, and every other id keeps its membership. |
| Projects.ToggledTwice | BecVisionTracker/client/src/pages/projects.tsx:212-220 | Toggling the same id twice restores the set. |
| Projects.ProjectsView.constructor | BecVisionTracker/client/src/pages/projects.tsx:28-29 | Initially "tedx" and "blead" are expanded and "tedx" is selected. |
| Projects.ProjectsView.ToggleNode | BecVisionTracker/client/src/pages/projects.tsx:212-220 | The expanded set becomes its toggle by the id. |
| Projects.ProjectsView.Click | BecVisionTracker/client/src/pages/projects.tsx:260-267 | Nodes with children toggle and others do not; project nodes become selected and others leave the selection. |
| Projects.ProjectsView.ChevronClick | BecVisionTracker/client/src/pages/projects.tsx:271 | The chevron toggles and does not select. |
| Projects.ProjectsView.SelectedProject | BecVisionTracker/client/src/pages/projects.tsx:337 | The first top-level node whose id is the selected id, or `None` exactly when there is none. |

**Routes.Dashboard.** This row's source is BecVisionTracker/server/routes.ts:243-291.

- It answers 404 "User not found" exactly when the user is absent.
- `currentProject` is the first of the user's projects, in creation order, whose status is "active". It is absent exactly when no project is active.
- `projectStages` is that project's sorted stages, or empty when there is no current project.
- `skills` is the user's skills.
- `recentAchievements` has length min(3, unlocks) and is that prefix of the achievements route's list.
- `recentActivities` is the prefix of length min(5, n) of the newest-first activity list.
- `projectsCompleted` counts the completed projects and is at most `totalProjects`, which is the number of the user's projects.
- `hoursThisWeek` is 28.5 and `collaborations` is 8.

**Welcome.BannerFor.** This row's source is BecVisionTracker/client/src/components/welcome-section.tsx:11-40.

- The first name is a prefix of the name that has no space and is followed by a space or by the end.
- The next level shown is `level + 1`.
- The window runs from (level−1)·1000 to level·1000, and its width is always 1000.
- `progressXp` is `xp` minus the window's start, and it is not clamped.
- The bar width is progress/10, capped at 100. It is negative exactly when the progress is.

## Left out

- HTTP plumbing is not modelled: Express, `req`/`res`, JSON serialisation and `parseInt`. A path id is an `Option<int>`, `None` when parsing fails.
- Validation by the zod schemas is an input `Parse<T>`, not modelled. The drizzle table declarations serve only as field lists, except that a column with a default is optional in the insert schema: a skill's `proficiency`, `level` and `xpEarned` and an activity's `xpGained` are `Option`s, absent when the body leaves them out.
- No store operation throws, so the 500 branch of the GET and PUT handlers is unreachable in the model. A POST handler answers 500 when parsing throws something other than a ZodError (`Threw`). That is always the case for the three POST handlers of the Findings.
- `async` and `Promise.all` are left out. The store's reads are sequential and nothing is concurrent.
- The wall clock is left out. `now` is a parameter.
- Storage.MemStorage.CreateUser: the source calls `new Date()` twice, so `createdAt` and `lastActive` may differ by a millisecond. The model stamps both with the one `now`.
- Storage.MemStorage.CreateUser, Schema.NewUser: an `InsertUser` always carries `recruitmentStage`, `xp`, `level` and `streak`, although the insert schema lets them be left out. No handler calls `createUser`, so only direct callers could pass such an input.
- Floating point is not modelled. Progress percentages are exact `real`s, and `Math.round` and `toLocaleString` are left out.
- The learning path's fields other than `id`, `userId` and `createdAt` are one opaque payload, because the shared schema does not declare the table.
- Text.Upper, SkillCard.FormatLevel: upper-casing covers ASCII letters only. JavaScript's `toUpperCase` also maps other scripts and can lengthen a string (ß becomes SS). Also, `n[0]` and `charAt(0)` take the first UTF-16 code unit, so a word that starts with an astral character (an emoji) yields a lone surrogate in the source but the whole character here, where a `char` is a Unicode scalar value.
- The skill card's loop over the skill list is not modelled; its helpers take a field's value. A skill stored without `level` makes `formatLevel(skill.level)` throw in the source, and one without `proficiency` renders the warning band at an `undefined%` width.
- Routes.PutUser, Routes.PutProject, Routes.PutProjectStage, Routes.PutSkill, Routes.PutLearningPath, Schema.MergeUser, Schema.MergeProject, Schema.MergeProjectStage, Schema.MergeSkill, Schema.MergeLearningPath: a PUT body is taken as a well-typed patch of the record's own fields, whereas the source hands the unvalidated `req.body` to `update*` and spreads it over the record. Extra keys, which the source stores and echoes back, are not modelled; nor are ill-typed values (a string `userId`, for instance, which drops the record from every `userId ===` listing). A learning path's columns other than id, userId and createdAt form one payload, so a PUT replaces them together instead of merging them key by key.
- Projects: the tree nodes' `progress`, `assignee`, `dueDate`, `xpReward` and `color` are presentation only and are not modelled. An absent `children` is the empty sequence; every use treats the two alike.
- The React state hooks become the fields of `class ProjectsView`. The query hooks become parameters (`Option` while loading).
- The user defaults on the achievements page are left out (`userData?.xp || 2847` and the like). Only the initials expression is modelled.
- Every JSX template and all pure presentation over hard-coded mock data are left out.

## Findings

| source | as written | input that shows it | evidently intended | confidence | as-written member | corrected member |
|---|---|---|---|---|---|---|
| BecVisionTracker/server/routes.ts:52 | `insertProjectSchema.parse(req.body)` uses a name that is neither imported (routes.ts:4-7) nor exported by the shared schema. It throws a ReferenceError, which is not a ZodError, so the handler answers 500. | any POST /api/projects body, valid or not | 400 on an invalid body, 201 with the created project otherwise | not executed | Routes.ProjectPostDiffers | Routes.PostProject |
| BecVisionTracker/server/routes.ts:90 | `insertProjectStageSchema` has the same defect, so every POST /api/project-stages answers 500. | any POST /api/project-stages body | 400 on an invalid body, 201 with the created stage otherwise | not executed | Routes.ProjectStagePostDiffers | Routes.PostProjectStage |
| BecVisionTracker/server/routes.ts:193 | `insertLearningPathSchema` has the same defect, so every POST /api/learning-paths answers 500. | any POST /api/learning-paths body | 400 on an invalid body, 201 with the created path otherwise | not executed | Routes.LearningPathPostDiffers | Routes.PostLearningPath |
