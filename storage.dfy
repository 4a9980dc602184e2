/**
 * The in-memory entity store `MemStorage`: eight tables, each a `Map` from an
 * auto-increment id to a record, and one id counter per table. `create*` takes the
 * table's counter as the new id and advances it; `update*` shallow-merges into the
 * record stored under an id, or answers `None` when there is none; the list queries
 * filter a table's values by an owner id and sometimes sort them.
 * The clock is the parameter `now` (milliseconds).
 */
module Storage {
  import opened Wrappers
  import opened Seqs
  import opened Tables
  import opened Schema

  const DayMs: int := 24 * 60 * 60 * 1000

  // Query predicates and sort keys, as named functions.

  function UsernameIs(username: string): User -> bool { (u: User) => u.username == username }
  function ProjectOwnedBy(userId: int): Project -> bool { (p: Project) => p.userId == userId }
  function StageOf(projectId: int): ProjectStage -> bool { (s: ProjectStage) => s.projectId == projectId }
  function SkillOwnedBy(userId: int): Skill -> bool { (s: Skill) => s.userId == userId }
  function UnlockedBy(userId: int): UserAchievement -> bool { (ua: UserAchievement) => ua.userId == userId }
  function PathOwnedBy(userId: int): LearningPath -> bool { (lp: LearningPath) => lp.userId == userId }
  function ActivityOf(userId: int): Activity -> bool { (a: Activity) => a.userId == userId }

  /** `(a, b) => a.stageNumber - b.stageNumber`: ascending stage number. */
  function StageNumber(s: ProjectStage): int { s.stageNumber }
  /** `(a, b) => b.unlockedAt - a.unlockedAt`: newest unlock first. */
  function NewestUnlockFirst(ua: UserAchievement): int { -ua.unlockedAt }
  /** `(a, b) => b.createdAt - a.createdAt`: newest activity first. */
  function NewestActivityFirst(a: Activity): int { -a.createdAt }

  // The fixed seed loaded by the constructor (`seedInitialData`).

  function SeedUsers(now: int): seq<Entry<User>> {
    [Entry(1, User(1, "john_doe", "john@bec.com", "John Smith", None, 2847, 12, 7,
                   Some(now), None, None, None, Some(now)))]
  }

  function SeedAchievements(): seq<Entry<Achievement>> {
    [ Entry(1, Achievement(1, "Code Master", "Completed 10 coding challenges",
                           "fas fa-trophy", "skill", 150, None)),
      Entry(2, Achievement(2, "Team Player", "Collaborated on 5 projects",
                           "fas fa-medal", "collaboration", 200, None)),
      Entry(3, Achievement(3, "Fast Learner", "Completed course in record time",
                           "fas fa-star", "milestone", 100, None)) ]
  }

  function SeedProjects(now: int): seq<Entry<Project>> {
    [Entry(1, Project(1, 1, "E-Commerce Platform Development",
                      "Building a full-stack e-commerce solution with React and Node.js",
                      "active", 3, 5, 1000, Some(now - 30 * DayMs), Some(now + 60 * DayMs), None))]
  }

  function SeedProjectStages(now: int): seq<Entry<ProjectStage>> {
    [ Entry(1, ProjectStage(1, 1, 1, "Planning & Research", "Initial project planning and research",
                            150, true, Some(now - 25 * DayMs))),
      Entry(2, ProjectStage(2, 1, 2, "UI/UX Design", "Design user interface and experience",
                            200, true, Some(now - 20 * DayMs))),
      Entry(3, ProjectStage(3, 1, 3, "Frontend Development", "Implement frontend components",
                            250, false, None)),
      Entry(4, ProjectStage(4, 1, 4, "Backend Development", "Build backend API and database",
                            300, false, None)),
      Entry(5, ProjectStage(5, 1, 5, "Testing & Deployment", "Test and deploy the application",
                            200, false, None)) ]
  }

  function SeedSkills(): seq<Entry<Skill>> {
    [ Entry(1, Skill(1, 1, "React.js", "technical", Some(85), Some("advanced"), Some(850))),
      Entry(2, Skill(2, 1, "Node.js", "technical", Some(65), Some("intermediate"), Some(650))),
      Entry(3, Skill(3, 1, "UI/UX Design", "design", Some(70), Some("intermediate"), Some(700))),
      Entry(4, Skill(4, 1, "Project Management", "management", Some(35), Some("beginner"), Some(350))) ]
  }

  function SeedUserAchievements(now: int): seq<Entry<UserAchievement>> {
    [ Entry(1, UserAchievement(1, 1, 1, now - 2 * DayMs)),
      Entry(2, UserAchievement(2, 1, 2, now - 7 * DayMs)),
      Entry(3, UserAchievement(3, 1, 3, now - 14 * DayMs)) ]
  }

  class MemStorage {
    var users: seq<Entry<User>>
    var projects: seq<Entry<Project>>
    var projectStages: seq<Entry<ProjectStage>>
    var skills: seq<Entry<Skill>>
    var achievements: seq<Entry<Achievement>>
    var userAchievements: seq<Entry<UserAchievement>>
    var learningPaths: seq<Entry<LearningPath>>
    var activities: seq<Entry<Activity>>

    var currentUserId: int
    var currentProjectId: int
    var currentProjectStageId: int
    var currentSkillId: int
    var currentAchievementId: int
    var currentUserAchievementId: int
    var currentLearningPathId: int
    var currentActivityId: int

    /** Every key of a table is unique and strictly below that table's counter. */
    ghost predicate Valid()
      reads this
    {
      && KeyedBelow(users, currentUserId)
      && KeyedBelow(projects, currentProjectId)
      && KeyedBelow(projectStages, currentProjectStageId)
      && KeyedBelow(skills, currentSkillId)
      && KeyedBelow(achievements, currentAchievementId)
      && KeyedBelow(userAchievements, currentUserAchievementId)
      && KeyedBelow(learningPaths, currentLearningPathId)
      && KeyedBelow(activities, currentActivityId)
    }

    /** Loads the seed and moves the counters past the seeded ids. */
    constructor (now: int)
      ensures Valid()
      ensures users == SeedUsers(now) && projects == SeedProjects(now)
      ensures projectStages == SeedProjectStages(now) && skills == SeedSkills()
      ensures achievements == SeedAchievements()
      ensures userAchievements == SeedUserAchievements(now)
      ensures learningPaths == [] && activities == []
      ensures currentUserId == 2 && currentProjectId == 2 && currentProjectStageId == 6
      ensures currentSkillId == 5 && currentAchievementId == 4 && currentUserAchievementId == 4
      ensures currentLearningPathId == 1 && currentActivityId == 1
    {
      users := SeedUsers(now);
      achievements := SeedAchievements();
      projects := SeedProjects(now);
      projectStages := SeedProjectStages(now);
      skills := SeedSkills();
      userAchievements := SeedUserAchievements(now);
      learningPaths := [];
      activities := [];
      currentUserId := 2;
      currentProjectId := 2;
      currentProjectStageId := 6;
      currentSkillId := 5;
      currentAchievementId := 4;
      currentUserAchievementId := 4;
      currentLearningPathId := 1;
      currentActivityId := 1;
    }

    // ---- Users

    function GetUser(id: int): (r: Option<User>)
      reads this
      ensures r.None? <==> !HasKey(users, id)
      ensures r.Some? ==> r.value == users[IndexOf(users, id)].value
    {
      Get(users, id)
    }

    /** The first user, in creation order, with the given username. */
    function GetUserByUsername(username: string): (r: Option<User>)
      reads this
      ensures r.None? <==> forall i :: 0 <= i < |users| ==> users[i].value.username != username
      ensures r.Some? ==> exists i :: 0 <= i < |users| && users[i].value == r.value &&
                            r.value.username == username &&
                            forall j :: 0 <= j < i ==> users[j].value.username != username
    {
      Find(Values(users), UsernameIs(username))
    }

    /** Usernames are not checked for uniqueness: any input is stored under a fresh id. */
    method CreateUser(input: InsertUser, now: int) returns (user: User)
      requires Valid()
      modifies this`users, this`currentUserId
      ensures Valid()
      ensures user == NewUser(input, old(currentUserId), now)
      ensures user.id == old(currentUserId) && user.createdAt == Some(now) && user.lastActive == Some(now)
      ensures currentUserId == old(currentUserId) + 1
      ensures users == old(users) + [Entry(user.id, user)]
    {
      var id := currentUserId;
      currentUserId := currentUserId + 1;
      user := NewUser(input, id, now);
      SetFresh(users, id, user);
      users := Set(users, id, user);
    }

    method UpdateUser(id: int, updates: UserPatch) returns (r: Option<User>)
      requires Valid()
      modifies this`users
      ensures Valid()
      ensures (r, users) == Update(old(users), id, MergeUserWith(updates))
      ensures r.None? <==> old(GetUser(id)).None?
      ensures r.None? ==> users == old(users)
      ensures r.Some? ==> r.value == MergeUser(old(GetUser(id)).value, updates) && GetUser(id) == r
    {
      var existing := Get(users, id);
      match existing {
        case None =>
          r := None;
        case Some(u) =>
          var updated := MergeUser(u, updates);
          SetPresent(users, id, updated, currentUserId);
          GetAfterSet(users, id, updated, id);
          users := Set(users, id, updated);
          r := Some(updated);
      }
    }

    // ---- Projects

    function GetProject(id: int): (r: Option<Project>)
      reads this
      ensures r.None? <==> !HasKey(projects, id)
      ensures r.Some? ==> r.value == projects[IndexOf(projects, id)].value
    {
      Get(projects, id)
    }

    /** The user's projects, in creation order. */
    function GetUserProjects(userId: int): (r: seq<Project>)
      reads this
      ensures |r| <= |projects|
      ensures forall i :: 0 <= i < |r| ==> r[i].userId == userId
      ensures forall p :: p in r <==> p in Values(projects) && p.userId == userId
    {
      forall p ensures p in Filter(Values(projects), ProjectOwnedBy(userId)) <==>
                       p in Values(projects) && p.userId == userId {
        FilterMember(Values(projects), ProjectOwnedBy(userId), p);
      }
      Filter(Values(projects), ProjectOwnedBy(userId))
    }

    method CreateProject(input: InsertProject, now: int) returns (project: Project)
      requires Valid()
      modifies this`projects, this`currentProjectId
      ensures Valid()
      ensures project == NewProject(input, old(currentProjectId), now)
      ensures project.id == old(currentProjectId) && project.startDate == Some(now)
      ensures project.completedAt == None
      ensures currentProjectId == old(currentProjectId) + 1
      ensures projects == old(projects) + [Entry(project.id, project)]
    {
      var id := currentProjectId;
      currentProjectId := currentProjectId + 1;
      project := NewProject(input, id, now);
      SetFresh(projects, id, project);
      projects := Set(projects, id, project);
    }

    method UpdateProject(id: int, updates: ProjectPatch) returns (r: Option<Project>)
      requires Valid()
      modifies this`projects
      ensures Valid()
      ensures (r, projects) == Update(old(projects), id, MergeProjectWith(updates))
      ensures r.None? <==> old(GetProject(id)).None?
      ensures r.None? ==> projects == old(projects)
      ensures r.Some? ==> r.value == MergeProject(old(GetProject(id)).value, updates) && GetProject(id) == r
    {
      var existing := Get(projects, id);
      match existing {
        case None =>
          r := None;
        case Some(p) =>
          var updated := MergeProject(p, updates);
          SetPresent(projects, id, updated, currentProjectId);
          GetAfterSet(projects, id, updated, id);
          projects := Set(projects, id, updated);
          r := Some(updated);
      }
    }

    // ---- Project stages

    /** The project's stages, ascending by stage number, ties in creation order. */
    function GetProjectStages(projectId: int): (r: seq<ProjectStage>)
      reads this
      ensures StableSortOf(r, Filter(Values(projectStages), StageOf(projectId)), StageNumber)
      ensures forall i, j :: 0 <= i < j < |r| ==> r[i].stageNumber <= r[j].stageNumber
      ensures forall i :: 0 <= i < |r| ==> r[i].projectId == projectId
    {
      var f := Filter(Values(projectStages), StageOf(projectId));
      SortByIsStableSort(f, StageNumber);
      SortedFromFilter(SortBy(f, StageNumber), f, StageOf(projectId));
      SortBy(f, StageNumber)
    }

    /** The stage is stored with no completion time, whatever `isCompleted` says. */
    method CreateProjectStage(input: InsertProjectStage) returns (stage: ProjectStage)
      requires Valid()
      modifies this`projectStages, this`currentProjectStageId
      ensures Valid()
      ensures stage == NewProjectStage(input, old(currentProjectStageId))
      ensures stage.id == old(currentProjectStageId) && stage.completedAt == None
      ensures stage.isCompleted == input.isCompleted
      ensures currentProjectStageId == old(currentProjectStageId) + 1
      ensures projectStages == old(projectStages) + [Entry(stage.id, stage)]
    {
      var id := currentProjectStageId;
      currentProjectStageId := currentProjectStageId + 1;
      stage := NewProjectStage(input, id);
      SetFresh(projectStages, id, stage);
      projectStages := Set(projectStages, id, stage);
    }

    method UpdateProjectStage(id: int, updates: ProjectStagePatch) returns (r: Option<ProjectStage>)
      requires Valid()
      modifies this`projectStages
      ensures Valid()
      ensures (r, projectStages) == Update(old(projectStages), id, MergeProjectStageWith(updates))
      ensures r.None? <==> !HasKey(old(projectStages), id)
      ensures r.None? ==> projectStages == old(projectStages)
      ensures r.Some? ==> r == Some(MergeProjectStage(Get(old(projectStages), id).value, updates))
      ensures r.Some? ==> Get(projectStages, id) == r
    {
      var existing := Get(projectStages, id);
      match existing {
        case None =>
          r := None;
        case Some(s) =>
          var updated := MergeProjectStage(s, updates);
          SetPresent(projectStages, id, updated, currentProjectStageId);
          GetAfterSet(projectStages, id, updated, id);
          projectStages := Set(projectStages, id, updated);
          r := Some(updated);
      }
    }

    // ---- Skills

    /** The user's skills, in creation order. */
    function GetUserSkills(userId: int): (r: seq<Skill>)
      reads this
      ensures |r| <= |skills|
      ensures forall i :: 0 <= i < |r| ==> r[i].userId == userId
      ensures forall s :: s in r <==> s in Values(skills) && s.userId == userId
    {
      forall s ensures s in Filter(Values(skills), SkillOwnedBy(userId)) <==>
                       s in Values(skills) && s.userId == userId {
        FilterMember(Values(skills), SkillOwnedBy(userId), s);
      }
      Filter(Values(skills), SkillOwnedBy(userId))
    }

    method CreateSkill(input: InsertSkill) returns (skill: Skill)
      requires Valid()
      modifies this`skills, this`currentSkillId
      ensures Valid()
      ensures skill == NewSkill(input, old(currentSkillId))
      ensures currentSkillId == old(currentSkillId) + 1
      ensures skills == old(skills) + [Entry(skill.id, skill)]
    {
      var id := currentSkillId;
      currentSkillId := currentSkillId + 1;
      skill := NewSkill(input, id);
      SetFresh(skills, id, skill);
      skills := Set(skills, id, skill);
    }

    method UpdateSkill(id: int, updates: SkillPatch) returns (r: Option<Skill>)
      requires Valid()
      modifies this`skills
      ensures Valid()
      ensures (r, skills) == Update(old(skills), id, MergeSkillWith(updates))
      ensures r.None? <==> !HasKey(old(skills), id)
      ensures r.None? ==> skills == old(skills)
      ensures r.Some? ==> r == Some(MergeSkill(Get(old(skills), id).value, updates))
      ensures r.Some? ==> Get(skills, id) == r
    {
      var existing := Get(skills, id);
      match existing {
        case None =>
          r := None;
        case Some(s) =>
          var updated := MergeSkill(s, updates);
          SetPresent(skills, id, updated, currentSkillId);
          GetAfterSet(skills, id, updated, id);
          skills := Set(skills, id, updated);
          r := Some(updated);
      }
    }

    // ---- Achievements

    /** The achievement catalog, in creation order. */
    function GetAllAchievements(): (r: seq<Achievement>)
      reads this
      ensures |r| == |achievements| && forall i :: 0 <= i < |r| ==> r[i] == achievements[i].value
    {
      Values(achievements)
    }

    /** The user's unlocks, newest first, ties in creation order. */
    function GetUserAchievements(userId: int): (r: seq<UserAchievement>)
      reads this
      ensures StableSortOf(r, Filter(Values(userAchievements), UnlockedBy(userId)), NewestUnlockFirst)
      ensures forall i, j :: 0 <= i < j < |r| ==> r[i].unlockedAt >= r[j].unlockedAt
      ensures forall i :: 0 <= i < |r| ==> r[i].userId == userId
    {
      var f := Filter(Values(userAchievements), UnlockedBy(userId));
      SortByIsStableSort(f, NewestUnlockFirst);
      SortedFromFilter(SortBy(f, NewestUnlockFirst), f, UnlockedBy(userId));
      SortBy(f, NewestUnlockFirst)
    }

    /** The unlock time is stamped by the store. */
    method CreateUserAchievement(input: InsertUserAchievement, now: int) returns (ua: UserAchievement)
      requires Valid()
      modifies this`userAchievements, this`currentUserAchievementId
      ensures Valid()
      ensures ua == NewUserAchievement(input, old(currentUserAchievementId), now)
      ensures ua.unlockedAt == now
      ensures currentUserAchievementId == old(currentUserAchievementId) + 1
      ensures userAchievements == old(userAchievements) + [Entry(ua.id, ua)]
    {
      var id := currentUserAchievementId;
      currentUserAchievementId := currentUserAchievementId + 1;
      ua := NewUserAchievement(input, id, now);
      SetFresh(userAchievements, id, ua);
      userAchievements := Set(userAchievements, id, ua);
    }

    // ---- Learning paths

    /** The user's learning paths, in creation order. */
    function GetUserLearningPaths(userId: int): (r: seq<LearningPath>)
      reads this
      ensures |r| <= |learningPaths|
      ensures forall i :: 0 <= i < |r| ==> r[i].userId == userId
      ensures forall lp :: lp in r <==> lp in Values(learningPaths) && lp.userId == userId
    {
      forall lp ensures lp in Filter(Values(learningPaths), PathOwnedBy(userId)) <==>
                        lp in Values(learningPaths) && lp.userId == userId {
        FilterMember(Values(learningPaths), PathOwnedBy(userId), lp);
      }
      Filter(Values(learningPaths), PathOwnedBy(userId))
    }

    method CreateLearningPath(input: InsertLearningPath, now: int) returns (path: LearningPath)
      requires Valid()
      modifies this`learningPaths, this`currentLearningPathId
      ensures Valid()
      ensures path == NewLearningPath(input, old(currentLearningPathId), now)
      ensures path.createdAt == Some(now)
      ensures currentLearningPathId == old(currentLearningPathId) + 1
      ensures learningPaths == old(learningPaths) + [Entry(path.id, path)]
    {
      var id := currentLearningPathId;
      currentLearningPathId := currentLearningPathId + 1;
      path := NewLearningPath(input, id, now);
      SetFresh(learningPaths, id, path);
      learningPaths := Set(learningPaths, id, path);
    }

    method UpdateLearningPath(id: int, updates: LearningPathPatch) returns (r: Option<LearningPath>)
      requires Valid()
      modifies this`learningPaths
      ensures Valid()
      ensures (r, learningPaths) == Update(old(learningPaths), id, MergeLearningPathWith(updates))
      ensures r.None? <==> !HasKey(old(learningPaths), id)
      ensures r.None? ==> learningPaths == old(learningPaths)
      ensures r.Some? ==> r == Some(MergeLearningPath(Get(old(learningPaths), id).value, updates))
      ensures r.Some? ==> Get(learningPaths, id) == r
    {
      var existing := Get(learningPaths, id);
      match existing {
        case None =>
          r := None;
        case Some(lp) =>
          var updated := MergeLearningPath(lp, updates);
          SetPresent(learningPaths, id, updated, currentLearningPathId);
          GetAfterSet(learningPaths, id, updated, id);
          learningPaths := Set(learningPaths, id, updated);
          r := Some(updated);
      }
    }

    // ---- Activities

    /** The user's activities, newest first, ties in creation order. */
    function GetUserActivities(userId: int): (r: seq<Activity>)
      reads this
      ensures StableSortOf(r, Filter(Values(activities), ActivityOf(userId)), NewestActivityFirst)
      ensures forall i, j :: 0 <= i < j < |r| ==> r[i].createdAt >= r[j].createdAt
      ensures forall i :: 0 <= i < |r| ==> r[i].userId == userId
    {
      var f := Filter(Values(activities), ActivityOf(userId));
      SortByIsStableSort(f, NewestActivityFirst);
      SortedFromFilter(SortBy(f, NewestActivityFirst), f, ActivityOf(userId));
      SortBy(f, NewestActivityFirst)
    }

    method CreateActivity(input: InsertActivity, now: int) returns (activity: Activity)
      requires Valid()
      modifies this`activities, this`currentActivityId
      ensures Valid()
      ensures activity == NewActivity(input, old(currentActivityId), now)
      ensures activity.createdAt == now
      ensures currentActivityId == old(currentActivityId) + 1
      ensures activities == old(activities) + [Entry(activity.id, activity)]
    {
      var id := currentActivityId;
      currentActivityId := currentActivityId + 1;
      activity := NewActivity(input, id, now);
      SetFresh(activities, id, activity);
      activities := Set(activities, id, activity);
    }
  }

  /** A permutation of a filtered sequence holds only elements that pass the filter. */
  lemma SortedFromFilter<T>(r: seq<T>, f: seq<T>, p: T -> bool)
    requires multiset(r) == multiset(f) && forall i :: 0 <= i < |f| ==> p(f[i])
    ensures forall i :: 0 <= i < |r| ==> p(r[i])
  {
    forall i | 0 <= i < |r| ensures p(r[i]) {
      assert r[i] in multiset(f);
    }
  }

  // `update*` applied twice with the same body stores and answers what one application does.

  lemma UpdateUserIdempotent(t: seq<Entry<User>>, id: int, updates: UserPatch)
    ensures var f := MergeUserWith(updates); Update(Update(t, id, f).1, id, f) == Update(t, id, f)
  {
    if Get(t, id).Some? {
      var u := Get(t, id).value;
      assert MergeUser(MergeUser(u, updates), updates) == MergeUser(u, updates);
    }
    UpdateIdempotent(t, id, MergeUserWith(updates));
  }

  lemma UpdateProjectIdempotent(t: seq<Entry<Project>>, id: int, updates: ProjectPatch)
    ensures var f := MergeProjectWith(updates); Update(Update(t, id, f).1, id, f) == Update(t, id, f)
  {
    if Get(t, id).Some? {
      var r := Get(t, id).value;
      assert MergeProject(MergeProject(r, updates), updates) == MergeProject(r, updates);
    }
    UpdateIdempotent(t, id, MergeProjectWith(updates));
  }

  lemma UpdateProjectStageIdempotent(t: seq<Entry<ProjectStage>>, id: int, updates: ProjectStagePatch)
    ensures var f := MergeProjectStageWith(updates); Update(Update(t, id, f).1, id, f) == Update(t, id, f)
  {
    if Get(t, id).Some? {
      var r := Get(t, id).value;
      assert MergeProjectStage(MergeProjectStage(r, updates), updates) == MergeProjectStage(r, updates);
    }
    UpdateIdempotent(t, id, MergeProjectStageWith(updates));
  }

  lemma UpdateSkillIdempotent(t: seq<Entry<Skill>>, id: int, updates: SkillPatch)
    ensures var f := MergeSkillWith(updates); Update(Update(t, id, f).1, id, f) == Update(t, id, f)
  {
    if Get(t, id).Some? {
      var r := Get(t, id).value;
      assert MergeSkill(MergeSkill(r, updates), updates) == MergeSkill(r, updates);
    }
    UpdateIdempotent(t, id, MergeSkillWith(updates));
  }

  lemma UpdateLearningPathIdempotent(t: seq<Entry<LearningPath>>, id: int, updates: LearningPathPatch)
    ensures var f := MergeLearningPathWith(updates); Update(Update(t, id, f).1, id, f) == Update(t, id, f)
  {
    if Get(t, id).Some? {
      var r := Get(t, id).value;
      assert MergeLearningPath(MergeLearningPath(r, updates), updates) == MergeLearningPath(r, updates);
    }
    UpdateIdempotent(t, id, MergeLearningPathWith(updates));
  }

  // An update that does not touch `userId` leaves the owner's listing in creation order:
  // every position keeps its record or holds that record merged.

  lemma UpdateProjectKeepsUserProjects(t: seq<Entry<Project>>, id: int, updates: ProjectPatch, userId: int)
    requires updates.userId.None?
    ensures var before := Filter(Values(t), ProjectOwnedBy(userId));
      var after := Filter(Values(Update(t, id, MergeProjectWith(updates)).1), ProjectOwnedBy(userId));
      |after| == |before| &&
      forall i :: 0 <= i < |after| ==> after[i] == before[i] || after[i] == MergeProject(before[i], updates)
  {
    UpdateKeepsListing(t, id, MergeProjectWith(updates), ProjectOwnedBy(userId));
  }

  lemma UpdateSkillKeepsUserSkills(t: seq<Entry<Skill>>, id: int, updates: SkillPatch, userId: int)
    requires updates.userId.None?
    ensures var before := Filter(Values(t), SkillOwnedBy(userId));
      var after := Filter(Values(Update(t, id, MergeSkillWith(updates)).1), SkillOwnedBy(userId));
      |after| == |before| &&
      forall i :: 0 <= i < |after| ==> after[i] == before[i] || after[i] == MergeSkill(before[i], updates)
  {
    UpdateKeepsListing(t, id, MergeSkillWith(updates), SkillOwnedBy(userId));
  }

  lemma UpdateLearningPathKeepsUserPaths(t: seq<Entry<LearningPath>>, id: int, updates: LearningPathPatch,
                                         userId: int)
    requires updates.userId.None?
    ensures var before := Filter(Values(t), PathOwnedBy(userId));
      var after := Filter(Values(Update(t, id, MergeLearningPathWith(updates)).1), PathOwnedBy(userId));
      |after| == |before| &&
      forall i :: 0 <= i < |after| ==> after[i] == before[i] || after[i] == MergeLearningPath(before[i], updates)
  {
    UpdateKeepsListing(t, id, MergeLearningPathWith(updates), PathOwnedBy(userId));
  }
}
