/**
 * The REST handlers over the store: the status code each handler answers with,
 * the achievements join, and the dashboard aggregate. A path id is `None` when
 * `parseInt` yields `NaN`, which equals no id, so no record is found for it.
 */
module Routes {
  import opened Wrappers
  import opened Seqs
  import opened Tables
  import opened Schema
  import opened Storage

  /** A handler's answer: its status code and JSON body. */
  datatype Response<T> =
    | Ok(body: T)
    | Created(body: T)
    | BadRequest(message: string, errors: seq<string>)
    | NotFound(message: string)
    | ServerError(message: string)
  {
    function Status(): int {
      match this
      case Ok(_) => 200
      case Created(_) => 201
      case BadRequest(_, _) => 400
      case NotFound(_) => 404
      case ServerError(_) => 500
    }
  }

  function Min(a: int, b: int): int { if a <= b then a else b }

  // ---- GET /api/users/:id

  function GetUserRoute(s: MemStorage, id: Option<int>): (r: Response<User>)
    reads s
    ensures r.Ok? || r == NotFound("User not found")
    ensures r.NotFound? <==> id.None? || !HasKey(s.users, id.value)
    ensures r.Ok? ==> r.body == s.users[IndexOf(s.users, id.value)].value
  {
    match id
    case None => NotFound("User not found")
    case Some(k) =>
      match s.GetUser(k)
      case None => NotFound("User not found")
      case Some(u) => Ok(u)
  }

  // ---- GET list routes: always 200, an empty list for an unknown or unparsable id

  /** GET /api/users/:userId/projects: every project of the user, in the order the store holds them. */
  function UserProjectsRoute(s: MemStorage, userId: Option<int>): (r: Response<seq<Project>>)
    reads s
    ensures r.Ok?
    ensures userId.None? ==> r.body == []
    ensures userId.Some? ==> r.body == Filter(Values(s.projects), ProjectOwnedBy(userId.value))
    ensures userId.Some? ==> forall p :: p in r.body <==> p in Values(s.projects) && p.userId == userId.value
  {
    match userId
    case None => Ok([])
    case Some(u) => Ok(s.GetUserProjects(u))
  }

  /** GET /api/projects/:projectId/stages: every stage of the project, by stage number, ties in store order. */
  function ProjectStagesRoute(s: MemStorage, projectId: Option<int>): (r: Response<seq<ProjectStage>>)
    reads s
    ensures r.Ok?
    ensures projectId.None? ==> r.body == []
    ensures projectId.Some? ==>
      StableSortOf(r.body, Filter(Values(s.projectStages), StageOf(projectId.value)), StageNumber)
    ensures projectId.Some? ==> forall i :: 0 <= i < |r.body| ==> r.body[i].projectId == projectId.value
    ensures forall i, j :: 0 <= i < j < |r.body| ==> r.body[i].stageNumber <= r.body[j].stageNumber
  {
    match projectId
    case None => Ok([])
    case Some(p) => Ok(s.GetProjectStages(p))
  }

  /** GET /api/users/:userId/skills: every skill of the user, in store order. */
  function UserSkillsRoute(s: MemStorage, userId: Option<int>): (r: Response<seq<Skill>>)
    reads s
    ensures r.Ok?
    ensures userId.None? ==> r.body == []
    ensures userId.Some? ==> r.body == Filter(Values(s.skills), SkillOwnedBy(userId.value))
    ensures userId.Some? ==> forall k :: k in r.body <==> k in Values(s.skills) && k.userId == userId.value
  {
    match userId
    case None => Ok([])
    case Some(u) => Ok(s.GetUserSkills(u))
  }

  /** GET /api/achievements: the whole catalog, in store order. */
  function AchievementsRoute(s: MemStorage): (r: Response<seq<Achievement>>)
    reads s
    ensures r.Ok? && r.body == Values(s.achievements)
  {
    Ok(s.GetAllAchievements())
  }

  /** GET /api/users/:userId/learning-paths: every learning path of the user, in store order. */
  function UserLearningPathsRoute(s: MemStorage, userId: Option<int>): (r: Response<seq<LearningPath>>)
    reads s
    ensures r.Ok?
    ensures userId.None? ==> r.body == []
    ensures userId.Some? ==> r.body == Filter(Values(s.learningPaths), PathOwnedBy(userId.value))
    ensures userId.Some? ==>
      forall lp :: lp in r.body <==> lp in Values(s.learningPaths) && lp.userId == userId.value
  {
    match userId
    case None => Ok([])
    case Some(u) => Ok(s.GetUserLearningPaths(u))
  }

  /** GET /api/users/:userId/activities: every activity of the user, newest first, ties in store order. */
  function UserActivitiesRoute(s: MemStorage, userId: Option<int>): (r: Response<seq<Activity>>)
    reads s
    ensures r.Ok?
    ensures userId.None? ==> r.body == []
    ensures userId.Some? ==>
      StableSortOf(r.body, Filter(Values(s.activities), ActivityOf(userId.value)), NewestActivityFirst)
    ensures userId.Some? ==> forall i :: 0 <= i < |r.body| ==> r.body[i].userId == userId.value
    ensures forall i, j :: 0 <= i < j < |r.body| ==> r.body[i].createdAt >= r.body[j].createdAt
  {
    match userId
    case None => Ok([])
    case Some(u) => Ok(s.GetUserActivities(u))
  }

  // ---- The achievements join: `{ ...ua, achievement }`

  datatype AchievementDetails = AchievementDetails(unlock: UserAchievement, achievement: Option<Achievement>)

  function HasId(achievementId: int): Achievement -> bool { (a: Achievement) => a.id == achievementId }

  /** `allAchievements.find(a => a.id === ua.achievementId)`: the first catalog entry with that id. */
  function CatalogEntry(catalog: seq<Achievement>, achievementId: int): (r: Option<Achievement>)
    ensures r.None? <==> forall i :: 0 <= i < |catalog| ==> catalog[i].id != achievementId
    ensures r.Some? ==> r.value.id == achievementId
    ensures r.Some? ==>
      exists i :: 0 <= i < |catalog| && catalog[i] == r.value &&
        forall j :: 0 <= j < i ==> catalog[j].id != achievementId
  {
    Find(catalog, HasId(achievementId))
  }

  /** `userAchievements.map(...)`: each unlock, in order, paired with its catalog entry or none. */
  function WithDetails(unlocks: seq<UserAchievement>, catalog: seq<Achievement>): (r: seq<AchievementDetails>)
    ensures |r| == |unlocks|
    ensures forall i :: 0 <= i < |r| ==> r[i].unlock == unlocks[i]
    ensures forall i :: 0 <= i < |r| ==> r[i].achievement == CatalogEntry(catalog, unlocks[i].achievementId)
  {
    seq(|unlocks|, i requires 0 <= i < |unlocks| =>
      AchievementDetails(unlocks[i], CatalogEntry(catalog, unlocks[i].achievementId)))
  }

  /** Joining a prefix of the unlocks gives the prefix of the joined list. */
  lemma WithDetailsPrefix(unlocks: seq<UserAchievement>, catalog: seq<Achievement>, n: nat)
    requires n <= |unlocks|
    ensures WithDetails(unlocks[..n], catalog) == WithDetails(unlocks, catalog)[..n]
  {
  }

  /** GET /api/users/:userId/achievements: the user's unlocks, newest first, each with its catalog entry. */
  function UserAchievementsRoute(s: MemStorage, userId: Option<int>): (r: Response<seq<AchievementDetails>>)
    reads s
    ensures r.Ok?
    ensures userId.None? ==> r.body == []
    ensures userId.Some? ==> |r.body| == |s.GetUserAchievements(userId.value)|
    ensures userId.Some? ==>
      forall i :: 0 <= i < |r.body| ==> r.body[i].unlock == s.GetUserAchievements(userId.value)[i]
    ensures forall i :: 0 <= i < |r.body| ==>
              r.body[i].achievement == CatalogEntry(Values(s.achievements), r.body[i].unlock.achievementId)
    ensures forall i, j :: 0 <= i < j < |r.body| ==> r.body[i].unlock.unlockedAt >= r.body[j].unlock.unlockedAt
  {
    match userId
    case None => Ok([])
    case Some(u) => Ok(WithDetails(s.GetUserAchievements(u), s.GetAllAchievements()))
  }

  // ---- GET /api/users/:userId/dashboard

  /** Placeholder statistics the handler reports as they are. */
  const HoursThisWeek: real := 28.5
  const Collaborations: int := 8

  datatype Stats = Stats(projectsCompleted: nat, totalProjects: nat, hoursThisWeek: real, collaborations: int)

  datatype DashboardData = DashboardData(
    user: User, currentProject: Option<Project>, projectStages: seq<ProjectStage>,
    skills: seq<Skill>, recentAchievements: seq<AchievementDetails>,
    recentActivities: seq<Activity>, stats: Stats)

  function IsActive(p: Project): bool { p.status == "active" }
  function IsCompleted(p: Project): bool { p.status == "completed" }

  /** `projects.find(p => p.status === "active")`: the first active project, in creation order. */
  function FirstActive(projects: seq<Project>): (r: Option<Project>)
    ensures r.None? <==> forall i :: 0 <= i < |projects| ==> projects[i].status != "active"
    ensures r.Some? ==> r.value.status == "active"
    ensures r.Some? ==>
      exists i :: 0 <= i < |projects| && projects[i] == r.value &&
        forall j :: 0 <= j < i ==> projects[j].status != "active"
  {
    Find(projects, IsActive)
  }

  /** `userAchievements.slice(0, 3)` joined: the first entries of the achievements route. */
  function RecentAchievements(s: MemStorage, userId: int): (r: seq<AchievementDetails>)
    reads s
    ensures |r| == Min(3, |s.GetUserAchievements(userId)|)
    ensures r == UserAchievementsRoute(s, Some(userId)).body[..|r|]
  {
    var unlocks := s.GetUserAchievements(userId);
    WithDetailsPrefix(unlocks, s.GetAllAchievements(), Min(3, |unlocks|));
    WithDetails(unlocks[..Min(3, |unlocks|)], s.GetAllAchievements())
  }

  function Dashboard(s: MemStorage, userId: Option<int>): (r: Response<DashboardData>)
    reads s
    ensures r.Ok? || r == NotFound("User not found")
    ensures r.NotFound? <==> userId.None? || s.GetUser(userId.value).None?
    ensures r.Ok? ==> Some(r.body.user) == s.GetUser(userId.value)
    ensures r.Ok? ==> r.body.currentProject == FirstActive(s.GetUserProjects(userId.value))
    ensures r.Ok? && r.body.currentProject.None? ==> r.body.projectStages == []
    ensures r.Ok? && r.body.currentProject.Some? ==>
      r.body.projectStages == s.GetProjectStages(r.body.currentProject.value.id)
    ensures r.Ok? ==> r.body.skills == s.GetUserSkills(userId.value)
    ensures r.Ok? ==> |r.body.recentAchievements| == Min(3, |s.GetUserAchievements(userId.value)|)
    ensures r.Ok? ==>
      r.body.recentAchievements == UserAchievementsRoute(s, userId).body[..|r.body.recentAchievements|]
    ensures r.Ok? ==> |r.body.recentActivities| == Min(5, |s.GetUserActivities(userId.value)|)
    ensures r.Ok? ==>
      r.body.recentActivities == s.GetUserActivities(userId.value)[..|r.body.recentActivities|]
    ensures r.Ok? ==> r.body.stats.totalProjects == |s.GetUserProjects(userId.value)|
    ensures r.Ok? ==> r.body.stats.projectsCompleted == Count(s.GetUserProjects(userId.value), IsCompleted)
    ensures r.Ok? ==> r.body.stats.projectsCompleted <= r.body.stats.totalProjects
    ensures r.Ok? ==> r.body.stats.hoursThisWeek == HoursThisWeek && r.body.stats.collaborations == Collaborations
  {
    match userId
    case None => NotFound("User not found")
    case Some(uid) =>
      match s.GetUser(uid)
      case None => NotFound("User not found")
      case Some(user) =>
        var projects := s.GetUserProjects(uid);
        var activities := s.GetUserActivities(uid);
        var currentProject := FirstActive(projects);
        var stages := if currentProject.Some? then s.GetProjectStages(currentProject.value.id) else [];
        Ok(DashboardData(
          user, currentProject, stages, s.GetUserSkills(uid), RecentAchievements(s, uid),
          activities[..Min(5, |activities|)],
          Stats(Count(projects, IsCompleted), |projects|, HoursThisWeek, Collaborations)))
  }

  /** The dashboard of the seeded store's user: the seeded project is current, with its five stages. */
  method SeedDashboard(now: int) returns (r: Response<DashboardData>)
    ensures r.Ok? && r.body.user.username == "john_doe"
    ensures r.body.currentProject.Some? && r.body.currentProject.value.id == 1
    ensures |r.body.projectStages| == 5
    ensures r.body.stats.totalProjects == 1 && r.body.stats.projectsCompleted == 0
  {
    var s := new MemStorage(now);
    assert Get(s.users, 1) == Some(SeedUsers(now)[0].value);
    ghost var projects, stages := Values(s.projects), Values(s.projectStages);
    FilterAll(projects, ProjectOwnedBy(1));
    assert s.GetUserProjects(1) == projects;
    FilterAll(stages, StageOf(1));
    assert |s.GetProjectStages(1)| == |multiset(stages)| == 5;
    assert FirstActive(projects) == Some(projects[0]);
    assert Count(projects, IsCompleted) == 0;
    r := Dashboard(s, Some(1));
  }

  // ---- PUT handlers: 404 when the store's update finds no record, 200 with the merged record
  // otherwise; the table is the store's update of it, so every other record stays as it was.

  method PutUser(s: MemStorage, id: Option<int>, updates: UserPatch) returns (r: Response<User>)
    requires s.Valid()
    modifies s`users
    ensures s.Valid()
    ensures r.Ok? || r == NotFound("User not found")
    ensures r.NotFound? <==> id.None? || !HasKey(old(s.users), id.value)
    ensures id.None? ==> s.users == old(s.users)
    ensures id.Some? ==> s.users == Update(old(s.users), id.value, MergeUserWith(updates)).1
    ensures r.Ok? ==> r.body == MergeUser(Get(old(s.users), id.value).value, updates)
    ensures r.Ok? ==> Get(s.users, id.value) == Some(r.body)
    ensures forall k :: id != Some(k) ==> Get(s.users, k) == Get(old(s.users), k)
  {
    if id.None? {
      return NotFound("User not found");
    }
    var user := s.UpdateUser(id.value, updates);
    if user.None? {
      return NotFound("User not found");
    }
    r := Ok(user.value);
  }

  method PutProject(s: MemStorage, id: Option<int>, updates: ProjectPatch) returns (r: Response<Project>)
    requires s.Valid()
    modifies s`projects
    ensures s.Valid()
    ensures r.Ok? || r == NotFound("Project not found")
    ensures r.NotFound? <==> id.None? || !HasKey(old(s.projects), id.value)
    ensures id.None? ==> s.projects == old(s.projects)
    ensures id.Some? ==> s.projects == Update(old(s.projects), id.value, MergeProjectWith(updates)).1
    ensures r.Ok? ==> r.body == MergeProject(Get(old(s.projects), id.value).value, updates)
    ensures r.Ok? ==> Get(s.projects, id.value) == Some(r.body)
    ensures forall k :: id != Some(k) ==> Get(s.projects, k) == Get(old(s.projects), k)
  {
    if id.None? {
      return NotFound("Project not found");
    }
    var project := s.UpdateProject(id.value, updates);
    if project.None? {
      return NotFound("Project not found");
    }
    r := Ok(project.value);
  }

  method PutProjectStage(s: MemStorage, id: Option<int>, updates: ProjectStagePatch) returns (r: Response<ProjectStage>)
    requires s.Valid()
    modifies s`projectStages
    ensures s.Valid()
    ensures r.Ok? || r == NotFound("Project stage not found")
    ensures r.NotFound? <==> id.None? || !HasKey(old(s.projectStages), id.value)
    ensures id.None? ==> s.projectStages == old(s.projectStages)
    ensures id.Some? ==> s.projectStages == Update(old(s.projectStages), id.value, MergeProjectStageWith(updates)).1
    ensures r.Ok? ==> r.body == MergeProjectStage(Get(old(s.projectStages), id.value).value, updates)
    ensures r.Ok? ==> Get(s.projectStages, id.value) == Some(r.body)
    ensures forall k :: id != Some(k) ==> Get(s.projectStages, k) == Get(old(s.projectStages), k)
  {
    if id.None? {
      return NotFound("Project stage not found");
    }
    var stage := s.UpdateProjectStage(id.value, updates);
    if stage.None? {
      return NotFound("Project stage not found");
    }
    r := Ok(stage.value);
  }

  method PutSkill(s: MemStorage, id: Option<int>, updates: SkillPatch) returns (r: Response<Skill>)
    requires s.Valid()
    modifies s`skills
    ensures s.Valid()
    ensures r.Ok? || r == NotFound("Skill not found")
    ensures r.NotFound? <==> id.None? || !HasKey(old(s.skills), id.value)
    ensures id.None? ==> s.skills == old(s.skills)
    ensures id.Some? ==> s.skills == Update(old(s.skills), id.value, MergeSkillWith(updates)).1
    ensures r.Ok? ==> r.body == MergeSkill(Get(old(s.skills), id.value).value, updates)
    ensures r.Ok? ==> Get(s.skills, id.value) == Some(r.body)
    ensures forall k :: id != Some(k) ==> Get(s.skills, k) == Get(old(s.skills), k)
  {
    if id.None? {
      return NotFound("Skill not found");
    }
    var skill := s.UpdateSkill(id.value, updates);
    if skill.None? {
      return NotFound("Skill not found");
    }
    r := Ok(skill.value);
  }

  method PutLearningPath(s: MemStorage, id: Option<int>, updates: LearningPathPatch) returns (r: Response<LearningPath>)
    requires s.Valid()
    modifies s`learningPaths
    ensures s.Valid()
    ensures r.Ok? || r == NotFound("Learning path not found")
    ensures r.NotFound? <==> id.None? || !HasKey(old(s.learningPaths), id.value)
    ensures id.None? ==> s.learningPaths == old(s.learningPaths)
    ensures id.Some? ==> s.learningPaths == Update(old(s.learningPaths), id.value, MergeLearningPathWith(updates)).1
    ensures r.Ok? ==> r.body == MergeLearningPath(Get(old(s.learningPaths), id.value).value, updates)
    ensures r.Ok? ==> Get(s.learningPaths, id.value) == Some(r.body)
    ensures forall k :: id != Some(k) ==> Get(s.learningPaths, k) == Get(old(s.learningPaths), k)
  {
    if id.None? {
      return NotFound("Learning path not found");
    }
    var path := s.UpdateLearningPath(id.value, updates);
    if path.None? {
      return NotFound("Learning path not found");
    }
    r := Ok(path.value);
  }

  // ---- POST handlers: `schema.parse(req.body)` inside `try`. A ZodError answers 400 with its
  // messages, any other exception 500, and accepted data is created and answered with 201.

  /** What evaluating `schema.parse(req.body)` does: return the data, throw a ZodError, or throw anything else. */
  datatype Parse<T> = Accepted(data: T) | Rejected(errors: seq<string>) | Threw

  /** How a handler's schema name resolves: to an export of the shared schema, or to nothing. */
  datatype Binding = Bound | Unbound

  /**
   * Evaluating `name.parse(req.body)` where `validation` is what the schema would decide:
   * an unbound name throws a ReferenceError before the body is looked at.
   */
  function ParseWith<T>(binding: Binding, validation: Parse<T>): (r: Parse<T>)
    ensures r.Threw? <==> binding.Unbound? || validation.Threw?
    ensures binding.Bound? ==> r == validation
    ensures r.Accepted? || r.Rejected? ==> binding.Bound?
  {
    if binding.Unbound? then Threw else validation
  }

  method PostSkill(s: MemStorage, body: Parse<InsertSkill>) returns (r: Response<Skill>)
    requires s.Valid()
    modifies s`skills, s`currentSkillId
    ensures s.Valid()
    ensures r.Created? <==> body.Accepted?
    ensures body.Rejected? ==> r == BadRequest("Invalid skill data", body.errors)
    ensures body.Threw? ==> r == ServerError("Failed to create skill")
    ensures !body.Accepted? ==> s.skills == old(s.skills) && s.currentSkillId == old(s.currentSkillId)
    ensures body.Accepted? ==> r.body == NewSkill(body.data, old(s.currentSkillId))
    ensures body.Accepted? ==> s.skills == old(s.skills) + [Entry(r.body.id, r.body)]
    ensures body.Accepted? ==> s.currentSkillId == old(s.currentSkillId) + 1
    ensures body.Accepted? ==>
      s.GetUserSkills(r.body.userId) == old(s.GetUserSkills(r.body.userId)) + [r.body]
  {
    match body
    case Threw =>
      r := ServerError("Failed to create skill");
    case Rejected(errors) =>
      r := BadRequest("Invalid skill data", errors);
    case Accepted(data) =>
      ghost var before := s.skills;
      ghost var created := NewSkill(data, s.currentSkillId);
      SetFresh(before, s.currentSkillId, created);
      FilterValuesAfterAppend(before, s.currentSkillId, created, SkillOwnedBy(data.userId));
      var skill := s.CreateSkill(data);
      r := Created(skill);
  }

  method PostActivity(s: MemStorage, body: Parse<InsertActivity>, now: int) returns (r: Response<Activity>)
    requires s.Valid()
    modifies s`activities, s`currentActivityId
    ensures s.Valid()
    ensures r.Created? <==> body.Accepted?
    ensures body.Rejected? ==> r == BadRequest("Invalid activity data", body.errors)
    ensures body.Threw? ==> r == ServerError("Failed to create activity")
    ensures !body.Accepted? ==> s.activities == old(s.activities) && s.currentActivityId == old(s.currentActivityId)
    ensures body.Accepted? ==> r.body == NewActivity(body.data, old(s.currentActivityId), now)
    ensures body.Accepted? ==> s.activities == old(s.activities) + [Entry(r.body.id, r.body)]
    ensures body.Accepted? ==> s.currentActivityId == old(s.currentActivityId) + 1
    ensures body.Accepted? ==> r.body in s.GetUserActivities(r.body.userId)
  {
    match body
    case Threw =>
      r := ServerError("Failed to create activity");
    case Rejected(errors) =>
      r := BadRequest("Invalid activity data", errors);
    case Accepted(data) =>
      var activity := s.CreateActivity(data, now);
      ListedAfterCreate(s.activities, activity.id, activity, ActivityOf(activity.userId),
                        NewestActivityFirst, s.GetUserActivities(activity.userId));
      r := Created(activity);
  }

  /** A record just stored appears in a stable sort of the qualifying records. */
  lemma ListedAfterCreate<V>(t: seq<Entry<V>>, k: int, v: V, p: V -> bool, key: V -> int, listed: seq<V>)
    requires |t| > 0 && t[|t| - 1] == Entry(k, v) && p(v)
    requires StableSortOf(listed, Filter(Values(t), p), key)
    ensures v in listed
  {
    var vs := Values(t);
    assert vs == vs[..|t| - 1] + [v];
    FilterAppend(vs[..|t| - 1], [v], p);
    assert v in Filter(vs, p);
    assert v in multiset(listed);
  }

  // POST /api/projects, /api/project-stages and /api/learning-paths call `insertProjectSchema`,
  // `insertProjectStageSchema` and `insertLearningPathSchema`, names that are neither imported nor
  // exported by the shared schema. The handlers below are the three with their schemas in scope;
  // the `AsWritten` methods run them with the name unbound.

  method PostProject(s: MemStorage, body: Parse<InsertProject>, now: int) returns (r: Response<Project>)
    requires s.Valid()
    modifies s`projects, s`currentProjectId
    ensures s.Valid()
    ensures r.Created? <==> body.Accepted?
    ensures body.Rejected? ==> r == BadRequest("Invalid project data", body.errors)
    ensures body.Threw? ==> r == ServerError("Failed to create project")
    ensures !body.Accepted? ==> s.projects == old(s.projects) && s.currentProjectId == old(s.currentProjectId)
    ensures body.Accepted? ==> r.body == NewProject(body.data, old(s.currentProjectId), now)
    ensures body.Accepted? ==> s.projects == old(s.projects) + [Entry(r.body.id, r.body)]
    ensures body.Accepted? ==> s.currentProjectId == old(s.currentProjectId) + 1
    ensures body.Accepted? ==>
      s.GetUserProjects(r.body.userId) == old(s.GetUserProjects(r.body.userId)) + [r.body]
  {
    match body
    case Threw =>
      r := ServerError("Failed to create project");
    case Rejected(errors) =>
      r := BadRequest("Invalid project data", errors);
    case Accepted(data) =>
      ghost var before := s.projects;
      ghost var created := NewProject(data, s.currentProjectId, now);
      SetFresh(before, s.currentProjectId, created);
      FilterValuesAfterAppend(before, s.currentProjectId, created, ProjectOwnedBy(data.userId));
      var project := s.CreateProject(data, now);
      r := Created(project);
  }

  method PostProjectStage(s: MemStorage, body: Parse<InsertProjectStage>) returns (r: Response<ProjectStage>)
    requires s.Valid()
    modifies s`projectStages, s`currentProjectStageId
    ensures s.Valid()
    ensures r.Created? <==> body.Accepted?
    ensures body.Rejected? ==> r == BadRequest("Invalid stage data", body.errors)
    ensures body.Threw? ==> r == ServerError("Failed to create project stage")
    ensures !body.Accepted? ==> s.projectStages == old(s.projectStages) && s.currentProjectStageId == old(s.currentProjectStageId)
    ensures body.Accepted? ==> r.body == NewProjectStage(body.data, old(s.currentProjectStageId))
    ensures body.Accepted? ==> s.projectStages == old(s.projectStages) + [Entry(r.body.id, r.body)]
    ensures body.Accepted? ==> s.currentProjectStageId == old(s.currentProjectStageId) + 1
    ensures body.Accepted? ==> r.body in s.GetProjectStages(r.body.projectId)
  {
    match body
    case Threw =>
      r := ServerError("Failed to create project stage");
    case Rejected(errors) =>
      r := BadRequest("Invalid stage data", errors);
    case Accepted(data) =>
      var stage := s.CreateProjectStage(data);
      ListedAfterCreate(s.projectStages, stage.id, stage, StageOf(stage.projectId),
                        StageNumber, s.GetProjectStages(stage.projectId));
      r := Created(stage);
  }

  method PostLearningPath(s: MemStorage, body: Parse<InsertLearningPath>, now: int) returns (r: Response<LearningPath>)
    requires s.Valid()
    modifies s`learningPaths, s`currentLearningPathId
    ensures s.Valid()
    ensures r.Created? <==> body.Accepted?
    ensures body.Rejected? ==> r == BadRequest("Invalid learning path data", body.errors)
    ensures body.Threw? ==> r == ServerError("Failed to create learning path")
    ensures !body.Accepted? ==> s.learningPaths == old(s.learningPaths) && s.currentLearningPathId == old(s.currentLearningPathId)
    ensures body.Accepted? ==> r.body == NewLearningPath(body.data, old(s.currentLearningPathId), now)
    ensures body.Accepted? ==> s.learningPaths == old(s.learningPaths) + [Entry(r.body.id, r.body)]
    ensures body.Accepted? ==> s.currentLearningPathId == old(s.currentLearningPathId) + 1
    ensures body.Accepted? ==>
      s.GetUserLearningPaths(r.body.userId) == old(s.GetUserLearningPaths(r.body.userId)) + [r.body]
  {
    match body
    case Threw =>
      r := ServerError("Failed to create learning path");
    case Rejected(errors) =>
      r := BadRequest("Invalid learning path data", errors);
    case Accepted(data) =>
      ghost var before := s.learningPaths;
      ghost var created := NewLearningPath(data, s.currentLearningPathId, now);
      SetFresh(before, s.currentLearningPathId, created);
      FilterValuesAfterAppend(before, s.currentLearningPathId, created, PathOwnedBy(data.userId));
      var path := s.CreateLearningPath(data, now);
      r := Created(path);
  }

  /** POST /api/projects as written: whatever the body, the unbound schema name throws, and nothing is stored. */
  method PostProjectAsWritten(s: MemStorage, validation: Parse<InsertProject>, now: int) returns (r: Response<Project>)
    requires s.Valid()
    modifies s`projects, s`currentProjectId
    ensures s.Valid()
    ensures r == ServerError("Failed to create project")
    ensures s.projects == old(s.projects) && s.currentProjectId == old(s.currentProjectId)
  {
    r := PostProject(s, ParseWith(Unbound, validation), now);
  }

  /**
   * On the same valid body and the same store, the handler as written answers 500 and
   * stores nothing, after which the handler with its schema in scope answers 201 with
   * the record it appended under the counter.
   */
  method ProjectPostDiffers(s: MemStorage, data: InsertProject, now: int)
    returns (asWritten: Response<Project>, corrected: Response<Project>)
    requires s.Valid()
    modifies s`projects, s`currentProjectId
    ensures asWritten.Status() == 500 && corrected.Status() == 201
    ensures corrected.body == NewProject(data, old(s.currentProjectId), now)
    ensures s.projects == old(s.projects) + [Entry(corrected.body.id, corrected.body)]
  {
    asWritten := PostProjectAsWritten(s, Accepted(data), now);
    corrected := PostProject(s, ParseWith(Bound, Accepted(data)), now);
  }

  /** POST /api/project-stages as written: whatever the body, the unbound schema name throws, and nothing is stored. */
  method PostProjectStageAsWritten(s: MemStorage, validation: Parse<InsertProjectStage>) returns (r: Response<ProjectStage>)
    requires s.Valid()
    modifies s`projectStages, s`currentProjectStageId
    ensures s.Valid()
    ensures r == ServerError("Failed to create project stage")
    ensures s.projectStages == old(s.projectStages) && s.currentProjectStageId == old(s.currentProjectStageId)
  {
    r := PostProjectStage(s, ParseWith(Unbound, validation));
  }

  /**
   * On the same valid body and the same store, the handler as written answers 500 and
   * stores nothing, after which the handler with its schema in scope answers 201 with
   * the record it appended under the counter.
   */
  method ProjectStagePostDiffers(s: MemStorage, data: InsertProjectStage, now: int)
    returns (asWritten: Response<ProjectStage>, corrected: Response<ProjectStage>)
    requires s.Valid()
    modifies s`projectStages, s`currentProjectStageId
    ensures asWritten.Status() == 500 && corrected.Status() == 201
    ensures corrected.body == NewProjectStage(data, old(s.currentProjectStageId))
    ensures s.projectStages == old(s.projectStages) + [Entry(corrected.body.id, corrected.body)]
  {
    asWritten := PostProjectStageAsWritten(s, Accepted(data));
    corrected := PostProjectStage(s, ParseWith(Bound, Accepted(data)));
  }

  /** POST /api/learning-paths as written: whatever the body, the unbound schema name throws, and nothing is stored. */
  method PostLearningPathAsWritten(s: MemStorage, validation: Parse<InsertLearningPath>, now: int) returns (r: Response<LearningPath>)
    requires s.Valid()
    modifies s`learningPaths, s`currentLearningPathId
    ensures s.Valid()
    ensures r == ServerError("Failed to create learning path")
    ensures s.learningPaths == old(s.learningPaths) && s.currentLearningPathId == old(s.currentLearningPathId)
  {
    r := PostLearningPath(s, ParseWith(Unbound, validation), now);
  }

  /**
   * On the same valid body and the same store, the handler as written answers 500 and
   * stores nothing, after which the handler with its schema in scope answers 201 with
   * the record it appended under the counter.
   */
  method LearningPathPostDiffers(s: MemStorage, data: InsertLearningPath, now: int)
    returns (asWritten: Response<LearningPath>, corrected: Response<LearningPath>)
    requires s.Valid()
    modifies s`learningPaths, s`currentLearningPathId
    ensures asWritten.Status() == 500 && corrected.Status() == 201
    ensures corrected.body == NewLearningPath(data, old(s.currentLearningPathId), now)
    ensures s.learningPaths == old(s.learningPaths) + [Entry(corrected.body.id, corrected.body)]
  {
    asWritten := PostLearningPathAsWritten(s, Accepted(data), now);
    corrected := PostLearningPath(s, ParseWith(Bound, Accepted(data)), now);
  }
}
