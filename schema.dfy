/**
 * The records the store holds, the shapes `create*` accepts and the partial
 * records `update*` merges. Timestamps are milliseconds since the epoch
 * (`Date.getTime()`); a nullable or optional column is an `Option`.
 */
module Schema {
  import opened Wrappers

  /** A JSON column (an achievement's condition, an activity's metadata, a learning
      path's body), kept as its serialised text. A learning path's columns other than
      id, userId and createdAt are held as one such payload, so an update replaces
      them together rather than key by key. */
  type Json = string

  datatype User = User(
    id: int, username: string, email: string, name: string,
    recruitmentStage: Option<string>, xp: int, level: int, streak: int,
    lastActive: Option<int>, avatar: Option<string>, becRole: Option<string>,
    joinedDate: Option<int>, createdAt: Option<int>)

  datatype InsertUser = InsertUser(
    username: string, email: string, name: string,
    recruitmentStage: Option<string>, xp: int, level: int, streak: int,
    lastActive: Option<int>, avatar: Option<string>, becRole: Option<string>,
    joinedDate: Option<int>)

  /** `Partial<User>`: `Some` for each key present in the update body. */
  datatype UserPatch = UserPatch(
    id: Option<int>, username: Option<string>, email: Option<string>, name: Option<string>,
    recruitmentStage: Option<Option<string>>, xp: Option<int>, level: Option<int>,
    streak: Option<int>, lastActive: Option<Option<int>>, avatar: Option<Option<string>>,
    becRole: Option<Option<string>>, joinedDate: Option<Option<int>>,
    createdAt: Option<Option<int>>)

  datatype Project = Project(
    id: int, userId: int, name: string, description: string, status: string,
    currentStage: int, totalStages: int, xpReward: int,
    startDate: Option<int>, expectedEndDate: Option<int>, completedAt: Option<int>)

  datatype InsertProject = InsertProject(
    userId: int, name: string, description: string, status: string,
    currentStage: int, totalStages: int, xpReward: int, expectedEndDate: Option<int>)

  datatype ProjectPatch = ProjectPatch(
    id: Option<int>, userId: Option<int>, name: Option<string>, description: Option<string>,
    status: Option<string>, currentStage: Option<int>, totalStages: Option<int>,
    xpReward: Option<int>, startDate: Option<Option<int>>,
    expectedEndDate: Option<Option<int>>, completedAt: Option<Option<int>>)

  datatype ProjectStage = ProjectStage(
    id: int, projectId: int, stageNumber: int, name: string, description: string,
    xpReward: int, isCompleted: bool, completedAt: Option<int>)

  datatype InsertProjectStage = InsertProjectStage(
    projectId: int, stageNumber: int, name: string, description: string,
    xpReward: int, isCompleted: bool)

  datatype ProjectStagePatch = ProjectStagePatch(
    id: Option<int>, projectId: Option<int>, stageNumber: Option<int>, name: Option<string>,
    description: Option<string>, xpReward: Option<int>, isCompleted: Option<bool>,
    completedAt: Option<Option<int>>)

  /** A skill. `proficiency`, `level` and `xpEarned` are columns with a default, which
      the insert schema makes optional; `None` is a key the stored record lacks, since
      `createSkill` stores the parsed body without filling the default in. */
  datatype Skill = Skill(
    id: int, userId: int, name: string, category: string, proficiency: Option<int>,
    level: Option<string>, xpEarned: Option<int>)

  datatype InsertSkill = InsertSkill(
    userId: int, name: string, category: string, proficiency: Option<int>,
    level: Option<string>, xpEarned: Option<int>)

  datatype SkillPatch = SkillPatch(
    id: Option<int>, userId: Option<int>, name: Option<string>, category: Option<string>,
    proficiency: Option<int>, level: Option<string>, xpEarned: Option<int>)

  datatype Achievement = Achievement(
    id: int, name: string, description: string, icon: string, category: string,
    xpReward: int, condition: Option<Json>)

  datatype UserAchievement = UserAchievement(
    id: int, userId: int, achievementId: int, unlockedAt: int)

  datatype InsertUserAchievement = InsertUserAchievement(userId: int, achievementId: int)

  /** A learning path: its id, owner and creation time, and an opaque body. */
  datatype LearningPath = LearningPath(
    id: int, userId: int, payload: Json, createdAt: Option<int>)

  datatype InsertLearningPath = InsertLearningPath(userId: int, payload: Json)

  datatype LearningPathPatch = LearningPathPatch(
    id: Option<int>, userId: Option<int>, payload: Option<Json>,
    createdAt: Option<Option<int>>)

  /** An activity. `xpGained` has a column default, so a body may leave it out; `None`
      is then a key the stored record lacks. */
  datatype Activity = Activity(
    id: int, userId: int, activityType: string, description: string, xpGained: Option<int>,
    metadata: Option<Json>, createdAt: int)

  datatype InsertActivity = InsertActivity(
    userId: int, activityType: string, description: string, xpGained: Option<int>,
    metadata: Option<Json>)

  // The records `create*` builds: the input's fields, then the id and the
  // server-side stamps, which win over anything the input carried.

  /** The fields of a user that an `InsertUser` carries. */
  function UserInput(u: User): InsertUser {
    InsertUser(u.username, u.email, u.name, u.recruitmentStage, u.xp, u.level, u.streak,
               u.lastActive, u.avatar, u.becRole, u.joinedDate)
  }

  function ProjectInput(p: Project): InsertProject {
    InsertProject(p.userId, p.name, p.description, p.status, p.currentStage, p.totalStages,
                  p.xpReward, p.expectedEndDate)
  }

  function ProjectStageInput(s: ProjectStage): InsertProjectStage {
    InsertProjectStage(s.projectId, s.stageNumber, s.name, s.description, s.xpReward, s.isCompleted)
  }

  function SkillInput(s: Skill): InsertSkill {
    InsertSkill(s.userId, s.name, s.category, s.proficiency, s.level, s.xpEarned)
  }

  function UserAchievementInput(ua: UserAchievement): InsertUserAchievement {
    InsertUserAchievement(ua.userId, ua.achievementId)
  }

  function LearningPathInput(lp: LearningPath): InsertLearningPath {
    InsertLearningPath(lp.userId, lp.payload)
  }

  function ActivityInput(a: Activity): InsertActivity {
    InsertActivity(a.userId, a.activityType, a.description, a.xpGained, a.metadata)
  }

  /** A new user keeps the input, except that `lastActive` is overwritten by the creation time. */
  function NewUser(input: InsertUser, id: int, now: int): (r: User)
    ensures r.id == id && r.createdAt == Some(now) && r.lastActive == Some(now)
    ensures UserInput(r) == input.(lastActive := Some(now))
  {
    User(id, input.username, input.email, input.name, input.recruitmentStage,
         input.xp, input.level, input.streak, Some(now), input.avatar, input.becRole,
         input.joinedDate, Some(now))
  }

  function NewProject(input: InsertProject, id: int, now: int): (r: Project)
    ensures r.id == id && r.startDate == Some(now) && r.completedAt == None
    ensures ProjectInput(r) == input
  {
    Project(id, input.userId, input.name, input.description, input.status,
            input.currentStage, input.totalStages, input.xpReward,
            Some(now), input.expectedEndDate, None)
  }

  /** A new stage is never completed-at, even when the input marks it completed. */
  function NewProjectStage(input: InsertProjectStage, id: int): (r: ProjectStage)
    ensures r.id == id && r.completedAt == None && r.isCompleted == input.isCompleted
    ensures ProjectStageInput(r) == input
  {
    ProjectStage(id, input.projectId, input.stageNumber, input.name, input.description,
                 input.xpReward, input.isCompleted, None)
  }

  function NewSkill(input: InsertSkill, id: int): (r: Skill)
    ensures r.id == id && SkillInput(r) == input
  {
    Skill(id, input.userId, input.name, input.category, input.proficiency,
          input.level, input.xpEarned)
  }

  function NewUserAchievement(input: InsertUserAchievement, id: int, now: int): (r: UserAchievement)
    ensures r.id == id && r.unlockedAt == now && UserAchievementInput(r) == input
  {
    UserAchievement(id, input.userId, input.achievementId, now)
  }

  function NewLearningPath(input: InsertLearningPath, id: int, now: int): (r: LearningPath)
    ensures r.id == id && r.createdAt == Some(now) && LearningPathInput(r) == input
  {
    LearningPath(id, input.userId, input.payload, Some(now))
  }

  function NewActivity(input: InsertActivity, id: int, now: int): (r: Activity)
    ensures r.id == id && r.createdAt == now && ActivityInput(r) == input
  {
    Activity(id, input.userId, input.activityType, input.description, input.xpGained,
             input.metadata, now)
  }

  // Shallow merge `{ ...record, ...updates }`: each key present in the update
  // replaces the record's value, including `id`; every other key is kept.

  /** An empty update copies the user; an `id` key in the update replaces the id, otherwise it is kept. */
  function MergeUser(u: User, p: UserPatch): (m: User)
    ensures p == UserPatch(None, None, None, None, None, None, None, None, None, None, None, None, None) ==> m == u
    ensures m.id == if p.id.Some? then p.id.value else u.id
  {
    User(p.id.GetOr(u.id), p.username.GetOr(u.username), p.email.GetOr(u.email),
         p.name.GetOr(u.name), p.recruitmentStage.GetOr(u.recruitmentStage),
         p.xp.GetOr(u.xp), p.level.GetOr(u.level), p.streak.GetOr(u.streak),
         p.lastActive.GetOr(u.lastActive), p.avatar.GetOr(u.avatar),
         p.becRole.GetOr(u.becRole), p.joinedDate.GetOr(u.joinedDate),
         p.createdAt.GetOr(u.createdAt))
  }

  function MergeProject(r: Project, p: ProjectPatch): (m: Project)
    ensures p == ProjectPatch(None, None, None, None, None, None, None, None, None, None, None) ==> m == r
    ensures m.id == if p.id.Some? then p.id.value else r.id
    ensures m.userId == if p.userId.Some? then p.userId.value else r.userId
  {
    Project(p.id.GetOr(r.id), p.userId.GetOr(r.userId), p.name.GetOr(r.name),
            p.description.GetOr(r.description), p.status.GetOr(r.status),
            p.currentStage.GetOr(r.currentStage), p.totalStages.GetOr(r.totalStages),
            p.xpReward.GetOr(r.xpReward), p.startDate.GetOr(r.startDate),
            p.expectedEndDate.GetOr(r.expectedEndDate), p.completedAt.GetOr(r.completedAt))
  }

  function MergeProjectStage(r: ProjectStage, p: ProjectStagePatch): (m: ProjectStage)
    ensures p == ProjectStagePatch(None, None, None, None, None, None, None, None) ==> m == r
    ensures m.id == if p.id.Some? then p.id.value else r.id
    ensures m.projectId == if p.projectId.Some? then p.projectId.value else r.projectId
  {
    ProjectStage(p.id.GetOr(r.id), p.projectId.GetOr(r.projectId),
                 p.stageNumber.GetOr(r.stageNumber), p.name.GetOr(r.name),
                 p.description.GetOr(r.description), p.xpReward.GetOr(r.xpReward),
                 p.isCompleted.GetOr(r.isCompleted), p.completedAt.GetOr(r.completedAt))
  }

  function MergeSkill(r: Skill, p: SkillPatch): (m: Skill)
    ensures p == SkillPatch(None, None, None, None, None, None, None) ==> m == r
    ensures m.id == if p.id.Some? then p.id.value else r.id
    ensures m.userId == if p.userId.Some? then p.userId.value else r.userId
  {
    Skill(p.id.GetOr(r.id), p.userId.GetOr(r.userId), p.name.GetOr(r.name),
          p.category.GetOr(r.category),
          if p.proficiency.Some? then p.proficiency else r.proficiency,
          if p.level.Some? then p.level else r.level,
          if p.xpEarned.Some? then p.xpEarned else r.xpEarned)
  }

  function MergeLearningPath(r: LearningPath, p: LearningPathPatch): (m: LearningPath)
    ensures p == LearningPathPatch(None, None, None, None) ==> m == r
    ensures m.id == if p.id.Some? then p.id.value else r.id
    ensures m.userId == if p.userId.Some? then p.userId.value else r.userId
  {
    LearningPath(p.id.GetOr(r.id), p.userId.GetOr(r.userId), p.payload.GetOr(r.payload),
                 p.createdAt.GetOr(r.createdAt))
  }

  // The merges as functions of the old record, the form `Tables.Update` takes.

  function MergeUserWith(p: UserPatch): User -> User { u => MergeUser(u, p) }
  function MergeProjectWith(p: ProjectPatch): Project -> Project { r => MergeProject(r, p) }
  function MergeProjectStageWith(p: ProjectStagePatch): ProjectStage -> ProjectStage {
    r => MergeProjectStage(r, p)
  }
  function MergeSkillWith(p: SkillPatch): Skill -> Skill { r => MergeSkill(r, p) }
  function MergeLearningPathWith(p: LearningPathPatch): LearningPath -> LearningPath {
    r => MergeLearningPath(r, p)
  }

  /** Merging the same update a second time changes nothing. */
  lemma MergesAreIdempotent(u: User, up: UserPatch, pr: Project, pp: ProjectPatch,
                            st: ProjectStage, sp: ProjectStagePatch, sk: Skill, kp: SkillPatch,
                            lp: LearningPath, lpp: LearningPathPatch)
    ensures MergeUser(MergeUser(u, up), up) == MergeUser(u, up)
    ensures MergeProject(MergeProject(pr, pp), pp) == MergeProject(pr, pp)
    ensures MergeProjectStage(MergeProjectStage(st, sp), sp) == MergeProjectStage(st, sp)
    ensures MergeSkill(MergeSkill(sk, kp), kp) == MergeSkill(sk, kp)
    ensures MergeLearningPath(MergeLearningPath(lp, lpp), lpp) == MergeLearningPath(lp, lpp)
  {
  }
}
