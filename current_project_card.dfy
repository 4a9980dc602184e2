/**
 * The current-project card: each stage drawn as completed, in progress or
 * upcoming by four conditionals that test the same two conditions in the same
 * order, and the overall progress ratio.
 */
module CurrentProjectCard {
  import opened Wrappers
  import opened Text
  import opened Schema

  datatype StageState = Completed | InProgress | Upcoming

  /** Completion wins over position; otherwise the stage numbered `currentStage` is in progress. */
  function StateOf(stage: ProjectStage, currentStage: int): (st: StageState)
    ensures st == Completed <==> stage.isCompleted
    ensures st == InProgress <==> !stage.isCompleted && stage.stageNumber == currentStage
    ensures st == Upcoming <==> !stage.isCompleted && stage.stageNumber != currentStage
  {
    if stage.isCompleted then Completed
    else if stage.stageNumber == currentStage then InProgress
    else Upcoming
  }

  // The four conditionals as the card writes them, each on the stage's raw fields.

  function CircleClass(stage: ProjectStage, currentStage: int): (r: string)
    ensures r == "bg-success" <==> StateOf(stage, currentStage) == Completed
    ensures r == "bg-primary" <==> StateOf(stage, currentStage) == InProgress
    ensures r == "bg-gray-200" <==> StateOf(stage, currentStage) == Upcoming
  {
    if stage.isCompleted then "bg-success"
    else if stage.stageNumber == currentStage then "bg-primary"
    else "bg-gray-200"
  }

  datatype Marker = CheckMark | CodeMark | Number(n: int)

  function StageMarker(stage: ProjectStage, currentStage: int): (r: Marker)
    ensures r == CheckMark <==> StateOf(stage, currentStage) == Completed
    ensures r == CodeMark <==> StateOf(stage, currentStage) == InProgress
    ensures r.Number? <==> StateOf(stage, currentStage) == Upcoming
    ensures r.Number? ==> r.n == stage.stageNumber
  {
    if stage.isCompleted then CheckMark
    else if stage.stageNumber == currentStage then CodeMark
    else Number(stage.stageNumber)
  }

  function NameClass(stage: ProjectStage, currentStage: int): (r: string)
    ensures r == "text-gray-700" <==> StateOf(stage, currentStage) == Completed
    ensures r == "text-gray-900 font-medium" <==> StateOf(stage, currentStage) == InProgress
    ensures r == "text-gray-400" <==> StateOf(stage, currentStage) == Upcoming
  {
    if stage.isCompleted then "text-gray-700"
    else if stage.stageNumber == currentStage then "text-gray-900 font-medium"
    else "text-gray-400"
  }

  /** The trailing label: only a completed stage shows its reward. */
  function Label(stage: ProjectStage, currentStage: int): (r: string)
    ensures StateOf(stage, currentStage) == Completed ==> r == "+" + IntToString(stage.xpReward) + " XP"
    ensures StateOf(stage, currentStage) == InProgress ==> r == "In Progress"
    ensures StateOf(stage, currentStage) == Upcoming ==> r == "Upcoming"
  {
    if stage.isCompleted then "+" + IntToString(stage.xpReward) + " XP"
    else if stage.stageNumber == currentStage then "In Progress"
    else "Upcoming"
  }

  /** A label that mentions XP belongs to a completed stage. */
  lemma OnlyCompletedShowXp(stage: ProjectStage, currentStage: int)
    ensures var r := Label(stage, currentStage);
      (|r| >= 3 && r[|r| - 3..] == " XP") <==> StateOf(stage, currentStage) == Completed
  {
    var r := Label(stage, currentStage);
    if stage.isCompleted {
      assert r[|r| - 3..] == " XP";
    } else if stage.stageNumber == currentStage {
      assert r[|r| - 3..] == "ess";
    } else {
      assert r[|r| - 3..] == "ing";
    }
  }

  /** The four conditionals agree: each stage is drawn in one state throughout. */
  lemma ConditionalsAgree(stage: ProjectStage, currentStage: int)
    ensures var st := StateOf(stage, currentStage);
      && (CircleClass(stage, currentStage) == "bg-success" <==> StageMarker(stage, currentStage) == CheckMark)
      && (CircleClass(stage, currentStage) == "bg-success" <==> NameClass(stage, currentStage) == "text-gray-700")
      && (CircleClass(stage, currentStage) == "bg-primary" <==> StageMarker(stage, currentStage) == CodeMark)
      && (CircleClass(stage, currentStage) == "bg-primary" <==> Label(stage, currentStage) == "In Progress")
      && (CircleClass(stage, currentStage) == "bg-gray-200" <==> Label(stage, currentStage) == "Upcoming")
  {
    if stage.isCompleted {
      OnlyCompletedShowXp(stage, currentStage);
    }
  }

  /**
   * `(currentStage / totalStages) * 100` on exact reals; JavaScript's division by
   * zero (`Infinity` or `NaN`) is `None`.
   */
  function ProgressPercent(currentStage: int, totalStages: int): (r: Option<real>)
    ensures r.None? <==> totalStages == 0
    ensures r.Some? && 0 <= currentStage <= totalStages ==> 0.0 <= r.value <= 100.0
    ensures r.Some? ==> r.value * totalStages as real == currentStage as real * 100.0
  {
    if totalStages == 0 then None
    else Some(currentStage as real / totalStages as real * 100.0)
  }
}
