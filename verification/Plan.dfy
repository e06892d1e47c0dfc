/** The interview plan the machine routes over (app/backend/orchestrator/plan.py). */
module InterviewPlan {
  import opened Common

  datatype Competency = Competency(
    nodeId: string,
    labelUk: string,
    targetLevel: int,
    minutes: int,
    seeds: seq<string>,
    probes: seq<string>)
  {
    predicate Valid()
    {
      && 1 <= |nodeId| && 1 <= |labelUk|
      && 1 <= targetLevel <= 5
      && 1 <= minutes
      && 1 <= |seeds|
      && (forall k :: 0 <= k < |seeds| ==> 1 <= |seeds[k]|)
      && (forall k :: 0 <= k < |probes| ==> 1 <= |probes[k]|)
    }

    function SeedQuestion(index: int): Option<string>
    {
      if 0 <= index < |seeds| then Some(seeds[index]) else None
    }

    function ProbeBranch(index: int): Option<string>
    {
      if 0 <= index < |probes| then Some(probes[index]) else None
    }
  }

  datatype Plan = Plan(
    version: int,
    competencies: seq<Competency>,
    qaMinutes: int,
    sessionMaxMinutes: int)
  {
    predicate Valid()
    {
      && 1 <= version
      && 1 <= |competencies|
      && (forall k :: 0 <= k < |competencies| ==> competencies[k].Valid())
      && 0 <= qaMinutes
      && 1 <= sessionMaxMinutes
    }

    function CompetencyAt(index: int): Option<Competency>
    {
      if 0 <= index < |competencies| then Some(competencies[index]) else None
    }
  }

  /** A raw payload: not a JSON object, an object of the wrong shape, or an object
      whose fields have the right types but may still be out of bounds. */
  datatype RawPlan = NotAnObject | WrongShape | Shaped(plan: Plan)

  function ValidatePlan(raw: RawPlan): Option<Plan>
  {
    if raw.Shaped? && raw.plan.Valid() then Some(raw.plan) else None
  }
}
