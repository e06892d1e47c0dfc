/** How long a plan and the things said in a session may be for every request to fit. */
module DevSessionLimits {
  import opened Common
  import opened InterviewPlan
  import opened RequestPayload
  import opened StateMachine
  import opened MachineInvariant
  import opened MachineEdges
  import opened DevSession
  import opened DevSessionDrive
  import opened DevSessionRuns
  import MachineAssessments
  import DevSessionTrail

  // ---------- what a list and an object come to ----------

  function Sum(widths: seq<nat>): nat
  {
    if widths == [] then 0 else Sum(Front(widths)) + Last(widths)
  }

  lemma {:induction false} FieldsAtMost(j: Json, n: nat, widths: seq<nat>)
    requires j.Object? && n == |widths| <= |j.fields|
    requires forall k :: 0 <= k < n ==> |j.fields[k].key| <= 40 && Width(j.fields[k].value) <= widths[k]
    ensures PartsWidth(j, n) <= 244 * n + Sum(widths)
    decreases n
  {
    if n > 0 {
      assert forall k :: 0 <= k < n - 1 ==> Front(widths)[k] == widths[k];
      FieldsAtMost(j, n - 1, Front(widths));
      TextIsAtMostSixfold(j.fields[n - 1].key);
    }
  }

  /** Each field's value within its own bound. */
  lemma ObjectAtMost(fields: seq<Field>, widths: seq<nat>)
    requires |fields| == |widths|
    requires forall k :: 0 <= k < |fields| ==> |fields[k].key| <= 40 && Width(fields[k].value) <= widths[k]
    ensures Width(Object(fields)) <= 2 + 246 * |fields| + Sum(widths)
  {
    FieldsAtMost(Object(fields), |fields|, widths);
  }

  lemma SumSnoc(widths: seq<nat>, w: nat)
    ensures Sum(widths + [w]) == Sum(widths) + w
  {
    assert Front(widths + [w]) == widths;
  }

  lemma SumOfThree(a: nat, b: nat, x: nat)
    ensures Sum([a, b]) == a + b && Sum([a, b, x]) == a + b + x
  {
    assert [a] == [] + [a] && [a, b] == [a] + [b] && [a, b, x] == [a, b] + [x];
    SumSnoc([], a);
    SumSnoc([a], b);
    SumSnoc([a, b], x);
  }

  lemma SumOfSix(a: nat, b: nat, x: nat, d: nat, e: nat, f: nat)
    ensures Sum([a, b, x, d, e]) == a + b + x + d + e && Sum([a, b, x, d, e, f]) == a + b + x + d + e + f
  {
    SumOfThree(a, b, x);
    assert [a, b, x, d] == [a, b, x] + [d] && [a, b, x, d, e] == [a, b, x, d] + [e];
    assert [a, b, x, d, e, f] == [a, b, x, d, e] + [f];
    SumSnoc([a, b, x], d);
    SumSnoc([a, b, x, d], e);
    SumSnoc([a, b, x, d, e], f);
  }

  predicate FieldWithin(f: Field, width: nat)
  {
    |f.key| <= 40 && Width(f.value) <= width
  }

  lemma SixWithin(a: Field, b: Field, x: Field, d: Field, e: Field, f: Field,
                  wa: nat, wb: nat, wx: nat, wd: nat, we: nat, wf: nat)
    requires FieldWithin(a, wa) && FieldWithin(b, wb) && FieldWithin(x, wx)
    requires FieldWithin(d, wd) && FieldWithin(e, we) && FieldWithin(f, wf)
    ensures Width(Object([a, b, x, d, e, f])) <= 1_478 + wa + wb + wx + wd + we + wf
  {
    SumOfSix(wa, wb, wx, wd, we, wf);
    ObjectAtMost([a, b, x, d, e, f], [wa, wb, wx, wd, we, wf]);
  }

  lemma FiveWithin(a: Field, b: Field, x: Field, d: Field, e: Field, wa: nat, wb: nat, wx: nat, wd: nat, we: nat)
    requires FieldWithin(a, wa) && FieldWithin(b, wb) && FieldWithin(x, wx) && FieldWithin(d, wd) && FieldWithin(e, we)
    ensures Width(Object([a, b, x, d, e])) <= 1_232 + wa + wb + wx + wd + we
  {
    SumOfSix(wa, wb, wx, wd, we, 0);
    ObjectAtMost([a, b, x, d, e], [wa, wb, wx, wd, we]);
  }

  /** An item is never wider than its list. */
  lemma ItemIsWithin(items: seq<Json>, k: nat)
    requires k < |items|
    ensures Width(items[k]) <= Width(List(items))
  {
    PartsGrow(List(items), k, |items|);
  }

  lemma {:induction false} DigitsGrow(m: nat, n: nat)
    requires m <= n
    ensures Digits(m) <= Digits(n) <= n + 1
    decreases n
  {
    if m >= 10 {
      DigitsGrow(m / 10, n / 10);
    } else if n >= 10 {
      DigitsGrow(0, n / 10);
    }
  }

  lemma {:induction false} ListIsAtLeastItsLength(items: seq<Json>, n: nat)
    requires n <= |items|
    ensures n <= PartsWidth(List(items), n)
    decreases n
  {
    if n > 0 {
      ListIsAtLeastItsLength(items, n - 1);
      WidthIsPositive(items[n - 1]);
    }
  }

  lemma WidthIsPositive(j: Json)
    ensures 1 <= Width(j)
  {
  }

  // ---------- parts of the plan ----------

  /** The competency's id, label and seeds are within the plan's own JSON. */
  lemma CompetencyIsWithin(plan: Plan, k: nat)
    requires k < |plan.competencies|
    ensures Width(CompetencyJson(plan.competencies[k])) <= Width(PlanJson(plan))
  {
    var items := CompetenciesJson(plan.competencies);
    ItemIsWithin(items, k);
    assert PlanJson(plan).fields[1].value == List(items);
    FieldIsWithin(PlanJson(plan), 1);
  }

  lemma TextsAreWithin(texts: seq<string>, i: nat)
    requires i < |texts|
    ensures Width(Text(texts[i])) <= Width(List(Texts(texts)))
    ensures Width(Number(i)) <= Width(List(Texts(texts)))
  {
    assert Texts(texts)[i] == Text(texts[i]);
    ItemIsWithin(Texts(texts), i);
    ListIsAtLeastItsLength(Texts(texts), |texts|);
    DigitsGrow(i, i);
  }

  lemma FieldsOfCompetency(x: Competency)
    ensures Width(Text(x.nodeId)) <= Width(CompetencyJson(x))
    ensures Width(Text(x.labelUk)) <= Width(CompetencyJson(x))
    ensures Width(List(Texts(x.seeds))) <= Width(CompetencyJson(x))
    ensures Width(List(Texts(x.probes))) <= Width(CompetencyJson(x))
  {
    var j := CompetencyJson(x);
    assert j.fields[0].value == Text(x.nodeId) && j.fields[1].value == Text(x.labelUk);
    assert j.fields[4].value == List(Texts(x.seeds)) && j.fields[5].value == List(Texts(x.probes));
    FieldIsWithin(j, 0);
    FieldIsWithin(j, 1);
    FieldIsWithin(j, 4);
    FieldIsWithin(j, 5);
  }

  // ---------- the context of a move ----------

  lemma ThreeAtMost(a: Field, b: Field, x: Field, bound: nat)
    requires |a.key| <= 40 && |b.key| <= 40 && |x.key| <= 40
    requires Width(a.value) <= bound && Width(b.value) <= bound && Width(x.value) <= bound
    ensures Width(Object([a, b, x])) <= 3 * bound + 740
  {
    SumOfThree(bound, bound, bound);
    ObjectAtMost([a, b, x], [bound, bound, bound]);
  }

  lemma FirstSeedAtMost(x: Competency, seed: string, bound: nat)
    requires x.SeedQuestion(0) == Some(seed) && Width(CompetencyJson(x)) <= bound && 20 <= bound
    ensures Width(ContextJson(FirstSeedContext(x.nodeId, seed))) <= 3 * bound + 740
  {
    FieldsOfCompetency(x);
    TextsAreWithin(x.seeds, 0);
    ThreeAtMost(Of("competency_node_id", Text(x.nodeId)), Of("seed_index", Number(0)),
                Of("seed_question_uk", Text(seed)), bound);
  }

  lemma NextSeedAtMost(x: Competency, index: int, seed: string, bound: nat)
    requires x.SeedQuestion(index) == Some(seed) && Width(CompetencyJson(x)) <= bound
    ensures Width(ContextJson(NextSeedContext(x.nodeId, index, seed))) <= 3 * bound + 740
  {
    FieldsOfCompetency(x);
    TextsAreWithin(x.seeds, index);
    ThreeAtMost(Of("competency_node_id", Text(x.nodeId)), Of("seed_index", Number(index)),
                Of("next_seed_question_uk", Text(seed)), bound);
  }

  lemma BranchAtMost(x: Competency, index: int, bound: nat)
    requires Width(CompetencyJson(x)) <= bound && 20 <= bound
    ensures Width(if x.ProbeBranch(index).None? then Null else Text(x.ProbeBranch(index).value)) <= bound
  {
    FieldsOfCompetency(x);
    if 0 <= index < |x.probes| {
      TextsAreWithin(x.probes, index);
    }
  }

  lemma ProbeAtMost(x: Competency, index: int, bound: nat)
    requires Width(CompetencyJson(x)) <= bound && Width(Number(index)) <= 20 <= bound
    ensures Width(ContextJson(ProbeContext(x.nodeId, index, x.ProbeBranch(index)))) <= 3 * bound + 740
  {
    var branch := x.ProbeBranch(index);
    FieldsOfCompetency(x);
    BranchAtMost(x, index, bound);
    ThreeAtMost(Of("competency_node_id", Text(x.nodeId)), Of("probe_index", Number(index)),
                Of("probe_branch_uk", if branch.None? then Null else Text(branch.value)), bound);
  }

  lemma AdvanceAtMost(x: Competency, y: Competency, seed: string, bound: nat)
    requires y.SeedQuestion(0) == Some(seed)
    requires Width(CompetencyJson(x)) <= bound && Width(CompetencyJson(y)) <= bound && 20 <= bound
    ensures Width(ContextJson(AdvanceContext(x.nodeId, y.nodeId, y.labelUk, seed))) <= 6 * bound + 1_500
  {
    FieldsOfCompetency(x);
    FieldsOfCompetency(y);
    TextsAreWithin(y.seeds, 0);
    SixWithin(Of("closing_competency_node_id", Text(x.nodeId)), Of("competency_node_id", Text(y.nodeId)),
              Of("next_competency_node_id", Text(y.nodeId)), Of("next_competency_label_uk", Text(y.labelUk)),
              Of("seed_index", Number(0)), Of("next_seed_question_uk", Text(seed)),
              bound, bound, bound, bound, bound, bound);
  }

  // ---------- what was said ----------

  predicate TextsWithin(entries: seq<Entry>, bound: nat)
  {
    forall k :: 0 <= k < |entries| ==> CharsWidth(entries[k].text) <= bound
  }

  lemma {:induction false} FilterStaysWithin(entries: seq<Entry>, bound: nat)
    requires TextsWithin(entries, bound)
    ensures TextsWithin(Filter(entries, HasText), bound)
  {
    if entries != [] {
      assert CharsWidth(entries[|entries| - 1].text) <= bound;
      FilterStaysWithin(Front(entries), bound);
    }
  }

  lemma {:induction false} LastStaysWithin(entries: seq<Entry>, p: Entry -> bool, bound: nat)
    requires TextsWithin(entries, bound)
    ensures CharsWidth(TextOf(LastWhere(entries, p))) <= bound
  {
    if entries != [] {
      assert CharsWidth(entries[|entries| - 1].text) <= bound;
      LastStaysWithin(Front(entries), p, bound);
    }
  }

  lemma TurnAtMost(role: string, text: string, bound: nat)
    requires |role| <= 11 && CharsWidth(text) <= bound
    ensures Width(Object([Of("role", Text(role)), Of("text", Text(text))])) <= bound + 564
  {
    NarrowText(role, 11);
    SumOfThree(68, bound + 2, 0);
    ObjectAtMost([Of("role", Text(role)), Of("text", Text(text))], [68, bound + 2]);
  }

  lemma TurnsAtMost(entries: seq<Entry>, roleName: Role -> string, bound: nat)
    requires TextsWithin(entries, bound) && forall r :: |roleName(r)| <= 11
    ensures Width(List(TurnsJson(entries, roleName))) <= 2 + |entries| * (bound + 566)
  {
    var items := TurnsJson(entries, roleName);
    forall k | 0 <= k < |items|
      ensures Width(items[k]) <= bound + 564
    {
      TurnAtMost(roleName(entries[k].role), entries[k].text, bound);
    }
    NarrowList(items, bound + 564);
  }

  // ---------- the requests ----------

  /** A plan and texts for which there is room in every request. */
  predicate Roomy(plan: nat, text: nat)
  {
    20 <= plan && 7_200 <= text && plan + text <= 24_000
  }

  lemma FewerIsLess(m: nat, n: nat, each: nat)
    requires m <= n
    ensures m * each <= n * each
  {
  }

  lemma RecentTurnsAtMost(transcript: seq<Entry>, text: nat)
    requires TextsWithin(transcript, text)
    ensures Width(List(TurnsJson(TakeLast(Filter(transcript, HasText), RECENT_TURNS_MAX), SpeakerName)))
         <= 8 * text + 4_530
  {
    FilterStaysWithin(transcript, text);
    var recent := TakeLast(Filter(transcript, HasText), RECENT_TURNS_MAX);
    TurnsAtMost(recent, SpeakerName, text);
    FewerIsLess(|recent|, 8, text + 566);
  }

  lemma {:induction false} NamedIsWithin(plan: Plan, from: nat, node: string)
    requires from <= |plan.competencies|
    ensures
      var x := CompetencyNamed(plan.competencies[from..], node);
      x.Some? ==> Width(CompetencyJson(x.value)) <= Width(PlanJson(plan))
    decreases |plan.competencies| - from
  {
    if from < |plan.competencies| {
      CompetencyIsWithin(plan, from);
      assert plan.competencies[from..][1..] == plan.competencies[from + 1..];
      NamedIsWithin(plan, from + 1, node);
    }
  }

  lemma FocusAtMost(plan: Plan, node: Option<string>, bound: nat)
    requires Width(PlanJson(plan)) <= bound && 20 <= bound
    ensures
      var x := FocusOf(Some(plan), node);
      Width(if x.None? then Object([]) else CompetencyJson(x.value)) <= bound
  {
    if node.Some? {
      assert plan.competencies[0..] == plan.competencies;
      NamedIsWithin(plan, 0, node.value);
    }
  }

  lemma MoveNameAtMost(move: Move)
    ensures Width(Text(MoveName(move))) <= 160
  {
    NarrowText(MoveName(move), 26);
  }

  lemma MovePartsFit(plan: Json, competency: Json, turns: Json, move: Json, context: Json, bound: nat, text: nat)
    requires Roomy(bound, text) && Width(plan) <= bound && Width(competency) <= bound
    requires Width(turns) <= 8 * text + 4_530 && Width(move) <= 160 && Width(context) <= 6 * bound + 1_500
    ensures Fits(Object([Of("interview_plan_snapshot", plan), Of("current_competency", competency),
                         Of("recent_turns", turns), Of("next_planned_move", move), Of("move_context", context),
                         Of("candidate_first_name", Null)]))
  {
    SixWithin(Of("interview_plan_snapshot", plan), Of("current_competency", competency), Of("recent_turns", turns),
              Of("next_planned_move", move), Of("move_context", context), Of("candidate_first_name", Null),
              bound, bound, 8 * text + 4_530, 160, 6 * bound + 1_500, 4);
  }

  /** A request with a narrow context has room. */
  lemma InterviewerFits(
    plan: Plan, transcript: seq<Entry>, move: Move, node: Option<string>, context: MoveContext, bound: nat, text: nat)
    requires Width(PlanJson(plan)) <= bound && Roomy(bound, text) && TextsWithin(transcript, text)
    requires Width(ContextJson(context)) <= 6 * bound + 1_500
    ensures Fits(InterviewerPayload(Some(plan), transcript, move, node, context))
  {
    RecentTurnsAtMost(transcript, text);
    FocusAtMost(plan, node, bound);
    MoveNameAtMost(move);
    var focus := FocusOf(Some(plan), node);
    MovePartsFit(PlanJson(plan), if focus.None? then Object([]) else CompetencyJson(focus.value),
                 List(TurnsJson(TakeLast(Filter(transcript, HasText), RECENT_TURNS_MAX), SpeakerName)),
                 Text(MoveName(move)), ContextJson(context), bound, text);
  }

  lemma InputsStayWithin(transcript: seq<Entry>, text: nat)
    requires TextsWithin(transcript, text)
    ensures
      var inputs := InputsFrom(transcript);
      && CharsWidth(inputs.question) <= text && CharsWidth(inputs.answer) <= text
      && TextsWithin(inputs.prior, text) && |inputs.prior| <= 4
  {
    var spoken := Filter(transcript, HasText);
    FilterStaysWithin(transcript, text);
    LastStaysWithin(spoken, IsCandidate, text);
    LastStaysWithin(DropLast(spoken, 1), IsNotCandidate, text);
  }

  lemma PairAtMost(a: Field, b: Field, width: nat)
    requires |a.key| <= 40 && |b.key| <= 40 && Width(a.value) <= width && Width(b.value) <= width
    ensures Width(Object([a, b])) <= 494 + 2 * width
  {
    SumOfThree(width, width, 0);
    ObjectAtMost([a, b], [width, width]);
  }

  lemma PriorAtMost(prior: seq<Entry>, text: nat)
    requires TextsWithin(prior, text) && |prior| <= 4
    ensures Width(List(TurnsJson(prior, RoleName))) <= 4 * text + 2_266
  {
    TurnsAtMost(prior, RoleName, text);
    FewerIsLess(|prior|, 4, text + 566);
  }

  lemma ScoringPartsFit(turn: Json, prior: Json, focus: Json, metadata: Json, bound: nat, text: nat)
    requires Roomy(bound, text) && Width(turn) <= 2 * text + 498 && Width(prior) <= 4 * text + 2_266
    requires Width(focus) <= bound && Width(metadata) <= 570
    ensures Fits(Object([Of("rubric_snapshot_subset", List([])), Of("turn", turn), Of("prior_turns", prior),
                         Of("competency_focus", focus), Of("turn_metadata", metadata)]))
  {
    assert Width(List([])) == 2;
    FiveWithin(Of("rubric_snapshot_subset", List([])), Of("turn", turn), Of("prior_turns", prior),
               Of("competency_focus", focus), Of("turn_metadata", metadata),
               2, 2 * text + 498, 4 * text + 2_266, bound, 570);
  }

  lemma AssessorFits(focus: string, inputs: AssessorInputs, bound: nat, text: nat)
    requires Width(Text(focus)) <= bound && Roomy(bound, text)
    requires CharsWidth(inputs.question) <= text && CharsWidth(inputs.answer) <= text
    requires TextsWithin(inputs.prior, text) && |inputs.prior| <= 4
    ensures Fits(AssessorPayload(focus, inputs))
  {
    PairAtMost(Of("question", Text(inputs.question)), Of("answer", Text(inputs.answer)), text + 2);
    PriorAtMost(inputs.prior, text);
    PairAtMost(Of("turn_id", Uuid), Of("session_id", Uuid), 38);
    ScoringPartsFit(Object([Of("question", Text(inputs.question)), Of("answer", Text(inputs.answer))]),
                    List(TurnsJson(inputs.prior, RoleName)), Text(focus),
                    Object([Of("turn_id", Uuid), Of("session_id", Uuid)]), bound, text);
  }

  // ---------- the moves of the machine ----------

  lemma ProbeIndexAtMost(probes: int, most: nat)
    requires 0 <= probes <= most && Digits(most) <= 20
    ensures Width(Number(probes - 1)) <= 20
  {
    if probes > 0 {
      DigitsGrow(probes - 1, most);
    }
  }

  lemma LoopContextAtMost(o: Outbound, loop: Loop, plan: Plan, c: Config, bound: nat)
    requires InPlan(loop, plan, c) && o.RunInterviewer? && AboutLoop(o, loop, plan)
    requires Digits(c.maxProbes) <= 20 <= bound && Width(PlanJson(plan)) <= bound
    ensures Width(ContextJson(o.context)) <= 6 * bound + 1_500
  {
    hide PlanJson, CompetencyJson, ContextJson, Width;
    var x := plan.competencies[loop.competency];
    CompetencyIsWithin(plan, loop.competency);
    match o.context
    case FirstSeedContext(_, seed) => FirstSeedAtMost(x, seed, bound);
    case NextSeedContext(_, index, seed) => NextSeedAtMost(x, index, seed, bound);
    case ProbeContext(_, _, _) =>
      ProbeIndexAtMost(loop.probes, c.maxProbes);
      ProbeAtMost(x, loop.probes - 1, bound);
    case AdvanceContext(_, _, _, seed) =>
      CompetencyIsWithin(plan, loop.competency - 1);
      AdvanceAtMost(plan.competencies[loop.competency - 1], x, seed, bound);
    case QaContext(_) =>
  }

  lemma QaMinutesAtMost(plan: Plan)
    ensures Width(Number(plan.qaMinutes)) <= Width(PlanJson(plan))
  {
    assert PlanJson(plan).fields[2].value == Number(plan.qaMinutes);
    FieldIsWithin(PlanJson(plan), 2);
  }

  lemma QaContextAtMost(plan: Plan, bound: nat)
    requires Width(PlanJson(plan)) <= bound && 20 <= bound
    ensures Width(ContextJson(QaContext(plan.qaMinutes))) <= 6 * bound + 1_500
  {
    hide PlanJson, Width;
    QaMinutesAtMost(plan);
    NarrowText("qa", 2);
    PairAtMost(Of("phase", Text("qa")), Of("qa_minutes", Number(plan.qaMinutes)), bound);
  }

  /** The request of the move outstanding has room. */
  lemma MoveHasRoom(t: SessionState, transcript: seq<Entry>, c: Config, bound: nat, text: nat)
    requires Invariant(t, c) && MoveFits(t) && Digits(c.maxProbes) <= 20 && !AtRest(t) && t.phase != Close
    requires Roomy(bound, text) && TextsWithin(transcript, text)
    requires t.plan.Some? ==> Width(PlanJson(t.plan.value)) <= bound
    ensures !TooLong(t, transcript)
  {
    hide PlanJson, ContextJson, Width, InterviewerPayload, AboutLoop;
    if TooLong(t, transcript) {
      var o, plan := t.turn.pending.value, t.plan.value;
      if t.phase == Tech {
        LoopContextAtMost(o, t.loop, plan, c, bound);
      } else {
        QaContextAtMost(plan, bound);
      }
      InterviewerFits(plan, transcript, o.move, o.node, o.context, bound, text);
    }
  }

  // ---------- whole sessions ----------

  /** What a caller can check beforehand: the plan's JSON and the scripts are short enough (and
      the probe limit is a number of at most 20 digits). */
  ghost predicate ShortPlan(sh: Shell, plan: RawPlan, bound: nat, text: nat)
  {
    && Roomy(bound, text) && Digits(sh.config.maxProbes) <= 20
    && (ValidatePlan(plan).Some? ==> Width(PlanJson(plan.plan)) <= bound)
    && CharsWidth(sh.opening(ValidatePlan(plan))) <= text && CharsWidth(sh.closing(ValidatePlan(plan))) <= text
  }

  /** ... and so is everything the candidate says. */
  predicate ShortWords(ops: seq<Op>, text: nat)
  {
    forall k :: 0 <= k < |ops| && ops[k].Speak? ==> CharsWidth(ops[k].text) <= text
  }

  lemma SaidStaysWithin(sh: Shell, w: World, words: string, v: World, text: nat)
    requires SpokenData(sh, Spoken(sh, w, words).0, Spoken(sh, w, words).1.turnId, v)
    requires TextsWithin(w.transcript, text) && CharsWidth(words) <= text && 7_200 <= text
    requires CharsWidth(ClosingOf(sh, w.state.info)) <= text
    ensures TextsWithin(v.transcript, text)
  {
    hide CharsWidth, Terminal;
    var spoken := Spoken(sh, w, words).0.transcript;
    assert TextsWithin(spoken, text);
    if v.transcript != spoken {
      assert Front(v.transcript) == spoken;
      assert v.transcript == spoken + [Last(v.transcript)];
      TextIsAtMostSixfold(Last(v.transcript).text);
    }
  }

  /** Whatever the performance leaves, its transcript is within the bound. */
  predicate LeavesWithin(p: Performance, text: nat)
  {
    !p.Lost? && TextsWithin(p.world.transcript, text)
  }

  lemma SpeechStaysWithin(sh: Shell, w: World, words: string, bound: nat, text: nat)
    requires SessionInvariant(sh, w) && ShortPlan(sh, w.state.info.planInput, bound, text)
    requires TextsWithin(w.transcript, text) && CharsWidth(words) <= text
    ensures LeavesWithin(Perform(sh, w, Speak(words)), text)
  {
    hide Drive, PlanJson, CharsWidth, SpokenData, TextsWithin, SpeechOverflows;
    OnlyRestAwaits(sh, w);
    assert Loaded(w) == w;
    if AwaitsCandidate(w.state) {
      var v := SpeakOutcome(sh, w, words);
      SaidStaysWithin(sh, w, words, v, text);
    }
  }

  lemma OpStaysWithin(sh: Shell, w: World, op: Op, bound: nat, text: nat)
    requires SessionInvariant(sh, w) && ShortPlan(sh, w.state.info.planInput, bound, text)
    requires TextsWithin(w.transcript, text) && (op.Speak? ==> CharsWidth(op.text) <= text)
    ensures LeavesWithin(Perform(sh, w, op), text)
  {
    hide SessionInvariant, PostTurn, RunTask;
    if op.Speak? {
      SpeechStaysWithin(sh, w, op.text, bound, text);
    } else if op.task < |w.tasks| {
      TaskKeeps(sh, w, op.task);
    }
  }

  lemma StartsWithin(sh: Shell, id: nat, plan: RawPlan, text: nat)
    requires CharsWidth(sh.opening(ValidatePlan(plan))) <= text
    ensures Create(sh, id, plan).Settled? && TextsWithin(Create(sh, id, plan).world.transcript, text)
  {
    hide CharsWidth, Drive;
    CreateHolds(sh, id, plan);
  }

  lemma {:induction false} SessionStaysWithin(
    sh: Shell, id: nat, plan: RawPlan, ops: seq<Op>, bound: nat, text: nat)
    requires ShortPlan(sh, plan, bound, text) && ShortWords(ops, text)
    ensures Session(sh, id, plan, ops).Some? && TextsWithin(Session(sh, id, plan, ops).value.transcript, text)
    decreases |ops|
  {
    hide CharsWidth, Perform, SessionInvariant, TextsWithin;
    if ops == [] {
      StartsWithin(sh, id, plan, text);
    } else {
      assert forall k :: 0 <= k < |Front(ops)| ==> Front(ops)[k] == ops[k];
      SessionStaysWithin(sh, id, plan, Front(ops), bound, text);
      SessionsAreSafe(sh, id, plan, Front(ops));
      OpStaysWithin(sh, Session(sh, id, plan, Front(ops)).value, Last(ops), bound, text);
    }
  }

  /** The state of a session, and the one its next event leads to, are reached by the machine. */
  lemma NextMoveFits(sh: Shell, id: nat, plan: RawPlan, ops: seq<Op>, e: Event)
    ensures Session(sh, id, plan, ops).Some?
    ensures
      var t := Next(Session(sh, id, plan, ops).value.state, e, sh.config);
      Invariant(t, sh.config) && MoveFits(t) && t.info.planInput == plan
  {
    hide Drive, MoveFits, Transition;
    var s, es := InitialState(id, plan, sh.config), DevSessionTrail.History(sh, id, plan, ops);
    DevSessionTrail.SessionIsAMachineRun(sh, id, plan, ops);
    assert Front(es + [e]) == es && Last(es + [e]) == e;
    ReachableInvariant(id, plan, es + [e], sh.config);
    MovesAreAboutTheLoop(id, plan, es + [e], sh.config);
    MachineAssessments.CallsAreAboutThePlan(id, plan, es + [e], sh.config);
  }

  lemma SpeechHasRoom(sh: Shell, id: nat, plan: RawPlan, ops: seq<Op>, words: string, bound: nat, text: nat)
    requires ShortPlan(sh, plan, bound, text) && ShortWords(ops, text) && CharsWidth(words) <= text
    ensures Session(sh, id, plan, ops).Some? && !SpeechOverflows(sh, Session(sh, id, plan, ops).value, words)
  {
    hide Drive, MoveFits, Transition, PlanJson, CharsWidth, TooLong;
    SessionStaysWithin(sh, id, plan, ops, bound, text);
    var w := Session(sh, id, plan, ops).value;
    var (spoken, e) := Spoken(sh, w, words);
    NextMoveFits(sh, id, plan, ops, e);
    var t := Next(w.state, e, sh.config);
    if !AtRest(t) && t.phase != Close {
      PlanIsThePayload(t, sh.config);
      MoveHasRoom(t, spoken.transcript, sh.config, bound, text);
    }
  }

  lemma PlanIsThePayload(t: SessionState, c: Config)
    requires Invariant(t, c) && !AtRest(t)
    ensures t.plan.Some? && ValidatePlan(t.info.planInput) == t.plan && t.info.planInput.plan == t.plan.value
  {
  }

  lemma NamedAtMost(plan: RawPlan, node: string, bound: nat)
    requires MachineAssessments.Named(plan, node) && Width(PlanJson(plan.plan)) <= bound
    ensures Width(Text(node)) <= bound
  {
    var k :| 0 <= k < |plan.plan.competencies| && plan.plan.competencies[k].nodeId == node;
    CompetencyIsWithin(plan.plan, k);
    FieldsOfCompetency(plan.plan.competencies[k]);
  }

  lemma TaskIsNamed(sh: Shell, id: nat, plan: RawPlan, ops: seq<Op>, k: nat)
    ensures
      var w := Session(sh, id, plan, ops);
      w.Some? && (k < |w.value.tasks| ==> MachineAssessments.Named(plan, w.value.tasks[k].focus))
  {
    hide Drive, MachineAssessments.Named;
    var s, es := InitialState(id, plan, sh.config), DevSessionTrail.History(sh, id, plan, ops);
    DevSessionTrail.SessionIsAMachineRun(sh, id, plan, ops);
    MachineAssessments.CallsAreAboutThePlan(id, plan, es, sh.config);
    var w := Session(sh, id, plan, ops).value;
    if k < |w.tasks| {
      assert MachineAssessments.Calls(Execute(s, es, sh.config).commands)[k].focus == w.tasks[k].focus;
    }
  }

  lemma PrefixStaysWithin(entries: seq<Entry>, m: nat, text: nat)
    requires TextsWithin(entries, text) && m <= |entries|
    ensures TextsWithin(entries[..m], text)
  {
  }

  lemma ScoringHasRoom(sh: Shell, id: nat, plan: RawPlan, ops: seq<Op>, k: nat, bound: nat, text: nat)
    requires ShortPlan(sh, plan, bound, text) && ShortWords(ops, text)
    ensures
      var w := Session(sh, id, plan, ops);
      w.Some? && (k < |w.value.tasks| ==> !ScoringOverflows(sh, w.value, w.value.tasks[k]))
  {
    hide Drive, PlanJson, AssessorPayload, Width, CharsWidth;
    SessionStaysWithin(sh, id, plan, ops, bound, text);
    SessionsAreSafe(sh, id, plan, ops);
    TaskIsNamed(sh, id, plan, ops, k);
    var w := Session(sh, id, plan, ops).value;
    if k < |w.tasks| {
      var t := w.tasks[k];
      NamedAtMost(plan, t.focus, bound);
      assert TaskFits(w.state.info.id, w.transcript, t);
      var m := 2 * t.turnId.ordinal + 2;
      PrefixStaysWithin(w.transcript, m, text);
      InputsStayWithin(w.transcript[..m], text);
      AssessorFits(t.focus, t.inputs, bound, text);
    }
  }

  /** A plan whose JSON, and scripts and words whose characters, are short enough together: every
      request of every series of operations fits, every operation succeeds, and the session is
      never stuck. The interviewer's own words need no bound, its output is validated. */
  lemma ShortSessionsSettle(sh: Shell, id: nat, plan: RawPlan, ops: seq<Op>, bound: nat, text: nat)
    requires ShortPlan(sh, plan, bound, text) && ShortWords(ops, text)
    ensures AllFit(sh, id, plan, ops) && forall k :: 0 <= k < |ops| ==> Succeeds(sh, id, plan, ops, k)
    ensures Session(sh, id, plan, ops).Some? && AtRest(Session(sh, id, plan, ops).value.state)
  {
    hide ShortPlan, Session, OpFits, Perform;
    forall k | 0 <= k < |ops|
      ensures FitsAt(sh, id, plan, ops, k)
    {
      OpHasRoom(sh, id, plan, ops, k, bound, text);
    }
    SessionsSettleIffRequestsFit(sh, id, plan, ops);
    assert forall k :: 0 <= k < |ops| ==> FitsAt(sh, id, plan, ops, k);
  }

  lemma OpHasRoom(sh: Shell, id: nat, plan: RawPlan, ops: seq<Op>, k: nat, bound: nat, text: nat)
    requires ShortPlan(sh, plan, bound, text) && ShortWords(ops, text) && k < |ops|
    ensures FitsAt(sh, id, plan, ops, k)
  {
    hide ShortPlan, SpeechOverflows, ScoringOverflows, Session;
    assert forall j :: 0 <= j < k ==> ops[..k][j] == ops[j];
    match ops[k]
    case Speak(words) => SpeechHasRoom(sh, id, plan, ops[..k], words, bound, text);
    case Assess(j) => ScoringHasRoom(sh, id, plan, ops[..k], j, bound, text);
  }

  /** Text without control characters other than the short ones. */
  predicate Plain(s: string)
  {
    forall k :: 0 <= k < |s| ==> CharWidth(s[k]) <= 2
  }

  lemma {:induction false} PlainIsAtMostTwofold(s: string)
    requires Plain(s)
    ensures CharsWidth(s) <= 2 * |s|
  {
    if s != [] {
      assert CharWidth(s[|s| - 1]) <= 2;
      PlainIsAtMostTwofold(Front(s));
    }
  }

  /** Words within the limit of the HTTP layer, and plain. */
  predicate Admitted(words: string)
  {
    |words| <= 8_000 && Plain(words)
  }

  predicate AllAdmitted(ops: seq<Op>)
  {
    forall k :: 0 <= k < |ops| && ops[k].Speak? ==> Admitted(ops[k].text)
  }

  /** With a plan of at most 8 000 characters of JSON, answers of up to 8 000 plain characters
      never get a session stuck. */
  lemma AdmittedWordsSettle(sh: Shell, id: nat, plan: RawPlan, ops: seq<Op>)
    requires ShortPlan(sh, plan, 8_000, 16_000) && AllAdmitted(ops)
    ensures Session(sh, id, plan, ops).Some? && AtRest(Session(sh, id, plan, ops).value.state)
  {
    hide ShortPlan, Session;
    forall k | 0 <= k < |ops| && ops[k].Speak?
      ensures CharsWidth(ops[k].text) <= 16_000
    {
      assert Admitted(ops[k].text);
      PlainIsAtMostTwofold(ops[k].text);
    }
    ShortSessionsSettle(sh, id, plan, ops, 8_000, 16_000);
  }
}
