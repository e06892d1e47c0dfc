/** What a request says: its JSON text has the width that is measured, and the plan, the turns, the
    move and its context can be read back from it. */
module RequestContents {
  import opened Common
  import opened InterviewPlan
  import opened RequestPayload
  import opened StateMachine
  import opened DevSession

  // ---------- the text of a payload ----------

  function HexDigit(n: nat): char
    requires n < 16
  {
    "0123456789abcdef"[n]
  }

  /** A character as json.dumps writes it inside a string, non-ASCII characters kept. */
  function Escaped(c: char): string
  {
    if c == '\"' then "\\\""
    else if c == '\\' then "\\\\"
    else if c == '\n' then "\\n"
    else if c == '\r' then "\\r"
    else if c == '\t' then "\\t"
    else if c as int == 8 then "\\b"
    else if c as int == 12 then "\\f"
    else if c as int < 32 then "\\u00" + [HexDigit(c as int / 16), HexDigit(c as int % 16)]
    else [c]
  }

  function EscapedText(s: string): string
  {
    if s == [] then "" else EscapedText(Front(s)) + Escaped(Last(s))
  }

  function Quoted(s: string): string { "\"" + EscapedText(s) + "\"" }

  function Decimal(n: nat): string
  {
    if n < 10 then [HexDigit(n)] else Decimal(n / 10) + [HexDigit(n % 10)]
  }

  /** The text that json.dumps writes with its default separators; `uuid` is what stands for an
      id, of 36 characters. */
  function Rendered(j: Json, uuid: string): string
    decreases j, 1
  {
    match j
    case Null => "null"
    case Text(text) => Quoted(text)
    case Number(number) => if number < 0 then "-" + Decimal(-number) else Decimal(number)
    case Uuid => "\"" + uuid + "\""
    case List(items) => "[" + RenderedParts(j, |items|, uuid) + "]"
    case Object(fields) => "{" + RenderedParts(j, |fields|, uuid) + "}"
  }

  function RenderedParts(j: Json, k: nat, uuid: string): string
    requires (j.List? && k <= |j.items|) || (j.Object? && k <= |j.fields|)
    decreases j, 0, k
  {
    if k == 0 then ""
    else
      var part := if j.List? then Rendered(j.items[k - 1], uuid)
                  else Quoted(j.fields[k - 1].key) + ": " + Rendered(j.fields[k - 1].value, uuid);
      if k == 1 then part else RenderedParts(j, k - 1, uuid) + ", " + part
  }

  lemma {:induction false} EscapedTextIsAsWide(s: string)
    ensures |EscapedText(s)| == CharsWidth(s)
  {
    if s != [] {
      EscapedTextIsAsWide(Front(s));
    }
  }

  lemma {:induction false} DecimalIsAsWide(n: nat)
    ensures |Decimal(n)| == Digits(n)
  {
    if n >= 10 {
      DecimalIsAsWide(n / 10);
    }
  }

  /** The width that is measured is the length of the text. */
  lemma {:induction false} WidthIsLength(j: Json, uuid: string)
    requires |uuid| == 36
    ensures |Rendered(j, uuid)| == Width(j)
    decreases j, 1
  {
    match j
    case Null =>
    case Text(text) => EscapedTextIsAsWide(text);
    case Number(number) => DecimalIsAsWide(if number < 0 then -number else number);
    case Uuid =>
    case List(items) => PartsAreAsWide(j, |items|, uuid);
    case Object(fields) => PartsAreAsWide(j, |fields|, uuid);
  }

  lemma {:induction false} PartsAreAsWide(j: Json, k: nat, uuid: string)
    requires |uuid| == 36
    requires (j.List? && k <= |j.items|) || (j.Object? && k <= |j.fields|)
    ensures |RenderedParts(j, k, uuid)| == PartsWidth(j, k) + Separators(k)
    decreases j, 0, k
  {
    if k > 0 {
      PartsAreAsWide(j, k - 1, uuid);
      if j.List? {
        WidthIsLength(j.items[k - 1], uuid);
      } else {
        EscapedTextIsAsWide(j.fields[k - 1].key);
        WidthIsLength(j.fields[k - 1].value, uuid);
      }
    }
  }

  /** A request fits exactly when its text has at most 200 000 characters. */
  lemma FitsIffShort(j: Json, uuid: string)
    requires |uuid| == 36
    ensures Fits(j) <==> |Rendered(j, uuid)| <= 200_000
  {
    WidthIsLength(j, uuid);
  }

  // ---------- what is in it ----------

  /** The object has this field. */
  ghost predicate Has(j: Json, key: string, value: Json)
  {
    j.Object? && exists k :: 0 <= k < |j.fields| && j.fields[k] == Field(key, value)
  }

  lemma HasField(j: Json, k: nat)
    requires j.Object? && k < |j.fields|
    ensures Has(j, j.fields[k].key, j.fields[k].value)
  {
  }

  ghost predicate HasTexts(j: Json, key: string, texts: seq<string>)
  {
    exists items: seq<Json> :: Has(j, key, List(items)) && |items| == |texts|
                               && forall k :: 0 <= k < |texts| ==> items[k] == Text(texts[k])
  }

  ghost predicate SaysCompetency(j: Json, x: Competency)
  {
    && Has(j, "node_id", Text(x.nodeId)) && Has(j, "label_uk", Text(x.labelUk))
    && Has(j, "target_level", Number(x.targetLevel)) && Has(j, "minutes", Number(x.minutes))
    && HasTexts(j, "seed_questions_uk", x.seeds) && HasTexts(j, "probe_branches_uk", x.probes)
  }

  ghost predicate SaysPlan(j: Json, p: Plan)
  {
    && Has(j, "plan_version", Number(p.version)) && Has(j, "qa_minutes", Number(p.qaMinutes))
    && Has(j, "session_max_minutes", Number(p.sessionMaxMinutes))
    && exists items: seq<Json> ::
         && Has(j, "competencies", List(items)) && |items| == |p.competencies|
         && forall k :: 0 <= k < |items| ==> SaysCompetency(items[k], p.competencies[k])
  }

  lemma CompetencyIsSaid(x: Competency)
    ensures SaysCompetency(CompetencyJson(x), x)
  {
    hide HasTexts;
    var j := CompetencyJson(x);
    HasField(j, 0);
    HasField(j, 1);
    HasField(j, 2);
    HasField(j, 3);
    HasField(j, 4);
    HasField(j, 5);
    TextsAreSaid(j, "seed_questions_uk", x.seeds);
    TextsAreSaid(j, "probe_branches_uk", x.probes);
  }

  lemma TextsAreSaid(j: Json, key: string, texts: seq<string>)
    requires Has(j, key, List(Texts(texts)))
    ensures HasTexts(j, key, texts)
  {
  }

  lemma PlanIsSaid(p: Plan)
    ensures SaysPlan(PlanJson(p), p)
  {
    var j, items := PlanJson(p), CompetenciesJson(p.competencies);
    HasField(j, 0);
    HasField(j, 1);
    HasField(j, 2);
    HasField(j, 3);
    forall k | 0 <= k < |items|
      ensures SaysCompetency(items[k], p.competencies[k])
    {
      CompetencyIsSaid(p.competencies[k]);
    }
    assert Has(j, "competencies", List(items));
  }

  /** A turn of the conversation, as the agents see it. */
  ghost predicate SaysTurn(j: Json, role: string, text: string)
  {
    Has(j, "role", Text(role)) && Has(j, "text", Text(text))
  }

  /** Everything that has been said with some text, in order. */
  function Exchanges(transcript: seq<Entry>): seq<Entry>
  {
    if transcript == [] then []
    else Exchanges(Front(transcript)) + if |Last(transcript).text| > 0 then [Last(transcript)] else []
  }

  lemma {:induction false} ExchangesHaveText(transcript: seq<Entry>)
    ensures Filter(transcript, HasText) == Exchanges(transcript)
  {
    if transcript != [] {
      ExchangesHaveText(Front(transcript));
    }
  }

  /** The last eight exchanges, or all if there are fewer, oldest first; only the candidate is not
      the interviewer. */
  ghost predicate SaysRecent(j: Json, transcript: seq<Entry>)
  {
    var said := Exchanges(transcript);
    exists items: seq<Json> ::
      && Has(j, "recent_turns", List(items)) && |items| == (if |said| < 8 then |said| else 8)
      && forall k :: 0 <= k < |items| ==>
           var entry := said[|said| - |items| + k];
           SaysTurn(items[k], if entry.role.CandidateRole? then "candidate" else "interviewer", entry.text)
  }

  lemma TurnIsSaid(role: string, text: string)
    ensures SaysTurn(Object([Of("role", Text(role)), Of("text", Text(text))]), role, text)
  {
    var j := Object([Of("role", Text(role)), Of("text", Text(text))]);
    HasField(j, 0);
    HasField(j, 1);
  }

  /** The context of a move: the competency, the seed or probe it is at, and its text. */
  ghost predicate SaysContext(j: Json, x: MoveContext)
  {
    match x
    case FirstSeedContext(node, seed) =>
      && Has(j, "competency_node_id", Text(node)) && Has(j, "seed_index", Number(0))
      && Has(j, "seed_question_uk", Text(seed))
    case NextSeedContext(node, index, seed) =>
      && Has(j, "competency_node_id", Text(node)) && Has(j, "seed_index", Number(index))
      && Has(j, "next_seed_question_uk", Text(seed))
    case ProbeContext(node, index, branch) =>
      && Has(j, "competency_node_id", Text(node)) && Has(j, "probe_index", Number(index))
      && Has(j, "probe_branch_uk", if branch.Some? then Text(branch.value) else Null)
    case AdvanceContext(closing, node, labelUk, seed) =>
      && Has(j, "closing_competency_node_id", Text(closing)) && Has(j, "competency_node_id", Text(node))
      && Has(j, "next_competency_node_id", Text(node)) && Has(j, "next_competency_label_uk", Text(labelUk))
      && Has(j, "seed_index", Number(0)) && Has(j, "next_seed_question_uk", Text(seed))
    case QaContext(minutes) => Has(j, "phase", Text("qa")) && Has(j, "qa_minutes", Number(minutes))
  }

  lemma ContextIsSaid(x: MoveContext)
    ensures SaysContext(ContextJson(x), x)
  {
    var j := ContextJson(x);
    HasField(j, 0);
    HasField(j, 1);
    if |j.fields| > 2 {
      HasField(j, 2);
    }
    if |j.fields| > 3 {
      HasField(j, 3);
      HasField(j, 4);
      HasField(j, 5);
    }
  }

  /** `x` is the first competency of the plan under that node. */
  ghost predicate IsFirst(p: Plan, node: string, x: Competency)
  {
    exists k :: 0 <= k < |p.competencies| && p.competencies[k] == x && x.nodeId == node
                && forall i :: 0 <= i < k ==> p.competencies[i].nodeId != node
  }

  lemma {:induction false} NamedIsFirst(cs: seq<Competency>, node: string)
    ensures
      var x := CompetencyNamed(cs, node);
      if x.Some? then
        exists k :: 0 <= k < |cs| && cs[k] == x.value && x.value.nodeId == node
                    && forall i :: 0 <= i < k ==> cs[i].nodeId != node
      else forall i :: 0 <= i < |cs| ==> cs[i].nodeId != node
  {
    if cs != [] && cs[0].nodeId != node {
      NamedIsFirst(cs[1..], node);
      var x := CompetencyNamed(cs[1..], node);
      if x.Some? {
        var k :| 0 <= k < |cs[1..]| && cs[1..][k] == x.value
                 && forall i :: 0 <= i < k ==> cs[1..][i].nodeId != node;
        assert cs[k + 1] == x.value;
        assert forall i :: 1 <= i < k + 1 ==> cs[i] == cs[1..][i - 1];
      } else {
        assert forall i :: 1 <= i < |cs| ==> cs[i] == cs[1..][i - 1];
      }
    }
  }

  /** The contract's words for the moves. */
  function WordFor(move: Move): string
  {
    match move
    case AskSeed => "ask_seed"
    case DepthProbe => "depth_probe"
    case AcknowledgeAndTransition => "acknowledge_and_transition"
    case Redirect => "redirect"
    case CloseCompetency => "close_competency"
  }

  /** What the interviewer is asked with: the plan, the competency in focus, the conversation, the
      move and its context. */
  ghost predicate AsksFor(j: Json, p: Plan, transcript: seq<Entry>, move: Move, node: Option<string>,
                          context: MoveContext)
  {
    && (exists v :: Has(j, "interview_plan_snapshot", v) && SaysPlan(v, p))
    && (exists v :: Has(j, "current_competency", v)
                    && if exists x :: node.Some? && IsFirst(p, node.value, x)
                       then exists x :: IsFirst(p, node.value, x) && SaysCompetency(v, x)
                       else v == Object([]))
    && SaysRecent(j, transcript)
    && Has(j, "next_planned_move", Text(WordFor(move)))
    && (exists v :: Has(j, "move_context", v) && SaysContext(v, context))
    && Has(j, "candidate_first_name", Null)
  }

  lemma RecentIsSaid(j: Json, transcript: seq<Entry>)
    requires
      var recent := TakeLast(Filter(transcript, HasText), RECENT_TURNS_MAX);
      Has(j, "recent_turns", List(TurnsJson(recent, SpeakerName)))
    ensures SaysRecent(j, transcript)
  {
    hide Has, SaysTurn;
    ExchangesHaveText(transcript);
    var said := Exchanges(transcript);
    var recent := TakeLast(said, RECENT_TURNS_MAX);
    var items := TurnsJson(recent, SpeakerName);
    forall k | 0 <= k < |items|
      ensures
        var entry := said[|said| - |items| + k];
        SaysTurn(items[k], if entry.role.CandidateRole? then "candidate" else "interviewer", entry.text)
    {
      assert recent[k] == said[|said| - |items| + k];
      TurnIsSaid(SpeakerName(recent[k].role), recent[k].text);
    }
  }

  lemma FocusIsSaid(p: Plan, node: Option<string>)
    ensures
      var x := FocusOf(Some(p), node);
      if exists y :: node.Some? && IsFirst(p, node.value, y) then x.Some? && IsFirst(p, node.value, x.value)
      else x.None?
  {
    if node.Some? {
      NamedIsFirst(p.competencies, node.value);
      var x := FocusOf(Some(p), node);
      if x.Some? {
        assert IsFirst(p, node.value, x.value);
      }
    }
  }

  /** The request of a move says all it should. */
  lemma RequestsAskForTheMove(
    p: Plan, transcript: seq<Entry>, move: Move, node: Option<string>, context: MoveContext)
    ensures AsksFor(InterviewerPayload(Some(p), transcript, move, node, context), p, transcript, move, node, context)
  {
    hide Has, SaysPlan, SaysCompetency, SaysContext, SaysRecent, IsFirst;
    var j, focus := InterviewerPayload(Some(p), transcript, move, node, context), FocusOf(Some(p), node);
    HasField(j, 0);
    HasField(j, 1);
    HasField(j, 2);
    HasField(j, 3);
    HasField(j, 4);
    HasField(j, 5);
    PlanIsSaid(p);
    FocusIsSaid(p, node);
    if focus.Some? {
      CompetencyIsSaid(focus.value);
    }
    RecentIsSaid(j, transcript);
    ContextIsSaid(context);
  }

  // ---------- the assessor's request ----------

  function WordForRole(role: Role): string
  {
    match role
    case InterviewerRole => "interviewer"
    case CandidateRole => "candidate"
    case SystemRole => "system"
  }

  /** The up to four exchanges before the last two, with the role of each. */
  ghost predicate SaysPrior(j: Json, transcript: seq<Entry>)
  {
    var said := Exchanges(transcript);
    exists items: seq<Json> ::
      && Has(j, "prior_turns", List(items))
      && |items| == (if |said| < 2 then 0 else if |said| < 6 then |said| - 2 else 4)
      && forall k :: 0 <= k < |items| ==>
           var entry := said[|said| - 2 - |items| + k];
           SaysTurn(items[k], WordForRole(entry.role), entry.text)
  }

  ghost predicate ScoresFor(j: Json, focus: string, transcript: seq<Entry>)
  {
    var inputs := InputsFrom(transcript);
    && Has(j, "competency_focus", Text(focus))
    && (exists v :: Has(j, "turn", v) && Has(v, "question", Text(inputs.question))
                    && Has(v, "answer", Text(inputs.answer)))
    && SaysPrior(j, transcript)
    && Has(j, "rubric_snapshot_subset", List([]))
  }

  /** The last four of all but the last two. */
  lemma FourBeforeTwo(said: seq<Entry>, k: nat)
    ensures
      var prior := TakeLast(DropLast(said, 2), 4);
      && |prior| == (if |said| < 2 then 0 else if |said| < 6 then |said| - 2 else 4)
      && (k < |prior| ==> prior[k] == said[|said| - 2 - |prior| + k])
  {
    var early := DropLast(said, 2);
    if |said| >= 2 {
      assert early == said[..|said| - 2];
      var prior := TakeLast(early, 4);
      assert k < |prior| ==> prior[k] == early[|early| - |prior| + k];
    }
  }

  lemma PriorAreBeforeTheLastTwo(transcript: seq<Entry>, k: nat)
    ensures
      var said, prior := Exchanges(transcript), InputsFrom(transcript).prior;
      && |prior| == (if |said| < 2 then 0 else if |said| < 6 then |said| - 2 else 4)
      && (k < |prior| ==> prior[k] == said[|said| - 2 - |prior| + k])
  {
    hide TakeLast, DropLast, QuestionEntry, AnswerEntry, Exchanges, Filter;
    ExchangesHaveText(transcript);
    FourBeforeTwo(Exchanges(transcript), k);
  }

  lemma TurnsAreSaid(prior: seq<Entry>, k: nat)
    requires k < |prior|
    ensures SaysTurn(TurnsJson(prior, RoleName)[k], WordForRole(prior[k].role), prior[k].text)
  {
    TurnIsSaid(RoleName(prior[k].role), prior[k].text);
  }

  lemma PriorIsSaid(j: Json, transcript: seq<Entry>)
    requires Has(j, "prior_turns", List(TurnsJson(InputsFrom(transcript).prior, RoleName)))
    ensures SaysPrior(j, transcript)
  {
    hide Has, SaysTurn, InputsFrom, Exchanges, WordForRole;
    var prior := InputsFrom(transcript).prior;
    var items := TurnsJson(prior, RoleName);
    PriorAreBeforeTheLastTwo(transcript, 0);
    forall k | 0 <= k < |items|
      ensures
        var said := Exchanges(transcript);
        prior[k] == said[|said| - 2 - |items| + k] && SaysTurn(items[k], WordForRole(prior[k].role), prior[k].text)
    {
      PriorAreBeforeTheLastTwo(transcript, k);
      TurnsAreSaid(prior, k);
    }
  }

  /** The request of an assessment says what is to be scored, and what was said before it. */
  lemma RequestsAskForTheScore(focus: string, transcript: seq<Entry>)
    ensures ScoresFor(AssessorPayload(focus, InputsFrom(transcript)), focus, transcript)
  {
    hide SaysPrior;
    var inputs := InputsFrom(transcript);
    var j := AssessorPayload(focus, inputs);
    var turn := Object([Of("question", Text(inputs.question)), Of("answer", Text(inputs.answer))]);
    HasField(j, 0);
    HasField(j, 1);
    HasField(j, 2);
    HasField(j, 3);
    HasField(turn, 0);
    HasField(turn, 1);
    PriorIsSaid(j, transcript);
    assert Has(j, "turn", turn);
  }
}
