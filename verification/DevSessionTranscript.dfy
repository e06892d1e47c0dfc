/** The transcript of a session, what an assessor reads in it, and the trace rows of a turn. */
module DevSessionTranscript {
  import opened Common
  import opened StateMachine
  import opened ModelCall
  import opened DevSession
  import opened DevSessionDrive

  // ---------- the transcript ----------

  /** Interviewer side and candidate speak in turn, the scripted opening first; the k-th
      candidate entry carries the k-th candidate turn id. */
  ghost predicate Alternates(opening: string, sessionId: nat, entries: seq<Entry>)
  {
    && (entries != [] ==> entries[0] == Entry(SystemRole, opening, MachineTurn(sessionId, 0)))
    && (forall k :: 0 <= k < |entries| ==> EntryFits(sessionId, entries[k], k))
  }

  predicate EntryFits(sessionId: nat, e: Entry, k: nat)
  {
    if k % 2 == 1 then e.role == CandidateRole && e.turnId == CandidateTurn(sessionId, k / 2)
    else e.role != CandidateRole && 1 <= |e.text|
  }

  lemma {:induction false} CandidateEntriesAreHalf(opening: string, sessionId: nat, entries: seq<Entry>)
    requires Alternates(opening, sessionId, entries)
    ensures CandidateEntries(entries) == |entries| / 2
  {
    if entries != [] {
      assert Alternates(opening, sessionId, Front(entries));
      assert EntryFits(sessionId, entries[|entries| - 1], |entries| - 1);
      CandidateEntriesAreHalf(opening, sessionId, Front(entries));
    }
  }

  lemma LastWhereHit(entries: seq<Entry>, e: Entry, p: Entry -> bool)
    requires p(e)
    ensures LastWhere(entries + [e], p) == Some(e)
  {
  }

  lemma {:induction false} LastWhereIsMember(entries: seq<Entry>, p: Entry -> bool)
    ensures var r := LastWhere(entries, p); r.Some? ==> r.value in entries && p(r.value)
  {
    if entries != [] && !p(Last(entries)) {
      LastWhereIsMember(Front(entries), p);
    }
  }

  lemma FilterTwoMore(before: seq<Entry>, asked: Entry, answered: Entry)
    requires HasText(asked)
    ensures
      var kept := Filter(before, HasText) + [asked];
      Filter(before + [asked] + [answered], HasText) == if HasText(answered) then kept + [answered] else kept
  {
    assert Front(before + [asked]) == before;
    assert Front(before + [asked] + [answered]) == before + [asked];
  }

  lemma SpokenAnswerIsFound(kept: seq<Entry>, asked: Entry, answered: Entry)
    requires IsNotCandidate(asked) && IsCandidate(answered)
    ensures
      var all := kept + [asked] + [answered];
      && LastWhere(all, IsCandidate) == Some(answered)
      && LastWhere(DropLast(all, 1), IsNotCandidate) == Some(asked)
      && DropLast(all, 2) == kept
  {
    var all := kept + [asked] + [answered];
    LastWhereHit(kept + [asked], answered, IsCandidate);
    assert DropLast(all, 1) == kept + [asked];
    LastWhereHit(kept, asked, IsNotCandidate);
  }

  /** Something said to the candidate, and then the candidate. */
  predicate EndsInATurn(entries: seq<Entry>)
  {
    var n := |entries|;
    2 <= n && IsNotCandidate(entries[n - 2]) && 1 <= |entries[n - 2].text| && IsCandidate(entries[n - 1])
  }

  lemma AlternatingEndsInATurn(opening: string, sessionId: nat, entries: seq<Entry>, o: nat)
    requires Alternates(opening, sessionId, entries) && 2 * o + 2 <= |entries|
    ensures EndsInATurn(entries[..2 * o + 2])
    ensures entries[2 * o + 1].turnId == CandidateTurn(sessionId, o)
  {
    assert EntryFits(sessionId, entries[2 * o + 1], 2 * o + 1) && EntryFits(sessionId, entries[2 * o], 2 * o);
  }

  /** The assessor is asked about the last candidate entry and the entry before it exactly
      when the candidate said something. After an empty answer it gets an older one (the
      HTTP layer refuses empty text, the service does not). */
  lemma AssessorSeesItsTurn(entries: seq<Entry>)
    requires EndsInATurn(entries)
    ensures
      var asked, answered := entries[|entries| - 2], entries[|entries| - 1];
      && ((QuestionEntry(entries) == Some(asked) && AnswerEntry(entries) == Some(answered)) <==> answered.text != "")
      && (answered.text != "" ==>
            InputsFrom(entries)
            == AssessorInputs(asked.text, answered.text,
                              TakeLast(Filter(entries[..|entries| - 2], HasText), PRIOR_TURNS_MAX)))
  {
    var n := |entries|;
    var asked, answered, before := entries[n - 2], entries[n - 1], entries[..n - 2];
    assert entries == before + [asked] + [answered];
    FilterTwoMore(before, asked, answered);
    if answered.text != "" {
      SpokenAnswerIsFound(Filter(before, HasText), asked, answered);
    } else {
      LastWhereIsMember(Filter(entries, HasText), IsCandidate);
      if AnswerEntry(entries).Some? {
        FilterMember(entries, HasText, AnswerEntry(entries).value);
      }
    }
  }

  /** After an empty answer to a question, the assessor is given the turn before once more:
      its question and its answer, under the id of the empty one. */
  lemma EmptyAnswerRepeatsTheTurnBefore(entries: seq<Entry>)
    requires EndsInATurn(entries) && EndsInATurn(entries[..|entries| - 2])
    requires entries[|entries| - 1].text == "" && entries[|entries| - 3].text != ""
    ensures InputsFrom(entries).answer == entries[|entries| - 3].text
    ensures InputsFrom(entries).question == entries[|entries| - 4].text
  {
    var n := |entries|;
    var before := entries[..n - 4];
    var asked, answered, again, empty := entries[n - 4], entries[n - 3], entries[n - 2], entries[n - 1];
    var kept := Filter(before, HasText);
    var longer := before + [asked] + [answered];
    assert entries == longer + [again] + [empty];
    FilterTwoMore(before, asked, answered);
    FilterTwoMore(longer, again, empty);
    var heard := kept + [asked] + [answered];
    assert Filter(entries, HasText) == heard + [again];
    assert Front(heard + [again]) == heard;
    LastWhereHit(kept + [asked], answered, IsCandidate);
    assert DropLast(heard + [again], 1) == heard;
    assert Front(heard) == kept + [asked];
    LastWhereHit(kept, asked, IsNotCandidate);
  }

  // ---------- trace rows ----------

  function RowsOf(log: seq<Write>, turn: TurnId): nat
  {
    if log == [] then 0 else RowsOf(Front(log), turn) + (if Last(log).trace.turn == turn then 1 else 0)
  }

  lemma {:induction false} RowsSplit(log: seq<Write>, n: nat, turn: TurnId, t: TurnId)
    requires n <= |log| && forall k :: n <= k < |log| ==> log[k].trace.turn == turn
    ensures RowsOf(log, t) == RowsOf(log[..n], t) + (if t == turn then |log| - n else 0)
  {
    if n == |log| {
      assert log[..n] == log;
    } else {
      assert Front(log)[..n] == log[..n];
      assert Last(log) == log[|log| - 1];
      RowsSplit(Front(log), n, turn, t);
    }
  }

  lemma SpanRows(w: Wire, v: Wire, turn: TurnId, k: nat, t: TurnId)
    requires Spans(w, v, turn, k)
    ensures if t == turn then RowsOf(v.log, t) <= RowsOf(w.log, t) + 2 * k else RowsOf(v.log, t) == RowsOf(w.log, t)
  {
    RowsSplit(v.log, |w.log|, turn, t);
  }

  predicate IsDone(t: Task) { t.done }

  lemma {:induction false} DoneOnceMore(tasks: seq<Task>, k: nat)
    requires k < |tasks| && !tasks[k].done
    ensures Count(tasks[k := tasks[k].(done := true)], IsDone) == Count(tasks, IsDone) + 1
  {
    var after := tasks[k := tasks[k].(done := true)];
    if k == |tasks| - 1 {
      assert Front(after) == Front(tasks);
    } else {
      assert Front(after) == Front(tasks)[k := tasks[k].(done := true)];
      DoneOnceMore(Front(tasks), k);
    }
  }

  lemma {:induction false} CountAtMost<T>(s: seq<T>, p: T -> bool)
    ensures Count(s, p) <= |s|
  {
    if s != [] {
      CountAtMost(Front(s), p);
    }
  }
}
