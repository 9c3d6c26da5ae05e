/** Fan-out of orders to submission and oracle (apps/fairness-gateway/gateway/fork.go): two
    concurrent branches per order appending to one log, interleaved with any number of
    other orders. The sink is present and its writes succeed; each `Process` call is on
    its own order, named here by a number. */
module FanOut {
  import opened EngineTypes

  datatype Source = FromSubmission | FromOracle

  datatype Reply = Reply(platformSeq: nat, body: int)

  datatype Row = InRow(order: nat) | ReplyRow(order: nat, source: Source, reply: Reply)

  /** One goroutine: waiting for its endpoint, answered but not yet logged, or done. */
  datatype Branch = Waiting | Answered(reply: Reply) | Failed | Logged(reply: Reply)

  datatype Result = Delivered(reply: Reply) | Refused

  datatype Process = Process(submission: Branch, oracle: Branch, result: Option<Result>)

  datatype State = State(log: seq<Row>, calls: map<nat, Process>)

  datatype Event =
    | Start(order: nat)
    | Answer(order: nat, source: Source, outcome: Option<Reply>)
    | LogReply(order: nat, source: Source)
    | Finish(order: nat)

  const EMPTY_STATE := State([], map[])

  function BranchOf(p: Process, source: Source): Branch {
    if source == FromSubmission then p.submission else p.oracle
  }

  function WithBranch(p: Process, source: Source, b: Branch): Process {
    if source == FromSubmission then p.(submission := b) else p.(oracle := b)
  }

  /** The goroutine has reached `wg.Done()`. */
  predicate Over(b: Branch) {
    b.Failed? || b.Logged?
  }

  predicate Enabled(s: State, e: Event) {
    match e
    case Start(o) => o !in s.calls
    case Answer(o, source, _) => o in s.calls && BranchOf(s.calls[o], source).Waiting?
    case LogReply(o, source) => o in s.calls && BranchOf(s.calls[o], source).Answered?
    case Finish(o) =>
      o in s.calls && s.calls[o].result.None? && Over(s.calls[o].submission) && Over(s.calls[o].oracle)
  }

  function Apply(s: State, e: Event): State
    requires Enabled(s, e)
  {
    match e
    case Start(o) => State(s.log + [InRow(o)], s.calls[o := Process(Waiting, Waiting, None)])
    case Answer(o, source, outcome) =>
      var b := if outcome.Some? then Answered(outcome.value) else Failed;
      s.(calls := s.calls[o := WithBranch(s.calls[o], source, b)])
    case LogReply(o, source) =>
      var r := BranchOf(s.calls[o], source).reply;
      State(s.log + [ReplyRow(o, source, r)], s.calls[o := WithBranch(s.calls[o], source, Logged(r))])
    case Finish(o) =>
      var p := s.calls[o];
      var result := if p.submission.Failed? || p.oracle.Failed? then Refused else Delivered(p.submission.reply);
      s.(calls := s.calls[o := p.(result := Some(result))])
  }

  predicate Feasible(s: State, es: seq<Event>)
    decreases |es|
  {
    es == [] || (Enabled(s, es[0]) && Feasible(Apply(s, es[0]), es[1..]))
  }

  function Run(s: State, es: seq<Event>): State
    requires Feasible(s, es)
    decreases |es|
  {
    if es == [] then s else Run(Apply(s, es[0]), es[1..])
  }

  // -- Invariant -------------------------------------------------------------

  predicate SameSlot(a: Row, b: Row) {
    a.order == b.order && a.ReplyRow? == b.ReplyRow? && (a.ReplyRow? ==> a.source == b.source)
  }

  /** At most one input row per order and one reply row per order and source. */
  ghost predicate OneRowPerSlot(log: seq<Row>) {
    forall i, j :: 0 <= i < j < |log| ==> !SameSlot(log[i], log[j])
  }

  /** Each reply row follows its order's input row. */
  ghost predicate RepliesFollowInput(log: seq<Row>) {
    forall j :: 0 <= j < |log| && log[j].ReplyRow? ==> InputBefore(log, log[j].order, j)
  }

  ghost predicate InputBefore(log: seq<Row>, o: nat, j: nat)
    requires j <= |log|
  {
    exists i :: 0 <= i < j && log[i] == InRow(o)
  }

  ghost predicate RowsMatchBranches(s: State) {
    && (forall i :: 0 <= i < |s.log| ==> RowBacked(s, s.log[i]))
    && (forall o :: o in s.calls ==> InputBefore(s.log, o, |s.log|))
    && (forall o :: o in s.calls ==> RowLogged(s, o, FromSubmission) && RowLogged(s, o, FromOracle))
  }

  predicate RowBacked(s: State, row: Row) {
    && row.order in s.calls
    && (row.ReplyRow? ==> BranchOf(s.calls[row.order], row.source) == Logged(row.reply))
  }

  ghost predicate RowLogged(s: State, o: nat, source: Source)
    requires o in s.calls
  {
    BranchOf(s.calls[o], source).Logged? ==>
      ReplyRow(o, source, BranchOf(s.calls[o], source).reply) in s.log
  }

  /** A finished call delivered iff both branches logged, and then the submission's reply. */
  predicate ResultOk(p: Process) {
    p.result.Some? ==>
      && Over(p.submission) && Over(p.oracle)
      && (p.result.value.Delivered? <==> p.submission.Logged? && p.oracle.Logged?)
      && (p.result.value.Delivered? ==> p.submission == Logged(p.result.value.reply))
  }

  ghost predicate Inv(s: State) {
    && OneRowPerSlot(s.log) && RepliesFollowInput(s.log) && RowsMatchBranches(s)
    && forall o :: o in s.calls ==> ResultOk(s.calls[o])
  }

  lemma AppendReply(log: seq<Row>, row: Row)
    requires RepliesFollowInput(log) && (row.ReplyRow? ==> InputBefore(log, row.order, |log|))
    ensures RepliesFollowInput(log + [row])
  {
    var longer := log + [row];
    forall j | 0 <= j < |longer| && longer[j].ReplyRow?
      ensures InputBefore(longer, longer[j].order, j)
    {
      var i :| 0 <= i < j && log[i] == InRow(longer[j].order);
      assert longer[i] == log[i];
    }
  }

  lemma StartStep(s: State, o: nat)
    requires Inv(s) && Enabled(s, Start(o))
    ensures Inv(Apply(s, Start(o)))
  {
    AppendReply(s.log, InRow(o));
    StartBacked(s, o);
    assert (s.log + [InRow(o)])[|s.log|] == InRow(o);
    CallsKeepRows(s, Apply(s, Start(o)), o);
  }

  /** A new call brings in one row, of an order the log did not have. */
  lemma StartBacked(s: State, o: nat)
    requires Inv(s) && Enabled(s, Start(o))
    ensures var s' := Apply(s, Start(o));
      OneRowPerSlot(s'.log) && forall i :: 0 <= i < |s'.log| ==> RowBacked(s', s'.log[i])
  {
    assert forall i :: 0 <= i < |s.log| ==> RowBacked(s, s.log[i]);
  }

  lemma InputKept(log: seq<Row>, longer: seq<Row>, o: nat)
    requires log <= longer && InputBefore(log, o, |log|)
    ensures InputBefore(longer, o, |longer|)
  {
  }

  /** Other calls keep their rows when the log grows. */
  lemma CallsKeepRows(s: State, s': State, o: nat)
    requires RowsMatchBranches(s) && s.log <= s'.log
    requires o in s'.calls && s'.calls == s.calls[o := s'.calls[o]]
    requires InputBefore(s'.log, o, |s'.log|) && RowLogged(s', o, FromSubmission) && RowLogged(s', o, FromOracle)
    ensures forall x :: x in s'.calls ==>
      InputBefore(s'.log, x, |s'.log|) && RowLogged(s', x, FromSubmission) && RowLogged(s', x, FromOracle)
  {
  }

  lemma AnswerStep(s: State, o: nat, source: Source, outcome: Option<Reply>)
    requires Inv(s) && Enabled(s, Answer(o, source, outcome))
    ensures Inv(Apply(s, Answer(o, source, outcome)))
  {
    var s' := Apply(s, Answer(o, source, outcome));
    assert RowLogged(s, o, FromSubmission) && RowLogged(s, o, FromOracle);
    CallsKeepRows(s, s', o);
    forall i | 0 <= i < |s.log|
      ensures RowBacked(s', s.log[i])
    {
      StillBacked(s, s', o, source, s.log[i]);
    }
  }

  lemma LogStep(s: State, o: nat, source: Source)
    requires Inv(s) && Enabled(s, LogReply(o, source))
    ensures Inv(Apply(s, LogReply(o, source)))
  {
    var row := ReplyRow(o, source, BranchOf(s.calls[o], source).reply);
    AppendReply(s.log, row);
    NewSlot(s, row);
    LogBacks(s, o, source);
    LogKeepsRows(s, o, source);
  }

  lemma LogBacks(s: State, o: nat, source: Source)
    requires Inv(s) && Enabled(s, LogReply(o, source))
    ensures var s' := Apply(s, LogReply(o, source));
      forall i :: 0 <= i < |s'.log| ==> RowBacked(s', s'.log[i])
  {
  }

  lemma LogKeepsRows(s: State, o: nat, source: Source)
    requires Inv(s) && Enabled(s, LogReply(o, source))
    ensures var s' := Apply(s, LogReply(o, source));
      forall x :: x in s'.calls ==>
        InputBefore(s'.log, x, |s'.log|) && RowLogged(s', x, FromSubmission) && RowLogged(s', x, FromOracle)
  {
    var s' := Apply(s, LogReply(o, source));
    assert RowLogged(s, o, FromSubmission) && RowLogged(s, o, FromOracle);
    InputKept(s.log, s'.log, o);
    assert s'.log[|s.log|] == ReplyRow(o, source, BranchOf(s.calls[o], source).reply);
    CallsKeepRows(s, s', o);
  }

  /** Advancing an unlogged branch leaves existing rows backed. */
  lemma StillBacked(s: State, s': State, o: nat, source: Source, row: Row)
    requires RowBacked(s, row) && o in s.calls && !BranchOf(s.calls[o], source).Logged?
    requires o in s'.calls && s'.calls == s.calls[o := WithBranch(s.calls[o], source, BranchOf(s'.calls[o], source))]
    ensures RowBacked(s', row)
  {
  }

  lemma NewSlot(s: State, row: Row)
    requires RowsMatchBranches(s) && OneRowPerSlot(s.log)
    requires row.ReplyRow? && row.order in s.calls && !BranchOf(s.calls[row.order], row.source).Logged?
    ensures OneRowPerSlot(s.log + [row])
  {
  }

  lemma FinishStep(s: State, o: nat)
    requires Inv(s) && Enabled(s, Finish(o))
    ensures Inv(Apply(s, Finish(o)))
  {
    var s' := Apply(s, Finish(o));
    assert RowLogged(s, o, FromSubmission) && RowLogged(s, o, FromOracle);
    CallsKeepRows(s, s', o);
    forall i | 0 <= i < |s.log|
      ensures RowBacked(s', s.log[i])
    {
      assert RowBacked(s, s.log[i]);
    }
  }

  lemma {:induction false} RunInv(s: State, es: seq<Event>)
    requires Inv(s) && Feasible(s, es)
    ensures Inv(Run(s, es))
    decreases |es|
  {
    if es != [] {
      match es[0] {
        case Start(o) => StartStep(s, o);
        case Answer(o, source, outcome) => AnswerStep(s, o, source, outcome);
        case LogReply(o, source) => LogStep(s, o, source);
        case Finish(o) => FinishStep(s, o);
      }
      RunInv(Apply(s, es[0]), es[1..]);
    }
  }

  ghost predicate HasReply(log: seq<Row>, o: nat, source: Source) {
    exists r :: ReplyRow(o, source, r) in log
  }

  /** For every interleaving: reply rows follow their input row, there is at most one per
      order and source, and a finished call succeeds exactly when both of its reply rows
      are in the log, returning the reply of the submission's row. */
  lemma LogFaithful(es: seq<Event>)
    requires Feasible(EMPTY_STATE, es)
    ensures var t := Run(EMPTY_STATE, es);
      && OneRowPerSlot(t.log) && RepliesFollowInput(t.log)
      && forall o :: o in t.calls && t.calls[o].result.Some? ==>
           && (t.calls[o].result.value.Delivered?
               <==> HasReply(t.log, o, FromSubmission) && HasReply(t.log, o, FromOracle))
           && (t.calls[o].result.value.Delivered? ==>
                 ReplyRow(o, FromSubmission, t.calls[o].result.value.reply) in t.log)
  {
    RunInv(EMPTY_STATE, es);
    var t := Run(EMPTY_STATE, es);
    forall o | o in t.calls && t.calls[o].result.Some?
      ensures t.calls[o].result.value.Delivered?
              <==> HasReply(t.log, o, FromSubmission) && HasReply(t.log, o, FromOracle)
      ensures t.calls[o].result.value.Delivered? ==>
                ReplyRow(o, FromSubmission, t.calls[o].result.value.reply) in t.log
    {
      RowIffLogged(t, o, FromSubmission);
      RowIffLogged(t, o, FromOracle);
    }
  }

  lemma RowIffLogged(t: State, o: nat, source: Source)
    requires Inv(t) && o in t.calls
    ensures HasReply(t.log, o, source) <==> BranchOf(t.calls[o], source).Logged?
    ensures BranchOf(t.calls[o], source).Logged? ==>
      ReplyRow(o, source, BranchOf(t.calls[o], source).reply) in t.log
  {
  }

  // -- What the endpoints answered -------------------------------------------

  predicate AnswersFor(e: Event, o: nat, source: Source) {
    e.Answer? && e.order == o && e.source == source
  }

  /** Each endpoint answered each order at most once. */
  ghost predicate AnsweredOnce(past: seq<Event>) {
    forall i, j, o, source :: 0 <= i < j < |past| && AnswersFor(past[i], o, source) ==> !AnswersFor(past[j], o, source)
  }

  ghost predicate NoAnswer(past: seq<Event>, o: nat, source: Source) {
    forall i :: 0 <= i < |past| ==> !AnswersFor(past[i], o, source)
  }

  /** A branch is where the answers so far have put it. */
  ghost predicate BranchTraced(past: seq<Event>, o: nat, source: Source, b: Branch) {
    match b
    case Waiting => NoAnswer(past, o, source)
    case Answered(r) => Answer(o, source, Some(r)) in past
    case Logged(r) => Answer(o, source, Some(r)) in past
    case Failed => Answer(o, source, None) in past
  }

  /** So is a call: taken in if it was started, with a result if it was finished. */
  ghost predicate CallTraced(s: State, past: seq<Event>, o: nat) {
    && (o in s.calls <==> Start(o) in past)
    && (o in s.calls && s.calls[o].result.Some? <==> Finish(o) in past)
    && (if o in s.calls then
          BranchTraced(past, o, FromSubmission, s.calls[o].submission) && BranchTraced(past, o, FromOracle, s.calls[o].oracle)
        else
          NoAnswer(past, o, FromSubmission) && NoAnswer(past, o, FromOracle))
  }

  ghost predicate Traced(s: State, past: seq<Event>) {
    && AnsweredOnce(past)
    && (forall o :: CallTraced(s, past, o))
    && (forall o :: InRow(o) in s.log <==> Start(o) in past)
  }

  lemma StepOnce(s: State, past: seq<Event>, e: Event)
    requires Traced(s, past) && Enabled(s, e)
    ensures AnsweredOnce(past + [e])
  {
    if e.Answer? {
      assert CallTraced(s, past, e.order);
      assert NoAnswer(past, e.order, e.source);
    }
  }

  lemma StepCall(s: State, past: seq<Event>, e: Event, o: nat)
    requires Traced(s, past) && Enabled(s, e)
    ensures CallTraced(Apply(s, e), past + [e], o)
  {
    assert CallTraced(s, past, o);
    assert (past + [e])[|past|] == e;
    assert forall x :: x in past ==> x in past + [e];
  }

  lemma StepInput(s: State, past: seq<Event>, e: Event, o: nat)
    requires Traced(s, past) && Enabled(s, e)
    ensures InRow(o) in Apply(s, e).log <==> Start(o) in past + [e]
  {
  }

  lemma {:induction false} RunTraced(s: State, past: seq<Event>, es: seq<Event>)
    requires Traced(s, past) && Feasible(s, es)
    ensures Traced(Run(s, es), past + es)
    decreases |es|
  {
    if es == [] {
      assert past + es == past;
    } else {
      var s' := Apply(s, es[0]);
      StepOnce(s, past, es[0]);
      forall o
        ensures CallTraced(s', past + [es[0]], o)
        ensures InRow(o) in s'.log <==> Start(o) in past + [es[0]]
      {
        StepCall(s, past, es[0], o);
        StepInput(s, past, es[0], o);
      }
      RunTraced(s', past + [es[0]], es[1..]);
      assert past + [es[0]] + es[1..] == past + es;
    }
  }

  /** Both endpoints answered this order. */
  ghost predicate BothAnswered(es: seq<Event>, o: nat) {
    && (exists r :: Answer(o, FromSubmission, Some(r)) in es)
    && (exists r :: Answer(o, FromOracle, Some(r)) in es)
  }

  /** The log and the results, told by what the endpoints answered in the run: an order is
      in the log once it was taken in; a reply row is that source's answer, and a source
      that failed has none; a finished call delivers if and only if both sources answered
      with a reply, and then delivers the submission's; otherwise one of them failed. */
  lemma AnswersDecide(es: seq<Event>)
    requires Feasible(EMPTY_STATE, es)
    ensures var t := Run(EMPTY_STATE, es);
      && (forall o :: InRow(o) in t.log <==> Start(o) in es)
      && (forall o, source, r :: ReplyRow(o, source, r) in t.log ==> Answer(o, source, Some(r)) in es)
      && (forall o, source, r :: ReplyRow(o, source, r) in t.log ==> Answer(o, source, None) !in es)
      && (forall o :: Finish(o) in es ==>
            && o in t.calls && t.calls[o].result.Some?
            && FinishedAsAnswered(t.log, es, o, t.calls[o].result.value))
  {
    var t := Run(EMPTY_STATE, es);
    RunInv(EMPTY_STATE, es);
    assert Traced(EMPTY_STATE, []);
    RunTraced(EMPTY_STATE, [], es);
    assert [] + es == es;
    forall o, source, r | ReplyRow(o, source, r) in t.log
      ensures Answer(o, source, Some(r)) in es && Answer(o, source, None) !in es
    {
      RowTraced(t, es, o, source, r);
    }
    forall o | Finish(o) in es
      ensures o in t.calls && t.calls[o].result.Some? && FinishedAsAnswered(t.log, es, o, t.calls[o].result.value)
    {
      assert CallTraced(t, es, o);
      FinishedTraced(t, es, o);
    }
  }

  ghost predicate FinishedAsAnswered(log: seq<Row>, es: seq<Event>, o: nat, result: Result) {
    && (result.Delivered? <==> BothAnswered(es, o))
    && (result.Delivered? ==> Answer(o, FromSubmission, Some(result.reply)) in es)
    && (result.Refused? ==> Answer(o, FromSubmission, None) in es || Answer(o, FromOracle, None) in es)
    && (forall source, r :: Answer(o, source, Some(r)) in es ==> ReplyRow(o, source, r) in log)
  }

  lemma OneAnswer(es: seq<Event>, o: nat, source: Source, x: Option<Reply>, y: Option<Reply>)
    requires AnsweredOnce(es) && Answer(o, source, x) in es && Answer(o, source, y) in es
    ensures x == y
  {
    var i :| 0 <= i < |es| && es[i] == Answer(o, source, x);
    var j :| 0 <= j < |es| && es[j] == Answer(o, source, y);
    assert AnswersFor(es[i], o, source) && AnswersFor(es[j], o, source);
  }

  lemma RowTraced(t: State, es: seq<Event>, o: nat, source: Source, r: Reply)
    requires Inv(t) && Traced(t, es) && ReplyRow(o, source, r) in t.log
    ensures Answer(o, source, Some(r)) in es && Answer(o, source, None) !in es
  {
    assert RowBacked(t, ReplyRow(o, source, r)) && CallTraced(t, es, o);
    if Answer(o, source, None) in es {
      OneAnswer(es, o, source, Some(r), None);
    }
  }

  /** An endpoint that answered with `r` has its row once the call is over. */
  lemma AnswerLogged(t: State, es: seq<Event>, o: nat, source: Source, r: Reply)
    requires Inv(t) && Traced(t, es) && Answer(o, source, Some(r)) in es
    requires o in t.calls && Over(BranchOf(t.calls[o], source))
    ensures BranchOf(t.calls[o], source) == Logged(r) && ReplyRow(o, source, r) in t.log
  {
    assert CallTraced(t, es, o);
    RowIffLogged(t, o, source);
    match BranchOf(t.calls[o], source)
    case Failed => OneAnswer(es, o, source, Some(r), None);
    case Logged(r') => OneAnswer(es, o, source, Some(r), Some(r'));
  }

  lemma FinishedTraced(t: State, es: seq<Event>, o: nat)
    requires Inv(t) && Traced(t, es) && o in t.calls && t.calls[o].result.Some?
    ensures FinishedAsAnswered(t.log, es, o, t.calls[o].result.value)
  {
    assert CallTraced(t, es, o) && ResultOk(t.calls[o]);
    forall source, r | Answer(o, source, Some(r)) in es
      ensures BranchOf(t.calls[o], source) == Logged(r) && ReplyRow(o, source, r) in t.log
    {
      AnswerLogged(t, es, o, source, r);
    }
    if BothAnswered(es, o) {
      var r :| Answer(o, FromSubmission, Some(r)) in es;
      var r' :| Answer(o, FromOracle, Some(r')) in es;
      assert BranchOf(t.calls[o], FromSubmission) == Logged(r) && BranchOf(t.calls[o], FromOracle) == Logged(r');
    }
  }
}
