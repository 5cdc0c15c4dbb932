/** Timeouts: every command is given up after four of them, and what that takes. */
module RetryBudget {
  import opened Options
  import opened LbsState
  import opened QueueMoves
  import opened NodeConservation
  import opened PowerSave

  /** The response to the command in flight has been accepted. */
  predicate Answered(w: Worker) {
    w.at.InCallback? || w.at.FinishPs? || (w.at.Calling? && w.back.FinishPs?)
  }

  /** Four tries for each queued or unanswered command, less the tries used up. */
  function Work(s: State): int {
    4 * (|s.q.pending| + Bit(s.q.hand.Some?) + Bit(s.q.cur.Some? && !Answered(s.w))) - s.nrRetries
  }

  predicate Inserts(s: State, l: Label) {
    !s.slots.bug && l.Caller? && l.node in s.q.prep && s.q.prep[l.node].phase.Aimed?
  }

  predicate TimesOut(s: State, l: Label) {
    !s.slots.bug && l.Thread? && Timed(s)
  }

  predicate Answers(s: State, l: Label)
    requires Sized(s)
  {
    !s.slots.bug && l.Thread? && AcceptsNow(s)
  }

  lemma {:induction false} RemoveLength(ns: seq<Node>, n: Node)
    ensures Count(ns, n) > 0 ==> |Remove(ns, n)| == |ns| - 1
  {
    if ns == [] {
    } else if ns[0] != n {
      RemoveLength(ns[1..], n);
    }
  }

  /** What a section of the thread does to the retry count, and whether a response is still
      accepted but not finished after it. */
  predicate Controls(s: State, t: State)
    requires Sized(s)
  {
    && t.nrRetries == (if Timed(s) && s.nrRetries < 3 then s.nrRetries + 1
                       else if Timed(s) || AcceptsNow(s) then 0 else s.nrRetries)
    && (Answered(t.w) ==> Answered(s.w) || AcceptsNow(s))
    && (Answered(s.w) || AcceptsNow(s) ==> Answered(t.w) || t.q.cur == None)
  }

  lemma CallPsControls(s: State, action: nat, back: Pc)
    requires Sized(s) && !back.InCallback? && !back.Calling?
    ensures var t := CallPs(s, action, back);
            t.nrRetries == s.nrRetries && (Answered(t.w) <==> back.FinishPs?)
  {
  }

  lemma ProcessControls(s: State)
    requires Placed(s) && s.w.at.Processing?
    ensures Controls(s, ProcessResponse(s))
  {
    hide CallPs, Complete, Count;
    var r := s.slots.buf[s.w.slot];
    var t := ApplyResponse(s, r).(w := s.w.(code := r.result));
    CallPsControls(t, CMD_SUBCMD_EXIT_PS, FinishPs);
    if s.q.cur.Some? { CompleteShape(s.q, s.q.cur.value, r.result); }
  }

  lemma ResponseControls(s: State)
    requires Placed(s) && InResponseSection(s.w.at)
    ensures Controls(s, ResponseSection(s))
  {
    hide ProcessResponse, Complete, Count;
    if s.q.cur.Some? { CompleteShape(s.q, s.q.cur.value, s.w.code); }
    match s.w.at
    case Processing => ProcessControls(s);
    case HandleTimeout => hide Accepts;
    case _ => hide Accepts;
  }

  lemma EventControls(s: State)
    requires Sized(s) && s.w.at.Handling?
    ensures Controls(s, HandleEvent(s))
  {
    hide CallPs, Accepts, Buffered, TwoSlots;
    CallPsControls(s.(psstate := Awake), CMD_SUBCMD_EXIT_PS, Events);
    CallPsControls(s.(env := s.env.(connected := false, txPending := 0)), CMD_SUBCMD_EXIT_PS, Events);
  }

  lemma PowerControls(s: State, hwOk: bool)
    requires Placed(s) && !InResponseSection(s.w.at) && !InCommandSection(s.w.at)
    ensures Controls(s, PowerSection(s, hwOk))
  {
    hide HandleEvent, Accepts, Count, NothingToRead;
    match s.w.at
    case Handling => EventControls(s);
    case ConfirmSleep =>
    case SendConfirm =>
    case CommitSleep =>
    case _ =>
  }

  lemma CommandControls(s: State, hwOk: bool)
    requires Placed(s) && InCommandSection(s.w.at)
    ensures Controls(s, CommandSection(s, hwOk))
  {
    hide Decide, IdleStep, CallPs, Complete, Unlink, Accepts, Count;
    match s.w.at
    case Peeked => DecideControls(s);
    case GoIdle => IdleControls(s);
    case Calling =>
    case _ =>
  }

  lemma DecideControls(s: State)
    requires Sized(s) && s.w.at.Peeked?
    ensures Controls(s, Decide(s))
  {
    hide CallPs, Unlink, Accepts;
    CallPsControls(s, CMD_SUBCMD_EXIT_PS, Transmit);
  }

  lemma IdleControls(s: State)
    requires Sized(s) && s.w.at.GoIdle?
    ensures Controls(s, IdleStep(s))
  {
    hide CallPs, Accepts;
    CallPsControls(s, CMD_SUBCMD_ENTER_PS, Transmit);
  }

  lemma ThreadControls(s: State, hwOk: bool)
    requires Placed(s)
    ensures Controls(s, ThreadStep(s, hwOk))
  {
    hide ResponseSection, PowerSection, CommandSection, Controls, Placed;
    if InResponseSection(s.w.at) { ResponseControls(s); }
    else if InCommandSection(s.w.at) { CommandControls(s, hwOk); }
    else { PowerControls(s, hwOk); }
  }

  lemma OthersControl(s: State, l: Label)
    requires Sized(s) && (!l.Thread? || s.slots.bug)
    ensures Step(s, l).w == s.w && Step(s, l).nrRetries == s.nrRetries
  {
    hide ThreadStep, CallerStep, WaiterStep;
  }

  /** The work after a move of the queues. */
  lemma MoveWork(q: Queues, m: Move)
    requires Buffered(q) && Legal(q, m)
    ensures var r := Apply(q, m);
            var inserted := m.Advance? && m.node in q.prep && q.prep[m.node].phase.Aimed?;
            |r.pending| + Bit(r.hand.Some?) + Bit(r.cur.Some?)
            == |q.pending| + Bit(q.hand.Some?) + Bit(q.cur.Some?) - Bit(m.Finish?) + Bit(inserted)
    ensures Apply(q, m).cur.Some? <==> m.Submit? || (q.cur.Some? && !m.Retry? && !m.Finish?)
    ensures Apply(q, m).cur.Some? ==> m.Submit? || Apply(q, m).cur == q.cur
  {
    hide Count;
    if m.Detach? { RemoveLength(q.pending, m.node); }
    if m.Finish? { CompleteShape(q, m.node, m.code); }
  }

  /** Every timeout and every accepted response uses up at least one unit of work, and only
      queueing a command adds any, four units. */
  lemma StepWork(s: State, l: Label)
    requires Placed(s) && s.nrRetries <= 3
    ensures Work(Step(s, l)) <= Work(s) - Bit(TimesOut(s, l)) - Bit(Answers(s, l)) + 4 * Bit(Inserts(s, l))
  {
    hide Step, Refers, Apply, CmdRet;
    var m := StepMoves(s, l);
    MoveWork(s.q, m);
    if l.Thread? && !s.slots.bug {
      ThreadControls(s, l.hwOk);
      assert Step(s, l) == ThreadStep(s, l.hwOk) by { StepIsThread(s, l); }
    } else {
      OthersControl(s, l);
    }
  }

  lemma StepIsThread(s: State, l: Label)
    requires Sized(s) && l.Thread? && !s.slots.bug
    ensures Step(s, l) == ThreadStep(s, l.hwOk)
  {
    hide ThreadStep;
  }

  function Timeouts(s: State, ls: seq<Label>): nat
    requires Sized(s)
    decreases |ls|
  {
    if ls == [] then 0 else Bit(TimesOut(s, ls[0])) + Timeouts(Step(s, ls[0]), ls[1..])
  }

  function Replies(s: State, ls: seq<Label>): nat
    requires Sized(s)
    decreases |ls|
  {
    if ls == [] then 0 else Bit(Answers(s, ls[0])) + Replies(Step(s, ls[0]), ls[1..])
  }

  function Queued(s: State, ls: seq<Label>): nat
    requires Sized(s)
    decreases |ls|
  {
    if ls == [] then 0 else Bit(Inserts(s, ls[0])) + Queued(Step(s, ls[0]), ls[1..])
  }

  /** Over every run, every timeout and every accepted response uses up one unit of work, and
      only queueing a command adds any, four units each.  Work never falls below -3, so the
      timeouts and accepted responses of a run are at most Work at its start, plus 3, plus
      four for each command queued in it. */
  lemma {:induction false} TriesAreBounded(s: State, ls: seq<Label>)
    requires Conserved(s) && PowerSafe(s)
    ensures Timeouts(s, ls) + Replies(s, ls) + Work(Run(s, ls)) <= Work(s) + 4 * Queued(s, ls)
    ensures Timeouts(s, ls) + Replies(s, ls) <= Work(s) + 3 + 4 * Queued(s, ls)
    decreases |ls|
  {
    hide Step, Work, Partitioned, Ledger, SleepIsSafe, PowerAt, Gated, Inserts, TimesOut, Answers;
    if ls == [] {
      WorkFloor(s);
    } else {
      StepWork(s, ls[0]);
      StepSafe(s, ls[0]);
      StepConserves(s, ls[0]);
      TriesAreBounded(Step(s, ls[0]), ls[1..]);
    }
    RunSafe(s, ls);
    WorkFloor(Run(s, ls));
  }

  lemma WorkFloor(s: State)
    requires s.nrRetries <= 3
    ensures Work(s) >= -3
  {
  }

  /** Nothing is queued, unlinked or in flight without an answer. */
  predicate Drained(s: State) {
    s.q.pending == [] && s.q.hand == None && (s.q.cur == None || Answered(s.w))
  }

  /** In whatever order the contexts run: once no command is queued any more, as many timeouts
      and accepted responses as there is work drain the queue. */
  lemma DrainsInAnyOrder(s: State, ls: seq<Label>)
    requires Conserved(s) && PowerSafe(s) && Queued(s, ls) == 0 && Timeouts(s, ls) + Replies(s, ls) >= Work(s)
    ensures Drained(Run(s, ls))
  {
    hide Run, Conserved, Timeouts, Replies, Queued, SleepIsSafe, PowerAt, Gated;
    TriesAreBounded(s, ls);
    RunSafe(s, ls);
  }
}
