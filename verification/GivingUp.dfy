/** A firmware that stops answering, at full power: what every run does with the commands. */
module GivingUp {
  import opened Options
  import opened LbsState
  import opened QueueMoves
  import opened NodeConservation
  import opened PowerSave
  import opened RetryBudget
  import opened CommandOrder

  /** No command is queued and no response accepted. */
  predicate Dead(s: State, l: Label)
    requires Sized(s)
  {
    !Inserts(s, l) && !Answers(s, l)
  }

  predicate DeadRun(s: State, ls: seq<Label>)
    requires Sized(s)
    decreases |ls|
  {
    ls == [] || (Dead(s, ls[0]) && DeadRun(Step(s, ls[0]), ls[1..]))
  }

  /** No command is put at the head of the queue and no response accepted; others may be
      queued behind. */
  predicate Unanswered(s: State, l: Label)
    requires Sized(s)
  {
    !(Inserts(s, l) && s.q.prep[l.node].phase.atHead) && !Answers(s, l)
  }

  predicate UnansweredRun(s: State, ls: seq<Label>)
    requires Sized(s)
    decreases |ls|
  {
    ls == [] || (Unanswered(s, ls[0]) && UnansweredRun(Step(s, ls[0]), ls[1..]))
  }

  // ---------------------------------------------------------------- the thread at full power

  /** What a section of the thread that accepts no response does at full power. */
  predicate Steady(s: State, t: State) {
    && t.psstate == FullPower
    && (t.w.at.Dropping? ==> s.w.at.Dropping?)
    && (t.w.at.Peeked? ==> s.w.at.Peek? && s.q.pending != [] && t.w.node == s.q.pending[0])
    && (t.w.at.Unlinked? ==> s.w.at.Peeked?)
    && (s.w.at.Peeked? ==> t.w.at.Unlinked?)
  }

  lemma CallPsSteady(s: State, action: nat, back: Pc)
    requires Sized(s) && (back.Events? || back.Transmit? || back.FinishPs?)
    ensures var t := CallPs(s, action, back);
            t.psstate == s.psstate && !t.w.at.Dropping? && !t.w.at.Peeked? && !t.w.at.Unlinked?
  {
  }

  lemma ResponseSteady(s: State)
    requires Placed(s) && s.psstate == FullPower && InResponseSection(s.w.at) && !AcceptsNow(s)
    ensures Steady(s, ResponseSection(s))
  {
    hide Accepts, Complete, CallPs, Count;
  }

  lemma EventSteady(s: State)
    requires Sized(s) && s.psstate == FullPower && s.w.at.Handling?
    ensures Steady(s, HandleEvent(s))
  {
    hide CallPs, Buffered, TwoSlots;
  }

  lemma PowerSteady(s: State, hwOk: bool)
    requires Placed(s) && PowerSafe(s) && s.psstate == FullPower && !InResponseSection(s.w.at)
             && !InCommandSection(s.w.at)
    ensures Steady(s, PowerSection(s, hwOk))
  {
    hide HandleEvent, Count, NothingToRead, SleepIsSafe, Gated;
    match s.w.at
    case Handling => EventSteady(s);
    case _ =>
  }

  lemma CommandSteady(s: State, hwOk: bool)
    requires Placed(s) && s.psstate == FullPower && InCommandSection(s.w.at)
    ensures Steady(s, CommandSection(s, hwOk))
  {
    hide Decide, CallPs, Complete, Count;
    match s.w.at
    case Peeked => DecideSteady(s);
    case GoIdle => CallPsSteady(s, CMD_SUBCMD_ENTER_PS, Transmit);
    case Calling =>
    case _ =>
  }

  lemma DecideSteady(s: State)
    requires Sized(s) && s.psstate == FullPower && s.w.at.Peeked?
    ensures Steady(s, Decide(s))
  {
    hide CallPs, Unlink;
  }

  lemma ThreadSteady(s: State, hwOk: bool)
    requires Placed(s) && PowerSafe(s) && s.psstate == FullPower && !AcceptsNow(s)
    ensures Steady(s, ThreadStep(s, hwOk))
  {
    hide ResponseSection, PowerSection, CommandSection, Steady, PowerSafe, Count, Accepts;
    if InResponseSection(s.w.at) { ResponseSteady(s); }
    else if InCommandSection(s.w.at) { CommandSteady(s, hwOk); }
    else { PowerSteady(s, hwOk); }
  }

  lemma OthersSteady(s: State, l: Label)
    requires Sized(s) && s.psstate == FullPower && (!l.Thread? || s.slots.bug)
    ensures Step(s, l).w == s.w && Step(s, l).psstate == FullPower
  {
    hide ThreadStep, CallerStep, WaiterStep;
  }

  // ---------------------------------------------------------------- one command

  /** The command of node c is the next one to be sent, is being sent, or is in flight
      without an answer. */
  predicate Facing(s: State, c: Node) {
    && s.psstate == FullPower && !Answered(s.w) && !s.w.at.Dropping?
    && if s.q.cur.Some? then s.q.cur == Some(c)
       else if s.q.hand.Some? then s.q.hand == Some(c)
       else s.q.pending != [] && s.q.pending[0] == c && (s.w.at.Peeked? ==> s.w.node == c)
  }

  /** What a move does to the command that is next in line. */
  lemma MoveFaces(q: Queues, m: Move, c: Node)
    requires Buffered(q) && Legal(q, m)
    requires !(m.Advance? && m.node in q.prep && q.prep[m.node].phase == Aimed(true))
    ensures var r := Apply(q, m);
            match m
            case Advance(n, _) => r.cur == q.cur && r.hand == q.hand && q.pending <= r.pending
            case Detach(n) => q.pending != [] && q.pending[0] == n ==> r.cur == None && r.hand == Some(n)
            case Submit(n) => r.cur == Some(n) && r.hand == None
            case Retry(n) => r.cur == None && r.hand == None && r.pending == [n] + q.pending
            case Finish(n, code) => r == Complete(q, n, code)
            case _ => r.cur == q.cur && r.hand == q.hand && r.pending == q.pending
  {
    hide Count;
  }

  /** As long as nobody answers, the command in flight stays next in line until its fourth
      timeout, which completes it with -ETIMEDOUT. */
  lemma FacingStep(s: State, l: Label, c: Node)
    requires Placed(s) && PowerSafe(s) && Facing(s, c) && Unanswered(s, l)
    ensures var t := Step(s, l);
            if TimesOut(s, l) && s.nrRetries == 3 then
              s.q.cur == Some(c) && t.q == Complete(s.q, c, -ETIMEDOUT) && t.nrRetries == 0
            else
              Facing(t, c) && t.nrRetries == s.nrRetries + Bit(TimesOut(s, l))
                && (TimesOut(s, l) ==> t.q.pending[0] == c)
  {
    hide Step, Apply, Accepts, SleepIsSafe, PowerAt, Gated, Count;
    var m := StepMoves(s, l);
    MoveFaces(s.q, m, c);
    if l.Thread? && !s.slots.bug {
      StepIsThread(s, l);
      ThreadSteady(s, l.hwOk);
      ThreadControls(s, l.hwOk);
    } else {
      OthersControl(s, l);
      OthersSteady(s, l);
    }
  }

  /** In every run in which nothing is queued at the head and nothing answered, whatever else
      happens and in whatever order: the first 3 - nr_retries timeouts bring the command in flight back, in
      the same buffer, before every other one, and the next timeout completes it. */
  lemma {:induction false} FourthTimeoutGivesUp(s: State, ls: seq<Label>, l: Label, c: Node)
    requires Conserved(s) && PowerSafe(s) && Facing(s, c) && UnansweredRun(s, ls) && Unanswered(Run(s, ls), l)
    requires Timeouts(s, ls) == 3 - s.nrRetries && TimesOut(Run(s, ls), l)
    ensures var t := Run(s, ls);
            && t.q.cur == Some(c) && t.q.buf[c] == s.q.buf[c] && t.nrRetries == 3
            && Step(t, l).q == Complete(t.q, c, -110) && Step(t, l).nrRetries == 0
  {
    hide Step, Run, Partitioned, Ledger, PowerSafe, TimesOut;
    FacingRun(s, ls, c);
    RunConserves(s, ls);
    RunSafe(s, ls);
    FacingStep(Run(s, ls), l, c);
  }

  /** Up to then the command keeps its place and its buffer, through every retry. */
  lemma {:induction false} FacingRun(s: State, ls: seq<Label>, c: Node)
    requires Conserved(s) && PowerSafe(s) && Facing(s, c) && UnansweredRun(s, ls) && Timeouts(s, ls) <= 3 - s.nrRetries
    ensures var t := Run(s, ls);
            Facing(t, c) && t.nrRetries == s.nrRetries + Timeouts(s, ls) && t.q.buf[c] == s.q.buf[c]
    decreases |ls|
  {
    hide Step, Partitioned, Ledger, PowerSafe, Facing, TimesOut, Unanswered;
    if ls == [] {
    } else {
      FacingStep(s, ls[0], c);
      FacingLives(s, c);
      FacingLives(Step(s, ls[0]), c);
      LiveKeepsBuffer(s, ls[0], c);
      StepConserves(s, ls[0]);
      StepSafe(s, ls[0]);
      FacingRun(Step(s, ls[0]), ls[1..], c);
    }
  }

  lemma FacingLives(s: State, c: Node)
    requires Facing(s, c)
    ensures Live(s.q, c)
  {
  }

  // ---------------------------------------------------------------- all commands

  /** Full power, and no response or dropped command on its way to a completion. */
  predicate Silent(s: State) {
    s.psstate == FullPower && !Answered(s.w) && !s.w.at.Dropping?
  }

  /** Node n is as it was, or its command has been given up meanwhile. */
  predicate OnlyGivenUp(p: Past, t: Past) {
    && t.queued == p.queued
    && if t.completed == p.completed then t.outcome == p.outcome
       else t.completed > p.completed && t.outcome == -ETIMEDOUT
  }

  lemma MovePast(q: Queues, m: Move, n: Node)
    requires Buffered(q) && Legal(q, m)
    requires !(m.Advance? && m.node in q.prep && q.prep[m.node].phase.Aimed?)
    ensures var p, t := q.buf[n].past, Apply(q, m).buf[n].past;
            t.queued == p.queued
            && if m.Finish? && m.node == n then t.completed == p.completed + 1 && t.outcome == m.code
               else t.completed == p.completed && t.outcome == p.outcome
  {
  }

  lemma SilentStep(s: State, l: Label, n: Node)
    requires Placed(s) && PowerSafe(s) && Silent(s) && Dead(s, l)
    ensures var t := Step(s, l);
            Silent(t) && OnlyGivenUp(s.q.buf[n].past, t.q.buf[n].past)
  {
    hide Step, Apply, Accepts, SleepIsSafe, PowerAt, Gated, Count;
    var m := StepMoves(s, l);
    MovePast(s.q, m, n);
    if l.Thread? && !s.slots.bug {
      StepIsThread(s, l);
      ThreadSteady(s, l.hwOk);
      ThreadControls(s, l.hwOk);
    } else {
      OthersControl(s, l);
      OthersSteady(s, l);
    }
  }

  lemma {:induction false} SilentRun(s: State, ls: seq<Label>, n: Node)
    requires Conserved(s) && PowerSafe(s) && Silent(s) && DeadRun(s, ls)
    ensures Silent(Run(s, ls)) && OnlyGivenUp(s.q.buf[n].past, Run(s, ls).q.buf[n].past)
    ensures Queued(s, ls) == 0 && Replies(s, ls) == 0
    decreases |ls|
  {
    hide Step, Partitioned, Ledger, PowerSafe, Silent, Inserts, Answers;
    if ls == [] {
    } else {
      SilentStep(s, ls[0], n);
      StepConserves(s, ls[0]);
      StepSafe(s, ls[0]);
      SilentRun(Step(s, ls[0]), ls[1..], n);
    }
  }

  /** In every run at full power in which nothing is queued and nothing answered, whatever else
      happens and in whatever order: as many timeouts as there is work leave nothing queued
      or in flight, and every command that was has been completed once, with -ETIMEDOUT (110). */
  lemma AllGivenUp(s: State, ls: seq<Label>)
    requires Conserved(s) && PowerSafe(s) && Silent(s) && DeadRun(s, ls) && Timeouts(s, ls) >= Work(s)
    ensures var t := Run(s, ls);
            && t.q.pending == [] && t.q.hand == None && t.q.cur == None
            && forall n: Node :: Live(s.q, n) ==>
                 t.q.buf[n].past.completed == s.q.buf[n].past.completed + 1 && t.q.buf[n].past.outcome == -110
  {
    hide Run, Step, Partitioned, PowerSafe, Timeouts, Queued, Replies, DeadRun, Work;
    var t := Run(s, ls);
    SilentRun(s, ls, 0);
    DrainsInAnyOrder(s, ls);
    RunConserves(s, ls);
    forall n: Node | Live(s.q, n)
      ensures t.q.buf[n].past.completed == s.q.buf[n].past.completed + 1 && t.q.buf[n].past.outcome == -ETIMEDOUT
    {
      SilentRun(s, ls, n);
      assert Balanced(s.q, n) && Balanced(t.q, n);
    }
  }

  /** Whenever the queue is drained in a run from the start, every command queued so far,
      EXIT_PS left out, has been completed, in the order in which it was queued. */
  lemma DrainedMeansAllDone(env: Env, ls: seq<Label>)
    requires Drained(Run(Init(env), ls)) && Run(Init(env), ls).q.cur == None
    ensures var log := Run(Init(env), ls).q.log; log.done == log.enqueued
  {
    hide Run, Init, Step, Partitioned, Ledger;
    InitConserved(env);
    InitOrdered(env);
    RunOrdered(Init(env), ls);
  }
}
