/** A transfer that is never reported done: what the fourth timeout of a command does to the
    driver when nothing has cleared dnld_sent. */
module Wedge {
  import opened Options
  import opened LbsState
  import opened QueueMoves
  import opened NodeConservation
  import opened PowerSave
  import opened RetryBudget
  import opened GivingUp
  import opened ThreadPass
  import opened DeadFirmware
  import opened WakeProgress

  /** Something is still marked as on its way to the card, and no command is in flight. */
  predicate Wedged(s: State) {
    Placed(s) && PowerSafe(s) && s.dnld != ResReceived && s.q.cur == None && !s.w.at.CommitSleep?
  }

  lemma WedgedStep(s: State, l: Label)
    requires Conserved(s) && Wedged(s) && !l.HostToCardDone?
    ensures Wedged(Step(s, l)) && Step(s, l).q.log.done == s.q.log.done
  {
    hide Step, PowerSafe, Partitioned, Ledger, Count;
    var m := StepMoves(s, l);
    StepSafe(s, l);
    WedgedKeeps(s, l);
  }

  lemma WedgedKeeps(s: State, l: Label)
    requires Placed(s) && Wedged(s) && !l.HostToCardDone?
    ensures var t := Step(s, l);
            t.dnld != ResReceived && t.q.cur == None && !t.w.at.CommitSleep? && t.q.log.done == s.q.log.done
  {
    hide ResponseSection, PowerSection, CommandSection, Count, Gated, SleepIsSafe;
    match l
    case Thread(hwOk) =>
      if InResponseSection(s.w.at) { WedgedResponse(s); }
      else if InCommandSection(s.w.at) { WedgedCommand(s, hwOk); }
      else { WedgedPower(s, hwOk); }
    case _ =>
  }

  lemma WedgedResponse(s: State)
    requires Wedged(s) && InResponseSection(s.w.at)
    ensures var t := ResponseSection(s);
            t.dnld != ResReceived && t.q.cur == None && !t.w.at.CommitSleep? && t.q.log.done == s.q.log.done
  {
    hide CallPs, Complete, Count, Gated, SleepIsSafe;
  }

  lemma WedgedEvent(s: State)
    requires Sized(s) && s.dnld != ResReceived && s.q.cur == None && s.w.at.Handling?
    ensures var t := HandleEvent(s);
            t.dnld != ResReceived && t.q.cur == None && !t.w.at.CommitSleep? && t.q.log.done == s.q.log.done
  {
    hide CallPs, Buffered, TwoSlots;
    CallPsWedged(s.(psstate := Awake), CMD_SUBCMD_EXIT_PS, Events);
    CallPsWedged(s.(env := s.env.(connected := false, txPending := 0)), CMD_SUBCMD_EXIT_PS, Events);
  }

  lemma CallPsWedged(s: State, action: nat, back: Pc)
    requires Sized(s) && !back.CommitSleep?
    ensures var t := CallPs(s, action, back);
            t.dnld == s.dnld && t.q.cur == s.q.cur && !t.w.at.CommitSleep? && t.q.log.done == s.q.log.done
  {
  }

  lemma WedgedPower(s: State, hwOk: bool)
    requires Wedged(s) && !InResponseSection(s.w.at) && !InCommandSection(s.w.at)
    ensures var t := PowerSection(s, hwOk);
            t.dnld != ResReceived && t.q.cur == None && !t.w.at.CommitSleep? && t.q.log.done == s.q.log.done
  {
    hide Count, Gated, SleepIsSafe, NothingToRead, HandleEvent;
    match s.w.at
    case Handling => WedgedEvent(s);
    case ConfirmSleep =>
    case SendConfirm =>
    case CheckPreSleep =>
    case Gate =>
    case Events =>
    case _ =>
  }

  lemma WedgedCommand(s: State, hwOk: bool)
    requires Wedged(s) && InCommandSection(s.w.at)
    ensures var t := CommandSection(s, hwOk);
            t.dnld != ResReceived && t.q.cur == None && !t.w.at.CommitSleep? && t.q.log.done == s.q.log.done
  {
    hide Decide, IdleStep, Complete, Count, Gated, SleepIsSafe;
    match s.w.at
    case Calling =>
    case Transmit =>
    case _ =>
  }

  /** Once wedged, over every run in which the card does not report the transfer done, no
      command is ever sent or completed, whatever else happens. */
  lemma {:induction false} WedgedForGood(s: State, ls: seq<Label>)
    requires Conserved(s) && Wedged(s) && forall l :: l in ls ==> !l.HostToCardDone?
    ensures Run(s, ls).q.cur == None && Run(s, ls).q.log.done == s.q.log.done
    decreases |ls|
  {
    hide Step, Partitioned, Ledger, PowerSafe;
    if ls == [] {
    } else {
      WedgedStep(s, ls[0]);
      StepConserves(s, ls[0]);
      WedgedForGood(Step(s, ls[0]), ls[1..]);
    }
  }

  /** In any state of any run the fourth timeout in a row wedges the driver exactly if the last
      transfer was not reported done. */
  lemma FinalTimeoutWedges(s: State, hwOk: bool)
    requires Conserved(s) && PowerSafe(s) && TimesOut(s, Thread(hwOk)) && s.nrRetries == 3
    ensures Wedged(Step(s, Thread(hwOk))) <==> s.dnld != ResReceived
  {
    hide Partitioned, Ledger, Count, Complete, SleepIsSafe, PowerAt, Gated;
    var m := StepMoves(s, Thread(hwOk));
    StepSafe(s, Thread(hwOk));
    CompleteShape(s.q, s.q.cur.value, -ETIMEDOUT);
  }

  // ---------------------------------------------------------------- the next command

  /** The settings under which the thread does nothing but execute commands. */
  function Undisturbing(): Env {
    Env(false, false, false, true, false, false, true, 0)
  }

  /** The card is at full power and nothing is in flight or on its way. */
  predicate FreeToSend(s: State, queue: seq<Node>) {
    && Sized(s) && !s.slots.bug && s.psstate == FullPower && s.dnld == ResReceived && s.env == Undisturbing()
    && s.q.cur == None && s.q.hand == None && s.q.pending == queue
  }

  /** How far the thread is from its look at the head of the queue. */
  function Distance(pc: Pc): nat {
    match pc
    case ClearTimeout => 9
    case Handling => 8
    case ConfirmWake => 7
    case Events => 6
    case CheckFwReady => 5
    case CheckPreSleep => 4
    case Gate => 3
    case Execute => 2
    case Peek => 1
    case _ => 0
  }

  lemma FreePower(s: State, queue: seq<Node>)
    requires FreeToSend(s, queue)
             && (s.w.at.Events? || s.w.at.Handling? || s.w.at.ConfirmWake? || s.w.at.CheckFwReady?
                || s.w.at.CheckPreSleep? || s.w.at.Gate?)
    ensures var t := PowerSection(s, false);
            FreeToSend(t, queue) && Distance(t.w.at) > 0
            && (|t.fifo| < |s.fifo| || (t.fifo == s.fifo && Distance(t.w.at) < Distance(s.w.at)))
  {
    hide NothingToRead;
  }

  lemma FreeStep(s: State, queue: seq<Node>)
    requires FreeToSend(s, queue) && queue != [] && Distance(s.w.at) > 0
    ensures var t := Step(s, Thread(false));
            && FreeToSend(t, queue)
            && (|t.fifo| < |s.fifo| || (t.fifo == s.fifo && Distance(t.w.at) < Distance(s.w.at)))
            && (Distance(t.w.at) == 0 ==> t.w.at.Peeked? && t.w.node == queue[0])
  {
    hide PowerSection, ProcessResponse, FinishResponse, HandleTimeoutStep, Decide, IdleStep, Complete, FreeToSend;
    assert Sized(s) by { FreeParts(s, queue); }
    if !InResponseSection(s.w.at) && !InCommandSection(s.w.at) {
      FreePower(s, queue);
      FreeParts(s, queue);
    } else {
      FreeLoop(s, queue);
    }
  }

  lemma FreeParts(s: State, queue: seq<Node>)
    requires FreeToSend(s, queue)
    ensures Sized(s) && !s.slots.bug
  {
  }

  lemma FreeLoop(s: State, queue: seq<Node>)
    requires FreeToSend(s, queue) && queue != [] && (s.w.at.ClearTimeout? || s.w.at.Execute? || s.w.at.Peek?)
    ensures var t := Step(s, Thread(false));
            && FreeToSend(t, queue) && t.fifo == s.fifo && Distance(t.w.at) < Distance(s.w.at)
            && (Distance(t.w.at) == 0 ==> t.w.at.Peeked? && t.w.node == queue[0])
  {
    hide PowerSection, ProcessResponse, FinishResponse, HandleTimeoutStep, Decide, IdleStep, Complete;
  }

  lemma PeekedIsUnlinked(s: State, queue: seq<Node>)
    requires FreeToSend(s, queue) && s.w.at.Peeked?
    ensures Step(s, Thread(false)) == UnlinkTo(s, Unlinked)
  {
    hide ResponseSection, PowerSection, CallPs, IdleStep, Complete, Remove, Buffered, TwoSlots;
  }

  lemma UnlinkedIsStored(s: State)
    requires Sized(s) && !s.slots.bug && s.w.at.Unlinked?
    ensures Step(s, Thread(false)).q.cur == Some(s.w.node)
  {
    hide ResponseSection, PowerSection, Decide, IdleStep, Complete;
  }

  /** From its look on the thread sends the head of the queue. */
  lemma PeekedIsSent(s: State, queue: seq<Node>)
    requires FreeToSend(s, queue) && s.w.at.Peeked?
    ensures Run(s, [Thread(false), Thread(false)]).q.cur == Some(s.w.node)
  {
    hide Step, Remove;
    PeekedIsUnlinked(s, queue);
    var u := UnlinkTo(s, Unlinked);
    UnlinkedIsStored(u);
    assert [Thread(false), Thread(false)][1..] == [Thread(false)] && [Thread(false)][1..] == [];
  }

  lemma {:induction false} FreeRuns(s: State, queue: seq<Node>) returns (ls: seq<Label>)
    requires FreeToSend(s, queue) && queue != []
    requires Distance(s.w.at) > 0 || (s.w.at.Peeked? && s.w.node == queue[0])
    ensures Run(s, ls).q.cur == Some(queue[0]) && forall l :: l in ls ==> l.Thread?
    decreases |s.fifo|, Distance(s.w.at)
  {
    hide Step, Run, FreeToSend;
    assert Sized(s) by { FreeParts(s, queue); }
    if Distance(s.w.at) == 0 {
      PeekedIsSent(s, queue);
      ls := [Thread(false), Thread(false)];
    } else {
      FreeStep(s, queue);
      var more := FreeRuns(Step(s, Thread(false)), queue);
      ls := [Thread(false)] + more;
      RunCons(s, Thread(false), more);
    }
  }

  /** The fourth timeout in a row frees the thread for the next command, if nothing is on its way. */
  lemma TimeoutFrees(s: State, hwOk: bool)
    requires Placed(s) && TimesOut(s, Thread(hwOk)) && s.nrRetries == 3 && s.psstate == FullPower
             && s.dnld == ResReceived
    ensures var t := Step(Step(s, Thread(hwOk)), Configure(Undisturbing()));
            FreeToSend(t, s.q.pending) && t.w.at.ClearTimeout?
  {
    hide Complete, ThreadStep, Count;
    CompleteShape(s.q, s.q.cur.value, -ETIMEDOUT);
    CompletePending(s.q, s.q.cur.value);
    StepIsThread(s, Thread(hwOk));
    TimeoutSection(s, hwOk);
  }

  lemma CompletePending(q: Queues, n: Node)
    requires Buffered(q)
    ensures Complete(q, n, -ETIMEDOUT).pending == q.pending
  {
  }

  lemma TimeoutSection(s: State, hwOk: bool)
    requires Sized(s) && s.w.at.HandleTimeout?
    ensures ThreadStep(s, hwOk) == Goto(HandleTimeoutStep(s), ClearTimeout)
  {
    hide HandleTimeoutStep, ProcessResponse, FinishResponse, PowerSection, CommandSection;
  }

  /** At full power, with another command waiting, some run after the fourth timeout sends that
      command without any report of the card if and only if the last transfer was reported. */
  lemma SentExactlyIfReported(s: State, hwOk: bool)
    requires Conserved(s) && PowerSafe(s) && TimesOut(s, Thread(hwOk)) && s.nrRetries == 3
    requires s.psstate == FullPower && s.q.pending != []
    ensures var u := Step(s, Thread(hwOk));
            (exists ls: seq<Label> :: HostToCardDone !in ls && Run(u, ls).q.cur == Some(s.q.pending[0]))
            <==> s.dnld == ResReceived
  {
    hide Step, Run, Wedged, FreeToSend, Partitioned, Ledger, PowerSafe;
    var u := Step(s, Thread(hwOk));
    if s.dnld == ResReceived {
      TimeoutFrees(s, hwOk);
      var more := FreeRuns(Step(u, Configure(Undisturbing())), s.q.pending);
      RunCons(u, Configure(Undisturbing()), more);
      var ls := [Configure(Undisturbing())] + more;
      assert HostToCardDone !in ls && Run(u, ls).q.cur == Some(s.q.pending[0]);
    } else {
      FinalTimeoutWedges(s, hwOk);
      StepConserves(s, Thread(hwOk));
      forall ls: seq<Label> | HostToCardDone !in ls ensures Run(u, ls).q.cur == None {
        WedgedForGood(u, ls);
      }
    }
  }

  // ---------------------------------------------------------------- a run into the wedge

  /** The timer fires and the thread makes one pass. */
  lemma TimedPassIsRun(s: State, hwOk: bool) returns (ls: seq<Label>)
    requires Sized(s)
    ensures Pass(Step(s, Timer), hwOk) == Run(s, ls)
  {
    hide Step, Pass;
    var more := PassIsRun(Step(s, Timer), hwOk);
    ls := [Timer] + more;
    assert ls[1..] == more;
  }

  lemma TimerFires(s: State)
    requires Sized(s) && !s.slots.bug && s.q.cur.Some?
    ensures Step(s, Timer) == s.(timedOut := true)
  {
    hide ThreadStep, CallerStep, WaiterStep;
  }

  /** The card takes the command and its three repetitions, and reports nothing. */
  lemma ThreeRetries(s: State) returns (ls: seq<Label>)
    requires Ready(s) && s.q.cur.Some? && s.nrRetries == 0
    ensures var t := Run(s, ls);
            Ready(t) && t.q == s.q && t.nrRetries == 3 && t.dnld == CmdSent
  {
    hide Step, Pass, Run;
    ls := [];
    var t := s;
    assert Run(s, []) == s by { RunNothing(s); }
    for i := 0 to 3
      invariant Ready(t) && t.q == s.q && t.nrRetries == i && t == Run(s, ls) && (i > 0 ==> t.dnld == CmdSent)
    {
      TimerFires(t);
      PassRetries(Step(t, Timer), true);
      var more := TimedPassIsRun(t, true);
      RunJoin(s, ls, more);
      t := Pass(Step(t, Timer), true);
      ls := ls + more;
    }
  }

  lemma RunNothing(s: State)
    requires Sized(s)
    ensures Run(s, []) == s
  {
  }

  /** From the start: callers queue ten commands, the thread sends the first, and the card,
      which takes every transfer, reports none done and answers nothing.  Four timeouts
      later the driver is wedged with nine commands waiting. */
  lemma WedgeIsReachable(env: Env) returns (ls: seq<Label>)
    requires env.fwReady && env.cam && env.txPending <= 0
    ensures var t := Run(Init(env), ls);
            Wedged(t) && |t.q.pending| == 9
  {
    var first, a := TenQueued(env);
    var more := PassIsRun(a, true);
    SubmitsFirst(a);
    var b := Pass(a, true);
    var retries := ThreeRetries(b);
    var c := Run(b, retries);
    TimerFires(c);
    PassGivesUp(Step(c, Timer), true);
    var last := TimedPassIsRun(c, true);
    ls := first + (more + (retries + last));
    hide Run, Step, Pass, Init;
    RunJoin(Init(env), first, more + (retries + last));
    RunJoin(a, more, retries + last);
    RunJoin(b, retries, last);
    SafeFromStart(env, ls);
    assert Run(Init(env), ls).q.cur == None;
  }

  /** From the start, the other way round: callers queue ten commands, the card takes the first one
      and its repetitions and those of the next nine, reports every transfer and answers
      none.  In that run nothing more is queued and nothing answered, and there are as many
      timeouts as there is work. */
  lemma DrainsFromStart(env: Env) returns (first: seq<Label>, ls: seq<Label>)
    requires env.fwReady && env.cam && env.txPending <= 0
    ensures var a := Run(Init(env), first);
            && Conserved(a) && PowerSafe(a) && Silent(a) && DeadRun(a, ls) && Work(a) == 40
            && Timeouts(a, ls) >= Work(a)
  {
    hide Run, Step, Pass, Init, Timeouts, DeadRun;
    var queued, a := TenQueued(env);
    var more := PassIsRun(a, true);
    SubmitsFirst(a);
    first := queued + more;
    RunJoin(Init(env), queued, more);
    InitConserved(env);
    RunConserves(Init(env), first);
    SafeFromStart(env, first);
    ls := DeadFirmwareDrains(Run(Init(env), first), seq(40, _ => true));
  }

  lemma SafeFromStart(env: Env, ls: seq<Label>)
    ensures Placed(Run(Init(env), ls)) && PowerSafe(Run(Init(env), ls))
  {
    InitConserved(env);
    InitSafe(env);
    RunSafe(Init(env), ls);
  }

  lemma TenQueued(env: Env) returns (ls: seq<Label>, a: State)
    requires env.fwReady && env.cam && env.txPending <= 0
    ensures a == Run(Init(env), ls) && Ready(a) && a.q.cur == None && |a.q.pending| == 10
    ensures a.dnld == ResReceived && !a.timedOut && a.nrRetries == 0
  {
    hide Run, Step, Flood, Filling;
    var req := Request(1, 0, 8, Async);
    var s := Init(env);
    ls := FloodIsRun(s, req);
    FloodsTen(s.q, req);
    a := s.(q := Flood(s.q, req, FullPower));
  }

  lemma FloodsTen(q: Queues, req: Request)
    requires req == Request(1, 0, 8, Async) && Buffered(q) && q.free == [0, 1, 2, 3, 4, 5, 6, 7, 8, 9]
    requires q.pending == [] && q.prep == map[] && q.cur == None && q.hand == None
    ensures var r := Flood(q, req, FullPower);
            |r.pending| == 10 && r.prep == map[] && r.cur == None && r.hand == None
  {
    hide Flood;
    FloodQueuesAll(q, req, FullPower);
  }

  /** The first pass sends the head of the queue. */
  lemma SubmitsFirst(s: State)
    requires Ready(s) && s.q.cur == None && s.q.pending != [] && s.dnld == ResReceived && !s.timedOut
             && s.nrRetries == 0
    ensures var t := Pass(s, true);
            Ready(t) && t.q.cur.Some? && t.nrRetries == 0 && |t.q.pending| == |s.q.pending| - 1
  {
    hide Pass, Count;
    PassSubmits(s, true);
  }
}
