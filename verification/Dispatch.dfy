/** What lbs_thread does with the queue, with a data frame, and while the firmware is not ready. */
module Dispatch {
  import opened Options
  import opened LbsState
  import opened QueueMoves
  import opened NodeConservation
  import opened PowerSave
  import opened RetryBudget
  import opened RunUntil
  import opened CommandAnswers

  // ---------------------------------------------------------------- the command at the head

  predicate SleepRequested(p: PsState) {
    p == PreSleep || p == Sleep
  }

  predicate IsRssi(c: CmdNode) {
    c.command == 0x1f
  }

  predicate IsPsMode(c: CmdNode) {
    c.command == 0x21 && !IsRssi(c)
  }

  /** The command goes to the card: at full power any, awake only RSSI and EXIT_PS. */
  predicate IsSent(p: PsState, c: CmdNode) {
    p == FullPower || (p == Awake && (IsRssi(c) || IsPs(c, 0x31)))
  }

  /** A PS_MODE command that makes no sense now is completed without being sent. */
  predicate IsDropped(p: PsState, c: CmdNode) {
    p != FullPower && IsPsMode(c) && !(p == Awake && IsPs(c, 0x31))
  }

  /** The command needs full power and the card is awake. */
  predicate NeedsExit(p: PsState, c: CmdNode) {
    p == Awake && !IsRssi(c) && !IsPsMode(c)
  }

  lemma PeekedIs(s: State, l: Label)
    requires Sized(s) && s.w.at.Peeked? && l.Thread? && !s.slots.bug
    ensures Step(s, l) == Decide(s)
  {
    hide ResponseSection, PowerSection, Decide;
  }

  /** The command is unlinked: it will be submitted, or it will be dropped. */
  lemma UnlinkDecision(s: State, l: Label)
    requires Placed(s) && s.w.at.Peeked? && l.Thread? && !s.slots.bug
    requires IsSent(s.psstate, s.q.buf[s.w.node]) || IsDropped(s.psstate, s.q.buf[s.w.node])
    ensures var t := Step(s, l);
            && t.q == s.q.(pending := Remove(s.q.pending, s.w.node), hand := Some(s.w.node))
            && t.psstate == s.psstate && t.dnld == s.dnld && t.slots == s.slots && t.w.node == s.w.node
            && (if IsSent(s.psstate, s.q.buf[s.w.node]) then t.w.at.Unlinked? else t.w.at.Dropping?)
  {
    PeekedIs(s, l);
    hide Step, CallPs, Remove, Count;
  }

  /** The thread becomes the caller that prepares EXIT_PS, if there is a node. */
  lemma ExitDecision(s: State, l: Label)
    requires Conserved(s) && s.w.at.Peeked? && l.Thread? && !s.slots.bug && NeedsExit(s.psstate, s.q.buf[s.w.node])
    ensures var t := Step(s, l);
            if s.q.free == [] then t == s.(w := s.w.(at := Transmit))
            else OwnCall(t, s.q.free[0], 0x31, Transmit) && t.q.cur == s.q.cur
  {
    PeekedIs(s, l);
    hide Step, Ledger, Partitioned, Count;
  }

  /** When the card has asked for sleep, the thread leaves RSSI and the ordinary commands where they are
      and remembers that the card is to be woken, except for RSSI. */
  lemma AsleepDecision(s: State, l: Label)
    requires Sized(s) && s.w.at.Peeked? && l.Thread? && !s.slots.bug && SleepRequested(s.psstate)
    ensures var t := Step(s, l);
            var c := s.q.buf[s.w.node];
            && t.needtowakeup == (s.needtowakeup || IsPs(c, 0x31) || (!IsRssi(c) && !IsPsMode(c)))
            && (!IsPsMode(c) ==> t == s.(w := s.w.(at := Transmit), needtowakeup := t.needtowakeup))
  {
    PeekedIs(s, l);
    hide Step, CallPs, Unlink;
  }

  /** The unlinked command is on its way to the card. */
  predicate Submitting(s: State, n: Node) {
    && Placed(s) && s.psstate != Sleep
    && s.w.node == n && ((s.w.at.Unlinked? && s.q.hand == Some(n)) || (s.w.at.Download? && s.q.cur == Some(n)))
  }

  lemma SubmitStep(s: State, l: Label, n: Node)
    requires Submitting(s, n) && l.Thread? && !s.slots.bug
    ensures var t := Step(s, l);
            && t.q.cur == Some(n) && t.psstate == s.psstate
            && if s.w.at.Unlinked? then t.w.at.Download? && t.w.node == n && t.dnld == s.dnld
               else t.w.at.Transmit? && t.dnld == (if l.hwOk then CmdSent else s.dnld)
  {
    hide ResponseSection, PowerSection, Decide, IdleStep, Complete, Count;
  }

  lemma OthersKeepFlight(s: State, l: Label)
    requires Placed(s) && (!l.Thread? || s.slots.bug)
    ensures Step(s, l).q.cur == s.q.cur && Step(s, l).q.hand == s.q.hand
  {
    hide Step, Refers, Apply;
    var m := StepMoves(s, l);
    if !s.slots.bug { OthersMove(s, l, m); }
    KeepsFlight(s.q, m);
  }

  lemma KeepsFlight(q: Queues, m: Move)
    requires Buffered(q) && (m.Keep? || m.Take? || m.Return? || m.Advance?)
    ensures Apply(q, m).cur == q.cur && Apply(q, m).hand == q.hand
  {
  }

  lemma {:induction false} SubmitRun(s: State, ls: seq<Label>, n: Node)
    requires Submitting(s, n) && Reaches(s, ls, Transmit)
    ensures Run(s, ls).q.cur == Some(n)
    decreases |ls|
  {
    hide Step, Refers;
    var m := StepMoves(s, ls[0]);
    if ls[0].Thread? && !s.slots.bug {
      SubmitStep(s, ls[0], n);
    } else {
      OthersLeave(s, ls[0]);
      OthersKeepFlight(s, ls[0]);
    }
    if |ls| == 1 { RunOfOne(s, ls); } else { SubmitRun(Step(s, ls[0]), ls[1..], n); }
  }

  lemma DropStep(s: State, l: Label)
    requires Placed(s) && s.w.at.Dropping? && l.Thread? && !s.slots.bug
    ensures CompletedWith(s.q, Step(s, l).q, s.w.node, 0) && Step(s, l).w.at.Transmit?
  {
    hide ResponseSection, PowerSection, Decide, IdleStep, Complete, Count;
    CompletesOne(s.q, s.w.node, 0);
  }

  lemma {:induction false} DropRun(s: State, ls: seq<Label>)
    requires Placed(s) && s.w.at.Dropping? && s.psstate != Sleep && Reaches(s, ls, Transmit)
    ensures CompletedWith(s.q, Run(s, ls).q, s.w.node, 0)
    decreases |ls|
  {
    hide Step, Refers, CompletedWith;
    var m := StepMoves(s, ls[0]);
    var t := Step(s, ls[0]);
    if ls[0].Thread? && !s.slots.bug {
      DropStep(s, ls[0]);
      RunOfOne(s, ls);
    } else {
      OthersLeave(s, ls[0]);
      forall k: Node ensures t.q.buf[k].past.completed == s.q.buf[k].past.completed {
        StepCompletesNothing(s, ls[0], k);
      }
      DropRun(t, ls[1..]);
      SameStart(s.q, t.q, Run(s, ls).q, s.w.node, 0);
    }
  }

  /** In every interleaving from the thread's decision about a command to the end of the call of
      lbs_execute_next_command: the command is in flight, has been completed with result 0 without
      being sent, waits for a new EXIT_PS, or waits as before, as the power state says. */
  lemma HeadCommand(s: State, ls: seq<Label>)
    requires Conserved(s) && PowerSafe(s) && s.w.at.Peeked? && !s.slots.bug && Reaches(s, ls, Transmit) && ls[0].Thread?
    ensures var t, c, p := Run(s, ls), s.q.buf[s.w.node], s.psstate;
            && (IsSent(p, c) || IsDropped(p, c) || NeedsExit(p, c))
            && (IsSent(p, c) ==> t.q.cur == Some(s.w.node))
            && (IsDropped(p, c) ==> CompletedWith(s.q, t.q, s.w.node, 0))
            && (NeedsExit(p, c) && s.q.free != [] ==>
                  t.q.cur == None && s.q.free[0] in t.q.pending && IsPs(t.q.buf[s.q.free[0]], 0x31))
            && (NeedsExit(p, c) && s.q.free == [] ==> t == s.(w := s.w.(at := Transmit)))
  {
    assert s.psstate != Sleep && s.psstate != PreSleep;
    hide Step, Run, Partitioned, Ledger, PowerSafe, CompletedWith;
    StepConserves(s, ls[0]);
    var t := Step(s, ls[0]);
    var c := s.q.buf[s.w.node];
    if IsSent(s.psstate, c) {
      UnlinkDecision(s, ls[0]);
      RunOfMore(s, ls);
      SubmitRun(t, ls[1..], s.w.node);
    } else if IsDropped(s.psstate, c) {
      UnlinkDecision(s, ls[0]);
      RunOfMore(s, ls);
      DropRun(t, ls[1..]);
      SameStart(s.q, t.q, Run(s, ls).q, s.w.node, 0);
    } else {
      ExitDecision(s, ls[0]);
      if s.q.free != [] {
        RunOfMore(s, ls);
        OwnCallReturns(t, ls[1..], s.q.free[0], 0x31, Transmit);
      } else {
        RunOfOne(s, ls);
      }
    }
  }

  // ---------------------------------------------------------------- the call at full power

  /** The thread is past its events with a command waiting, and nothing keeps it from sending. */
  predicate MaySubmit(s: State) {
    && Placed(s) && s.psstate == FullPower && s.q.cur == None && s.q.pending != []
    && match s.w.at
       case CheckPreSleep => s.dnld == ResReceived
       case Gate => s.dnld == ResReceived
       case Execute => s.dnld == ResReceived
       case Peek => true
       case Peeked => true
       case _ => false
  }

  lemma SubmittingOn(s: State, l: Label)
    requires MaySubmit(s) && l.Thread? && !s.slots.bug
    ensures var t := Step(s, l);
            t.psstate == FullPower && (MaySubmit(t) || Submitting(t, t.w.node)) && !t.w.at.Transmit?
  {
    var m := StepMoves(s, l);
    if s.w.at.Peeked? {
      UnlinkDecision(s, l);
      hide Step, Refers;
    } else {
      hide Refers;
      ReachesPeeked(s, l);
    }
  }

  /** From the test of fw_ready to the look at the head of the queue. */
  lemma ReachesPeeked(s: State, l: Label)
    requires MaySubmit(s) && l.Thread? && !s.slots.bug && !s.w.at.Peeked?
    ensures var t := Step(s, l);
            && t.psstate == s.psstate && t.q == s.q && t.dnld == s.dnld
            && t.w.at == match s.w.at
                         case CheckPreSleep => Gate
                         case Gate => Execute
                         case Execute => Peek
                         case _ => Peeked
  {
    hide ResponseSection, HandleEvent, Decide, IdleStep, Complete, CallPs, NothingToRead, Refers;
  }

  lemma OthersKeepQueue(s: State, l: Label)
    requires Placed(s) && (!l.Thread? || s.slots.bug) && s.q.pending != []
    ensures Step(s, l).q.pending != [] && (s.dnld == ResReceived ==> Step(s, l).dnld == ResReceived)
  {
    if l.Caller? { CallerKeepsQueue(s.q, l.node, s.psstate); }
    hide ThreadStep, CallerStep;
  }

  lemma CallerKeepsQueue(q: Queues, n: Node, p: PsState)
    requires Buffered(q) && q.pending != []
    ensures CallerStep(q, n, p).pending != []
  {
  }

  lemma {:induction false} SubmitsRun(s: State, ls: seq<Label>)
    requires MaySubmit(s) && Reaches(s, ls, Transmit)
    ensures Run(s, ls).q.cur.Some?
    decreases |ls|
  {
    hide Step, Refers;
    var t := Step(s, ls[0]);
    var m := StepMoves(s, ls[0]);
    if ls[0].Thread? && !s.slots.bug {
      SubmittingOn(s, ls[0]);
    } else {
      OthersLeave(s, ls[0]);
      OthersKeepFlight(s, ls[0]);
      OthersKeepQueue(s, ls[0]);
    }
    if MaySubmit(t) { SubmitsRun(t, ls[1..]); } else { SubmitRun(t, ls[1..], t.w.node); }
  }

  lemma ReadyStep(s: State, l: Label)
    requires Sized(s) && s.w.at.CheckFwReady? && l.Thread? && !s.slots.bug
    ensures Step(s, l) == s.(w := s.w.(at := if s.env.fwReady then CheckPreSleep else Top))
  {
    hide ResponseSection, CommandSection, HandleEvent, NothingToRead;
  }

  /** At full power, with a command waiting, nothing in flight or on its way and the firmware ready: in
      every interleaving a command is in flight when the thread has passed the call of
      lbs_execute_next_command. */
  lemma SubmitsAtFullPower(s: State, ls: seq<Label>)
    requires Placed(s) && !s.slots.bug && s.w.at.CheckFwReady? && s.env.fwReady && s.psstate == FullPower
    requires s.q.cur == None && s.dnld == ResReceived && s.q.pending != []
    requires Reaches(s, ls, Transmit) && ls[0].Thread?
    ensures Run(s, ls).q.cur.Some?
  {
    hide Step, Run;
    var m := StepMoves(s, ls[0]);
    ReadyStep(s, ls[0]);
    RunOfMore(s, ls);
    SubmitsRun(Step(s, ls[0]), ls[1..]);
  }

  // ---------------------------------------------------------------- firmware not ready

  predicate PastReady(w: Worker) {
    || w.at.CheckPreSleep? || w.at.Gate? || w.at.Execute? || w.at.Peek? || w.at.Peeked? || w.at.Unlinked?
    || w.at.Dropping? || w.at.Download? || w.at.GoIdle? || w.at.Transmit?
    || (w.at.Calling? && w.back.Transmit?)
    || ((w.at.ConfirmSleep? || w.at.SendConfirm? || w.at.CommitSleep?) && w.back.Gate?)
  }

  lemma CallIsBefore(s: State, action: nat, back: Pc)
    requires Sized(s) && (back.Events? || back.FinishPs?)
    ensures !PastReady(CallPs(s, action, back).w) && CallPs(s, action, back).env == s.env
  {
  }

  lemma ProcessIsBefore(s: State)
    requires Placed(s) && s.w.at.Processing?
    ensures !PastReady(ProcessResponse(s).w) && ProcessResponse(s).env.fwReady == s.env.fwReady
  {
    hide CallPs, Complete, Accepts, Count;
    var r := s.slots.buf[s.w.slot];
    CallIsBefore(ApplyResponse(s, r).(w := s.w.(code := r.result)), CMD_SUBCMD_EXIT_PS, FinishPs);
  }

  lemma ResponseIsBefore(s: State)
    requires Placed(s) && InResponseSection(s.w.at)
    ensures !PastReady(ResponseSection(s).w) && ResponseSection(s).env.fwReady == s.env.fwReady
  {
    hide ProcessResponse, Complete, Count;
    if s.w.at.Processing? { ProcessIsBefore(s); }
  }

  lemma EventIsBefore(s: State)
    requires Placed(s) && s.w.at.Handling?
    ensures !PastReady(HandleEvent(s).w) && HandleEvent(s).env.fwReady == s.env.fwReady
  {
    hide CallPs, Refers, Buffered, TwoSlots;
    CallIsBefore(s.(psstate := Awake), CMD_SUBCMD_EXIT_PS, Events);
    CallIsBefore(s.(env := s.env.(connected := false, txPending := 0)), CMD_SUBCMD_EXIT_PS, Events);
  }

  lemma PowerIsBefore(s: State, hwOk: bool)
    requires Placed(s) && !InResponseSection(s.w.at) && !InCommandSection(s.w.at) && !PastReady(s.w) && !s.env.fwReady
    ensures !PastReady(PowerSection(s, hwOk).w) && !PowerSection(s, hwOk).env.fwReady
  {
    hide HandleEvent, NothingToRead, Count;
    if s.w.at.Handling? { EventIsBefore(s); }
  }

  lemma WaitStep(s: State, l: Label)
    requires Placed(s) && !PastReady(s.w) && !s.env.fwReady && (l.Configure? ==> !l.env.fwReady)
    ensures !PastReady(Step(s, l).w) && !Step(s, l).env.fwReady
  {
    hide ResponseSection, PowerSection, CallerStep, WaiterStep, TakeNode, Refers, PastReady;
    if l.Thread? && !s.slots.bug {
      if InResponseSection(s.w.at) { ResponseIsBefore(s); }
      else if InCommandSection(s.w.at) { CallingIsBefore(s, l); }
      else { PowerIsBefore(s, l.hwOk); }
    }
  }

  lemma CallingIsBefore(s: State, l: Label)
    requires Placed(s) && InCommandSection(s.w.at) && !PastReady(s.w) && l.Thread? && !s.slots.bug
    ensures !PastReady(Step(s, l).w) && Step(s, l).env == s.env
  {
    CallWaits(s, l);
  }

  /** As long as the firmware is not ready, over every run, no command is taken from the queue. */
  lemma {:induction false} NothingSentBeforeReady(s: State, ls: seq<Label>)
    requires Placed(s) && !PastReady(s.w) && !s.env.fwReady && forall l :: l in ls && l.Configure? ==> !l.env.fwReady
    ensures var t := Run(s, ls);
            t.q.hand == None && (t.q.cur.Some? ==> t.q.cur == s.q.cur)
    decreases |ls|
  {
    hide Step, Apply;
    if ls == [] {
    } else {
      assert ls[0] in ls;
      var m := StepMoves(s, ls[0]);
      WaitStep(s, ls[0]);
      NoNewFlight(s.q, m);
      NothingSentBeforeReady(Step(s, ls[0]), ls[1..]);
    }
  }

  lemma NoNewFlight(q: Queues, m: Move)
    requires Buffered(q) && q.hand == None && Legal(q, m) && !m.Detach?
    ensures var r := Apply(q, m);
            r.hand == None && (r.cur.Some? ==> r.cur == q.cur)
  {
  }

  // ---------------------------------------------------------------- transfers

  lemma TransmitStep(s: State, hwOk: bool)
    requires Sized(s) && s.w.at.Transmit? && !s.slots.bug
    ensures var frame := s.dnld == ResReceived && s.env.txPending > 0;
            Step(s, Thread(hwOk)) ==
            s.(w := s.w.(at := Top), dnld := if frame && hwOk then DataSent else s.dnld,
               env := if frame then s.env.(txPending := 0) else s.env)
  {
    hide ResponseSection, PowerSection, Decide, IdleStep, Complete, CallPs;
  }

  /** A waiting data frame is handed to the card when nothing is on its way, and only then; when the
      card does not take it, it is forgotten as well. */
  lemma FrameHandedOver(s: State, hwOk: bool)
    requires Sized(s) && s.w.at.Transmit? && !s.slots.bug
    ensures var t := Step(s, Thread(hwOk));
            && (t.dnld != s.dnld <==> s.dnld == ResReceived && s.env.txPending > 0 && hwOk)
            && (t.dnld != s.dnld ==> t.dnld == DataSent)
            && (t.env != s.env <==> s.dnld == ResReceived && s.env.txPending > 0)
            && (t.env != s.env ==> t.env == s.env.(txPending := 0))
            && t.q == s.q && t.psstate == s.psstate && t.w.at.Top?
  {
    hide Step;
    TransmitStep(s, hwOk);
  }

  /** In every state of every run the thread begins a transfer only when none is on its way, except that
      a wake confirmation does not wait. */
  lemma OneTransferAtATime(env: Env, ls: seq<Label>, l: Label)
    requires var s, t := Run(Init(env), ls), Step(Run(Init(env), ls), l); t.dnld != ResReceived && t.dnld != s.dnld
    ensures Run(Init(env), ls).dnld == ResReceived || Run(Init(env), ls).w.at.ConfirmWake?
    ensures l.Thread? && l.hwOk
  {
    hide Run, Step;
    InitConserved(env);
    InitSafe(env);
    RunConserves(Init(env), ls);
    RunSafe(Init(env), ls);
    Transfers(Run(Init(env), ls), l);
  }

  lemma CallTransfersNothing(s: State, action: nat, back: Pc)
    requires Sized(s)
    ensures CallPs(s, action, back).dnld == s.dnld
  {
  }

  lemma ResponseTransfersNothing(s: State)
    requires Placed(s) && InResponseSection(s.w.at)
    ensures ResponseSection(s).dnld in {s.dnld, ResReceived}
  {
    hide CallPs, Complete, Accepts, Count;
    if s.w.at.Processing? {
      var r := s.slots.buf[s.w.slot];
      CallTransfersNothing(ApplyResponse(s, r).(w := s.w.(code := r.result)), CMD_SUBCMD_EXIT_PS, FinishPs);
    }
  }

  lemma PowerTransfers(s: State, hwOk: bool)
    requires Placed(s) && PowerSafe(s) && !InResponseSection(s.w.at) && !InCommandSection(s.w.at)
    ensures var d := PowerSection(s, hwOk).dnld;
            d in {s.dnld, ResReceived} || (hwOk && (s.dnld == ResReceived || s.w.at.ConfirmWake?))
  {
    hide CallPs, Count, NothingToRead, Gated, SleepIsSafe;
    CallTransfersNothing(s.(psstate := Awake), CMD_SUBCMD_EXIT_PS, Events);
    CallTransfersNothing(s.(env := s.env.(connected := false, txPending := 0)), CMD_SUBCMD_EXIT_PS, Events);
  }

  lemma CommandTransfers(s: State, hwOk: bool)
    requires Placed(s) && PowerSafe(s) && InCommandSection(s.w.at)
    ensures var d := CommandSection(s, hwOk).dnld;
            d == s.dnld || (hwOk && s.dnld == ResReceived)
  {
    hide CallPs, Unlink, Complete, Count, Gated, SleepIsSafe;
    CallTransfersNothing(s, CMD_SUBCMD_EXIT_PS, Transmit);
    CallTransfersNothing(s, CMD_SUBCMD_ENTER_PS, Transmit);
  }

  lemma Transfers(s: State, l: Label)
    requires Conserved(s) && PowerSafe(s) && Step(s, l).dnld != ResReceived && Step(s, l).dnld != s.dnld
    ensures (s.dnld == ResReceived || s.w.at.ConfirmWake?) && l.Thread? && l.hwOk
  {
    hide ResponseSection, PowerSection, CommandSection, CallerStep, WaiterStep, TakeNode, PowerSafe;
    hide Partitioned, Ledger;
    if l.Thread? && !s.slots.bug {
      if InResponseSection(s.w.at) { ResponseTransfersNothing(s); }
      else if InCommandSection(s.w.at) { CommandTransfers(s, l.hwOk); }
      else { PowerTransfers(s, l.hwOk); }
    }
  }

  /** A report of the card ends whatever was on its way, and changes nothing else. */
  lemma ReportEndsTransfer(s: State)
    requires Sized(s) && !s.slots.bug
    ensures Step(s, HostToCardDone) == s.(dnld := ResReceived)
  {
  }

  // ---------------------------------------------------------------- the command timer

  /** How often the timer of the command in flight expires in a run. */
  function Expiries(s: State, ls: seq<Label>): nat
    requires Sized(s)
    decreases |ls|
  {
    if ls == [] then 0
    else Bit(ls[0].Timer? && s.q.cur.Some? && !s.slots.bug) + Expiries(Step(s, ls[0]), ls[1..])
  }

  /** The timer has expired, and the thread has not handled that yet. */
  predicate Expired(s: State) {
    s.timedOut && !s.w.at.ClearTimeout?
  }

  lemma CallKeepsTimer(s: State, action: nat, back: Pc)
    requires Sized(s) && !back.ClearTimeout?
    ensures var t := CallPs(s, action, back);
            t.timedOut == s.timedOut && !t.w.at.ClearTimeout?
  {
  }

  lemma ResponseUsesTimer(s: State)
    requires Placed(s) && InResponseSection(s.w.at)
    ensures Bit(Timed(s)) + Bit(Expired(ResponseSection(s))) <= Bit(Expired(s))
  {
    hide CallPs, Complete, Accepts, Count;
    if s.w.at.Processing? {
      var r := s.slots.buf[s.w.slot];
      CallKeepsTimer(ApplyResponse(s, r).(w := s.w.(code := r.result)), CMD_SUBCMD_EXIT_PS, FinishPs);
    }
  }

  lemma PowerKeepsTimer(s: State, hwOk: bool)
    requires Placed(s) && !InResponseSection(s.w.at) && !InCommandSection(s.w.at)
    ensures Expired(PowerSection(s, hwOk)) ==> Expired(s)
  {
    hide CallPs, Count, NothingToRead;
    CallKeepsTimer(s.(psstate := Awake), CMD_SUBCMD_EXIT_PS, Events);
    CallKeepsTimer(s.(env := s.env.(connected := false, txPending := 0)), CMD_SUBCMD_EXIT_PS, Events);
  }

  lemma CommandKeepsTimer(s: State, hwOk: bool)
    requires Placed(s) && InCommandSection(s.w.at)
    ensures Expired(CommandSection(s, hwOk)) ==> Expired(s)
  {
    hide CallPs, Unlink, Complete, Count;
    CallKeepsTimer(s, CMD_SUBCMD_EXIT_PS, Transmit);
    CallKeepsTimer(s, CMD_SUBCMD_ENTER_PS, Transmit);
  }

  lemma TimerStep(s: State, l: Label)
    requires Placed(s)
    ensures Bit(TimesOut(s, l)) + Bit(Expired(Step(s, l)))
            <= Bit(Expired(s)) + Bit(l.Timer? && s.q.cur.Some? && !s.slots.bug)
  {
    hide ResponseSection, PowerSection, CommandSection, CallerStep, WaiterStep, TakeNode;
    if l.Thread? && !s.slots.bug {
      if InResponseSection(s.w.at) { ResponseUsesTimer(s); }
      else if InCommandSection(s.w.at) { CommandKeepsTimer(s, l.hwOk); }
      else { PowerKeepsTimer(s, l.hwOk); }
    }
  }

  /** Over every run: no more commands time out than the timer has expired for commands in flight. */
  lemma {:induction false} TimeoutsNeedExpiries(s: State, ls: seq<Label>)
    requires Placed(s)
    ensures Timeouts(s, ls) <= Expiries(s, ls) + Bit(Expired(s))
    decreases |ls|
  {
    hide Step, Refers, Expired, TimesOut;
    if ls == [] {
    } else {
      var m := StepMoves(s, ls[0]);
      TimerStep(s, ls[0]);
      TimeoutsNeedExpiries(Step(s, ls[0]), ls[1..]);
    }
  }

  /** A command in flight whose timer has expired when the thread gets to it has timed out. */
  lemma ExpiryTimesOut(s: State, others: seq<Label>, hwOk: bool)
    requires Placed(s) && !s.slots.bug && s.w.at.HandleTimeout? && s.q.cur.Some?
    requires forall l :: l in others ==> !l.Thread?
    ensures !Run(Step(s, Timer), others).slots.bug ==> TimesOut(Run(Step(s, Timer), others), Thread(hwOk))
  {
    hide ThreadStep;
    TimerRemembered(Step(s, Timer), others);
  }

  lemma {:induction false} TimerRemembered(s: State, ls: seq<Label>)
    requires Placed(s) && Timed(s) && forall l :: l in ls ==> !l.Thread?
    ensures Timed(Run(s, ls))
    decreases |ls|
  {
    if ls == [] {
    } else {
      assert ls[0] in ls;
      OthersKeepTimed(s, ls[0]);
      OthersKeepFlight(s, ls[0]);
      var m := StepMoves(s, ls[0]);
      hide Step;
      TimerRemembered(Step(s, ls[0]), ls[1..]);
    }
  }

  lemma OthersKeepTimed(s: State, l: Label)
    requires Sized(s) && !l.Thread?
    ensures Step(s, l).w == s.w && (s.timedOut ==> Step(s, l).timedOut)
  {
    hide ThreadStep, CallerStep, WaiterStep, TakeNode;
  }
}
