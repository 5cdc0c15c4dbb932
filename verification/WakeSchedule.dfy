/** A run of the kind that WakeRuns speaks about: the thread alone, the card taking both commands
    and answering EXIT_PS. */
module WakeSchedule {
  import opened Options
  import opened LbsState
  import opened QueueMoves
  import opened NodeConservation
  import opened PowerSave
  import opened RetryBudget
  import opened GivingUp
  import opened ThreadPass
  import opened WakeProgress
  import opened WakeRuns
  import ResponseSlots

  // ---------------------------------------------------------------- nothing disturbs

  /** The command timer has not fired, no event waits, and every response that waits or is at
      work is r. */
  predicate OnlyAnswers(s: State, r: Response) {
    && Placed(s) && !s.timedOut && s.fifo == [] && !s.w.at.Handling?
    && (forall i :: 0 <= i < 2 && s.slots.len[i] != 0 ==> s.slots.buf[i] == r)
    && (ResponseSlots.Busy(s.w) ==> s.slots.buf[s.w.slot] == r)
  }

  predicate OfSchedule(l: Label, r: Response) {
    l.Thread? || l.Caller? || l.HostToCardDone? || l == Respond(r)
  }

  lemma CallIsQuiet(s: State, action: nat, back: Pc)
    requires Sized(s) && !back.Handling?
    ensures var t := CallPs(s, action, back);
            t.timedOut == s.timedOut && t.fifo == s.fifo && !t.w.at.Handling?
  {
  }

  lemma ResponseIsQuiet(s: State)
    requires Placed(s) && InResponseSection(s.w.at) && !s.timedOut
    ensures var t := ResponseSection(s);
            !t.timedOut && t.fifo == s.fifo && !t.w.at.Handling?
  {
    hide CallPs, Complete, Accepts, Count;
    if s.w.at.Processing? {
      var r := s.slots.buf[s.w.slot];
      CallIsQuiet(ApplyResponse(s, r).(w := s.w.(code := r.result)), CMD_SUBCMD_EXIT_PS, FinishPs);
    }
  }

  lemma PowerIsQuiet(s: State, hwOk: bool)
    requires Placed(s) && !InResponseSection(s.w.at) && !InCommandSection(s.w.at) && s.fifo == [] && !s.w.at.Handling?
    ensures var t := PowerSection(s, hwOk);
            t.timedOut == s.timedOut && t.fifo == [] && !t.w.at.Handling?
  {
    hide HandleEvent, Count, NothingToRead;
  }

  lemma CommandIsQuiet(s: State, hwOk: bool)
    requires Placed(s) && InCommandSection(s.w.at)
    ensures var t := CommandSection(s, hwOk);
            t.timedOut == s.timedOut && t.fifo == s.fifo && !t.w.at.Handling?
  {
    hide CallPs, Complete, Unlink, Count;
    CallIsQuiet(s, CMD_SUBCMD_EXIT_PS, Transmit);
    CallIsQuiet(s, CMD_SUBCMD_ENTER_PS, Transmit);
  }

  lemma ThreadIsQuiet(s: State, hwOk: bool)
    requires Placed(s) && !s.timedOut && s.fifo == [] && !s.w.at.Handling?
    ensures var t := ThreadStep(s, hwOk);
            !t.timedOut && t.fifo == [] && !t.w.at.Handling?
  {
    hide ResponseSection, PowerSection, CommandSection, Refers;
    if InResponseSection(s.w.at) { ResponseIsQuiet(s); }
    else if InCommandSection(s.w.at) { CommandIsQuiet(s, hwOk); }
    else { PowerIsQuiet(s, hwOk); }
  }

  lemma TopTakes(s: State, hwOk: bool, r: Response)
    requires Placed(s) && (s.w.at.Top? || s.w.at.ClearSlot?)
    requires forall i :: 0 <= i < 2 && s.slots.len[i] != 0 ==> s.slots.buf[i] == r
    ensures var t := ThreadStep(s, hwOk);
            && (forall i :: 0 <= i < 2 && t.slots.len[i] != 0 ==> t.slots.buf[i] == r)
            && (ResponseSlots.Busy(t.w) ==> t.slots.buf[t.w.slot] == r)
  {
    hide PowerSection, CommandSection, ProcessResponse, FinishResponse, HandleTimeoutStep, Count;
  }

  lemma OthersAreQuiet(s: State, l: Label, r: Response)
    requires OnlyAnswers(s, r) && OfSchedule(l, r) && (!l.Thread? || s.slots.bug)
    ensures var t := Step(s, l);
            && !t.timedOut && t.fifo == [] && t.w == s.w
            && (forall i :: 0 <= i < 2 && t.slots.len[i] != 0 ==> t.slots.buf[i] == r)
            && (ResponseSlots.Busy(s.w) ==> t.slots.buf[s.w.slot] == r)
  {
    hide ThreadStep, CallerStep, WaiterStep, ResponseSlots.Busy, Count;
  }

  lemma ScheduleStep(s: State, l: Label, r: Response)
    requires OnlyAnswers(s, r) && OfSchedule(l, r) && IsPsReply(r, CMD_SUBCMD_EXIT_PS)
    ensures OnlyAnswers(Step(s, l), r) && Quiet(s, l)
  {
    hide Step, ThreadStep, Accepts, IsPsReply, Count;
    var m := StepMoves(s, l);
    if l.Thread? && !s.slots.bug {
      StepIsThread(s, l);
      ThreadIsQuiet(s, l.hwOk);
      if s.w.at.Top? || s.w.at.ClearSlot? { TopTakes(s, l.hwOk, r); } else { ResponseSlots.ThreadBusy(s, l.hwOk); }
    } else {
      OthersAreQuiet(s, l, r);
    }
  }

  lemma {:induction false} ScheduleIsQuiet(s: State, ls: seq<Label>, r: Response)
    requires OnlyAnswers(s, r) && IsPsReply(r, CMD_SUBCMD_EXIT_PS) && forall l :: l in ls ==> OfSchedule(l, r)
    ensures QuietRun(s, ls)
    decreases |ls|
  {
    hide Step, Quiet, Refers, ResponseSlots.Busy, IsPsReply;
    if ls == [] {
    } else {
      ScheduleStep(s, ls[0], r) by { assert ls[0] in ls; }
      ScheduleIsQuiet(Step(s, ls[0]), ls[1..], r);
    }
  }

  // ---------------------------------------------------------------- nobody barges in

  lemma {:induction false} NobodyBarges(s: State, ls: seq<Label>, calls: nat)
    requires Sized(s) && forall l :: l in ls ==> !l.Caller?
    ensures Unbarged(s, ls, calls)
    decreases |ls|
  {
    hide Step, Decides;
    if ls == [] {
    } else {
      assert ls[0] in ls;
      NobodyBarges(Step(s, ls[0]), ls[1..], calls + Bit(Decides(s, ls[0])));
    }
  }

  /** The thread prepares its own command. */
  lemma OwnCaller(s: State, n: Node, rest: seq<Label>)
    requires Sized(s) && s.w.at.Calling? && s.w.node == n
    ensures Unbarged(s, [Caller(n)] + rest, 1) == Unbarged(Step(s, Caller(n)), rest, 1)
    ensures Step(s, Caller(n)).w == s.w
  {
    hide CallerStep, ThreadStep, WaiterStep;
    assert ([Caller(n)] + rest)[1..] == rest;
  }

  lemma OwnCallerRuns(s: State, n: Node, rest: seq<Label>)
    requires Sized(s) && s.w.at.Calling? && s.w.node == n
    ensures var c := Caller(n);
            Unbarged(s, [c] + ([c] + ([c] + ([c] + ([c] + rest)))), 1) == Unbarged(CallerRuns(s, n), rest, 1)
  {
    hide Step, Unbarged;
    var c := Caller(n);
    var s1 := Step(s, c);
    var s2 := Step(s1, c);
    var s3 := Step(s2, c);
    var s4 := Step(s3, c);
    OwnCaller(s, n, [c] + ([c] + ([c] + ([c] + rest))));
    OwnCaller(s1, n, [c] + ([c] + ([c] + rest)));
    OwnCaller(s2, n, [c] + ([c] + rest));
    OwnCaller(s3, n, [c] + rest);
    OwnCaller(s4, n, rest);
  }

  // ---------------------------------------------------------------- the schedule

  /** The thread has looked at the waiting command. */
  function Looking(s: State): State
    requires s.q.pending != []
  {
    s.(w := s.w.(at := Peeked, node := s.q.pending[0]))
  }

  lemma LookingBegins(s: State, hwOk: bool)
    requires Conserved(s) && PowerSafe(s) && WaitingAwake(s)
    ensures Step(Step(s, Thread(hwOk)), Thread(hwOk)) == Looking(s) && Begins(Looking(s))
    ensures Step(Looking(s), Thread(hwOk)) == CallingExit(s)
  {
    hide ResponseSection, PowerSection, Complete, TakeNode, Remove, Partitioned, Ledger, Count;
    assert Step(s, Thread(hwOk)) == Goto(s, Peek);
    assert Step(Goto(s, Peek), Thread(hwOk)) == Looking(s);
    assert Step(Looking(s), Thread(hwOk)) == CallingExit(s);
    StepConserves(s, Thread(hwOk));
    StepConserves(Goto(s, Peek), Thread(hwOk));
    StepSafe(s, Thread(hwOk));
    StepSafe(Goto(s, Peek), Thread(hwOk));
  }

  /** From the first call on: its end, the pass that submits EXIT_PS, the report and the answer of
      the card, and the pass that submits the waiting command. */
  lemma ScheduleRuns(s: State, hwOk: bool, r: Response) returns (ls: seq<Label>)
    requires WaitingAwake(s)
    ensures var a := Settle(FirstCall(s, hwOk), hwOk, 1);
            Run(CallingExit(s), ls) == Pass(Step(Step(Pass(a, hwOk), HostToCardDone), Respond(r)), hwOk)
    ensures Unbarged(CallingExit(s), ls, 1) && forall l :: l in ls ==> OfSchedule(l, r)
  {
    hide Step, Run, Pass, Settle, Unbarged;
    var t := CallingExit(s);
    DecideToWake(s, hwOk);
    var n := t.w.node;
    var f := Step(CallerRuns(t, n), Thread(hwOk));
    var toTop := SettleIsRun(f, hwOk, 1);
    var a := Settle(f, hwOk, 1);
    var second := PassIsRun(a, hwOk);
    var b := Pass(a, hwOk);
    var c := Step(Step(b, HostToCardDone), Respond(r));
    var third := PassIsRun(c, hwOk);
    var answered := [HostToCardDone] + ([Respond(r)] + third);
    var rest := [Thread(hwOk)] + (toTop + (second + answered));
    RunCons(b, HostToCardDone, [Respond(r)] + third);
    RunCons(Step(b, HostToCardDone), Respond(r), third);
    RunJoin(a, second, answered);
    RunJoin(f, toTop, second + answered);
    RunCons(CallerRuns(t, n), Thread(hwOk), toTop + (second + answered));
    CallerRunsOn(t, n, rest);
    NobodyBarges(CallerRuns(t, n), rest, 1);
    OwnCallerRuns(t, n, rest);
    var d := Caller(n);
    ls := [d] + ([d] + ([d] + ([d] + ([d] + rest))));
  }

  /** There is a quiet run of the kind that ThirdCallExactly speaks about, in which nobody barges
      in: it makes three calls and ends with the waiting command in flight. */
  lemma QuietRunExists(s: State, hwOk: bool, r: Response) returns (ls: seq<Label>)
    requires Conserved(s) && PowerSafe(s) && WaitingAwake(s) && s.slots.len[1 - s.slots.idx] == 0
    requires r == Response((s.q.seqnum + 1) % SEQ_MODULUS, CmdRet(CMD_802_11_PS_MODE), 0, CMD_SUBCMD_EXIT_PS, r.size)
    requires 0 < r.size <= CMD_BUFFER_SIZE
    ensures Begins(Looking(s)) && s.q.free != []
    ensures var t := Step(Looking(s), Thread(hwOk));
            && QuietRun(t, ls) && Unbarged(t, ls, 1) && 1 + Calls(t, ls) >= 3
            && Run(t, ls).psstate == FullPower && Run(t, ls).q.cur == Some(s.q.pending[0])
  {
    hide Step, Run, Pass, Settle, FirstCall, QuietRun, Unbarged, Calls, Partitioned, Ledger, PowerSafe, Stage, Begins;
    LookingBegins(s, hwOk);
    var t := CallingExit(s);
    ls := ScheduleRuns(s, hwOk, r);
    SentWithinThreeCalls(s, hwOk, r);
    StepInvariants(Looking(s), Thread(hwOk)) by { BeginsParts(Looking(s)); }
    CallingIsQuiet(s, r);
    ScheduleIsQuiet(t, ls, r);
    if 1 + Calls(t, ls) <= 2 {
      CallWakes(Looking(s), hwOk);
      StageRun(t, ls, s.q.pending[0], s.q.free[0], 1);
      RunInvariants(t, ls);
      StageNotInFlight(Run(t, ls), s.q.pending[0], s.q.free[0], 1 + Calls(t, ls));
    }
  }

  lemma BeginsParts(s: State)
    requires Begins(s)
    ensures Conserved(s) && PowerSafe(s)
  {
  }

  lemma CallingIsQuiet(s: State, r: Response)
    requires WaitingAwake(s) && s.slots.len[1 - s.slots.idx] == 0 && Placed(CallingExit(s))
    ensures OnlyAnswers(CallingExit(s), r)
  {
    hide TakeNode, Refers;
  }

  lemma StageNotInFlight(s: State, h: Node, n: Node, calls: nat)
    requires Conserved(s) && Stage(s, h, n, calls)
    ensures s.q.cur != Some(h)
  {
    hide Count;
    StageQueued(s, h, n, calls);
    assert Places(s.q, h) == 1;
  }

  lemma StageQueued(s: State, h: Node, n: Node, calls: nat)
    requires Sized(s) && Stage(s, h, n, calls)
    ensures Count(s.q.pending, h) > 0
  {
    hide Count;
    if s.q.pending != [] { InQueue(s.q.pending, 0); }
    if |s.q.pending| > 1 { InQueue(s.q.pending, 1); }
  }
}
