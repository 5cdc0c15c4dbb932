/** The power-save protocol: what holds while the card sleeps, and when commands are sent. */
module PowerSave {
  import opened Options
  import opened LbsState
  import opened QueueMoves
  import opened NodeConservation

  /** While the card sleeps no command is in flight, nothing is on its way to the card, no
      event waits in the fifo and no response waits in the slot the thread reads next. */
  predicate SleepIsSafe(s: State)
    requires Sized(s)
  {
    s.psstate == Sleep ==> s.q.cur == None && s.q.hand == None && s.dnld == ResReceived && NothingToRead(s)
  }

  /** A command may be handed to the card in this state. */
  predicate MaySend(p: PsState, c: CmdNode) {
    p == FullPower || (p == Awake && (c.command == CMD_802_11_RSSI || IsExitPs(c)))
  }

  predicate MayBeAsleep(pc: Pc) {
    pc.Top? || pc.HandleTimeout? || pc.ClearTimeout? || pc.Events? || pc.CheckFwReady? || pc.CheckPreSleep? || pc.Gate?
  }

  predicate Confirming(pc: Pc) {
    pc.ConfirmSleep? || pc.SendConfirm? || pc.CommitSleep?
  }

  predicate PastGate(w: Worker) {
    w.at.Execute? || w.at.Peek? || w.at.Peeked? || w.at.Unlinked? || w.at.Dropping? || w.at.Download? || w.at.GoIdle?
    || w.at.Transmit? || (w.at.Calling? && w.back.Transmit?)
  }

  predicate NothingEnRoute(pc: Pc) {
    pc.SendConfirm? || pc.Peek? || pc.Peeked? || pc.Unlinked? || pc.Dropping? || pc.Download? || pc.GoIdle?
  }

  /** What the place of the worker thread says about the power state. */
  predicate PowerAt(w: Worker, p: PsState, d: DnldState) {
    && (p == Sleep ==> MayBeAsleep(w.at))
    && (Confirming(w.at) ==> p == PreSleep)
    && (PastGate(w) ==> !Asleep(p))
    && (NothingEnRoute(w.at) ==> d == ResReceived)
  }

  predicate Gated(s: State)
    requires Sized(s)
  {
    s.w.at.Unlinked? || s.w.at.Download? ==> MaySend(s.psstate, s.q.buf[s.w.node])
  }

  predicate PowerSafe(s: State)
    requires Sized(s)
  {
    SleepIsSafe(s) && PowerAt(s.w, s.psstate, s.dnld) && Gated(s) && !s.needtowakeup && s.nrRetries <= 3
  }

  lemma CallPsSafe(s: State, action: nat, back: Pc)
    requires Sized(s) && s.psstate != Sleep && !s.needtowakeup && s.nrRetries <= 3
    requires (back.Transmit? && !Asleep(s.psstate)) || back.Events? || back.FinishPs?
    ensures PowerSafe(CallPs(s, action, back))
  {
  }

  lemma FinishSafe(s: State, code: nat)
    requires Sized(s) && s.psstate != Sleep && !s.needtowakeup && s.nrRetries <= 3
    ensures PowerSafe(FinishResponse(s, code))
  {
    hide Complete;
  }

  lemma ProcessSafe(s: State)
    requires Placed(s) && PowerSafe(s) && s.w.at.Processing?
    ensures PowerSafe(ProcessResponse(s))
  {
    hide CallPs, FinishResponse, Count, MaySend, Accepts;
    var r := s.slots.buf[s.w.slot];
    var t := ApplyResponse(s, r).(w := s.w.(code := r.result));
    CallPsSafe(t, CMD_SUBCMD_EXIT_PS, FinishPs);
    FinishSafe(t, r.result);
  }

  lemma TimeoutSafe(s: State)
    requires Placed(s) && PowerSafe(s) && s.w.at.HandleTimeout?
    ensures PowerSafe(Goto(HandleTimeoutStep(s), ClearTimeout))
  {
    hide Count, MaySend;
    if s.q.cur.Some? { CompleteShape(s.q, s.q.cur.value, -ETIMEDOUT); }
    hide Complete;
  }

  lemma ResponseSafe(s: State)
    requires Placed(s) && PowerSafe(s) && InResponseSection(s.w.at)
    ensures PowerSafe(ResponseSection(s))
  {
    hide ProcessResponse, FinishResponse, HandleTimeoutStep, Count, MaySend;
    match s.w.at
    case Processing => ProcessSafe(s);
    case InCallback => FinishSafe(s, s.w.code);
    case FinishPs => FinishSafe(s, s.w.code);
    case HandleTimeout => TimeoutSafe(s);
    case Top =>
    case ClearSlot =>
    case _ =>
  }

  lemma EventSafe(s: State)
    requires Placed(s) && PowerSafe(s) && s.w.at.Handling?
    ensures PowerSafe(HandleEvent(s))
  {
    hide CallPs, Count;
    if s.w.event == EVENT_HOST_AWAKE {
    } else if s.w.event == EVENT_PS_AWAKE {
    } else if s.w.event == EVENT_PS_SLEEP {
    } else {
      CallPsSafe(s.(env := s.env.(connected := false, txPending := 0)), CMD_SUBCMD_EXIT_PS, Events);
    }
  }

  lemma ConfirmWakeSafe(s: State, hwOk: bool)
    requires Placed(s) && PowerSafe(s) && s.w.at.ConfirmWake?
    ensures PowerSafe(PowerSection(s, hwOk))
  {
    hide HandleEvent, Count, Buffered, TwoSlots, MaySend;
  }

  lemma ConfirmSafe(s: State, hwOk: bool)
    requires Placed(s) && PowerSafe(s) && (s.w.at.ConfirmSleep? || s.w.at.SendConfirm? || s.w.at.CommitSleep?)
    ensures PowerSafe(PowerSection(s, hwOk))
  {
    hide HandleEvent, Count, Buffered, TwoSlots, MaySend;
  }

  lemma LoopSafe(s: State, hwOk: bool)
    requires Placed(s) && PowerSafe(s)
             && (s.w.at.Events? || s.w.at.CheckFwReady? || s.w.at.CheckPreSleep? || s.w.at.Gate?)
    ensures PowerSafe(PowerSection(s, hwOk))
  {
    hide HandleEvent, Count, Buffered, TwoSlots, MaySend;
  }

  lemma PowerStepSafe(s: State, hwOk: bool)
    requires Placed(s) && PowerSafe(s) && !InResponseSection(s.w.at) && !InCommandSection(s.w.at)
    ensures PowerSafe(PowerSection(s, hwOk))
  {
    hide HandleEvent, Refers, PowerSafe;
    match s.w.at
    case Handling => EventSafe(s);
    case ConfirmWake => ConfirmWakeSafe(s, hwOk);
    case ConfirmSleep => ConfirmSafe(s, hwOk);
    case SendConfirm => ConfirmSafe(s, hwOk);
    case CommitSleep => ConfirmSafe(s, hwOk);
    case _ => LoopSafe(s, hwOk);
  }

  lemma DecideSafe(s: State)
    requires Placed(s) && PowerSafe(s) && s.w.at.Peeked?
    ensures PowerSafe(Decide(s))
  {
    hide CallPs, Count, Remove, TwoSlots;
    if s.q.buf[s.w.node].command != CMD_802_11_RSSI { CallPsSafe(s, CMD_SUBCMD_EXIT_PS, Transmit); }
  }

  lemma IdleSafe(s: State)
    requires Placed(s) && PowerSafe(s) && s.w.at.GoIdle?
    ensures PowerSafe(IdleStep(s))
  {
    hide CallPs, Count, MaySend, TwoSlots;
    CallPsSafe(s, CMD_SUBCMD_ENTER_PS, Transmit);
  }

  lemma CommandSafe(s: State, hwOk: bool)
    requires Placed(s) && PowerSafe(s) && InCommandSection(s.w.at)
    ensures PowerSafe(CommandSection(s, hwOk))
  {
    hide Decide, IdleStep, Complete, Count, TwoSlots;
    match s.w.at
    case Peeked => DecideSafe(s);
    case GoIdle => IdleSafe(s);
    case Dropping => CompleteShape(s.q, s.w.node, 0);
    case Unlinked =>
    case Transmit => hide MaySend;
    case Calling => hide MaySend;
    case _ => hide MaySend;
  }

  /** Neither a caller nor a waiter touches the buffer of a command the thread holds. */
  lemma OthersSafe(s: State, n: Node)
    requires Conserved(s) && PowerSafe(s)
    ensures PowerSafe(s.(q := CallerStep(s.q, n, s.psstate)))
    ensures PowerSafe(s.(q := WaiterStep(s.q, n)))
  {
    hide Count;
    assert Places(s.q, n) == 1;
  }

  lemma StepSafe(s: State, l: Label)
    requires Conserved(s) && PowerSafe(s)
    ensures PowerSafe(Step(s, l))
  {
    hide ResponseSection, PowerSection, CommandSection, CallerStep, WaiterStep, Partitioned, Ledger, Count;
    match l
    case Thread(hwOk) =>
      if InResponseSection(s.w.at) { ResponseSafe(s); }
      else if InCommandSection(s.w.at) { CommandSafe(s, hwOk); }
      else { PowerStepSafe(s, hwOk); }
    case Caller(n) => OthersSafe(s, n);
    case Waiter(n) => OthersSafe(s, n);
    case Respond(_) =>
    case RaiseEvent(_) =>
    case _ =>
  }

  lemma {:induction false} RunSafe(s: State, ls: seq<Label>)
    requires Conserved(s) && PowerSafe(s)
    ensures Conserved(Run(s, ls)) && PowerSafe(Run(s, ls))
    decreases |ls|
  {
    hide Step, Partitioned, Ledger, PowerSafe;
    if ls == [] {
    } else {
      StepSafe(s, ls[0]);
      StepConserves(s, ls[0]);
      RunSafe(Step(s, ls[0]), ls[1..]);
    }
  }

  lemma InitSafe(env: Env)
    ensures PowerSafe(Init(env))
  {
  }

  /** Over every run from the start: the card never sleeps while something waits for it,
      although events and responses may arrive between the two checks of the sleep
      confirmation; a command is handed to the card only at full power, or awake if it is
      RSSI or EXIT_PS, and then no other command is in flight and nothing else is on its
      way; and needtowakeup, which only a sleeping card would need, is never set. */
  lemma EveryRunIsSafe(env: Env, ls: seq<Label>)
    ensures var t := Run(Init(env), ls);
            && SleepIsSafe(t)
            && (t.w.at.Unlinked? ==>
                  t.q.cur == None && t.q.hand == Some(t.w.node) && t.dnld == ResReceived
                  && MaySend(t.psstate, t.q.buf[t.w.node]))
            && (t.w.at.Download? ==>
                  t.q.cur == Some(t.w.node) && t.dnld == ResReceived && MaySend(t.psstate, t.q.buf[t.w.node]))
            && !t.needtowakeup
            && t.nrRetries <= 3
  {
    InitConserved(env);
    InitSafe(env);
    RunSafe(Init(env), ls);
  }

  predicate Wakes(l: Label) {
    l.RaiseEvent? || l.Respond?
  }

  lemma SleepStep(s: State, l: Label)
    requires Conserved(s) && PowerSafe(s) && s.psstate == Sleep && !Wakes(l)
    ensures Step(s, l).psstate == Sleep
  {
    hide Partitioned, Ledger, Count, CommandSection, CallerStep, WaiterStep;
  }

  /** A sleeping card sleeps, and nothing is sent to it, until an event or a response arrives. */
  lemma {:induction false} SleepsUntilWoken(s: State, ls: seq<Label>)
    requires Conserved(s) && PowerSafe(s) && s.psstate == Sleep
    requires forall l :: l in ls ==> !Wakes(l)
    ensures Run(s, ls).psstate == Sleep && Run(s, ls).q.cur == None && Run(s, ls).dnld == ResReceived
    decreases |ls|
  {
    hide Step, Partitioned, Ledger;
    if ls == [] {
    } else {
      SleepStep(s, ls[0]);
      StepSafe(s, ls[0]);
      StepConserves(s, ls[0]);
      SleepsUntilWoken(Step(s, ls[0]), ls[1..]);
    }
  }
}
