/** A run from the start that ends with the card asleep. */
module SleepSchedule {
  import opened Options
  import opened LbsState
  import opened QueueMoves
  import opened NodeConservation
  import opened PowerSave
  import opened ThreadPass
  import opened WakeProgress
  import opened RunUntil
  import opened IdleSleep
  import opened SleepHandshake
  import opened CommandAnswers

  /** At full power, with a connection and without WPA, power-save mode is on; nothing happens, and
      the thread is at the top of its loop. */
  predicate MayRest(s: State) {
    && Still(s) && s.w.at.Top? && MaySleep(s) && s.env.connected && !s.timedOut && s.dnld == ResReceived
    && s.q.cur == None && s.q.prep == map[] && s.slots.len[1 - s.slots.idx] == 0
  }

  /** From the top of the loop to the event loop. */
  lemma TopToEvents(s: State)
    requires Still(s) && s.w.at.Top? && !s.timedOut
    ensures Step(Step(Step(s, Thread(true)), Thread(true)), Thread(true)) == Goto(s, Events)
  {
    hide ProcessResponse, FinishResponse, PowerSection, CommandSection;
    assert Step(s, Thread(true)) == Goto(s, HandleTimeout);
    assert Step(Goto(s, HandleTimeout), Thread(true)) == Goto(s, ClearTimeout);
  }

  /** What the thread does when it finds the queue empty. */
  function Resting(s: State): State
    requires s.q.free != []
  {
    s.(q := TakeNode(s.q, PsRequest(CMD_SUBCMD_ENTER_PS)),
       w := s.w.(at := Calling, back := Transmit, node := s.q.free[0]))
  }

  lemma IdleRests(s: State)
    requires Sized(s) && !s.slots.bug && s.w.at.GoIdle? && MaySleep(s) && s.q.free != []
    ensures Step(s, Thread(true)) == Resting(s)
  {
    hide ResponseSection, PowerSection, Decide, Complete, TakeNode;
  }

  /** The thread finds the queue empty. */
  lemma FindsNothing(s: State) returns (ls: seq<Label>)
    requires MayRest(s) && s.q.pending == []
    ensures Run(s, ls) == Goto(s, GoIdle)
  {
    hide Step, Run, Settle, MaySleep, Still;
    StillAround(s);
    var T := Thread(true);
    TopToEvents(s);
    var e := Goto(s, Events);
    ReachExecute(e, true, 4);
    var toExecute := SettleIsRun(e, true, 4);
    NoFuel(Goto(e, Execute));
    PlainStep(Goto(s, Execute), true);
    PlainStep(Goto(s, Peek), true);
    var idle := [T] + ([T] + []);
    var rest := toExecute + idle;
    ls := [T] + ([T] + ([T] + rest));
    RunCons(s, T, [T] + ([T] + rest));
    RunCons(Step(s, T), T, [T] + rest);
    RunCons(Step(Step(s, T), T), T, rest);
    RunJoin(e, toExecute, idle);
    RunCons(Goto(s, Execute), T, [T] + []);
    RunCons(Goto(s, Peek), T, []);
    NoLabels(Goto(s, GoIdle));
  }

  /** Then it queues ENTER_PS. */
  lemma QueuesEnterPs(s: State) returns (ls: seq<Label>)
    requires MayRest(s) && s.q.pending == [] && s.q.free != []
    ensures var t := Run(Goto(s, GoIdle), ls);
            var n := s.q.free[0];
            && MayRest(t) && t.q.pending == [n] && IsPs(t.q.buf[n], 0x30) && t.q.buf[n].callback == NoCallback
  {
    hide Step, Run, CallerRuns, Prepared, TakeNode, MaySleep, Still;
    StillAround(s);
    FullAlready(s);
    var T := Thread(true);
    var n := s.q.free[0];
    IdleRests(Goto(s, GoIdle)) by { Elsewhere(s, GoIdle); }
    var c := Resting(Goto(s, GoIdle));
    CallersStep(c, n);
    QueueOne(s.q, PsRequest(CMD_SUBCMD_ENTER_PS), FullPower);
    var d := c.(q := Prepared(c.q, n, c.psstate));
    WakeProgress.ReturnFromCall(d, true);
    var t := Goto(d, Top);
    SameSettings(s, t);
    StillAround(t);
    assert Still(Goto(t, Transmit)) && Goto(t, Transmit) == Goto(d, Transmit);
    PlainStep(Goto(d, Transmit), true);
    var last := [T] + ([T] + []);
    var calls := [Caller(n)] + ([Caller(n)] + ([Caller(n)] + ([Caller(n)] + ([Caller(n)] + last))));
    ls := [T] + calls;
    RunCons(Goto(s, GoIdle), T, calls);
    CallerRunsOn(c, n, last);
    RunCons(d, T, [T] + []);
    RunCons(Goto(d, Transmit), T, []);
    NoLabels(t);
  }

  lemma AsksForSleep(s: State) returns (ls: seq<Label>)
    requires MayRest(s) && s.q.pending == [] && s.q.free != []
    ensures var t := Run(s, ls);
            var n := s.q.free[0];
            && MayRest(t) && t.q.pending == [n] && IsPs(t.q.buf[n], 0x30) && t.q.buf[n].callback == NoCallback
  {
    hide Run, MayRest;
    RestIsStill(s);
    var first := FindsNothing(s);
    var second := QueuesEnterPs(s);
    ls := first + second;
    RunJoin(s, first, second);
  }

  lemma RestIsStill(s: State)
    requires MayRest(s)
    ensures Still(s)
  {
  }

  lemma StillAround(s: State)
    requires Still(s)
    ensures forall pc :: Still(Goto(s, pc))
    ensures Sized(s) && !s.slots.bug && s.q.hand == None
  {
  }

  lemma NoFuel(s: State)
    requires Sized(s)
    ensures Settle(s, true, 0) == s
  {
  }

  lemma NoLabels(s: State)
    requires Sized(s)
    ensures Run(s, []) == s
  {
  }

  lemma Elsewhere(s: State, pc: Pc)
    requires MaySleep(s)
    ensures MaySleep(Goto(s, pc))
  {
  }

  lemma FullAlready(s: State)
    requires MaySleep(s)
    ensures s.psstate == FullPower
  {
  }

  lemma SameSettings(s: State, t: State)
    requires MayRest(s) && t == s.(q := t.q, w := t.w) && Buffered(t.q) && t.w.at.Top? && t.w.slot == s.w.slot
    requires t.q.cur == None && t.q.hand == None && t.q.prep == map[]
    ensures MayRest(t)
  {
  }

  /** The thread sends ENTER_PS, the card takes it and answers, and the thread completes it. */
  lemma EntersPs(s: State) returns (ls: seq<Label>)
    requires Conserved(s) && MayRest(s) && s.q.pending != []
    requires IsPs(s.q.buf[s.q.pending[0]], 0x30)
    ensures var t := Run(s, ls);
            && Placed(t) && !t.slots.bug && t.w.at.ClearSlot? && t.w.slot == t.slots.idx
            && t.psstate == Awake && !t.timedOut
            && t.q.cur == None && t.dnld == ResReceived && t.fifo == []
  {
    hide Step, Run, Pass, Partitioned, Ledger;
    var T := Thread(true);
    var n := s.q.pending[0];
    FullAlready(s);
    PassSubmits(s, true);
    var pass := PassIsRun(s, true);
    var b := Pass(s, true);
    RunConserves(s, pass);
    var r := Response(s.q.buf[n].seqnum, 0x8021, 0, 0x30, 8);
    AnswerTaken(b, r);
    var c := Step(Step(Step(b, HostToCardDone), Respond(r)), T);
    StepConserves(b, HostToCardDone);
    StepConserves(Step(b, HostToCardDone), Respond(r));
    StepConserves(Step(Step(b, HostToCardDone), Respond(r)), T);
    AnswerStep(c, T, n);
    var m := StepMoves(c, T);
    ls := pass + ([HostToCardDone] + ([Respond(r)] + ([T] + ([T] + []))));
    RunJoin(s, pass, [HostToCardDone] + ([Respond(r)] + ([T] + ([T] + []))));
    RunCons(b, HostToCardDone, [Respond(r)] + ([T] + ([T] + [])));
    RunCons(Step(b, HostToCardDone), Respond(r), [T] + ([T] + []));
    RunCons(Step(Step(b, HostToCardDone), Respond(r)), T, [T] + []);
    RunCons(c, T, []);
    NoLabels(Step(c, T));
    AnswerPlace(c, T, n);
  }

  lemma AnswerTaken(s: State, r: Response)
    requires Still(s) && s.w.at.Top? && 0 < r.size <= CMD_BUFFER_SIZE && s.slots.len[1 - s.slots.idx] == 0
    ensures var t := Step(Step(Step(s, HostToCardDone), Respond(r)), Thread(true));
            && t.w.at.Processing? && t.w.slot == t.slots.idx && t.slots.buf[t.w.slot] == r && !t.slots.bug && t.q == s.q
            && t.psstate == s.psstate && t.env == s.env && t.dnld == ResReceived && t.fifo == []
  {
    hide ProcessResponse, FinishResponse, PowerSection, CommandSection;
    AnswerArrives(s, r, true);
  }

  lemma AnswerPlace(s: State, l: Label, n: Node)
    requires HasAnswer(s, n) && l.Thread? && AtOnce(s, s.slots.buf[s.w.slot])
    ensures Step(s, l).w.slot == s.w.slot
  {
    hide PowerSection, CommandSection, Complete, Count;
  }

  /** The slot is cleared and the thread goes on to its event loop. */
  lemma ClearsSlot(s: State)
    requires Placed(s) && !s.slots.bug && s.w.at.ClearSlot? && s.w.slot == s.slots.idx && !s.timedOut
    ensures var t := Step(Step(Step(s, Thread(true)), Thread(true)), Thread(true));
            t == s.(slots := s.slots.(len := s.slots.len[s.w.slot := 0]), w := s.w.(at := Events))
  {
    hide ProcessResponse, FinishResponse, PowerSection, CommandSection, Count;
    var a := s.(slots := s.slots.(len := s.slots.len[s.w.slot := 0]), w := s.w.(at := HandleTimeout));
    assert Step(s, Thread(true)) == a;
    assert Step(a, Thread(true)) == a.(w := a.w.(at := ClearTimeout));
  }

  lemma EventTaken(s: State)
    requires Sized(s) && !s.slots.bug && s.w.at.Events? && s.psstate == Awake && s.fifo == []
    ensures Step(s, RaiseEvent(11)) == s.(fifo := [11])
    ensures Step(s.(fifo := [11]), Thread(true)) == s.(w := s.w.(at := Handling, event := 11))
  {
    hide ResponseSection, CommandSection, HandleEvent, CallerStep, WaiterStep, NothingToRead;
  }

  /** The card raises PS_SLEEP, and nothing hinders the handshake. */
  lemma FallsAsleep(s: State)
    requires Placed(s) && !s.slots.bug && s.w.at.Events? && s.psstate == Awake && NothingGoesOut(s) && NothingCameIn(s)
    ensures var T := Thread(true);
            Run(s, [RaiseEvent(11)] + ([T] + ([T] + ([T] + ([T] + ([T] + [])))))).psstate == Sleep
  {
    hide Step, Run;
    var T := Thread(true);
    var a := s.(fifo := [11]);
    var b := s.(w := s.w.(at := Handling, event := 11));
    EventTaken(s);
    SleepEvent(b, T);
    var c := Step(b, T);
    var m := StepMoves(s, RaiseEvent(11));
    m := StepMoves(a, T);
    m := StepMoves(b, T);
    m := StepMoves(c, T);
    HandshakeStep(c, T, Events);
    var d := Step(c, T);
    m := StepMoves(d, T);
    SameInput(c, T);
    HandshakeStep(d, T, Events);
    var e := Step(d, T);
    SameInput(d, T);
    HandshakeStep(e, T, Events);
    RunCons(s, RaiseEvent(11), [T] + ([T] + ([T] + ([T] + ([T] + [])))));
    RunCons(a, T, [T] + ([T] + ([T] + ([T] + []))));
    RunCons(b, T, [T] + ([T] + ([T] + [])));
    RunCons(c, T, [T] + ([T] + []));
    RunCons(d, T, [T] + []);
    RunCons(e, T, []);
    NoLabels(Step(e, T));
  }

  lemma SameInput(s: State, l: Label)
    requires Placed(s) && InHandshake(s, Events) && l.Thread? && !s.slots.bug
    ensures Step(s, l).fifo == s.fifo && Step(s, l).slots == s.slots
  {
    hide ResponseSection, CommandSection, HandleEvent, Count;
  }

  /** With a connection, power-save mode on and no WPA: the driver asks for power save, the card
      agrees, asks for sleep, and goes to sleep. */
  lemma ConnectedSleeps(env: Env) returns (ls: seq<Label>)
    requires env.connected && !env.cam && !env.wpa && env.fwReady && env.txPending <= 0
    ensures Run(Init(env), ls).psstate == Sleep
  {
    hide Run, Step, Partitioned, Ledger;
    var T := Thread(true);
    var s := Init(env);
    var first := AsksForSleep(s);
    var a := Run(s, first);
    InitConserved(env);
    RunConserves(s, first);
    var second := EntersPs(a);
    var b := Run(a, second);
    ClearsSlot(b);
    var c := Step(Step(Step(b, T), T), T);
    var m := StepMoves(b, T);
    m := StepMoves(Step(b, T), T);
    m := StepMoves(Step(Step(b, T), T), T);
    FallsAsleep(c);
    var last := [RaiseEvent(11)] + ([T] + ([T] + ([T] + ([T] + ([T] + [])))));
    ls := first + (second + ([T] + ([T] + ([T] + last))));
    RunJoin(s, first, second + ([T] + ([T] + ([T] + last))));
    RunJoin(a, second, [T] + ([T] + ([T] + last)));
    RunCons(b, T, [T] + ([T] + last));
    RunCons(Step(b, T), T, [T] + last);
    RunCons(Step(Step(b, T), T), T, last);
  }
  lemma Settings(start: Env, env: Env)
    ensures Step(Init(start), Configure(env)) == Init(env)
  {
  }

  /** From the start, whatever the settings, there is a run to sleep: one in which a connection with
      power save is configured first. */
  lemma SleepIsReachable(start: Env) returns (ls: seq<Label>)
    ensures Run(Init(start), ls).psstate == Sleep
  {
    hide Run, Step, Init;
    var env := start.(connected := true, cam := false, wpa := false, fwReady := true, txPending := 0);
    var rest := ConnectedSleeps(env);
    Settings(start, env);
    ls := [Configure(env)] + rest;
    RunCons(Init(start), Configure(env), rest);
  }
}
