/** One pass of lbs_thread through its loop while no other context interferes. */
module ThreadPass {
  import opened Options
  import opened LbsState
  import opened QueueMoves
  import opened PowerSave

  /** The worker thread runs on, alone, until it is at the top of its loop. */
  function Settle(s: State, hwOk: bool, fuel: nat): (t: State)
    requires Sized(s)
    ensures Sized(t)
    decreases fuel
  {
    if fuel == 0 || s.w.at.Top? then s else Settle(Step(s, Thread(hwOk)), hwOk, fuel - 1)
  }

  /** One pass of the loop of lbs_thread; hwOk is the result of hw_host_to_card in it. */
  function Pass(s: State, hwOk: bool): (t: State)
    requires Sized(s)
    ensures Sized(t)
  {
    Settle(Step(s, Thread(hwOk)), hwOk, 30)
  }

  /** The card is awake, there is nothing to read or transmit, and no command is unlinked. */
  predicate Still(s: State) {
    && Sized(s) && !s.slots.bug && s.w.slot < 2 && s.q.hand == None
    && !Asleep(s.psstate) && s.env.fwReady && s.env.txPending <= 0 && NothingToRead(s)
  }

  /** The thread may send the head of the queue as it is. */
  predicate HeadMayGo(s: State)
    requires Sized(s)
  {
    s.q.pending != [] && MaySend(s.psstate, s.q.buf[s.q.pending[0]])
  }

  /** The parts of the state that a pass without responses and events leaves alone. */
  predicate SameRest(s: State, t: State) {
    t.slots == s.slots && t.env == s.env && t.fifo == s.fifo && t.psstate == s.psstate && t.w.slot == s.w.slot
    && t.needtowakeup == s.needtowakeup && t.nrRetries == s.nrRetries && t.timedOut == s.timedOut
  }

  /** The next section when nothing happens around the thread. */
  function Following(pc: Pc): Pc {
    match pc
    case Events => CheckFwReady
    case CheckFwReady => CheckPreSleep
    case CheckPreSleep => Gate
    case Gate => Execute
    case Transmit => Top
    case _ => pc
  }

  lemma PlainStep(s: State, hwOk: bool)
    requires Still(s)
    ensures Following(s.w.at) != s.w.at ==> Step(s, Thread(hwOk)) == Goto(s, Following(s.w.at))
    ensures s.w.at.Execute? ==>
              Step(s, Thread(hwOk)) == Goto(s, if s.dnld == ResReceived && s.q.cur == None then Peek else Transmit)
    ensures s.w.at.Peek? && s.q.cur == None && s.q.pending == [] ==> Step(s, Thread(hwOk)) == Goto(s, GoIdle)
    ensures s.w.at.GoIdle? && s.env.cam ==> Step(s, Thread(hwOk)) == Goto(s, Transmit)
  {
    hide ResponseSection, HandleEvent, Decide, CallPs, Complete;
  }

  lemma OneStep(s: State, t: State, hwOk: bool, fuel: nat)
    requires Sized(s) && fuel > 0 && !s.w.at.Top? && Step(s, Thread(hwOk)) == t
    ensures Settle(s, hwOk, fuel) == Settle(t, hwOk, fuel - 1)
  {
    hide Step;
  }

  /** One plain step. */
  lemma Plain(s: State, hwOk: bool, fuel: nat)
    requires Still(s) && fuel > 0 && Following(s.w.at) != s.w.at
    ensures Settle(s, hwOk, fuel) == Settle(Goto(s, Following(s.w.at)), hwOk, fuel - 1)
  {
    hide Step, Settle, Still;
    PlainStep(s, hwOk);
    OneStep(s, Goto(s, Following(s.w.at)), hwOk, fuel);
  }

  /** From the event loop to the call of lbs_execute_next_command. */
  lemma ReachExecute(s: State, hwOk: bool, fuel: nat)
    requires Still(s) && s.w.at.Events? && fuel >= 4
    ensures Settle(s, hwOk, fuel) == Settle(Goto(s, Execute), hwOk, fuel - 4)
  {
    hide Step, Settle;
    Plain(s, hwOk, fuel);
    Plain(Goto(s, CheckFwReady), hwOk, fuel - 1);
    Plain(Goto(s, CheckPreSleep), hwOk, fuel - 2);
    Plain(Goto(s, Gate), hwOk, fuel - 3);
  }

  lemma ReachTop(s: State, hwOk: bool, fuel: nat)
    requires Still(s) && s.w.at.Transmit? && fuel >= 1
    ensures Settle(s, hwOk, fuel) == Goto(s, Top)
  {
    hide Step;
    Plain(s, hwOk, fuel);
  }

  /** The thread cannot send anything: it goes back to the top. */
  lemma SkipExecute(s: State, hwOk: bool, fuel: nat)
    requires Still(s) && s.w.at.Execute? && fuel >= 2 && (s.q.cur.Some? || s.dnld != ResReceived)
    ensures Settle(s, hwOk, fuel) == Goto(s, Top)
  {
    hide Step, Settle;
    PlainStep(s, hwOk);
    OneStep(s, Goto(s, Transmit), hwOk, fuel);
    ReachTop(Goto(s, Transmit), hwOk, fuel - 1);
  }

  /** The thread finds the queue empty. */
  lemma IdleExecute(s: State, hwOk: bool, fuel: nat)
    requires Still(s) && s.w.at.Execute? && fuel >= 4 && s.q.cur == None && s.dnld == ResReceived && s.q.pending == []
             && s.env.cam
    ensures Settle(s, hwOk, fuel) == Goto(s, Top)
  {
    hide Step, Settle;
    PlainStep(s, hwOk);
    OneStep(s, Goto(s, Peek), hwOk, fuel);
    PlainStep(Goto(s, Peek), hwOk);
    OneStep(Goto(s, Peek), Goto(s, GoIdle), hwOk, fuel - 1);
    PlainStep(Goto(s, GoIdle), hwOk);
    OneStep(Goto(s, GoIdle), Goto(s, Transmit), hwOk, fuel - 2);
    ReachTop(Goto(s, Transmit), hwOk, fuel - 3);
  }

  /** The four steps that move the head of the queue into flight. */
  function Peeking(s: State): State
    requires s.q.pending != []
  {
    s.(w := s.w.(at := Peeked, node := s.q.pending[0]))
  }

  function Unlinking(s: State): State
    requires s.q.pending != []
  {
    Peeking(s).(w := Peeking(s).w.(at := Unlinked),
      q := s.q.(pending := s.q.pending[1..], hand := Some(s.q.pending[0])))
  }

  function Sending(s: State): State
    requires s.q.pending != []
  {
    Unlinking(s).(w := Peeking(s).w.(at := Download),
      q := s.q.(pending := s.q.pending[1..], cur := Some(s.q.pending[0])))
  }

  function Sent(s: State, hwOk: bool): State
    requires s.q.pending != []
  {
    Goto(Sending(s), Transmit).(dnld := if hwOk then CmdSent else s.dnld)
  }

  lemma PeekStep(s: State, hwOk: bool)
    requires Still(s) && s.w.at.Peek? && s.q.cur == None && s.q.pending != []
    ensures Step(s, Thread(hwOk)) == Peeking(s)
  {
    hide ResponseSection, PowerSection, Decide, CallPs, Complete, TwoSlots;
  }

  lemma UnlinkStep(s: State, hwOk: bool)
    requires Still(s) && HeadMayGo(s)
    ensures Step(Peeking(s), Thread(hwOk)) == Unlinking(s)
  {
    hide ResponseSection, PowerSection, CallPs, Complete, TwoSlots, IdleStep;
    assert Remove(s.q.pending, s.q.pending[0]) == s.q.pending[1..];
  }

  lemma StoreStep(s: State, hwOk: bool)
    requires Still(s) && s.q.cur == None && s.q.pending != []
    ensures Step(Unlinking(s), Thread(hwOk)) == Sending(s)
    ensures Step(Sending(s), Thread(hwOk)) == Sent(s, hwOk)
  {
    hide ResponseSection, PowerSection, Decide, CallPs, Complete, TwoSlots, IdleStep;
  }

  lemma SentIsStill(s: State, hwOk: bool)
    requires Still(s) && s.q.cur == None && s.q.pending != []
    ensures var t := Sent(s, hwOk);
            && Still(t) && t.w.at.Transmit? && SameRest(s, t)
            && t.q == s.q.(cur := Some(s.q.pending[0]), pending := s.q.pending[1..])
            && t.dnld == (if hwOk then CmdSent else s.dnld)
  {
  }

  lemma FourSteps(s: State, s1: State, s2: State, s3: State, s4: State, hwOk: bool, fuel: nat)
    requires Sized(s) && Sized(s1) && Sized(s2) && Sized(s3) && fuel >= 4
    requires !s.w.at.Top? && !s1.w.at.Top? && !s2.w.at.Top? && !s3.w.at.Top?
    requires Step(s, Thread(hwOk)) == s1 && Step(s1, Thread(hwOk)) == s2
    requires Step(s2, Thread(hwOk)) == s3 && Step(s3, Thread(hwOk)) == s4
    ensures Settle(s, hwOk, fuel) == Settle(s4, hwOk, fuel - 4)
  {
    hide Step, Settle, Buffered, TwoSlots;
    OneStep(s, s1, hwOk, fuel);
    OneStep(s1, s2, hwOk, fuel - 1);
    OneStep(s2, s3, hwOk, fuel - 2);
    OneStep(s3, s4, hwOk, fuel - 3);
  }

  lemma SubmitSteps(s: State, hwOk: bool, fuel: nat)
    requires Still(s) && s.w.at.Peek? && fuel >= 5 && s.q.cur == None && HeadMayGo(s)
    ensures Settle(s, hwOk, fuel) == Goto(Sent(s, hwOk), Top)
  {
    hide Step, Settle, MaySend;
    PeekStep(s, hwOk);
    UnlinkStep(s, hwOk);
    StoreStep(s, hwOk);
    SentIsStill(s, hwOk);
    FourSteps(s, Peeking(s), Unlinking(s), Sending(s), Sent(s, hwOk), hwOk, fuel);
    ReachTop(Sent(s, hwOk), hwOk, fuel - 4);
  }

  /** The thread submits the head of the queue. */
  lemma SubmitExecute(s: State, hwOk: bool, fuel: nat)
    requires Still(s) && s.w.at.Execute? && fuel >= 6 && s.q.cur == None && s.dnld == ResReceived && HeadMayGo(s)
    ensures var t := Settle(s, hwOk, fuel);
            && t.w.at.Top? && SameRest(s, t)
            && t.q == s.q.(cur := Some(s.q.pending[0]), pending := s.q.pending[1..])
            && t.dnld == (if hwOk then CmdSent else ResReceived)
  {
    var p := Goto(s, Peek);
    PlainStep(s, hwOk);
    SubmitSteps(p, hwOk, fuel - 1);
    SentIsStill(p, hwOk);
    hide Step, Settle, Sent;
    OneStep(s, p, hwOk, fuel);
  }

  // ---------------------------------------------------------------- passes are runs

  lemma {:induction false} RunJoin(s: State, a: seq<Label>, b: seq<Label>)
    requires Sized(s)
    ensures Run(s, a + b) == Run(Run(s, a), b)
    decreases |a|
  {
    hide Step;
    if a == [] {
      assert a + b == b;
    } else {
      assert (a + b)[1..] == a[1..] + b;
      RunJoin(Step(s, a[0]), a[1..], b);
    }
  }

  lemma {:induction false} SettleIsRun(s: State, hwOk: bool, fuel: nat) returns (ls: seq<Label>)
    requires Sized(s)
    ensures Settle(s, hwOk, fuel) == Run(s, ls) && (forall l :: l in ls ==> l.Thread?)
    ensures fuel > 0 && !s.w.at.Top? ==> ls != []
    decreases fuel
  {
    hide Step;
    if fuel == 0 || s.w.at.Top? {
      ls := [];
    } else {
      ls := SettleIsRun(Step(s, Thread(hwOk)), hwOk, fuel - 1);
      ls := [Thread(hwOk)] + ls;
    }
  }

  lemma PassIsRun(s: State, hwOk: bool) returns (ls: seq<Label>)
    requires Sized(s)
    ensures Pass(s, hwOk) == Run(s, ls) && ls != [] && forall l :: l in ls ==> l.Thread?
  {
    hide Step, Settle;
    var t := Step(s, Thread(hwOk));
    var more := SettleIsRun(t, hwOk, 30);
    ls := [Thread(hwOk)] + more;
    assert ls[1..] == more;
  }
}
