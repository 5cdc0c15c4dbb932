/** What the driver does when the firmware stops answering. */
module DeadFirmware {
  import opened Options
  import opened LbsState
  import opened QueueMoves
  import opened NodeConservation
  import opened PowerSave
  import opened ThreadPass
  import opened RetryBudget
  import opened GivingUp
  import ResponseSlots

  /** Full power without power save, nothing to read, nothing to transmit, no caller at work. */
  predicate Calm(s: State) {
    Still(s) && s.q.prep == map[] && s.psstate == FullPower && s.env.cam
  }

  // ---------------------------------------------------------------- one pass with a timeout

  /** The state after the timeout branch, at the event loop. */
  function AfterTimeout(s: State): State
    requires Sized(s)
  {
    Goto(HandleTimeoutStep(s).(timedOut := false), Events)
  }

  lemma TimeoutSteps(s: State, hwOk: bool)
    requires Calm(s) && s.w.at.Top?
    ensures Pass(s, hwOk) == Settle(AfterTimeout(s), hwOk, 28)
    ensures Calm(AfterTimeout(s))
  {
    hide ProcessResponse, FinishResponse, PowerSection, CommandSection, Settle;
    var s1 := Goto(s, HandleTimeout);
    assert Step(s, Thread(hwOk)) == s1;
    var s2 := Goto(HandleTimeoutStep(s), ClearTimeout);
    assert Step(s1, Thread(hwOk)) == s2;
    assert Step(s2, Thread(hwOk)) == AfterTimeout(s);
    OneStep(s1, s2, hwOk, 30);
    OneStep(s2, AfterTimeout(s), hwOk, 29);
  }

  predicate Ready(s: State) {
    Calm(s) && s.w.at.Top? && s.nrRetries <= 3
  }

  /** The first three timeouts of a command: it is submitted again at once. */
  lemma PassRetries(s: State, hwOk: bool)
    requires Ready(s) && s.timedOut && s.q.cur.Some? && s.nrRetries < 3
    ensures var t := Pass(s, hwOk);
            Ready(t) && t.q == s.q && t.nrRetries == s.nrRetries + 1
              && t.dnld == (if hwOk then CmdSent else ResReceived)
            && !t.timedOut
  {
    hide Settle;
    TimeoutSteps(s, hwOk);
    var a := AfterTimeout(s);
    ReachExecute(a, hwOk, 28);
    SubmitExecute(Goto(a, Execute), hwOk, 24);
    assert a.q.pending[1..] == s.q.pending;
  }

  /** The fourth timeout: the command is completed with -ETIMEDOUT.  dnld_sent is not reset,
      so the next command follows only if the card has taken the last transfer. */
  lemma PassGivesUp(s: State, hwOk: bool)
    requires Ready(s) && s.timedOut && s.q.cur.Some? && s.nrRetries == 3
    ensures var t := Pass(s, hwOk);
            var q := Complete(s.q, s.q.cur.value, -ETIMEDOUT);
            && Ready(t) && t.nrRetries == 0 && !t.timedOut && t.needtowakeup == s.needtowakeup
            && (if s.dnld == ResReceived && s.q.pending != []
                then t.q == q.(cur := Some(q.pending[0]), pending := q.pending[1..])
                else t.q == q && t.dnld == s.dnld)
  {
    hide Settle;
    TimeoutSteps(s, hwOk);
    var a := AfterTimeout(s);
    ReachExecute(a, hwOk, 28);
    var e := Goto(a, Execute);
    if s.dnld != ResReceived { SkipExecute(e, hwOk, 24); }
    else if s.q.pending == [] { IdleExecute(e, hwOk, 24); }
    else { SubmitExecute(e, hwOk, 24); }
  }

  // ---------------------------------------------------------------- draining

  /** The card takes the transfer but never answers: the timer fires and the thread runs. */
  function Round(s: State, hwOk: bool): (t: State)
    requires Sized(s)
    ensures Sized(t)
  {
    Pass(Step(Step(s, HostToCardDone), Timer), hwOk)
  }

  function Rounds(s: State, hwOks: seq<bool>): (t: State)
    requires Sized(s)
    ensures Sized(t)
    decreases |hwOks|
  {
    if hwOks == [] then s else Rounds(Round(s, hwOks[0]), hwOks[1..])
  }

  /** Commands left, four tries each. */
  function Tries(s: State): int {
    4 * (|s.q.pending| + Bit(s.q.cur.Some?)) - s.nrRetries
  }

  predicate Draining(s: State) {
    Ready(s) && Partitioned(s.q) && (s.q.cur == None ==> s.q.pending == [] && s.nrRetries == 0)
  }

  predicate GivenUp(q: Queues, n: Node)
    requires Buffered(q)
  {
    !Live(q, n) && q.buf[n].result == -ETIMEDOUT
  }

  lemma RoundDrains(s: State, hwOk: bool)
    requires Draining(s) && s.q.cur.Some?
    ensures var t := Round(s, hwOk);
            && Draining(t) && Tries(t) == Tries(s) - 1
            && (forall n: Node :: Live(s.q, n) ==> Live(t.q, n) || GivenUp(t.q, n))
            && (forall n: Node :: GivenUp(s.q, n) ==> GivenUp(t.q, n))
  {
    hide Pass, Places, Count;
    var a := Step(Step(s, HostToCardDone), Timer);
    assert a == s.(dnld := ResReceived, timedOut := true);
    if s.nrRetries < 3 {
      PassRetries(a, hwOk);
    } else {
      PassGivesUp(a, hwOk);
      GiveUpMoves(s.q);
    }
  }

  /** Giving up the command in flight and storing the next one touches no other command. */
  lemma GiveUpMoves(q: Queues)
    requires Partitioned(q) && q.cur.Some? && q.hand == None
    ensures var r := Complete(q, q.cur.value, -ETIMEDOUT);
            var t := if q.pending == [] then r else r.(cur := Some(r.pending[0]), pending := r.pending[1..]);
            && Partitioned(t) && t.hand == None && t.pending == (if q.pending == [] then [] else q.pending[1..])
            && forall n: Node :: (Live(q, n) ==> Live(t, n) || GivenUp(t, n)) && (GivenUp(q, n) ==> GivenUp(t, n))
  {
    var c := q.cur.value;
    var r := Complete(q, c, -ETIMEDOUT);
    MoveConserves(q, Finish(c, -ETIMEDOUT));
    var t := if q.pending == [] then r else r.(cur := Some(r.pending[0]), pending := r.pending[1..]);
    forall n: Node
      ensures Places(t, n) == 1
      ensures (Live(q, n) ==> Live(t, n) || GivenUp(t, n)) && (GivenUp(q, n) ==> GivenUp(t, n))
    {
      assert Places(r, n) == 1 && Places(q, n) == 1 && Places(q, c) == 1;
    }
  }

  // ---------------------------------------------------------------- rounds are a run of the driver

  /** No response waits or is at work. */
  predicate NoReply(s: State) {
    Placed(s) && s.slots.len[s.slots.idx] == 0 && !ResponseSlots.Busy(s.w)
  }

  /** The labels of a round. */
  predicate OfRound(l: Label) {
    l.Thread? || l.Timer? || l.HostToCardDone?
  }

  lemma RoundStepIsDead(s: State, l: Label)
    requires NoReply(s) && OfRound(l)
    ensures Dead(s, l) && NoReply(Step(s, l))
  {
    hide ThreadStep, Accepts, Refers, Count;
    var m := StepMoves(s, l);
    if l.Thread? && !s.slots.bug {
      StepIsThread(s, l);
      if s.w.at.Top? { TopFindsNothing(s, l.hwOk); } else { ResponseSlots.ThreadBusy(s, l.hwOk); }
    }
  }

  lemma TopFindsNothing(s: State, hwOk: bool)
    requires Placed(s) && s.w.at.Top? && s.slots.len[s.slots.idx] == 0
    ensures ThreadStep(s, hwOk) == Goto(s, HandleTimeout)
  {
    hide ProcessResponse, FinishResponse, HandleTimeoutStep, PowerSection, CommandSection;
  }

  lemma {:induction false} RoundLabelsAreDead(s: State, ls: seq<Label>)
    requires NoReply(s) && forall l :: l in ls ==> OfRound(l)
    ensures DeadRun(s, ls) && NoReply(Run(s, ls))
    decreases |ls|
  {
    hide Step, Dead, Refers, ResponseSlots.Busy;
    if ls == [] {
    } else {
      RoundStepIsDead(s, ls[0]) by { assert ls[0] in ls; }
      RoundLabelsAreDead(Step(s, ls[0]), ls[1..]);
    }
  }

  /** A round is a run with a timeout. */
  lemma RoundIsRun(s: State, hwOk: bool) returns (ls: seq<Label>)
    requires Draining(s) && s.q.cur.Some?
    ensures Round(s, hwOk) == Run(s, ls) && Timeouts(s, ls) >= 1 && forall l :: l in ls ==> OfRound(l)
  {
    var s1 := Step(s, HostToCardDone);
    var s2 := Step(s1, Timer);
    assert s2 == s.(dnld := ResReceived, timedOut := true);
    var s3 := Step(s2, Thread(hwOk));
    assert s3 == Goto(s2, HandleTimeout) by { hide PowerSection, CommandSection, ProcessResponse, FinishResponse; }
    hide Step, Settle, Timeouts, Run;
    var l := SettleIsRun(s3, hwOk, 30);
    FirstTimesOut(s3, l);
    var l3 := [Thread(hwOk)] + l;
    var l2 := [Timer] + l3;
    ls := [HostToCardDone] + l2;
    OneMoreLabel(s, HostToCardDone, l2);
    OneMoreLabel(s1, Timer, l3);
    OneMoreLabel(s2, Thread(hwOk), l);
  }

  lemma OneMoreLabel(s: State, l: Label, ls: seq<Label>)
    requires Sized(s)
    ensures Run(s, [l] + ls) == Run(Step(s, l), ls) && Timeouts(s, [l] + ls) >= Timeouts(Step(s, l), ls)
  {
    hide Step;
    assert ([l] + ls)[1..] == ls;
  }

  lemma FirstTimesOut(s: State, ls: seq<Label>)
    requires Sized(s) && ls != [] && TimesOut(s, ls[0])
    ensures Timeouts(s, ls) >= 1
  {
    hide Step;
  }

  lemma {:induction false} TimeoutsJoin(s: State, a: seq<Label>, b: seq<Label>)
    requires Sized(s)
    ensures Timeouts(s, a + b) == Timeouts(s, a) + Timeouts(Run(s, a), b)
    decreases |a|
  {
    hide Step, TimesOut;
    if a == [] {
      assert a + b == b;
    } else {
      assert (a + b)[1..] == a[1..] + b;
      TimeoutsJoin(Step(s, a[0]), a[1..], b);
    }
  }

  /** As long as the card takes each transfer, a dead firmware does not stop the driver: after
      four rounds for each command, less those already used, nothing is queued or in flight
      any more, and every command that was has been given up with -ETIMEDOUT.  The rounds
      are a run in which nothing is queued or answered, with a timeout for each try. */
  lemma {:induction false} DeadFirmwareDrains(s: State, hwOks: seq<bool>) returns (ls: seq<Label>)
    requires Draining(s) && Placed(s) && |hwOks| == Tries(s)
    ensures var t := Rounds(s, hwOks);
            && t.q.cur == None && t.q.pending == []
            && forall n: Node :: Live(s.q, n) || GivenUp(s.q, n) ==> GivenUp(t.q, n)
    ensures Rounds(s, hwOks) == Run(s, ls) && DeadRun(s, ls) && Timeouts(s, ls) >= Tries(s)
    decreases |hwOks|
  {
    hide Round, Partitioned, Count, Run, Timeouts, DeadRun;
    ls := DrainIsRun(s, hwOks);
    assert NoReply(s) by { hide Partitioned; }
    RoundLabelsAreDead(s, ls);
    DrainEnds(s, hwOks);
  }

  lemma {:induction false} DrainEnds(s: State, hwOks: seq<bool>)
    requires Draining(s) && |hwOks| == Tries(s)
    ensures var t := Rounds(s, hwOks);
            && t.q.cur == None && t.q.pending == []
            && forall n: Node :: Live(s.q, n) || GivenUp(s.q, n) ==> GivenUp(t.q, n)
    decreases |hwOks|
  {
    hide Round, Partitioned, Count;
    if s.q.cur.Some? {
      var t := Round(s, hwOks[0]);
      RoundDrains(s, hwOks[0]);
      DrainEnds(t, hwOks[1..]);
    } else {
      CountEmpty(s.q);
    }
  }

  lemma {:induction false} DrainIsRun(s: State, hwOks: seq<bool>) returns (ls: seq<Label>)
    requires Draining(s) && |hwOks| == Tries(s)
    ensures Rounds(s, hwOks) == Run(s, ls) && Timeouts(s, ls) >= Tries(s) && forall l :: l in ls ==> OfRound(l)
    decreases |hwOks|
  {
    hide Round, Partitioned, Run, Timeouts;
    ls := [];
    if s.q.cur.Some? {
      var a := RoundIsRun(s, hwOks[0]);
      RoundDrains(s, hwOks[0]);
      var b := DrainIsRun(Round(s, hwOks[0]), hwOks[1..]);
      ls := a + b;
      RunJoin(s, a, b);
      TimeoutsJoin(s, a, b);
    } else {
      EmptyRun(s);
    }
  }

  lemma EmptyRun(s: State)
    requires Sized(s)
    ensures Run(s, []) == s && Timeouts(s, []) == 0
  {
  }

  lemma CountEmpty(q: Queues)
    requires q.pending == [] && q.cur == None && q.hand == None
    ensures forall n: Node :: !Live(q, n)
  {
  }
}
