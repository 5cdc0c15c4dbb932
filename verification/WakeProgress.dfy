/** A command that waits in power-save mode: how it gets through, and when it never does. */
module WakeProgress {
  import opened Options
  import opened LbsState
  import opened QueueMoves
  import opened PowerSave
  import opened ThreadPass

  /** A command that cannot be sent before EXIT_PS. */
  predicate NeedsWakeup(c: CmdNode) {
    c.command != CMD_802_11_RSSI && c.command != CMD_802_11_PS_MODE
  }

  // ---------------------------------------------------------------- lbs_ps_wakeup

  /** The five steps of a caller that has just taken node n. */
  function Prepared(q: Queues, n: Node, p: PsState): (r: Queues)
    requires Buffered(q)
    ensures Buffered(r)
  {
    CallerStep(CallerStep(CallerStep(CallerStep(CallerStep(q, n, p), n, p), n, p), n, p), n, p)
  }

  function Filling(q: Queues, req: Request, n: Node): CmdNode
    requires Buffered(q)
  {
    Numbering(q.buf[n], req, (q.seqnum + 1) % SEQ_MODULUS, q.log.issued + 1)
  }

  lemma TakeAndFill(q: Queues, req: Request, p: PsState)
    requires Buffered(q) && q.free != [] && q.free[0] !in q.prep && !IsAfc(req) && req.origin != Prepare(false)
    ensures var n := q.free[0];
            var r := CallerStep(CallerStep(CallerStep(TakeNode(q, req), n, p), n, p), n, p);
            && r.free == q.free[1..] && r.pending == q.pending && r.cur == q.cur && r.hand == q.hand
            && r.owned == q.owned && r.lost == q.lost
            && r.prep == q.prep[n := Prep(req, Filled)] && r.buf == q.buf[n := Filling(q, req, n)]
  {
    var n := q.free[0];
    var a := TakeNode(q, req);
    var l := CallerStep(a, n, p);
    assert l.prep == q.prep[n := Prep(req, Loaded(q.seqnum))];
    var b := CallerStep(l, n, p);
    assert b.prep == q.prep[n := Prep(req, Numbered)] && b.seqnum == (q.seqnum + 1) % SEQ_MODULUS;
    hide TakeNode;
    assert CallerStep(b, n, p) == Fill(b, n);
  }

  lemma AimAndInsert(q: Queues, n: Node, p: PsState)
    requires Buffered(q) && n in q.prep && q.prep[n].phase.Filled? && q.buf[n].size > 0
    ensures var r := CallerStep(CallerStep(q, n, p), n, p);
            && r.free == q.free && r.cur == q.cur && r.hand == q.hand && r.owned == q.owned && r.lost == q.lost
            && r.prep == q.prep - {n}
            && r.pending == (if IsExitPs(q.buf[n]) && p != FullPower then [n] + q.pending else q.pending + [n])
            && r.buf[n].command == q.buf[n].command && r.buf[n].action == q.buf[n].action
            && r.buf[n].seqnum == q.buf[n].seqnum && r.buf[n].callback == q.buf[n].callback
            && forall m: Node :: m != n ==> r.buf[m] == q.buf[m]
  {
    var a := CallerStep(q, n, p);
    assert a == Aim(q, n, p);
    assert CallerStep(a, n, p) == Insert(a, n, IsExitPs(q.buf[n]) && p != FullPower);
    assert a.prep - {n} == q.prep - {n};
  }

  /** Queueing one command from the free queue to the pending queue. */
  lemma QueueOne(q: Queues, req: Request, p: PsState)
    requires Buffered(q) && q.free != [] && q.free[0] !in q.prep && !IsAfc(req) && req.origin != Prepare(false)
             && req.size > 0
    ensures var n := q.free[0];
            var r := Prepared(TakeNode(q, req), n, p);
            var c := Filling(q, req, n);
            && r.free == q.free[1..] && r.cur == q.cur && r.hand == q.hand && r.owned == q.owned && r.lost == q.lost
            && r.prep == q.prep
            && r.pending == (if IsExitPs(c) && p != FullPower then [n] + q.pending else q.pending + [n])
            && r.buf[n].command == req.command && r.buf[n].action == req.action && r.buf[n].seqnum == c.seqnum
            && r.buf[n].callback == c.callback
            && forall m: Node :: m != n ==> r.buf[m] == q.buf[m]
  {
    hide CallerStep, TakeNode;
    var n := q.free[0];
    TakeAndFill(q, req, p);
    var b := CallerStep(CallerStep(CallerStep(TakeNode(q, req), n, p), n, p), n, p);
    AimAndInsert(b, n, p);
    assert q.prep[n := Prep(req, Filled)] - {n} == q.prep;
  }

  // ---------------------------------------------------------------- three calls

  /** The thread is about to call lbs_execute_next_command, awake, with a command at the
      head that needs full power, a free node, and nothing else going on. */
  predicate WaitingAwake(s: State) {
    && Still(s) && s.w.at.Execute? && s.psstate == Awake && !s.timedOut && s.dnld == ResReceived && s.q.cur == None
    && s.q.pending != [] && NeedsWakeup(s.q.buf[s.q.pending[0]])
    && s.q.free != [] && s.q.free[0] !in s.q.prep && s.q.free[0] !in s.q.pending
  }

  /** All sections of the caller that has taken node n. */
  function CallerRuns(s: State, n: Node): (t: State)
    requires Sized(s)
    ensures Sized(t)
  {
    Step(Step(Step(Step(Step(s, Caller(n)), Caller(n)), Caller(n)), Caller(n)), Caller(n))
  }

  /** The first call: the thread peeks, calls lbs_ps_wakeup, prepares the node, returns. */
  function FirstCall(s: State, hwOk: bool): (t: State)
    requires Sized(s)
    ensures Sized(t)
  {
    var a := Step(Step(Step(s, Thread(hwOk)), Thread(hwOk)), Thread(hwOk));
    Step(CallerRuns(a, a.w.node), Thread(hwOk))
  }

  function CallingExit(s: State): State
    requires s.q.free != []
  {
    s.(q := TakeNode(s.q, PsRequest(CMD_SUBCMD_EXIT_PS)),
      w := s.w.(at := Calling, back := Transmit, node := s.q.free[0]))
  }

  lemma DecideToWake(s: State, hwOk: bool)
    requires WaitingAwake(s)
    ensures Step(Step(Step(s, Thread(hwOk)), Thread(hwOk)), Thread(hwOk)) == CallingExit(s)
  {
    hide ResponseSection, PowerSection, Complete, TakeNode, Remove;
    assert Step(s, Thread(hwOk)) == Goto(s, Peek);
    var p := s.(w := s.w.(at := Peeked, node := s.q.pending[0]));
    assert Step(Goto(s, Peek), Thread(hwOk)) == p;
    assert Step(p, Thread(hwOk)) == CallingExit(s);
  }

  lemma CallersStep(s: State, n: Node)
    requires Sized(s) && !s.slots.bug
    ensures CallerRuns(s, n) == s.(q := Prepared(s.q, n, s.psstate))
  {
    hide CallerStep, ThreadStep, WaiterStep;
  }

  lemma ReturnFromCall(s: State, hwOk: bool)
    requires Sized(s) && !s.slots.bug && s.w.at.Calling? && s.w.node !in s.q.prep
    ensures Step(s, Thread(hwOk)) == Goto(s, s.w.back)
  {
    hide ResponseSection, PowerSection;
  }

  /** EXIT_PS is now at the head of the queue, before the waiting command. */
  lemma FirstCallQueuesExitPs(s: State, hwOk: bool)
    requires WaitingAwake(s)
    ensures var t := FirstCall(s, hwOk);
            var n := s.q.free[0];
            && Still(t) && t.w.at.Transmit? && t.psstate == Awake && !t.timedOut && t.dnld == ResReceived
            && t.slots == s.slots && t.q.cur == None && t.q.pending == [n] + s.q.pending && IsExitPs(t.q.buf[n])
            && t.q.free == s.q.free[1..] && t.q.prep == s.q.prep
            && t.q.buf[n].seqnum == (s.q.seqnum + 1) % SEQ_MODULUS && t.q.buf[n].callback == NoCallback
            && forall m: Node :: m != n ==> t.q.buf[m] == s.q.buf[m]
  {
    hide Step, Prepared, TakeNode, CallerRuns;
    var n := s.q.free[0];
    var a := CallingExit(s);
    DecideToWake(s, hwOk);
    CallersStep(a, n);
    QueueOne(s.q, PsRequest(CMD_SUBCMD_EXIT_PS), Awake);
    ReturnFromCall(a.(q := Prepared(a.q, n, Awake)), hwOk);
  }

  /** A pass of the loop with nothing to read submits a head that may go. */
  lemma PassSubmits(s: State, hwOk: bool)
    requires Still(s) && s.w.at.Top? && !s.timedOut && s.q.cur == None && s.dnld == ResReceived && HeadMayGo(s)
    ensures var t := Pass(s, hwOk);
            && Still(t) && t.w.at.Top? && SameRest(s, t)
               && t.q == s.q.(cur := Some(s.q.pending[0]), pending := s.q.pending[1..])
  {
    hide Step, Settle, Pass;
    var e := Goto(s, Events);
    TopSteps(s, hwOk);
    ReachExecute(e, hwOk, 28);
    SubmitExecute(Goto(e, Execute), hwOk, 24);
  }

  lemma TopSteps(s: State, hwOk: bool)
    requires Still(s) && s.w.at.Top? && !s.timedOut
    ensures Pass(s, hwOk) == Settle(Goto(s, Events), hwOk, 28)
  {
    hide ProcessResponse, FinishResponse, PowerSection, CommandSection, Settle;
    assert Step(s, Thread(hwOk)) == Goto(s, HandleTimeout);
    OneStep(Goto(s, HandleTimeout), Goto(s, ClearTimeout), hwOk, 30);
    OneStep(Goto(s, ClearTimeout), Goto(s, Events), hwOk, 29);
  }

  /** A successful answer to EXIT_PS, for the command in flight. */
  predicate AnswersExitPs(q: Queues, r: Response)
    requires Buffered(q)
  {
    && q.cur.Some? && IsExitPs(q.buf[q.cur.value]) && q.buf[q.cur.value].callback == NoCallback
    && r.seqnum == q.buf[q.cur.value].seqnum && r.command == CmdRet(CMD_802_11_PS_MODE)
    && r.result == 0 && r.action == CMD_SUBCMD_EXIT_PS && 0 < r.size <= CMD_BUFFER_SIZE
  }

  /** The state once that answer is processed, at the timeout check. */
  function Answered(s: State, r: Response): State
    requires Sized(s) && s.q.cur.Some?
  {
    var i := 1 - s.slots.idx;
    s.(dnld := ResReceived, timedOut := false, nrRetries := 0, needtowakeup := false, psstate := FullPower,
       q := Complete(s.q, s.q.cur.value, 0),
       w := s.w.(at := HandleTimeout, slot := i, code := 0),
       slots := s.slots.(idx := i, len := s.slots.len[i := 0], buf := s.slots.buf[i := r],
                         arrived := s.slots.arrived + [r], taken := s.slots.taken + [r]))
  }

  /** The answer has arrived and the thread has taken it. */
  function Taking(s: State, r: Response): State
    requires Sized(s)
  {
    var i := 1 - s.slots.idx;
    s.(dnld := ResReceived, w := s.w.(at := Processing, slot := i),
       slots := s.slots.(idx := i, len := s.slots.len[i := r.size], buf := s.slots.buf[i := r],
                         arrived := s.slots.arrived + [r], taken := s.slots.taken + [r]))
  }

  lemma AnswerArrives(s: State, r: Response, hwOk: bool)
    requires Still(s) && s.w.at.Top? && 0 < r.size <= CMD_BUFFER_SIZE && s.slots.len[1 - s.slots.idx] == 0
    ensures Step(Step(Step(s, HostToCardDone), Respond(r)), Thread(hwOk)) == Taking(s, r)
  {
    hide ProcessResponse, FinishResponse, PowerSection, CommandSection;
    var a := s.(dnld := ResReceived);
    assert Step(s, HostToCardDone) == a;
    var b := Step(a, Respond(r));
    assert b == a.(slots := Arrive(s.slots, r));
    assert Step(b, Thread(hwOk)) == Taking(s, r);
  }

  lemma AnswerProcessed(s: State, r: Response, hwOk: bool)
    requires Still(s) && s.w.at.Top? && AnswersExitPs(s.q, r)
    ensures var p := Step(Taking(s, r), Thread(hwOk));
            p.w.at.ClearSlot? && Step(p, Thread(hwOk)) == Answered(s, r)
  {
    hide PowerSection, CommandSection, CallPs, Complete;
    var t := Taking(s, r);
    assert Accepts(t.q, r);
    var p := FinishResponse(ApplyResponse(t, r).(w := t.w.(code := 0)), 0);
    assert Step(t, Thread(hwOk)) == p;
    assert t.slots.len[t.w.slot := 0] == s.slots.len[t.w.slot := 0];
  }

  /** After the answer the head of the queue is submitted, whatever it is. */
  lemma PassAfterAnswer(s: State, r: Response, hwOk: bool)
    requires Still(s) && s.w.at.Top? && AnswersExitPs(s.q, r) && s.slots.len[1 - s.slots.idx] == 0 && s.q.pending != []
    ensures var t := Pass(Step(Step(s, HostToCardDone), Respond(r)), hwOk);
            t.psstate == FullPower && t.q.cur == Some(s.q.pending[0]) && t.q.pending == s.q.pending[1..]
  {
    hide Step, Settle;
    var a := Answered(s, r);
    AnswerArrives(s, r, hwOk);
    AnswerProcessed(s, r, hwOk);
    var p := Step(Taking(s, r), Thread(hwOk));
    OneStep(Taking(s, r), p, hwOk, 30);
    OneStep(p, a, hwOk, 29);
    AnsweredIsStill(s, r);
    TimeoutSkipped(a, hwOk, 28);
    var e := Goto(a, Events);
    ReachExecute(e, hwOk, 26);
    SubmitExecute(Goto(e, Execute), hwOk, 22);
  }

  lemma AnsweredIsStill(s: State, r: Response)
    requires Still(s) && AnswersExitPs(s.q, r) && s.slots.len[1 - s.slots.idx] == 0
    ensures var a := Answered(s, r); Still(a) && a.q.pending == s.q.pending && a.q.cur == None && !a.timedOut
  {
  }

  lemma TimeoutSkipped(s: State, hwOk: bool, fuel: nat)
    requires Still(s) && s.w.at.HandleTimeout? && !s.timedOut && fuel >= 2
    ensures Settle(s, hwOk, fuel) == Settle(Goto(s, Events), hwOk, fuel - 2)
  {
    hide ProcessResponse, FinishResponse, PowerSection, CommandSection, Settle;
    OneStep(s, Goto(s, ClearTimeout), hwOk, fuel);
    OneStep(Goto(s, ClearTimeout), Goto(s, Events), hwOk, fuel - 1);
  }

  /** A waiting command gets through within three calls of lbs_execute_next_command: the
      first queues EXIT_PS before it, the second (in pass b) submits EXIT_PS, and the third
      (in pass c), after the card has answered, submits the command at full power. */
  lemma SentWithinThreeCalls(s: State, hwOk: bool, r: Response)
    requires WaitingAwake(s) && s.slots.len[1 - s.slots.idx] == 0
    requires r == Response((s.q.seqnum + 1) % SEQ_MODULUS, CmdRet(CMD_802_11_PS_MODE), 0, CMD_SUBCMD_EXIT_PS, r.size)
    requires 0 < r.size <= CMD_BUFFER_SIZE
    ensures var a := Settle(FirstCall(s, hwOk), hwOk, 1);
            var b := Pass(a, hwOk);
            var c := Pass(Step(Step(b, HostToCardDone), Respond(r)), hwOk);
            && b.psstate == Awake && b.q.cur == Some(s.q.free[0]) && IsExitPs(b.q.buf[s.q.free[0]])
               && b.q.pending == s.q.pending
            && c.psstate == FullPower && c.q.cur == Some(s.q.pending[0]) && c.q.pending == s.q.pending[1..]
  {
    hide Step, Settle, FirstCall, Pass;
    FirstCallQueuesExitPs(s, hwOk);
    var f := FirstCall(s, hwOk);
    ReachTop(f, hwOk, 1);
    var a := Goto(f, Top);
    assert HeadMayGo(a);
    PassSubmits(a, hwOk);
    var b := Pass(a, hwOk);
    assert b.q.pending == s.q.pending;
    PassAfterAnswer(b, r, hwOk);
  }

  /** Another context asks for EXIT_PS and queues it. */
  function ForeignExit(s: State): (t: State)
    requires Sized(s) && s.q.free != []
    ensures Sized(t)
  {
    CallerRuns(Step(s, Alloc(PsRequest(CMD_SUBCMD_EXIT_PS))), s.q.free[0])
  }

  lemma AllocTakes(s: State, req: Request)
    requires Sized(s) && !s.slots.bug
    ensures Step(s, Alloc(req)) == s.(q := TakeNode(s.q, req))
  {
    hide TakeNode, ThreadStep, CallerStep, WaiterStep;
  }

  lemma ForeignExitQueues(s: State)
    requires Still(s) && s.w.at.Top? && s.psstate == Awake && s.q.free != [] && s.q.free[0] !in s.q.prep
    ensures var t := ForeignExit(s);
            var m := s.q.free[0];
            && t == s.(q := t.q) && t.q.cur == s.q.cur && t.q.hand == s.q.hand && t.q.pending == [m] + s.q.pending
            && IsExitPs(t.q.buf[m]) && t.q.buf[m].seqnum == (s.q.seqnum + 1) % SEQ_MODULUS
               && t.q.buf[m].callback == NoCallback
  {
    hide Step, Prepared, TakeNode, CallerRuns, NothingToRead, TwoSlots, Buffered;
    var m := s.q.free[0];
    AllocTakes(s, PsRequest(CMD_SUBCMD_EXIT_PS));
    CallersStep(s.(q := TakeNode(s.q, PsRequest(CMD_SUBCMD_EXIT_PS))), m);
    QueueOne(s.q, PsRequest(CMD_SUBCMD_EXIT_PS), Awake);
  }

  /** Three calls are not enough when another context queues EXIT_PS after the first: the
      second call submits that one, and the third the EXIT_PS of the driver itself. */
  lemma ForeignExitPsDelays(s: State, hwOk: bool, r: Response)
    requires WaitingAwake(s) && s.slots.len[1 - s.slots.idx] == 0 && |s.q.free| > 1 && s.q.free[1] !in s.q.prep
    requires var f := FirstCall(s, hwOk);
             r == Response((f.q.seqnum + 1) % SEQ_MODULUS, CmdRet(CMD_802_11_PS_MODE), 0, CMD_SUBCMD_EXIT_PS, r.size)
    requires 0 < r.size <= CMD_BUFFER_SIZE
    ensures var a := Settle(FirstCall(s, hwOk), hwOk, 1);
            a.q.free != []
            && var b := Pass(ForeignExit(a), hwOk);
               var c := Pass(Step(Step(b, HostToCardDone), Respond(r)), hwOk);
               && b.q.cur == Some(s.q.free[1]) && IsExitPs(b.q.buf[s.q.free[1]])
               && c.psstate == FullPower && c.q.cur == Some(s.q.free[0]) && c.q.pending == s.q.pending
  {
    hide Step, Settle, FirstCall, Pass, ForeignExit;
    FirstCallQueuesExitPs(s, hwOk);
    var f := FirstCall(s, hwOk);
    ReachTop(f, hwOk, 1);
    var a := Goto(f, Top);
    ForeignExitQueues(a);
    var g := ForeignExit(a);
    assert HeadMayGo(g);
    PassSubmits(g, hwOk);
    var b := Pass(g, hwOk);
    assert b.q.pending == [s.q.free[0]] + s.q.pending;
    PassAfterAnswer(b, r, hwOk);
  }

  // ---------------------------------------------------------------- no free node

  /** All command nodes wait in the pending queue, in power-save mode, behind a command that
      needs full power: nobody has a node with which to queue EXIT_PS. */
  predicate Starved(s: State) {
    && Placed(s) && s.q.free == [] && s.q.prep == map[] && s.q.owned == {} && s.q.cur == None && s.q.hand == None
    && s.psstate != FullPower && s.q.pending != [] && NeedsWakeup(s.q.buf[s.q.pending[0]])
    && (s.w.at.Peeked? ==> s.w.node == s.q.pending[0])
  }

  /** What a step may change for a starved driver. */
  predicate StillStarved(s: State, t: State)
    requires s.q.pending != []
  {
    && (t.q == s.q || t.q == StoreSeqnum(s.q, s.w.num)) && t.psstate != FullPower
    && (t.w.at.Peeked? ==> t.w.node == s.q.pending[0])
  }

  lemma CallStarves(s: State, action: nat, back: Pc)
    requires s.q.free == [] && Sized(s)
    ensures CallPs(s, action, back) == Goto(s, back)
  {
  }

  lemma StarvedResponse(s: State)
    requires Starved(s) && InResponseSection(s.w.at)
    ensures StillStarved(s, ResponseSection(s))
  {
    hide Count, CallPs, Complete;
  }

  lemma StarvedEvent(s: State)
    requires Starved(s) && s.w.at.Handling?
    ensures StillStarved(s, HandleEvent(s))
  {
    hide Count, CallPs, StoreSeqnum;
    if s.w.event == EVENT_PS_AWAKE {
      CallStarves(s.(psstate := Awake), CMD_SUBCMD_EXIT_PS, Events);
    } else if s.w.event == EVENT_PS_SLEEP {
    } else {
      CallStarves(s.(env := s.env.(connected := false, txPending := 0)), CMD_SUBCMD_EXIT_PS, Events);
    }
  }

  lemma StarvedPower(s: State, hwOk: bool)
    requires Starved(s) && !InResponseSection(s.w.at) && !InCommandSection(s.w.at)
    ensures StillStarved(s, PowerSection(s, hwOk))
  {
    hide Count, HandleEvent, NothingToRead, StoreSeqnum;
    match s.w.at
    case Handling => StarvedEvent(s);
    case ConfirmSleep =>
    case SendConfirm =>
    case CommitSleep =>
    case CheckPreSleep =>
    case _ =>
  }

  lemma StarvedCommand(s: State, hwOk: bool)
    requires Starved(s) && InCommandSection(s.w.at)
    ensures StillStarved(s, CommandSection(s, hwOk))
  {
    hide Count, CallPs, Complete, Unlink, StoreSeqnum;
    CallStarves(s, CMD_SUBCMD_EXIT_PS, Transmit);
    CallStarves(s, CMD_SUBCMD_ENTER_PS, Transmit);
    match s.w.at
    case Peeked =>
    case Calling =>
    case Transmit =>
    case _ =>
  }

  lemma StarvedStep(s: State, l: Label)
    requires Starved(s)
    ensures StillStarved(s, Step(s, l))
  {
    hide ResponseSection, PowerSection, CommandSection, Count, StoreSeqnum;
    match l
    case Thread(hwOk) =>
      if InResponseSection(s.w.at) { StarvedResponse(s); }
      else if InCommandSection(s.w.at) { StarvedCommand(s, hwOk); }
      else { StarvedPower(s, hwOk); }
    case _ =>
  }

  lemma StarvedStays(s: State, l: Label)
    requires Starved(s)
    ensures Starved(Step(s, l)) && Step(s, l).q.pending == s.q.pending
  {
    hide Step;
    StarvedStep(s, l);
    var m := StepMoves(s, l);
  }

  /** Once starved, over every run whatsoever, no command is sent or completed again and full
      power is never reached: the ten commands wait for each other for good. */
  lemma {:induction false} StarvedForGood(s: State, ls: seq<Label>)
    requires Starved(s)
    ensures var t := Run(s, ls);
            t.q.pending == s.q.pending && t.q.cur == None && t.q.hand == None && t.psstate != FullPower
    decreases |ls|
  {
    hide Step;
    if ls == [] {
    } else {
      StarvedStays(s, ls[0]);
      StarvedForGood(Step(s, ls[0]), ls[1..]);
    }
  }

  /** The callers run in the order in which the free nodes are taken, each to its end. */
  function Flood(q: Queues, req: Request, p: PsState): (r: Queues)
    requires Buffered(q)
    ensures Buffered(r)
    decreases |q.free|
  {
    if q.free == [] || q.free[0] in q.prep || IsAfc(req) || req.origin == Prepare(false) || req.size == 0 then q
    else
      QueueOne(q, req, p);
      Flood(Prepared(TakeNode(q, req), q.free[0], p), req, p)
  }

  lemma {:induction false} FloodQueuesAll(q: Queues, req: Request, p: PsState)
    requires Buffered(q) && q.prep == map[] && !IsAfc(req) && req.origin != Prepare(false) && req.size > 0
    requires NeedsWakeup(Filling(q, req, 0)) && forall n: Node :: n in q.free ==> n !in q.pending
    requires forall i, j :: 0 <= i < j < |q.free| ==> q.free[i] != q.free[j]
    ensures var r := Flood(q, req, p);
            && r.free == [] && r.pending == q.pending + q.free && r.prep == map[] && r.owned == q.owned
            && r.cur == q.cur && r.hand == q.hand
            && (forall n: Node :: n in q.free ==> NeedsWakeup(r.buf[n]))
            && (forall n: Node :: n !in q.free ==> r.buf[n] == q.buf[n])
    decreases |q.free|
  {
    hide Prepared, TakeNode;
    if q.free == [] {
    } else {
      QueueOne(q, req, p);
      var t := Prepared(TakeNode(q, req), q.free[0], p);
      FloodQueuesAll(t, req, p);
      assert q.free == [q.free[0]] + q.free[1..];
    }
  }

  lemma {:induction false} FloodIsRun(s: State, req: Request) returns (ls: seq<Label>)
    requires Sized(s) && !s.slots.bug
    ensures Run(s, ls) == s.(q := Flood(s.q, req, s.psstate))
    decreases |s.q.free|
  {
    if s.q.free == [] || s.q.free[0] in s.q.prep || IsAfc(req) || req.origin == Prepare(false) || req.size == 0 {
      ls := [];
    } else {
      hide CallerStep, ThreadStep, WaiterStep, TakeNode, Prepared, CallerRuns;
      var n := s.q.free[0];
      var a := Step(s, Alloc(req));
      CallersStep(a, n);
      QueueOne(s.q, req, s.psstate);
      var b := s.(q := Prepared(TakeNode(s.q, req), n, s.psstate));
      var rest := FloodIsRun(b, req);
      CallerRunsOn(a, n, rest);
      var more := [Caller(n)] + ([Caller(n)] + ([Caller(n)] + ([Caller(n)] + ([Caller(n)] + rest))));
      ls := [Alloc(req)] + more;
      RunCons(s, Alloc(req), more);
    }
  }

  lemma RunCons(s: State, l: Label, ls: seq<Label>)
    requires Sized(s)
    ensures Run(s, [l] + ls) == Run(Step(s, l), ls)
  {
    hide Step;
    assert ([l] + ls)[1..] == ls;
  }

  lemma CallerRunsOn(s: State, n: Node, rest: seq<Label>)
    requires Sized(s)
    ensures var c := Caller(n);
            Run(s, [c] + ([c] + ([c] + ([c] + ([c] + rest))))) == Run(CallerRuns(s, n), rest)
  {
    hide Step, Run;
    var c := Caller(n);
    var s1 := Step(s, c);
    var s2 := Step(s1, c);
    var s3 := Step(s2, c);
    var s4 := Step(s3, c);
    RunCons(s4, c, rest);
    RunCons(s3, c, [c] + rest);
    RunCons(s2, c, [c] + ([c] + rest));
    RunCons(s1, c, [c] + ([c] + ([c] + rest)));
    RunCons(s, c, [c] + ([c] + ([c] + ([c] + rest))));
  }

  /** Starvation is within reach: from any state outside full power with nothing queued, in
      flight, prepared or owned, callers of one ordinary command can take all the free nodes
      before the worker thread runs again. */
  lemma CallersCanStarve(s: State, command: nat) returns (ls: seq<Label>)
    requires Placed(s) && !s.slots.bug && s.psstate != FullPower && s.q.cur == None && s.q.hand == None
    requires s.q.pending == [] && s.q.prep == map[] && s.q.owned == {} && s.q.free != [] && s.w.at.Top?
    requires forall i, j :: 0 <= i < j < |s.q.free| ==> s.q.free[i] != s.q.free[j]
    requires command != CMD_802_11_RSSI && command != CMD_802_11_PS_MODE
    ensures Starved(Run(s, ls))
  {
    var req := Request(command, 0, 8, Async);
    ls := FloodIsRun(s, req);
    FloodQueuesAll(s.q, req, s.psstate);
    assert s.q.free[0] in s.q.free;
  }
}
