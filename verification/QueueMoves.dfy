/** Every section of every context moves the command nodes in one of nine ways.  What
    holds of the queues in all runs is proved over these moves. */
module QueueMoves {
  import opened Options
  import opened LbsState

  function Bit(b: bool): nat { if b then 1 else 0 }

  /** How often n stands in ns. */
  function Count(ns: seq<Node>, n: Node): nat {
    if ns == [] then 0 else Bit(ns[0] == n) + Count(ns[1..], n)
  }

  lemma {:induction false} CountAppend(ns: seq<Node>, m: Node, n: Node)
    ensures Count(ns + [m], n) == Count(ns, n) + Bit(m == n)
  {
    if ns == [] {
    } else {
      assert (ns + [m])[1..] == ns[1..] + [m];
      CountAppend(ns[1..], m, n);
    }
  }

  lemma CountPrepend(ns: seq<Node>, m: Node, n: Node)
    ensures Count([m] + ns, n) == Bit(m == n) + Count(ns, n)
  {
    assert ([m] + ns)[1..] == ns;
  }

  datatype Move =
    | Keep
    | Bump(num: nat)
    | Take(req: Request)
    | Advance(node: Node, p: PsState)
    | Return(node: Node)
    | Detach(node: Node)
    | Submit(node: Node)
    | Retry(node: Node)
    | Finish(node: Node, code: int)

  function Apply(q: Queues, m: Move): (r: Queues)
    requires Buffered(q)
    ensures Buffered(r)
  {
    match m
    case Keep => q
    case Bump(num) => StoreSeqnum(q, num)
    case Take(req) => TakeNode(q, req)
    case Advance(n, p) => CallerStep(q, n, p)
    case Return(n) => WaiterStep(q, n)
    case Detach(n) => Unlink(q, n)
    case Submit(n) => Store(q, n)
    case Retry(n) => Requeue(q, n)
    case Finish(n, code) => Complete(q, n, code)
  }

  /** The worker thread is the only context that moves the command in flight, and it
      stores or completes a command only when no other one is in flight. */
  predicate Legal(q: Queues, m: Move) {
    match m
    case Detach(n) => q.cur == None && q.hand == None && Count(q.pending, n) > 0
    case Submit(n) => q.cur == None && q.hand == Some(n)
    case Retry(n) => q.cur == Some(n) && q.hand == None
    case Finish(n, _) => (q.cur == Some(n) && q.hand == None) || (q.cur == None && q.hand == Some(n))
    case _ => true
  }

  /** The sections which run only while no command is in flight. */
  predicate NoneInFlight(w: Worker) {
    w.at.SendConfirm? || w.at.CommitSleep? || w.at.Peek? || w.at.Peeked? || w.at.Unlinked? || w.at.Dropping?
    || w.at.GoIdle? || (w.at.Calling? && w.back.Transmit?)
  }

  /** The sections which run only while a command is in flight. */
  predicate OneInFlight(w: Worker) {
    w.at.InCallback? || w.at.FinishPs? || w.at.Download? || (w.at.Calling? && w.back.FinishPs?)
  }

  predicate Holds(w: Worker) {
    w.at.Unlinked? || w.at.Dropping?
  }

  predicate ReturnsWell(w: Worker) {
    && (w.at.Calling? ==> w.back.Events? || w.back.Transmit? || w.back.FinishPs?)
    && (w.at.ConfirmSleep? || w.at.SendConfirm? || w.at.CommitSleep? ==> w.back.Events? || w.back.Gate?)
  }

  /** What the place of the thread says about the commands it refers to. */
  predicate Refers(q: Queues, w: Worker) {
    && w.slot < 2
    && ReturnsWell(w)
    && q.hand == (if Holds(w) then Some(w.node) else None)
    && (NoneInFlight(w) ==> q.cur == None)
    && (OneInFlight(w) ==> q.cur.Some?)
    && (w.at.Download? ==> q.cur == Some(w.node))
    && (w.at.Peeked? ==> Count(q.pending, w.node) > 0)
  }

  predicate Placed(s: State) {
    Sized(s) && Refers(s.q, s.w)
  }

  /** The thread handles a timeout of the command in flight. */
  predicate Timed(s: State) {
    s.w.at.HandleTimeout? && s.timedOut && s.q.cur.Some?
  }

  /** The thread sends a wake confirmation, which has a number of its own. */
  predicate ConfirmsWake(s: State) {
    s.w.at.ConfirmWake?
  }

  /** The thread accepts the response that it works on. */
  predicate AcceptsNow(s: State)
    requires Sized(s)
  {
    s.w.at.Processing? && s.w.slot < 2 && Accepts(s.q, s.slots.buf[s.w.slot])
  }

  /** Where in the worker thread a move comes from. */
  predicate Because(s: State, m: Move)
    requires Sized(s)
  {
    && (m.Detach? ==> s.w.at.Peeked? && m.node == s.w.node)
    && (m.Submit? ==> s.w.at.Unlinked?)
    && (m.Retry? ==> Timed(s) && s.nrRetries < 3)
    && (m.Finish? ==> (Timed(s) && s.nrRetries >= 3 && m.code == -ETIMEDOUT)
                      || s.w.at.Dropping? || s.w.at.InCallback? || s.w.at.FinishPs? || AcceptsNow(s))
    && (m.Bump? <==> ConfirmsWake(s)) && (m.Bump? ==> m.num == s.w.num)
    && (Timed(s) ==> m.Retry? || m.Finish?)
  }

  /** A section of the worker thread takes s to t by the legal move m. */
  predicate Moves(s: State, t: State, m: Move)
    requires Sized(s)
  {
    Placed(t) && t.q == Apply(s.q, m) && Legal(s.q, m) && !m.Advance?
  }

  lemma CallPsMoves(s: State, action: nat, back: Pc) returns (m: Move)
    requires Sized(s) && s.q.hand == None && s.w.slot < 2
    requires back.Events? || (back.Transmit? && s.q.cur == None) || (back.FinishPs? && s.q.cur.Some?)
    ensures Moves(s, CallPs(s, action, back), m) && m.Take?
  {
    hide Count;
    m := Take(PsRequest(action));
  }

  lemma FinishMoves(s: State, code: nat) returns (m: Move)
    requires Sized(s) && s.q.hand == None && s.w.slot < 2 && s.q.cur.Some?
    ensures Moves(s, FinishResponse(s, code), m) && m.Finish?
  {
    hide Count, Complete;
    CompleteShape(s.q, s.q.cur.value, code);
    m := Finish(s.q.cur.value, code);
  }

  lemma ProcessMoves(s: State) returns (m: Move)
    requires Placed(s) && s.w.at.Processing?
    ensures Moves(s, ProcessResponse(s), m) && Because(s, m)
  {
    hide Buffered, CallPs, FinishResponse, Apply, Legal;
    var r := s.slots.buf[s.w.slot];
    var t := ApplyResponse(s, r).(w := s.w.(code := r.result));
    m := Keep;
    assert Apply(s.q, Keep) == s.q && Legal(s.q, Keep) by { KeepIsLegal(s.q); }
    if Accepts(s.q, r) {
      var pst := r.command == CmdRet(CMD_802_11_PS_MODE);
      if pst && IsPsReply(r, CMD_SUBCMD_ENTER_PS) && !s.env.connected {
        m := CallPsMoves(t, CMD_SUBCMD_EXIT_PS, FinishPs);
      } else if pst || r.result != 0 || r.command / 0x8000 % 2 == 0 {
        m := FinishMoves(t, r.result);
      }
    }
  }

  lemma KeepIsLegal(q: Queues)
    requires Buffered(q)
    ensures Apply(q, Keep) == q && Legal(q, Keep)
  {
  }

  lemma TimeoutMoves(s: State) returns (m: Move)
    requires Placed(s) && s.w.at.HandleTimeout?
    ensures Moves(s, Goto(HandleTimeoutStep(s), ClearTimeout), m) && Because(s, m)
  {
    hide Complete, Count;
    m := Keep;
    if s.timedOut && s.q.cur.Some? {
      m := if s.nrRetries >= 3 then Finish(s.q.cur.value, -ETIMEDOUT) else Retry(s.q.cur.value);
      CompleteShape(s.q, s.q.cur.value, -ETIMEDOUT);
    }
  }

  lemma ResponseMoves(s: State) returns (m: Move)
    requires Placed(s) && InResponseSection(s.w.at)
    ensures Moves(s, ResponseSection(s), m) && Because(s, m)
  {
    hide ProcessResponse, FinishResponse, HandleTimeoutStep, Complete, Count;
    m := Keep;
    match s.w.at
    case Processing => m := ProcessMoves(s);
    case InCallback => m := FinishMoves(s, s.w.code);
    case FinishPs => m := FinishMoves(s, s.w.code);
    case HandleTimeout => m := TimeoutMoves(s);
    case Top =>
    case ClearSlot =>
    case ClearTimeout =>
    case _ => assert false;
  }

  lemma CompleteShape(q: Queues, n: Node, code: int)
    requires Buffered(q)
    ensures Complete(q, n, code).cur == None && Complete(q, n, code).hand == None
  {
  }

  lemma EventMoves(s: State) returns (m: Move)
    requires Placed(s) && s.w.at.Handling?
    ensures Moves(s, HandleEvent(s), m) && Because(s, m)
  {
    hide Buffered, TwoSlots, CallPs, Count, Disconnect;
    m := Keep;
    if s.w.event == EVENT_HOST_AWAKE {
    } else if s.w.event == EVENT_PS_AWAKE {
      var t := s.(psstate := Awake);
      if s.psstate != FullPower && s.needtowakeup { m := CallPsMoves(t, CMD_SUBCMD_EXIT_PS, Events); }
    } else if s.w.event == EVENT_PS_SLEEP {
    } else if HandleEvent(s) == Disconnect(s) {
      m := DisconnectMoves(s);
    }
  }

  lemma DisconnectMoves(s: State) returns (m: Move)
    requires Placed(s) && s.w.at.Handling?
    ensures Moves(s, Disconnect(s), m) && (m.Keep? || m.Take?)
  {
    hide Buffered, TwoSlots, CallPs, Count;
    m := Keep;
    if s.env.connected && s.psstate != FullPower {
      m := CallPsMoves(s.(env := s.env.(connected := false, txPending := 0)), CMD_SUBCMD_EXIT_PS, Events);
    }
  }

  lemma ConfirmWakeMoves(s: State, hwOk: bool) returns (m: Move)
    requires Placed(s) && s.w.at.ConfirmWake?
    ensures Moves(s, PowerSection(s, hwOk), m) && m == Bump(s.w.num)
  {
    hide Buffered, TwoSlots, HandleEvent, NothingToRead, Count;
    m := Bump(s.w.num);
  }

  lemma ConfirmMoves(s: State, hwOk: bool) returns (m: Move)
    requires Placed(s) && (s.w.at.ConfirmSleep? || s.w.at.SendConfirm? || s.w.at.CommitSleep?)
    ensures Moves(s, PowerSection(s, hwOk), m) && m.Keep?
  {
    hide Buffered, TwoSlots, HandleEvent, NothingToRead, Count;
    m := Keep;
  }

  lemma LoopMoves(s: State, hwOk: bool) returns (m: Move)
    requires Placed(s) && (s.w.at.Events? || s.w.at.CheckFwReady? || s.w.at.CheckPreSleep? || s.w.at.Gate?)
    ensures Moves(s, PowerSection(s, hwOk), m) && m.Keep?
  {
    hide Buffered, TwoSlots, HandleEvent, NothingToRead, Count;
    m := Keep;
  }

  lemma PowerMoves(s: State, hwOk: bool) returns (m: Move)
    requires Placed(s) && !InResponseSection(s.w.at) && !InCommandSection(s.w.at)
    ensures Moves(s, PowerSection(s, hwOk), m) && Because(s, m)
  {
    hide Buffered, TwoSlots, HandleEvent, Moves;
    match s.w.at
    case Handling => m := EventMoves(s);
    case ConfirmWake => m := ConfirmWakeMoves(s, hwOk);
    case ConfirmSleep => m := ConfirmMoves(s, hwOk);
    case SendConfirm => m := ConfirmMoves(s, hwOk);
    case CommitSleep => m := ConfirmMoves(s, hwOk);
    case _ => m := LoopMoves(s, hwOk);
  }

  lemma UnlinkMoves(s: State, pc: Pc) returns (m: Move)
    requires Placed(s) && s.w.at.Peeked? && (pc.Unlinked? || pc.Dropping?)
    ensures Moves(s, UnlinkTo(s, pc), m) && m == Detach(s.w.node)
  {
    hide Count, Remove;
    m := Detach(s.w.node);
  }

  lemma DecideMoves(s: State) returns (m: Move)
    requires Placed(s) && s.w.at.Peeked?
    ensures Moves(s, Decide(s), m) && Because(s, m)
  {
    hide TwoSlots, CallPs, Count, Unlink, Apply, Legal;
    m := Keep;
    assert Apply(s.q, Keep) == s.q && Legal(s.q, Keep) by { KeepIsLegal(s.q); }
    var c := s.q.buf[s.w.node];
    if c.command != CMD_802_11_RSSI && s.psstate != FullPower && c.command != CMD_802_11_PS_MODE {
      if !Asleep(s.psstate) { m := CallPsMoves(s, CMD_SUBCMD_EXIT_PS, Transmit); }
    } else if Decide(s).w.at == Unlinked {
      m := UnlinkMoves(s, Unlinked);
    } else if Decide(s).w.at == Dropping {
      m := UnlinkMoves(s, Dropping);
    }
  }

  lemma IdleMoves(s: State) returns (m: Move)
    requires Placed(s) && s.w.at.GoIdle?
    ensures Moves(s, IdleStep(s), m) && (m.Keep? || m.Take?)
  {
    hide Buffered, TwoSlots, CallPs, Count;
    m := Keep;
    var n := CallPsMoves(s, CMD_SUBCMD_ENTER_PS, Transmit);
    if IdleStep(s) == CallPs(s, CMD_SUBCMD_ENTER_PS, Transmit) { m := n; }
  }

  lemma StoreMoves(s: State) returns (m: Move)
    requires Placed(s) && s.w.at.Unlinked?
    ensures Moves(s, Goto(s.(q := Store(s.q, s.w.node)), Download), m) && m == Submit(s.w.node)
  {
    hide Count;
    m := Submit(s.w.node);
  }

  lemma DropMoves(s: State) returns (m: Move)
    requires Placed(s) && s.w.at.Dropping?
    ensures Moves(s, Goto(s.(q := Complete(s.q, s.w.node, 0)), Transmit), m) && m == Finish(s.w.node, 0)
  {
    hide Count, Complete;
    CompleteShape(s.q, s.w.node, 0);
    m := Finish(s.w.node, 0);
  }

  lemma CommandMoves(s: State, hwOk: bool) returns (m: Move)
    requires Placed(s) && InCommandSection(s.w.at)
    ensures Moves(s, CommandSection(s, hwOk), m) && Because(s, m)
  {
    hide Buffered, TwoSlots, Decide, IdleStep, Complete, Store, Moves;
    match s.w.at
    case Peeked => m := DecideMoves(s);
    case Unlinked => m := StoreMoves(s);
    case Dropping => m := DropMoves(s);
    case GoIdle => m := IdleMoves(s);
    case Peek => m := PlainMoves(s, hwOk);
    case Execute => m := PlainMoves(s, hwOk);
    case Download => m := PlainMoves(s, hwOk);
    case Transmit => m := PlainMoves(s, hwOk);
    case Calling => m := PlainMoves(s, hwOk);
    case _ => assert false;
  }

  lemma PlainMoves(s: State, hwOk: bool) returns (m: Move)
    requires Placed(s)
    requires s.w.at.Peek? || s.w.at.Execute? || s.w.at.Download? || s.w.at.Transmit? || s.w.at.Calling?
    ensures Moves(s, CommandSection(s, hwOk), m) && m.Keep?
  {
    hide Buffered, TwoSlots, Decide, IdleStep, Complete, Store;
    m := Keep;
  }

  /** A caller or a waiter never takes a command off the pending queue. */
  lemma OthersKeepRefers(q: Queues, n: Node, p: PsState, w: Worker)
    requires Buffered(q) && Refers(q, w)
    ensures Refers(CallerStep(q, n, p), w) && Refers(WaiterStep(q, n), w)
  {
    if w.at.Peeked? {
      CountAppend(q.pending, n, w.node);
      CountPrepend(q.pending, n, w.node);
    }
  }

  /** Every section is one legal move: only a caller advances a preparation, only the worker
      thread unlinks, stores, requeues or completes a command. */
  lemma StepMoves(s: State, l: Label) returns (m: Move)
    requires Placed(s)
    ensures Placed(Step(s, l)) && Step(s, l).q == Apply(s.q, m) && Legal(s.q, m)
    ensures l.Thread? && !s.slots.bug ==> Because(s, m)
    ensures m.Detach? || m.Submit? || m.Retry? || m.Finish? ==> l.Thread?
    ensures s.slots.bug ==> m.Keep?
    ensures m.Advance? ==> l.Caller? && m.node == l.node && m.p == s.psstate
    ensures l.Caller? && !s.slots.bug ==> m.Advance?
    ensures m.Bump? ==> l.Thread? && m.num == s.w.num
  {
    hide ResponseSection, PowerSection, CommandSection, CallerStep, WaiterStep, Count, Complete;
    m := Keep;
    if !s.slots.bug {
      match l
      case Thread(hwOk) =>
        if InResponseSection(s.w.at) { m := ResponseMoves(s); }
        else if InCommandSection(s.w.at) { m := CommandMoves(s, hwOk); }
        else { m := PowerMoves(s, hwOk); }
      case Alloc(req) => m := Take(req);
      case Caller(n) => m := Advance(n, s.psstate); OthersKeepRefers(s.q, n, s.psstate, s.w);
      case Waiter(n) => m := Return(n); OthersKeepRefers(s.q, n, s.psstate, s.w);
      case _ =>
    }
  }
}
