/** The engine in the form of the driver: struct lbs_private as an object that each section
    updates in place, with the two queues as rings of list heads and the buffers as arrays.
    Every method is one section, and does to the object what the step of LbsState does to
    the state; so what is proved of all runs holds for every order in which these methods
    are called. */
module LbsPrivate {
  import opened Options
  import opened LbsState
  import opened QueueMoves
  import opened NodeConservation
  import opened PowerSave
  import opened CmdLists

  lemma {:induction false} RunOneMore(s: State, ls: seq<Label>, l: Label)
    requires Sized(s)
    ensures Run(s, ls + [l]) == Step(Run(s, ls), l)
    decreases |ls|
  {
    hide Step;
    if ls == [] {
      assert Run(s, [l]) == Run(Step(s, l), [l][1..]);
    } else {
      assert (ls + [l])[1..] == ls[1..] + [l];
      RunOneMore(Step(s, ls[0]), ls[1..], l);
    }
  }

  lemma {:induction false} CountIn(ns: seq<Node>, n: Node)
    ensures Count(ns, n) > 0 <==> n in ns
  {
    if ns == [] {
    } else {
      CountIn(ns[1..], n);
    }
  }

  /** Node n is in neither list. */
  predicate Unlisted(q: Queues, n: Node) {
    n !in q.free && n !in q.pending
  }

  lemma UnlistedWhen(q: Queues, n: Node)
    requires Partitioned(q) && (n in q.prep || n in q.owned || q.cur == Some(n) || q.hand == Some(n))
    ensures Unlisted(q, n)
  {
    assert Places(q, n) == 1;
    CountIn(q.free, n);
    CountIn(q.pending, n);
  }

  lemma StartConserved(e: Env, ls: seq<Label>)
    ensures Conserved(Run(Init(e), ls))
  {
    InitConserved(e);
    RunConserves(Init(e), ls);
  }

  lemma NotOwned(q: Queues, n: Node)
    requires Buffered(q)
    ensures n !in q.owned ==> WaiterStep(q, n) == q
  {
  }

  lemma StepIs(s: State, l: Label)
    requires Sized(s)
    ensures s.slots.bug ==> Step(s, l) == s
    ensures l.Thread? && !s.slots.bug ==> Step(s, l) == ThreadStep(s, l.hwOk)
    ensures l.Alloc? && !s.slots.bug ==> Step(s, l) == s.(q := TakeNode(s.q, l.req))
    ensures l.Caller? && !s.slots.bug ==> Step(s, l) == s.(q := CallerStep(s.q, l.node, s.psstate))
    ensures l.Waiter? && !s.slots.bug ==> Step(s, l) == s.(q := WaiterStep(s.q, l.node))
    ensures l.Respond? && !s.slots.bug ==> Step(s, l) == HandleCmd(s, l.resp)
    ensures l.Configure? && !s.slots.bug ==> Step(s, l) == s.(env := l.env)
  {
    hide ThreadStep, HandleCmd, QueueEvent, CallerStep, WaiterStep, TakeNode;
  }

  lemma WhereNodeIs(s: State)
    requires Conserved(s)
    ensures s.w.at.Peeked? ==> s.w.node in s.q.pending
    ensures s.w.at.Dropping? ==> Unlisted(s.q, s.w.node)
  {
    if s.w.at.Dropping? { UnlistedWhen(s.q, s.w.node); }
    CountIn(s.q.pending, s.w.node);
  }

  ghost function Routed(t: State, r: Response): State
    requires Sized(t)
  {
    if IsPsReply(r, CMD_SUBCMD_ENTER_PS) && !t.env.connected then CallPs(t, CMD_SUBCMD_EXIT_PS, FinishPs)
    else if r.command == CmdRet(CMD_802_11_PS_MODE) || r.result != 0 || r.command / 0x8000 % 2 == 0
      then FinishResponse(t, r.result)
    else Goto(t, InCallback)
  }

  lemma ProcessIs(s: State, r: Response)
    requires Sized(s) && s.w.slot < 2 && r == s.slots.buf[s.w.slot]
    ensures !Accepts(s.q, r) ==> ProcessResponse(s) == Goto(s, ClearSlot)
    ensures ApplyResponse(s, r).q == s.q
    ensures Accepts(s.q, r) ==> ProcessResponse(s) == Routed(ApplyResponse(s, r).(w := s.w.(code := r.result)), r)
  {
    hide Accepts, CallPs, FinishResponse;
  }

  ghost function WakeConfirmed(s: State, hwOk: bool): State {
    Goto(s.(q := StoreSeqnum(s.q, s.w.num), dnld := if hwOk then CmdSent else s.dnld), Events)
  }

  ghost function Transmitted(s: State, hwOk: bool): State {
    if s.dnld == ResReceived && s.env.txPending > 0
    then Goto(s.(dnld := if hwOk then DataSent else ResReceived, env := s.env.(txPending := 0)), Top)
    else Goto(s, Top)
  }

  class Private {
    const queues: CommandQueues
    const cmdArray: array<CmdNode>
    var curCmd: Option<Node>
    var hand: Option<Node>
    var prep: map<Node, Prep>
    var owned: set<Node>
    var lost: set<Node>
    var seqnum: nat
    var psstate: PsState
    var needtowakeup: bool
    var dnldSent: DnldState
    var nrRetries: nat
    var cmdTimedOut: bool
    var eventFifo: seq<nat>
    var respIdx: nat
    const respLen: array<nat>
    const respBuf: array<Response>
    var bug: bool
    var env: Env
    var worker: Worker
    var log: Log  // history
    ghost var arrived: seq<Response>  // history
    ghost var taken: seq<Response>    // history

    /** The objects that the driver allocates once. */
    ghost function Repr(): set<object> {
      {queues.cmdfreeq, queues.cmdpendingq, cmdArray, respLen, respBuf} + set x | x in queues.list
    }

    /** The rings link the command nodes, and the fields hold them, as q says. */
    ghost predicate Lists(q: Queues)
      reads `curCmd, `hand, `prep, `owned, `lost, `seqnum, `log, cmdArray, queues.cmdfreeq, queues.cmdpendingq,
            queues.list
    {
      && queues.Linked(q.free, q.pending) && cmdArray[..] == q.buf && curCmd == q.cur && hand == q.hand
      && prep == q.prep && owned == q.owned && lost == q.lost && seqnum == q.seqnum && log == q.log
    }

    ghost predicate Responses(r: Slots)
      reads `respIdx, `bug, `arrived, `taken, respLen, respBuf
    {
      && respIdx == r.idx && respLen[..] == r.len && respBuf[..] == r.buf && bug == r.bug
      && arrived == r.arrived && taken == r.taken
    }

    /** The object represents the state s of the model. */
    ghost predicate Shows(s: State)
      reads this, Repr()
    {
      && Sized(s) && Lists(s.q) && Responses(s.slots) && worker == s.w && env == s.env && psstate == s.psstate
      && needtowakeup == s.needtowakeup && dnldSent == s.dnld && nrRetries == s.nrRetries && cmdTimedOut == s.timedOut
      && eventFifo == s.fifo
    }

    lemma QueueFields(q: Queues)
      requires Lists(q)
      ensures curCmd == q.cur && hand == q.hand && prep == q.prep && owned == q.owned && lost == q.lost
      ensures cmdArray[..] == q.buf && seqnum == q.seqnum
    {
    }

    lemma RingsLinked(q: Queues)
      requires Lists(q)
      ensures queues.Linked(q.free, q.pending)
    {
      hide CommandQueues.Linked;
    }

    lemma SlotFields(r: Slots)
      requires Responses(r)
      ensures respIdx == r.idx && respLen[..] == r.len && respBuf[..] == r.buf && bug == r.bug
    {
    }

    /** The worker thread goes on with another section. */
    method Jump(ghost s: State, at: Pc)
      requires Shows(s)
      modifies this`worker
      ensures Shows(Goto(s, at))
    {
      hide Lists, Responses;
      worker := worker.(at := at);
    }

    lemma StartLists(e: Env, node: CmdNode)
      requires queues.Linked([0, 1, 2, 3, 4, 5, 6, 7, 8, 9], []) && cmdArray.Length == NUM_CMD_BUFFERS
      requires node == CmdNode(0, 0, 0, 0, NoCallback, 0, Past(0, 0, 0, 0, 0, 0))
               && forall i :: 0 <= i < cmdArray.Length ==> cmdArray[i] == node
      requires curCmd == None && hand == None && prep == map[] && owned == {} && lost == {}
      requires seqnum == 0 && log == Log(0, [], [], 0, [], [])
      ensures Lists(Init(e).q)
    {
      hide CommandQueues.Linked;
      assert cmdArray[..] == Init(e).q.buf;
    }

    lemma StartResponses(e: Env, none: Response)
      requires none == Response(0, 0, 0, 0, 0) && respLen.Length == respBuf.Length == 2
      requires respLen[0] == respLen[1] == 0 && respBuf[0] == respBuf[1] == none
      requires respIdx == 0 && !bug && arrived == [] && taken == []
      ensures Responses(Init(e).slots)
    {
      assert respLen[..] == [0, 0] && respBuf[..] == [none, none];
    }

    /** lbs_init_adapter. */
    constructor (e: Env)
      ensures Shows(Init(e)) && fresh(Repr())
    {
      hide CommandQueues.Linked, Lists, Responses;
      curCmd, hand, prep, owned, lost := None, None, map[], {}, {};
      var node := CmdNode(0, 0, 0, 0, NoCallback, 0, Past(0, 0, 0, 0, 0, 0));
      cmdArray := new CmdNode[NUM_CMD_BUFFERS](_ => node);
      seqnum, psstate, needtowakeup, dnldSent := 0, FullPower, false, ResReceived;
      nrRetries, cmdTimedOut, eventFifo, respIdx := 0, false, [], 0;
      respLen := new nat[2](_ => 0);
      var none := Response(0, 0, 0, 0, 0);
      respBuf := new Response[2](_ => none);
      bug, env, worker := false, e, Worker(Top, Top, 0, 0, 0, 0, 0);
      log, arrived, taken := Log(0, [], [], 0, [], []), [], [];
      queues := new CommandQueues();
      new;
      StartLists(e, node);
      StartResponses(e, none);
    }

    /** lbs_get_cmd_ctrl_node. */
    method GetCmdCtrlNode(ghost q: Queues, req: Request) returns (n: Option<Node>)
      requires Buffered(q) && Lists(q)
      modifies this`prep, queues.cmdfreeq, queues.list
      ensures Lists(TakeNode(q, req))
      ensures n == (if q.free == [] then None else Some(q.free[0]))
    {
      hide CommandQueues.Linked;
      n := queues.TakeFree(q.free, q.pending);
      if n.Some? { prep := prep[n.value := Prep(req, Taken)]; }
    }

    /** The store that ends an increment of priv->seqnum, with what was loaded. */
    method SetSeqnum(ghost q: Queues, num: nat)
      requires Buffered(q) && Lists(q)
      modifies this`seqnum, this`log
      ensures Lists(StoreSeqnum(q, num))
    {
      hide CommandQueues.Linked;
      seqnum := (num + 1) % SEQ_MODULUS;
      log := log.(issued := log.issued + 1);
    }

    /** Read the number and fill a buffer: lbs_prepare_and_send_command, __lbs_cmd_async. */
    method FillCommand(ghost q: Queues, n: Node)
      requires Buffered(q) && Lists(q) && n in prep && Unlisted(q, n)
      modifies this`prep, this`lost, this`log, cmdArray, queues.cmdfreeq, queues.list
      ensures Lists(Fill(q, n))
    {
      hide CommandQueues.Linked;
      var req := prep[n].req;
      var c := Numbering(cmdArray[n], req, seqnum, log.issued);
      log := log.(indices := log.indices + [log.issued], given := log.given + [seqnum]);
      cmdArray[n] := c;
      if IsAfc(req) {
        prep, lost := prep - {n}, lost + {n};
      } else if req.origin == Prepare(false) {
        prep := prep - {n};
        cmdArray[n] := Wiped(c);
        queues.PutFree(n, q.free, q.pending);
      } else {
        prep := prep[n := Prep(req, Filled)];
      }
    }

    /** lbs_queue_cmd up to its lock. */
    method AimCommand(ghost q: Queues, n: Node)
      requires Buffered(q) && Lists(q) && n in prep
      modifies this`prep, this`lost, cmdArray
      ensures Lists(Aim(q, n, psstate))
    {
      hide CommandQueues.Linked;
      var c := cmdArray[n];
      if c.size == 0 {
        prep, lost := prep - {n}, lost + {n};
        return;
      }
      var addtail := true;
      if c.command == CMD_802_11_PS_MODE {
        if c.action == CMD_SUBCMD_EXIT_PS {
          if psstate != FullPower { addtail := false; }
        }
      }
      cmdArray[n] := c.(result := 0);
      prep := prep[n := Prep(prep[n].req, Aimed(!addtail))];
    }

    /** The locked part of lbs_queue_cmd. */
    method InsertCommand(ghost q: Queues, n: Node, atHead: bool)
      requires Buffered(q) && Lists(q) && n in prep && Unlisted(q, n)
      modifies this`prep, this`log, cmdArray, queues.cmdpendingq, queues.list
      ensures Lists(Insert(q, n, atHead))
    {
      hide CommandQueues.Linked;
      var c := cmdArray[n];
      prep := prep - {n};
      queues.Queue(n, atHead, q.free, q.pending);
      cmdArray[n] := c.(past := c.past.(ticket := log.tickets, queued := c.past.queued + 1));
      log := log.(tickets := log.tickets + 1,
                  enqueued := if IsExitPs(c) then log.enqueued else log.enqueued + [log.tickets]);
    }

    /** lbs_complete_command. */
    method CompleteCommand(ghost q: Queues, n: Node, code: int)
      requires Buffered(q) && Lists(q) && Unlisted(q, n)
      modifies this`curCmd, this`hand, this`owned, this`log, cmdArray, queues.cmdfreeq, queues.list
      ensures Lists(Complete(q, n, code))
    {
      hide CommandQueues.Linked;
      var c := cmdArray[n];
      if !IsExitPs(c) { log := log.(done := log.done + [c.past.ticket]); }
      cmdArray[n] := Completed(c, code);
      if c.callback == WaiterCallback {
        owned := owned + {n};
      } else {
        cmdArray[n] := Freed(cmdArray[n]);
        queues.PutFree(n, q.free, q.pending);
      }
      curCmd, hand := None, None;
    }

    /** The end of __lbs_cmd, once cmdwaitqwoken is set. */
    method WaiterReturns(ghost q: Queues, n: Node)
      requires Buffered(q) && Lists(q) && n in owned && Unlisted(q, n)
      modifies this`owned, cmdArray, queues.cmdfreeq, queues.list
      ensures Lists(WaiterStep(q, n))
    {
      hide CommandQueues.Linked;
      owned := owned - {n};
      cmdArray[n] := Freed(cmdArray[n]);
      queues.PutFree(n, q.free, q.pending);
    }

    /** command_timer_fn. */
    method CommandTimerFn(ghost s: State)
      requires Shows(s) && !bug
      modifies this`cmdTimedOut
      ensures Shows(Step(s, Timer))
    {
      hide Lists, Responses;
      QueueFields(s.q);
      SlotFields(s.slots);
      if curCmd.Some? { cmdTimedOut := true; }
    }

    /** lbs_queue_event. */
    method LbsQueueEvent(ghost s: State, code: nat)
      requires Shows(s) && !bug
      modifies this`psstate, this`eventFifo
      ensures Shows(Step(s, RaiseEvent(code)))
    {
      hide Lists, Responses;
      SlotFields(s.slots);
      if psstate == Sleep { psstate := Awake; }
      if |eventFifo| < EVENT_FIFO_SIZE { eventFifo := eventFifo + [code]; }
    }

    /** The part of if_sdio_handle_cmd that fills the other slot. */
    method StoreResponse(ghost r: Slots, resp: Response)
      requires TwoSlots(r) && Responses(r)
      modifies this`bug, this`respIdx, this`arrived, respLen, respBuf
      ensures Responses(Arrive(r, resp))
    {
      var i := if respIdx == 0 then 1 else 0;
      if respLen[i] != 0 {
        bug := true;
      } else {
        respLen[i], respBuf[i] := resp.size, resp;
        arrived := arrived + [resp];
        respIdx := i;
      }
    }

    /** if_sdio_handle_cmd and lbs_notify_command_response. */
    method IfSdioHandleCmd(ghost s: State, resp: Response)
      requires Shows(s)
      modifies this`bug, this`respIdx, this`arrived, this`psstate, respLen, respBuf
      ensures Shows(HandleCmd(s, resp))
    {
      hide Lists, Responses, Arrive;
      SlotFields(s.slots);
      if resp.size <= CMD_BUFFER_SIZE {
        var full := respLen[1 - respIdx] != 0;
        StoreResponse(s.slots, resp);
        if !full && psstate == Sleep { psstate := Awake; }
      }
    }

    /** Other parts of the driver change their settings at any time. */
    method SetEnv(ghost s: State, e: Env)
      requires Shows(s)
      modifies this`env
      ensures Shows(s.(env := e))
    {
      hide Lists, Responses;
      env := e;
    }

    /** lbs_host_to_card_done. */
    method LbsHostToCardDone(ghost s: State)
      requires Shows(s) && !bug
      modifies this`dnldSent
      ensures Shows(Step(s, HostToCardDone))
    {
      hide Lists, Responses;
      SlotFields(s.slots);
      dnldSent := ResReceived;
    }

    /** lbs_ps_wakeup or lbs_ps_sleep on the worker thread: take a node and become its caller. */
    method CallPsMode(ghost s: State, action: nat, back: Pc)
      requires Shows(s)
      modifies this`prep, this`worker, queues.cmdfreeq, queues.list
      ensures Shows(CallPs(s, action, back))
    {
      hide Lists, Responses;
      var n := GetCmdCtrlNode(s.q, PsRequest(action));
      match n
      case None => worker := worker.(at := back);
      case Some(m) => worker := worker.(at := Calling, back := back, node := m);
    }

    /** The locked section that ends lbs_process_command_response. */
    method FinishCommandResponse(ghost s: State, code: nat)
      requires Shows(s) && Partitioned(s.q)
      modifies this`worker, this`curCmd, this`hand, this`owned, this`log, cmdArray, queues.cmdfreeq, queues.list
      ensures Shows(FinishResponse(s, code))
    {
      hide Lists, Responses, Complete;
      QueueFields(s.q);
      if curCmd.Some? {
        UnlistedWhen(s.q, curCmd.value);
        CompleteCommand(s.q, curCmd.value, code);
      }
      worker := worker.(at := ClearSlot);
    }

    /** What an accepted response changes before the command is completed. */
    method ApplyCommandResponse(ghost s: State, resp: Response)
      requires Shows(s)
      modifies this`cmdTimedOut, this`nrRetries, this`env, this`needtowakeup, this`psstate
      ensures Shows(ApplyResponse(s, resp))
    {
      hide Lists, Responses, Buffered, TwoSlots, CmdRet;
      cmdTimedOut, nrRetries := false, 0;
      if resp.command == CmdRet(CMD_802_11_PS_MODE) {
        if resp.result != 0 {
          if env.adhoc && resp.action == CMD_SUBCMD_ENTER_PS { env := env.(cam := true); }
        } else if resp.action == CMD_SUBCMD_ENTER_PS {
          needtowakeup, psstate := false, Awake;
        } else if resp.action == CMD_SUBCMD_EXIT_PS {
          needtowakeup, psstate := false, FullPower;
        }
      }
    }

    /** The tests at the head of lbs_process_command_response. */
    method AcceptsResponse(ghost q: Queues, resp: Response) returns (ok: bool)
      requires Buffered(q) && Lists(q)
      ensures ok == Accepts(q, resp)
      ensures ok <==> q.cur.Some? && resp.seqnum == q.buf[q.cur.value].seqnum && resp.result != 4
                      && (resp.command == 0x8012 || q.buf[q.cur.value].command == 0x50
                          || resp.command == CmdRet(q.buf[q.cur.value].command))
    {
      if curCmd == None { return false; }
      var c := cmdArray[curCmd.value];
      if resp.seqnum != c.seqnum { return false; }
      if resp.command != CmdRet(c.command) && resp.command != CMD_RET_802_11_ASSOCIATE
         && c.command != CMD_802_11_ASSOCIATE {
        return false;
      }
      return resp.result != RESULT_DEFER;
    }

    /** An accepted response completes the command, lets the thread queue EXIT_PS first, or
        goes to the callback. */
    method RouteResponse(ghost t: State, resp: Response)
      requires Shows(t) && Partitioned(t.q)
      modifies this, Repr()
      ensures Shows(Routed(t, resp))
    {
      ShowsWorker(t);
      hide Shows, Partitioned, FinishResponse, CallPs;
      if resp.command == CmdRet(CMD_802_11_PS_MODE) && resp.result == 0 && resp.action == CMD_SUBCMD_ENTER_PS
         && !env.connected {
        CallPsMode(t, CMD_SUBCMD_EXIT_PS, FinishPs);
      } else if resp.command == CmdRet(CMD_802_11_PS_MODE) || resp.result != 0 || resp.command / 0x8000 % 2 == 0 {
        FinishCommandResponse(t, resp.result);
      } else {
        Jump(t, InCallback);
      }
    }

    /** lbs_process_command_response up to the callback. */
    method ProcessCommandResponse(ghost s: State)
      requires Shows(s) && Partitioned(s.q) && worker.slot < 2
      modifies this, Repr()
      ensures Shows(ProcessResponse(s))
    {
      hide Lists, Responses, Partitioned, Routed, ProcessResponse, ApplyResponse, Accepts;
      SlotFields(s.slots);
      var resp := respBuf[worker.slot];
      ProcessIs(s, resp);
      var ok := AcceptsResponse(s.q, resp);
      if !ok {
        Jump(s, ClearSlot);
        return;
      }
      ApplyCommandResponse(s, resp);
      worker := worker.(code := resp.result);
      RouteResponse(ApplyResponse(s, resp).(w := s.w.(code := resp.result)), resp);
    }

    /** A timed-out command goes back to the head of the queue. */
    method RequeueCommand(ghost q: Queues, n: Node)
      requires Buffered(q) && Lists(q) && Unlisted(q, n)
      modifies this`curCmd, queues.cmdpendingq, queues.list
      ensures Lists(Requeue(q, n))
    {
      hide CommandQueues.Linked;
      queues.Queue(n, true, q.free, q.pending);
      curCmd := None;
    }

    /** The fourth timeout in a row completes the command. */
    method GiveUpCommand(ghost s: State)
      requires Shows(s) && cmdTimedOut && curCmd.Some? && nrRetries >= 3 && Unlisted(s.q, curCmd.value)
      modifies this`nrRetries, this`curCmd, this`hand, this`owned, this`log, cmdArray, queues.cmdfreeq, queues.list
      ensures Shows(HandleTimeoutStep(s))
    {
      hide Lists, Responses, Complete, Requeue;
      QueueFields(s.q);
      CompleteCommand(s.q, curCmd.value, -ETIMEDOUT);
      nrRetries := 0;
    }

    method RetryCommand(ghost s: State)
      requires Shows(s) && cmdTimedOut && curCmd.Some? && nrRetries < 3 && Unlisted(s.q, curCmd.value)
      modifies this`curCmd, this`nrRetries, this`dnldSent, queues.cmdpendingq, queues.list
      ensures Shows(HandleTimeoutStep(s))
    {
      hide Lists, Responses, Complete, Requeue;
      QueueFields(s.q);
      nrRetries := nrRetries + 1;
      RequeueCommand(s.q, curCmd.value);
      dnldSent := ResReceived;
    }

    lemma NoTimeout(s: State)
      requires Shows(s) && (!cmdTimedOut || curCmd == None)
      ensures HandleTimeoutStep(s) == s
    {
      hide Lists, Responses, Complete, Requeue;
      QueueFields(s.q);
    }

    /** The timeout branch of lbs_thread. */
    method HandleCommandTimeout(ghost s: State)
      requires Shows(s) && Partitioned(s.q)
      modifies this, Repr()
      ensures Shows(HandleTimeoutStep(s))
    {
      QueueFields(s.q);
      if curCmd.Some? { UnlistedWhen(s.q, curCmd.value); }
      hide Shows, HandleTimeoutStep;
      if !cmdTimedOut || curCmd == None {
        NoTimeout(s);
      } else if nrRetries + 1 > 3 {
        GiveUpCommand(s);
      } else {
        RetryCommand(s);
      }
    }

    /** lbs_mac_event_disconnected. */
    method MacEventDisconnected(ghost s: State)
      requires Shows(s)
      modifies this`env, this`prep, this`worker, queues.cmdfreeq, queues.list
      ensures Shows(Disconnect(s))
    {
      hide Lists, Responses, CallPs;
      if env.connected {
        env := env.(connected := false, txPending := 0);
        if psstate != FullPower {
          CallPsMode(s.(env := env), CMD_SUBCMD_EXIT_PS, Events);
          return;
        }
      }
      worker := worker.(at := Events);
    }

    /** lbs_process_event for MACREG_INT_CODE_PS_SLEEP. */
    method ProcessPsSleep(ghost s: State)
      requires Shows(s) && worker.event == EVENT_PS_SLEEP
      modifies this`worker, this`psstate
      ensures Shows(HandleEvent(s))
    {
      hide Lists, Responses, CallPs, Disconnect, StoreSeqnum;
      if psstate == FullPower {
        worker := worker.(at := Events);
      } else {
        psstate := PreSleep;
        worker := worker.(at := ConfirmSleep, back := Events);
      }
    }

    /** lbs_process_event for MACREG_INT_CODE_PS_AWAKE. */
    method ProcessPsAwake(ghost s: State)
      requires Shows(s) && worker.event == EVENT_PS_AWAKE
      modifies this`worker, this`psstate, this`prep, queues.cmdfreeq, queues.list
      ensures Shows(HandleEvent(s))
    {
      hide Lists, Responses, CallPs, Disconnect, StoreSeqnum;
      if psstate == FullPower {
        worker := worker.(at := Events);
      } else if needtowakeup {
        psstate := Awake;
        CallPsMode(s.(psstate := Awake), CMD_SUBCMD_EXIT_PS, Events);
      } else {
        psstate := Awake;
        worker := worker.(at := Events);
      }
    }

    /** lbs_process_event, up to the load of the sequence number for a wake confirmation. */
    method ProcessEvent(ghost s: State)
      requires Shows(s)
      modifies this, queues.cmdfreeq, queues.list
      ensures Shows(HandleEvent(s))
    {
      hide Lists, Responses, CallPs, Disconnect;
      QueueFields(s.q);
      var code := worker.event;
      if code == EVENT_PS_SLEEP {
        ProcessPsSleep(s);
      } else if code == EVENT_PS_AWAKE {
        ProcessPsAwake(s);
      } else if code == EVENT_HOST_AWAKE {
        worker := worker.(at := ConfirmWake, num := seqnum);
      } else if code == EVENT_DEAUTHENTICATED || code == EVENT_DISASSOCIATED || code == EVENT_LINK_LOST_NO_SCAN {
        MacEventDisconnected(s);
      } else {
        worker := worker.(at := Events);
      }
    }

    /** The rest of lbs_send_confirmwake. */
    method SendConfirmWake(ghost s: State, hwOk: bool)
      requires Shows(s)
      modifies this`seqnum, this`log, this`dnldSent, this`worker
      ensures Shows(WakeConfirmed(s, hwOk))
    {
      hide Lists, Responses, StoreSeqnum;
      SetSeqnum(s.q, worker.num);
      if hwOk { dnldSent := CmdSent; }
      worker := worker.(at := Events);
    }

    /** list_del in lbs_execute_next_command, and where it leads. */
    method UnlinkCommand(ghost s: State, next: Pc)
      requires Shows(s) && worker.node in s.q.pending
      modifies this`hand, this`worker, queues.cmdpendingq, queues.list
      ensures Shows(UnlinkTo(s, next))
    {
      hide Responses, Remove, CommandQueues.Linked;
      queues.Unqueue(worker.node, s.q.free, s.q.pending);
      hand := Some(worker.node);
      worker := worker.(at := next);
    }

    /** lbs_execute_next_command after its look at the head of the queue. */
    method ExecuteNextCommand(ghost s: State)
      requires Shows(s) && worker.node in s.q.pending
      modifies this, Repr()
      ensures Shows(Decide(s))
    {
      hide Lists, Responses, CallPs, Unlink;
      QueueFields(s.q);
      var c := cmdArray[worker.node];
      var asleep := psstate == Sleep || psstate == PreSleep;
      if c.command == CMD_802_11_RSSI {
        if asleep { worker := worker.(at := Transmit); return; }
      } else if psstate != FullPower {
        if c.command != CMD_802_11_PS_MODE {
          if asleep { needtowakeup := true; worker := worker.(at := Transmit); }
          else { CallPsMode(s, CMD_SUBCMD_EXIT_PS, Transmit); }
          return;
        }
        if c.action != CMD_SUBCMD_EXIT_PS { UnlinkCommand(s, Dropping); return; }
        if asleep { needtowakeup := true; UnlinkCommand(s.(needtowakeup := true), Dropping); return; }
      }
      UnlinkCommand(s, Unlinked);
    }

    /** The locked part of lbs_submit_command. */
    method SubmitCommand(ghost s: State)
      requires Shows(s)
      modifies this`curCmd, this`hand, this`worker
      ensures Shows(Goto(s.(q := Store(s.q, s.w.node)), Download))
    {
      hide Responses, CommandQueues.Linked;
      curCmd, hand := Some(worker.node), None;
      worker := worker.(at := Download);
    }

    /** The locked part of lbs_send_confirmsleep. */
    method CommitConfirmSleep(ghost s: State)
      requires Shows(s)
      modifies this`dnldSent, this`psstate, this`worker
      ensures Shows(Goto(s.(dnld := ResReceived, psstate := if NothingToRead(s) then Sleep else s.psstate), s.w.back))
    {
      hide Lists, Responses;
      SlotFields(s.slots);
      var idle := eventFifo == [] && respLen[respIdx] == 0;
      dnldSent := ResReceived;
      if idle { psstate := Sleep; }
      worker := worker.(at := worker.back);
    }

    /** The top of the loop of lbs_thread: is there a response in the slot of resp_idx? */
    method TakeResponse(ghost s: State)
      requires Shows(s) && worker.at.Top?
      modifies this`taken, this`worker
      ensures Shows(ResponseSection(s))
    {
      hide Lists;
      if respLen[respIdx] == 0 {
        worker := worker.(at := HandleTimeout);
      } else {
        taken := taken + [respBuf[respIdx]];
        worker := worker.(at := Processing, slot := respIdx);
      }
    }

    /** The slot is free again once its response is processed. */
    method ReleaseSlot(ghost s: State)
      requires Shows(s) && worker.at.ClearSlot? && worker.slot < 2
      modifies this`worker, respLen
      ensures Shows(ResponseSection(s))
    {
      hide Lists;
      respLen[worker.slot] := 0;
      worker := worker.(at := HandleTimeout);
    }

    method TimeoutSection(ghost s: State)
      requires Shows(s) && Partitioned(s.q) && worker.at.HandleTimeout?
      modifies this, Repr()
      ensures Shows(ResponseSection(s))
    {
      hide Lists, Responses;
      HandleCommandTimeout(s);
      hide HandleTimeoutStep;
      worker := worker.(at := ClearTimeout);
    }

    method ForgetTimeout(ghost s: State)
      requires Shows(s) && worker.at.ClearTimeout?
      modifies this`cmdTimedOut, this`worker
      ensures Shows(ResponseSection(s))
    {
      hide Lists, Responses;
      cmdTimedOut := false;
      worker := worker.(at := Events);
    }

    lemma ResponseSectionIs(s: State)
      requires Sized(s) && s.w.slot < 2
      ensures s.w.at.Processing? ==> ResponseSection(s) == ProcessResponse(s)
      ensures s.w.at.InCallback? || s.w.at.FinishPs? ==> ResponseSection(s) == FinishResponse(s, s.w.code)
    {
      hide ProcessResponse, FinishResponse;
    }

    /** lbs_thread from the top of its loop to the reset of cmd_timed_out. */
    method ResponseStep(ghost s: State)
      requires Shows(s) && Partitioned(s.q) && InResponseSection(worker.at) && worker.slot < 2
      modifies this, Repr()
      ensures Shows(ResponseSection(s))
    {
      ShowsWorker(s);
      ResponseSectionIs(s);
      hide Shows, ResponseSection, ProcessResponse, FinishResponse;
      match worker.at
      case Top => TakeResponse(s);
      case Processing => ProcessCommandResponse(s);
      case InCallback => FinishCommandResponse(s, worker.code);
      case FinishPs => FinishCommandResponse(s, worker.code);
      case ClearSlot => ReleaseSlot(s);
      case HandleTimeout => TimeoutSection(s);
      case ClearTimeout => ForgetTimeout(s);
      case _ => assert false;
    }

    /** The next event of the fifo, or the end of the event loop. */
    method NextEvent(ghost s: State, ghost hwOk: bool)
      requires Shows(s) && worker.at.Events?
      modifies this`eventFifo, this`worker
      ensures Shows(PowerSection(s, hwOk))
    {
      hide Lists, Responses, HandleEvent, NothingToRead;
      if eventFifo == [] {
        worker := worker.(at := CheckFwReady);
      } else {
        worker := worker.(at := Handling, event := eventFifo[0]);
        eventFifo := eventFifo[1..];
      }
    }

    /** The locked tests of lbs_ps_confirm_sleep. */
    method ConfirmSleepStep(ghost s: State, ghost hwOk: bool)
      requires Shows(s) && worker.at.ConfirmSleep?
      modifies this`worker
      ensures Shows(PowerSection(s, hwOk))
    {
      hide Lists, Responses, HandleEvent;
      QueueFields(s.q);
      SlotFields(s.slots);
      var allowed := dnldSent == ResReceived && curCmd == None;
      if eventFifo != [] || respLen[respIdx] != 0 { allowed := false; }
      worker := worker.(at := if allowed then SendConfirm else worker.back);
    }

    /** lbs_send_confirmsleep up to its lock. */
    method SendConfirmSleep(ghost s: State, hwOk: bool)
      requires Shows(s) && worker.at.SendConfirm?
      modifies this`dnldSent, this`worker
      ensures Shows(PowerSection(s, hwOk))
    {
      hide Lists, Responses, HandleEvent, NothingToRead;
      if hwOk {
        dnldSent := CmdSent;
        worker := worker.(at := CommitSleep);
      } else {
        worker := worker.(at := worker.back);
      }
    }

    lemma PreSleepIs(s: State, hwOk: bool)
      requires Sized(s) && s.w.at.CheckPreSleep?
      ensures PowerSection(s, hwOk) ==
              if s.psstate != PreSleep || s.dnld != ResReceived || s.q.cur != None then Goto(s, Gate)
              else if s.env.connected then s.(w := s.w.(at := ConfirmSleep, back := Gate))
              else Goto(s.(psstate := Awake), Gate)
    {
      hide HandleEvent, NothingToRead;
    }

    /** The test of lbs_thread for a sleep request that is not yet confirmed. */
    method PreSleepStep(ghost s: State, ghost hwOk: bool)
      requires Shows(s) && worker.at.CheckPreSleep?
      modifies this`worker, this`psstate
      ensures Shows(PowerSection(s, hwOk))
    {
      hide Lists, Responses, PowerSection;
      QueueFields(s.q);
      PreSleepIs(s, hwOk);
      if psstate != PreSleep || dnldSent != ResReceived || curCmd != None {
        Jump(s, Gate);
      } else if env.connected {
        worker := worker.(at := ConfirmSleep, back := Gate);
      } else {
        psstate := Awake;
        Jump(s.(psstate := Awake), Gate);
      }
    }

    /** The two tests of lbs_thread that skip the rest of its loop. */
    method GateStep(ghost s: State, ghost hwOk: bool)
      requires Shows(s) && (worker.at.CheckFwReady? || worker.at.Gate?)
      modifies this`worker
      ensures Shows(PowerSection(s, hwOk))
    {
      hide Lists, Responses, HandleEvent, NothingToRead;
      if worker.at.CheckFwReady? {
        worker := worker.(at := if env.fwReady then CheckPreSleep else Top);
      } else {
        worker := worker.(at := if psstate == Sleep || psstate == PreSleep then Top else Execute);
      }
    }

    lemma PowerSectionIs(s: State, hwOk: bool)
      requires Sized(s)
      ensures s.w.at.Handling? ==> PowerSection(s, hwOk) == HandleEvent(s)
      ensures s.w.at.ConfirmWake? ==> PowerSection(s, hwOk) == WakeConfirmed(s, hwOk)
      ensures s.w.at.CommitSleep? ==>
              PowerSection(s, hwOk) == Goto(s.(dnld := ResReceived, psstate := if NothingToRead(s) then Sleep
                else s.psstate), s.w.back)
    {
      hide HandleEvent;
    }

    /** lbs_thread from its event loop to the test that skips the rest when asleep. */
    method PowerStep(ghost s: State, hwOk: bool)
      requires Shows(s) && !InResponseSection(worker.at) && !InCommandSection(worker.at)
      modifies this, Repr()
      ensures Shows(PowerSection(s, hwOk))
    {
      ShowsWorker(s);
      PowerSectionIs(s, hwOk);
      hide Shows, PowerSection, HandleEvent, WakeConfirmed;
      match worker.at
      case Events => NextEvent(s, hwOk);
      case Handling => ProcessEvent(s);
      case ConfirmWake => SendConfirmWake(s, hwOk);
      case ConfirmSleep => ConfirmSleepStep(s, hwOk);
      case SendConfirm => SendConfirmSleep(s, hwOk);
      case CommitSleep => CommitConfirmSleep(s);
      case CheckFwReady => GateStep(s, hwOk);
      case CheckPreSleep => PreSleepStep(s, hwOk);
      case Gate => GateStep(s, hwOk);
      case _ => assert false;
    }

    /** The test before lbs_execute_next_command, and its look at the head of the queue. */
    method PeekCommand(ghost s: State, ghost hwOk: bool)
      requires Shows(s) && (worker.at.Execute? || worker.at.Peek?)
      modifies this`worker
      ensures Shows(CommandSection(s, hwOk))
    {
      hide Lists, Responses, Decide, IdleStep, Complete, CommandQueues.Linked;
      RingsLinked(s.q);
      QueueFields(s.q);
      if worker.at.Execute? {
        worker := worker.(at := if dnldSent == ResReceived && curCmd == None then Peek else Transmit);
      } else if curCmd.Some? {
        worker := worker.(at := Transmit);
      } else {
        var n := queues.FirstPending(s.q.free, s.q.pending);
        worker := match n case None => worker.(at := GoIdle) case Some(m) => worker.(at := Peeked, node := m);
      }
    }

    /** A PS command that makes no sense in the present power state completes at once. */
    method DropCommand(ghost s: State)
      requires Shows(s) && Unlisted(s.q, s.w.node)
      modifies this`worker, this`curCmd, this`hand, this`owned, this`log, cmdArray, queues.cmdfreeq, queues.list
      ensures Shows(Goto(s.(q := Complete(s.q, s.w.node, 0)), Transmit))
    {
      hide Lists, Responses, Complete;
      CompleteCommand(s.q, worker.node, 0);
      worker := worker.(at := Transmit);
    }

    /** lbs_submit_command after its lock: the card takes the command or refuses it. */
    method DownloadCommand(ghost s: State, hwOk: bool)
      requires Shows(s) && worker.at.Download?
      modifies this`dnldSent, this`worker
      ensures Shows(CommandSection(s, hwOk))
    {
      hide Lists, Responses, Decide, IdleStep, Complete;
      if hwOk { dnldSent := CmdSent; }
      worker := worker.(at := Transmit);
    }

    /** The branch of lbs_execute_next_command for an empty queue. */
    method PutToSleep(ghost s: State)
      requires Shows(s)
      modifies this`prep, this`worker, queues.cmdfreeq, queues.list
      ensures Shows(IdleStep(s))
    {
      hide Lists, Responses, CallPs;
      if !env.cam && psstate == FullPower && (env.connected || env.meshConnected) && (!env.wpa || env.keysSet) {
        CallPsMode(s, CMD_SUBCMD_ENTER_PS, Transmit);
      } else {
        worker := worker.(at := Transmit);
      }
    }

    /** The end of the loop of lbs_thread: a pending data frame. */
    method TransmitStep(ghost s: State, hwOk: bool)
      requires Shows(s)
      modifies this`dnldSent, this`env, this`worker
      ensures Shows(Transmitted(s, hwOk))
    {
      hide Responses, Lists;
      if dnldSent == ResReceived && env.txPending > 0 {
        dnldSent := if hwOk then DataSent else ResReceived;
        env := env.(txPending := 0);
      }
      worker := worker.(at := Top);
    }

    /** lbs_ps_wakeup and lbs_ps_sleep return once their command is queued. */
    method ReturnFromCall(ghost s: State, ghost hwOk: bool)
      requires Shows(s) && worker.at.Calling?
      modifies this`worker
      ensures Shows(CommandSection(s, hwOk))
    {
      hide Lists, Responses, Decide, IdleStep, Complete;
      QueueFields(s.q);
      if worker.node !in prep { worker := worker.(at := worker.back); }
    }

    lemma CommandSectionIs(s: State, hwOk: bool)
      requires Sized(s)
      ensures s.w.at.Peeked? ==> CommandSection(s, hwOk) == Decide(s)
      ensures s.w.at.GoIdle? ==> CommandSection(s, hwOk) == IdleStep(s)
      ensures s.w.at.Transmit? ==> CommandSection(s, hwOk) == Transmitted(s, hwOk)
      ensures s.w.at.Unlinked? ==> CommandSection(s, hwOk) == Goto(s.(q := Store(s.q, s.w.node)), Download)
      ensures s.w.at.Dropping? ==> CommandSection(s, hwOk) == Goto(s.(q := Complete(s.q, s.w.node, 0)), Transmit)
    {
      hide Decide, IdleStep, Complete;
    }

    /** lbs_thread from the call of lbs_execute_next_command to the end of its loop. */
    method CommandStep(ghost s: State, hwOk: bool)
      requires Shows(s) && Conserved(s) && InCommandSection(worker.at)
      modifies this, Repr()
      ensures Shows(CommandSection(s, hwOk))
    {
      ShowsWorker(s);
      WhereNodeIs(s);
      CommandSectionIs(s, hwOk);
      hide Shows, Conserved, CommandSection, Decide, IdleStep, Goto, Store, Complete, Transmitted;
      match worker.at
      case Execute => PeekCommand(s, hwOk);
      case Peek => PeekCommand(s, hwOk);
      case Peeked => ExecuteNextCommand(s);
      case Unlinked => SubmitCommand(s);
      case Dropping => DropCommand(s);
      case Download => DownloadCommand(s, hwOk);
      case GoIdle => PutToSleep(s);
      case Transmit => TransmitStep(s, hwOk);
      case Calling => ReturnFromCall(s, hwOk);
      case _ => assert false;
    }

    lemma ShowsWorker(s: State)
      requires Shows(s)
      ensures worker == s.w && env == s.env && bug == s.slots.bug && Sized(s) && Buffered(s.q)
    {
    }

    /** One section of lbs_thread. */
    method ThreadSection(ghost s: State, hwOk: bool)
      requires Shows(s) && Conserved(s)
      modifies this, Repr()
      ensures Shows(ThreadStep(s, hwOk))
    {
      ShowsWorker(s);
      hide Shows, ResponseSection, PowerSection, CommandSection;
      if InResponseSection(worker.at) { ResponseStep(s); }
      else if InCommandSection(worker.at) { CommandStep(s, hwOk); }
      else { PowerStep(s, hwOk); }
    }

    /** A caller begins to increment priv->seqnum. */
    method LoadNumber(ghost q: Queues, n: Node)
      requires Buffered(q) && Lists(q) && n in prep
      modifies this`prep
      ensures Lists(q.(prep := q.prep[n := Prep(q.prep[n].req, Loaded(q.seqnum))]))
    {
      hide CommandQueues.Linked;
      prep := prep[n := Prep(prep[n].req, Loaded(seqnum))];
    }

    /** And ends it. */
    method StoreNumber(ghost q: Queues, n: Node, num: nat)
      requires Buffered(q) && Lists(q) && n in prep
      modifies this`prep, this`seqnum, this`log
      ensures Lists(StoreSeqnum(q.(prep := q.prep[n := Prep(q.prep[n].req, Numbered)]), num))
    {
      hide CommandQueues.Linked;
      prep := prep[n := Prep(prep[n].req, Numbered)];
      SetSeqnum(q.(prep := prep), num);
    }

    /** The next section of the caller that prepares node n. */
    method PrepareCommand(ghost q: Queues, n: Node)
      requires Partitioned(q) && Lists(q)
      modifies this`prep, this`lost, this`seqnum, this`log, cmdArray, queues.cmdfreeq, queues.cmdpendingq, queues.list
      ensures Lists(CallerStep(q, n, psstate))
    {
      hide Lists, Places, Fill, Aim, Insert, StoreSeqnum;
      QueueFields(q);
      if n in prep {
        UnlistedWhen(q, n);
        match prep[n].phase
        case Taken => LoadNumber(q, n);
        case Loaded(num) => StoreNumber(q, n, num);
        case Numbered => FillCommand(q, n);
        case Filled => AimCommand(q, n);
        case Aimed(atHead) => InsertCommand(q, n, atHead);
      }
    }

    /** A new caller takes a node. */
    method AllocStep(ghost s: State, req: Request)
      requires Shows(s)
      modifies this`prep, queues.cmdfreeq, queues.list
      ensures Shows(s.(q := TakeNode(s.q, req)))
    {
      hide Lists, Responses, TakeNode;
      var _ := GetCmdCtrlNode(s.q, req);
    }

    method CallerSection(ghost s: State, n: Node)
      requires Shows(s) && Partitioned(s.q)
      modifies this`prep, this`lost, this`seqnum, this`log, cmdArray, queues.cmdfreeq, queues.cmdpendingq, queues.list
      ensures Shows(s.(q := CallerStep(s.q, n, s.psstate)))
    {
      hide Lists, Responses, Partitioned, CallerStep;
      PrepareCommand(s.q, n);
    }

    method WaiterSection(ghost s: State, n: Node)
      requires Shows(s) && Partitioned(s.q)
      modifies this`owned, cmdArray, queues.cmdfreeq, queues.list
      ensures Shows(s.(q := WaiterStep(s.q, n)))
    {
      hide Lists, Responses, Places, WaiterStep;
      QueueFields(s.q);
      NotOwned(s.q, n);
      if n in owned {
        UnlistedWhen(s.q, n);
        WaiterReturns(s.q, n);
      }
    }

    /** One section of any context. */
    method Section(ghost s: State, l: Label)
      requires Shows(s) && Conserved(s)
      modifies this, Repr()
      ensures Shows(Step(s, l))
    {
      ShowsWorker(s);
      StepIs(s, l);
      hide Shows, Conserved, Step, ThreadStep, HandleCmd, QueueEvent;
      if bug { return; }
      match l
      case Thread(hwOk) => ThreadSection(s, hwOk);
      case Timer => CommandTimerFn(s);
      case RaiseEvent(code) => LbsQueueEvent(s, code);
      case Respond(resp) => IfSdioHandleCmd(s, resp);
      case HostToCardDone => LbsHostToCardDone(s);
      case Configure(e) => SetEnv(s, e);
      case Alloc(req) => AllocStep(s, req);
      case Caller(n) => CallerSection(s, n);
      case Waiter(n) => WaiterSection(s, n);
    }

    /** Run one more section of any context on an object that a run ls has reached: the object
        shows the longer run, and what is proved of all runs is true of its fields. */
    method Continue(ghost e: Env, ghost ls: seq<Label>, l: Label)
      requires Shows(Run(Init(e), ls))
      modifies this, Repr()
      ensures Shows(Run(Init(e), ls + [l]))
      ensures psstate == Sleep ==> curCmd == None && hand == None && dnldSent == ResReceived && eventFifo == []
      ensures psstate == Sleep ==> respIdx < respLen.Length && respLen[respIdx] == 0
      ensures !needtowakeup && nrRetries <= 3
    {
      ghost var s := Run(Init(e), ls);
      StartConserved(e, ls);
      ShowsWorker(s);
      hide Shows, Step, Run, Init;
      Section(s, l);
      RunOneMore(Init(e), ls, l);
      ShowsSafety(e, ls + [l]);
    }

    lemma ShowsSafety(e: Env, ls: seq<Label>)
      requires Shows(Run(Init(e), ls))
      ensures psstate == Sleep ==> curCmd == None && hand == None && dnldSent == ResReceived && eventFifo == []
      ensures psstate == Sleep ==> respIdx < respLen.Length && respLen[respIdx] == 0
      ensures !needtowakeup && nrRetries <= 3
    {
      hide Step, Run, Init;
      EveryRunIsSafe(e, ls);
    }
  }
}
