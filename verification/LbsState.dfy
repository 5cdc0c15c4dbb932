/** The host-command engine of the Libertas driver: the part of struct lbs_private that
    the command, event, timer and power-save code share, and one function for each
    section of that code which runs without interruption.

    A section is a driver_lock critical section, or a run of unlocked statements of which at
    most one accesses a variable that another context may change meanwhile: the increment
    of priv->seqnum, which no lock protects, is a load and a store.  Every gap between two
    sections is a value of Pc (for the worker thread) or of Phase (for a caller that
    prepares a command). */
module LbsState {
  import opened Options

  const NUM_CMD_BUFFERS := 10
  const EVENT_FIFO_SIZE := 16
  const CMD_BUFFER_SIZE := 2048
  const SEQ_MODULUS := 0x1_0000

  const CMD_802_11_RSSI := 0x001f
  const CMD_802_11_PS_MODE := 0x0021
  const CMD_802_11_SET_AFC := 0x003c
  const CMD_802_11_GET_AFC := 0x003d
  const CMD_802_11_ASSOCIATE := 0x0050
  const CMD_RET_802_11_ASSOCIATE := 0x8012
  const CMD_SUBCMD_ENTER_PS := 0x0030
  const CMD_SUBCMD_EXIT_PS := 0x0031
  const PS_MODE_CMD_SIZE := 18

  const RESULT_DEFER := 0x0004
  const ETIMEDOUT := 110

  const EVENT_LINK_LOST_NO_SCAN := 3
  const EVENT_DEAUTHENTICATED := 8
  const EVENT_DISASSOCIATED := 9
  const EVENT_PS_AWAKE := 10
  const EVENT_PS_SLEEP := 11
  const EVENT_HOST_AWAKE := 18

  type Node = n: nat | n < NUM_CMD_BUFFERS

  datatype PsState = FullPower | Awake | PreSleep | Sleep

  datatype DnldState = ResReceived | DataSent | CmdSent

  // ---------------------------------------------------------------- command nodes

  /** What lbs_complete_command does with the node: NoCallback and AsyncCallback nodes go
      straight back to the free queue, a WaiterCallback node stays with its waiter. */
  datatype Callback = NoCallback | AsyncCallback | WaiterCallback

  /** Who prepares a command: lbs_prepare_and_send_command (whose builder may fail),
      lbs_cmd_async, or __lbs_cmd. */
  datatype Origin = Prepare(built: bool) | Async | Sync

  datatype Request = Request(command: nat, action: nat, size: nat, origin: Origin)

  /** How far a caller is: node taken, sequence number loaded, its successor stored, buffer
      filled, place in the pending queue chosen. */
  datatype Phase = Taken | Loaded(num: nat) | Numbered | Filled | Aimed(atHead: bool)

  datatype Prep = Prep(req: Request, phase: Phase)

  /** History of a node: the ticket of its last insertion into the pending queue, how often
      the counter had been incremented when it read its number, and how often it was queued,
      completed, and returned to the free queue after a completion; and its last result. */
  datatype Past = Past(ticket: nat, idx: nat, queued: nat, completed: nat, freed: nat, outcome: int)

  datatype CmdNode = CmdNode(
    command: nat, action: nat, size: nat, seqnum: nat, callback: Callback, result: int, past: Past)

  /** History of the engine: insertions so far; the tickets inserted and completed, EXIT_PS
      left out; increments of the counter; and, for every node that was ever filled, its idx
      and the number that it was given. */
  datatype Log = Log(
    tickets: nat, enqueued: seq<nat>, done: seq<nat>, issued: nat, indices: seq<nat>, given: seq<nat>)

  /** cmdfreeq, cmdpendingq, cur_cmd, the command that lbs_execute_next_command has unlinked
      (hand), the nodes that callers prepare, the completed nodes that wait for __lbs_cmd
      to return them, the nodes nobody will return, the buffers and priv->seqnum. */
  datatype Queues = Queues(
    free: seq<Node>, pending: seq<Node>, cur: Option<Node>, hand: Option<Node>,
    prep: map<Node, Prep>, owned: set<Node>, lost: set<Node>,
    buf: seq<CmdNode>, seqnum: nat, log: Log)

  predicate Buffered(q: Queues) {
    |q.buf| == NUM_CMD_BUFFERS
  }

  predicate IsExitPs(c: CmdNode) {
    c.command == CMD_802_11_PS_MODE && c.action == CMD_SUBCMD_EXIT_PS
  }

  /** lbs_get_cmd_ctrl_node. */
  function TakeNode(q: Queues, req: Request): (r: Queues)
    ensures r.buf == q.buf
  {
    if q.free == [] then q
    else q.(free := q.free[1..], prep := q.prep[q.free[0] := Prep(req, Taken)])
  }

  /** The store that ends an increment of priv->seqnum, of which the load found num. */
  function StoreSeqnum(q: Queues, num: nat): (r: Queues)
    ensures r.buf == q.buf
  {
    q.(seqnum := (num + 1) % SEQ_MODULUS, log := q.log.(issued := q.log.issued + 1))
  }

  function CallbackOf(o: Origin): Callback {
    match o
    case Prepare(_) => NoCallback
    case Async => AsyncCallback
    case Sync => WaiterCallback
  }

  /** The commands for which lbs_prepare_and_send_command jumps to its end at once. */
  predicate IsAfc(req: Request) {
    req.origin.Prepare? && (req.command == CMD_802_11_SET_AFC || req.command == CMD_802_11_GET_AFC)
  }

  /** The buffer that __lbs_cleanup_and_insert_cmd leaves. */
  function Wiped(c: CmdNode): CmdNode {
    c.(command := 0, action := 0, size := 0, seqnum := 0, callback := NoCallback)
  }

  function Numbering(c: CmdNode, req: Request, seqnum: nat, idx: nat): CmdNode {
    c.(command := req.command, action := req.action, size := req.size, seqnum := seqnum,
       callback := CallbackOf(req.origin), past := c.past.(idx := idx))
  }

  /** Read the sequence number and fill the buffer.  The AFC commands leave
      lbs_prepare_and_send_command without queueing or freeing their node; when the
      builder fails, the node is freed. */
  function Fill(q: Queues, n: Node): (r: Queues)
    requires Buffered(q) && n in q.prep
    ensures Buffered(r)
  {
    var req := q.prep[n].req;
    var c := Numbering(q.buf[n], req, q.seqnum, q.log.issued);
    var log := q.log.(indices := q.log.indices + [q.log.issued], given := q.log.given + [q.seqnum]);
    if IsAfc(req) then q.(prep := q.prep - {n}, lost := q.lost + {n}, buf := q.buf[n := c], log := log)
    else if req.origin == Prepare(false) then
      q.(prep := q.prep - {n}, free := q.free + [n], buf := q.buf[n := Wiped(c)], log := log)
    else q.(prep := q.prep[n := Prep(req, Filled)], buf := q.buf[n := c], log := log)
  }

  /** lbs_queue_cmd up to its lock: a command of size zero is not queued at all, and
      whether EXIT_PS goes to the head is decided here. */
  function Aim(q: Queues, n: Node, p: PsState): (r: Queues)
    requires Buffered(q) && n in q.prep
    ensures Buffered(r)
  {
    var c := q.buf[n];
    if c.size == 0 then q.(prep := q.prep - {n}, lost := q.lost + {n})
    else q.(buf := q.buf[n := c.(result := 0)],
            prep := q.prep[n := Prep(q.prep[n].req, Aimed(IsExitPs(c) && p != FullPower))])
  }

  /** The locked part of lbs_queue_cmd. */
  function Insert(q: Queues, n: Node, atHead: bool): (r: Queues)
    requires Buffered(q) && n in q.prep
    ensures Buffered(r)
  {
    var c := q.buf[n];
    var t := q.log.tickets;
    q.(prep := q.prep - {n},
       pending := if atHead then [n] + q.pending else q.pending + [n],
       buf := q.buf[n := c.(past := c.past.(ticket := t, queued := c.past.queued + 1))],
       log := q.log.(tickets := t + 1, enqueued := if IsExitPs(c) then q.log.enqueued else q.log.enqueued + [t]))
  }

  /** The next section of the caller that prepares node n. */
  function CallerStep(q: Queues, n: Node, p: PsState): (r: Queues)
    requires Buffered(q)
    ensures Buffered(r)
  {
    if n !in q.prep then q
    else match q.prep[n].phase
      case Taken => q.(prep := q.prep[n := Prep(q.prep[n].req, Loaded(q.seqnum))])
      case Loaded(num) => StoreSeqnum(q.(prep := q.prep[n := Prep(q.prep[n].req, Numbered)]), num)
      case Numbered => Fill(q, n)
      case Filled => Aim(q, n, p)
      case Aimed(atHead) => Insert(q, n, atHead)
  }

  /** list_del: unlink one entry, wherever it stands in the queue. */
  function Remove(ns: seq<Node>, n: Node): seq<Node> {
    if ns == [] then [] else if ns[0] == n then ns[1..] else [ns[0]] + Remove(ns[1..], n)
  }

  function Unlink(q: Queues, n: Node): (r: Queues)
    ensures r.buf == q.buf
  {
    q.(pending := Remove(q.pending, n), hand := Some(n))
  }

  /** The locked part of lbs_submit_command. */
  function Store(q: Queues, n: Node): (r: Queues)
    ensures r.buf == q.buf
  {
    q.(cur := Some(n), hand := None)
  }

  /** A timed-out command goes back to the head of the queue. */
  function Requeue(q: Queues, n: Node): (r: Queues)
    ensures r.buf == q.buf
  {
    q.(cur := None, pending := [n] + q.pending)
  }

  function Completed(c: CmdNode, code: int): CmdNode {
    c.(result := code, past := c.past.(completed := c.past.completed + 1, outcome := code))
  }

  function Freed(c: CmdNode): CmdNode {
    Wiped(c).(past := c.past.(freed := c.past.freed + 1))
  }

  /** lbs_complete_command, for the command in flight or for one just unlinked. */
  function Complete(q: Queues, n: Node, code: int): (r: Queues)
    requires Buffered(q)
    ensures Buffered(r)
  {
    var c := q.buf[n];
    var log := if IsExitPs(c) then q.log else q.log.(done := q.log.done + [c.past.ticket]);
    if c.callback == WaiterCallback then
      q.(cur := None, hand := None, owned := q.owned + {n}, log := log,
         buf := q.buf[n := Completed(c, code)])
    else
      q.(cur := None, hand := None, free := q.free + [n], log := log,
         buf := q.buf[n := Freed(Completed(c, code))])
  }

  /** The end of __lbs_cmd: the waiter returns its completed node. */
  function WaiterStep(q: Queues, n: Node): (r: Queues)
    requires Buffered(q)
    ensures Buffered(r)
  {
    if n !in q.owned then q
    else q.(owned := q.owned - {n}, free := q.free + [n], buf := q.buf[n := Freed(q.buf[n])])
  }

  // ---------------------------------------------------------------- response slots

  datatype Response = Response(seqnum: nat, command: nat, result: nat, action: nat, size: nat)

  /** resp_idx, resp_len and resp_buf; bug stands for the BUG_ON of if_sdio_handle_cmd.
      History: the responses stored and the responses the worker thread took, in order. */
  datatype Slots = Slots(
    idx: nat, len: seq<nat>, buf: seq<Response>, bug: bool, arrived: seq<Response>, taken: seq<Response>)

  predicate TwoSlots(r: Slots) {
    r.idx < 2 && |r.len| == 2 && |r.buf| == 2
  }

  /** The locked part of if_sdio_handle_cmd. */
  function Arrive(r: Slots, resp: Response): (t: Slots)
    requires TwoSlots(r)
    ensures TwoSlots(t)
  {
    var i := 1 - r.idx;
    if r.len[i] != 0 then r.(bug := true)
    else r.(idx := i, len := r.len[i := resp.size], buf := r.buf[i := resp], arrived := r.arrived + [resp])
  }

  // ---------------------------------------------------------------- the whole state

  /** Settings which other parts of the driver change at any time. */
  datatype Env = Env(connected: bool, meshConnected: bool, adhoc: bool, cam: bool,
                     wpa: bool, keysSet: bool, fwReady: bool, txPending: int)

  /** The sections of lbs_thread and of the functions that it calls. */
  datatype Pc =
    | Top | Processing | InCallback | FinishPs | ClearSlot | HandleTimeout | ClearTimeout
    | Events | Handling | ConfirmWake | ConfirmSleep | SendConfirm | CommitSleep | CheckFwReady | CheckPreSleep | Gate
    | Execute | Peek | Peeked | Unlinked | Dropping | Download | GoIdle | Transmit | Calling

  /** The worker thread: its next section, the section it returns to after lbs_ps_wakeup,
      lbs_ps_sleep or lbs_ps_confirm_sleep, and its local variables: the response slot and
      the result it works on, the event it handles, the sequence number it has loaded, the
      command it executes or prepares. */
  datatype Worker = Worker(at: Pc, back: Pc, slot: nat, code: nat, event: nat, num: nat, node: Node)

  datatype State = State(
    q: Queues, slots: Slots, w: Worker, env: Env,
    psstate: PsState, needtowakeup: bool, dnld: DnldState, nrRetries: nat, timedOut: bool, fifo: seq<nat>)

  predicate Sized(s: State) {
    Buffered(s.q) && TwoSlots(s.slots)
  }

  /** The state that lbs_init_adapter leaves, before the worker thread starts. */
  function Init(env: Env): (s: State)
    ensures Sized(s)
  {
    var node := CmdNode(0, 0, 0, 0, NoCallback, 0, Past(0, 0, 0, 0, 0, 0));
    var none := Response(0, 0, 0, 0, 0);
    var q := Queues([0, 1, 2, 3, 4, 5, 6, 7, 8, 9], [], None, None, map[], {}, {},
                    seq(NUM_CMD_BUFFERS, _ => node), 0, Log(0, [], [], 0, [], []));
    State(q, Slots(0, [0, 0], [none, none], false, [], []), Worker(Top, Top, 0, 0, 0, 0, 0), env, FullPower, false,
      ResReceived, 0, false, [])
  }

  // ---------------------------------------------------------------- other contexts

  function Wake(p: PsState): PsState {
    if p == Sleep then Awake else p
  }

  /** lbs_queue_event: an event that finds the fifo full is lost. */
  function QueueEvent(s: State, code: nat): (t: State)
    requires Sized(s)
    ensures Sized(t)
  {
    s.(psstate := Wake(s.psstate), fifo := if |s.fifo| < EVENT_FIFO_SIZE then s.fifo + [code] else s.fifo)
  }

  /** if_sdio_handle_cmd with lbs_notify_command_response. */
  function HandleCmd(s: State, resp: Response): (t: State)
    requires Sized(s)
    ensures Sized(t)
  {
    if resp.size > CMD_BUFFER_SIZE then s
    else if s.slots.len[1 - s.slots.idx] != 0 then s.(slots := Arrive(s.slots, resp))
    else s.(slots := Arrive(s.slots, resp), psstate := Wake(s.psstate))
  }

  // ---------------------------------------------------------------- the worker thread

  function Goto(s: State, pc: Pc): (t: State)
    ensures Sized(s) ==> Sized(t)
  {
    s.(w := s.w.(at := pc))
  }

  function PsRequest(action: nat): Request {
    Request(CMD_802_11_PS_MODE, action, PS_MODE_CMD_SIZE, Prepare(true))
  }

  /** lbs_ps_wakeup or lbs_ps_sleep, called by the worker thread itself: it becomes the
      caller that prepares a node, or goes on at once when there is no free one. */
  function CallPs(s: State, action: nat, back: Pc): (t: State)
    requires Sized(s)
    ensures Sized(t)
  {
    if s.q.free == [] then Goto(s, back)
    else s.(q := TakeNode(s.q, PsRequest(action)), w := s.w.(at := Calling, back := back, node := s.q.free[0]))
  }

  function CmdRet(command: nat): nat {
    if command / 0x8000 % 2 == 1 then command else command + 0x8000
  }

  /** The tests at the head of lbs_process_command_response. */
  predicate Accepts(q: Queues, r: Response)
    requires Buffered(q)
  {
    && q.cur.Some?
    && var c := q.buf[q.cur.value];
       && r.seqnum == c.seqnum
       && (r.command == CmdRet(c.command) || r.command == CMD_RET_802_11_ASSOCIATE || c.command == CMD_802_11_ASSOCIATE)
       && r.result != RESULT_DEFER
  }

  predicate IsPsReply(r: Response, action: nat) {
    r.command == CmdRet(CMD_802_11_PS_MODE) && r.result == 0 && r.action == action
  }

  /** What an accepted response changes before the command is completed. */
  function ApplyResponse(s: State, r: Response): (t: State)
    requires Sized(s)
    ensures Sized(t)
  {
    var enter, exit := IsPsReply(r, CMD_SUBCMD_ENTER_PS), IsPsReply(r, CMD_SUBCMD_EXIT_PS);
    var refused := r.command == CmdRet(CMD_802_11_PS_MODE) && r.result != 0 && s.env.adhoc
      && r.action == CMD_SUBCMD_ENTER_PS;
    s.(timedOut := false, nrRetries := 0,
       needtowakeup := s.needtowakeup && !enter && !exit,
       psstate := if enter then Awake else if exit then FullPower else s.psstate,
       env := if refused then s.env.(cam := true) else s.env)
  }

  /** The locked section that ends lbs_process_command_response. */
  function FinishResponse(s: State, code: nat): (t: State)
    requires Sized(s)
    ensures Sized(t)
  {
    Goto(if s.q.cur.Some? then s.(q := Complete(s.q, s.q.cur.value, code)) else s, ClearSlot)
  }

  /** The first locked section of lbs_process_command_response: a response is dropped,
      completes the command at once, lets the thread queue EXIT_PS first, or is handed to
      the callback without the lock. */
  function ProcessResponse(s: State): (t: State)
    requires Sized(s) && s.w.slot < 2
    ensures Sized(t)
  {
    var r := s.slots.buf[s.w.slot];
    var t := ApplyResponse(s, r).(w := s.w.(code := r.result));
    if !Accepts(s.q, r) then Goto(s, ClearSlot)
    else if r.command == CmdRet(CMD_802_11_PS_MODE) then
      if IsPsReply(r, CMD_SUBCMD_ENTER_PS) && !s.env.connected then CallPs(t, CMD_SUBCMD_EXIT_PS, FinishPs)
      else FinishResponse(t, r.result)
    else if r.result != 0 || r.command / 0x8000 % 2 == 0 then FinishResponse(t, r.result)
    else Goto(t, InCallback)
  }

  /** The timeout branch of lbs_thread. */
  function HandleTimeoutStep(s: State): (t: State)
    requires Sized(s)
    ensures Sized(t)
  {
    if !s.timedOut || s.q.cur == None then s
    else if s.nrRetries + 1 > 3 then
      s.(q := Complete(s.q, s.q.cur.value, -ETIMEDOUT), nrRetries := 0)
    else
      s.(q := Requeue(s.q, s.q.cur.value), dnld := ResReceived, nrRetries := s.nrRetries + 1)
  }

  /** lbs_mac_event_disconnected. */
  function Disconnect(s: State): (t: State)
    requires Sized(s)
    ensures Sized(t)
  {
    var t := s.(env := s.env.(connected := false, txPending := 0));
    if !s.env.connected then Goto(s, Events)
    else if s.psstate != FullPower then CallPs(t, CMD_SUBCMD_EXIT_PS, Events)
    else Goto(t, Events)
  }

  /** lbs_process_event; the wake confirmation increments the sequence number as well. */
  function HandleEvent(s: State): (t: State)
    requires Sized(s)
    ensures Sized(t)
  {
    var code := s.w.event;
    if code == EVENT_PS_SLEEP then
      if s.psstate == FullPower then Goto(s, Events)
      else s.(psstate := PreSleep, w := s.w.(at := ConfirmSleep, back := Events))
    else if code == EVENT_PS_AWAKE then
      if s.psstate == FullPower then Goto(s, Events)
      else if s.needtowakeup then CallPs(s.(psstate := Awake), CMD_SUBCMD_EXIT_PS, Events)
      else Goto(s.(psstate := Awake), Events)
    else if code == EVENT_HOST_AWAKE then
      s.(w := s.w.(at := ConfirmWake, num := s.q.seqnum))
    else if code == EVENT_DEAUTHENTICATED || code == EVENT_DISASSOCIATED || code == EVENT_LINK_LOST_NO_SCAN then
      Disconnect(s)
    else Goto(s, Events)
  }

  predicate NothingToRead(s: State)
    requires Sized(s)
  {
    s.fifo == [] && s.slots.len[s.slots.idx] == 0
  }

  predicate Asleep(p: PsState) {
    p == Sleep || p == PreSleep
  }

  /** list_del in lbs_execute_next_command, before the command is submitted or dropped. */
  function UnlinkTo(s: State, pc: Pc): (t: State)
    requires Sized(s)
    ensures Sized(t)
  {
    Goto(s.(q := Unlink(s.q, s.w.node)), pc)
  }

  /** lbs_execute_next_command once it has looked at the head of the queue. */
  function Decide(s: State): (t: State)
    requires Sized(s)
    ensures Sized(t)
  {
    var c := s.q.buf[s.w.node];
    if c.command == CMD_802_11_RSSI then
      if Asleep(s.psstate) then Goto(s, Transmit) else UnlinkTo(s, Unlinked)
    else if s.psstate != FullPower then
      if c.command != CMD_802_11_PS_MODE then
        if Asleep(s.psstate) then Goto(s.(needtowakeup := true), Transmit)
        else CallPs(s, CMD_SUBCMD_EXIT_PS, Transmit)
      else if c.action != CMD_SUBCMD_EXIT_PS then UnlinkTo(s, Dropping)
      else if Asleep(s.psstate) then UnlinkTo(s.(needtowakeup := true), Dropping)
      else UnlinkTo(s, Unlinked)
    else UnlinkTo(s, Unlinked)
  }

  /** The branch of lbs_execute_next_command for an empty queue. */
  function IdleStep(s: State): (t: State)
    requires Sized(s)
    ensures Sized(t)
  {
    if !s.env.cam && s.psstate == FullPower && (s.env.connected || s.env.meshConnected)
       && (!s.env.wpa || s.env.keysSet)
    then CallPs(s, CMD_SUBCMD_ENTER_PS, Transmit)
    else Goto(s, Transmit)
  }

  /** lbs_thread from the top of its loop to the reset of cmd_timed_out. */
  function ResponseSection(s: State): (t: State)
    requires Sized(s)
    ensures Sized(t)
  {
    var i := s.slots.idx;
    match s.w.at
    case Top =>
      if s.slots.len[i] == 0 then Goto(s, HandleTimeout)
      else s.(slots := s.slots.(taken := s.slots.taken + [s.slots.buf[i]]), w := s.w.(at := Processing, slot := i))
    case Processing => if s.w.slot < 2 then ProcessResponse(s) else s
    case InCallback => FinishResponse(s, s.w.code)
    case FinishPs => FinishResponse(s, s.w.code)
    case ClearSlot =>
      if s.w.slot < 2 then Goto(s.(slots := s.slots.(len := s.slots.len[s.w.slot := 0])), HandleTimeout) else s
    case HandleTimeout => Goto(HandleTimeoutStep(s), ClearTimeout)
    case ClearTimeout => Goto(s.(timedOut := false), Events)
    case _ => s
  }

  /** lbs_thread from its event loop to the test that skips the rest when asleep. */
  function PowerSection(s: State, hwOk: bool): (t: State)
    requires Sized(s)
    ensures Sized(t)
  {
    match s.w.at
    case Events =>
      if s.fifo == [] then Goto(s, CheckFwReady)
      else s.(fifo := s.fifo[1..], w := s.w.(at := Handling, event := s.fifo[0]))
    case Handling => HandleEvent(s)
    case ConfirmWake => Goto(s.(q := StoreSeqnum(s.q, s.w.num), dnld := if hwOk then CmdSent else s.dnld), Events)
    case ConfirmSleep =>
      if s.dnld == ResReceived && s.q.cur == None && NothingToRead(s) then Goto(s, SendConfirm) else Goto(s, s.w.back)
    case SendConfirm => if hwOk then Goto(s.(dnld := CmdSent), CommitSleep) else Goto(s, s.w.back)
    case CommitSleep =>
      Goto(s.(dnld := ResReceived, psstate := if NothingToRead(s) then Sleep else s.psstate), s.w.back)
    case CheckFwReady => if s.env.fwReady then Goto(s, CheckPreSleep) else Goto(s, Top)
    case CheckPreSleep =>
      if s.psstate != PreSleep || s.dnld != ResReceived || s.q.cur != None then Goto(s, Gate)
      else if s.env.connected then s.(w := s.w.(at := ConfirmSleep, back := Gate))
      else Goto(s.(psstate := Awake), Gate)
    case Gate => if Asleep(s.psstate) then Goto(s, Top) else Goto(s, Execute)
    case _ => s
  }

  /** lbs_thread from the call of lbs_execute_next_command to the end of its loop. */
  function CommandSection(s: State, hwOk: bool): (t: State)
    requires Sized(s)
    ensures Sized(t)
  {
    match s.w.at
    case Execute => if s.dnld == ResReceived && s.q.cur == None then Goto(s, Peek) else Goto(s, Transmit)
    case Peek =>
      if s.q.cur.Some? then Goto(s, Transmit)
      else if s.q.pending == [] then Goto(s, GoIdle)
      else s.(w := s.w.(at := Peeked, node := s.q.pending[0]))
    case Peeked => Decide(s)
    case Unlinked => Goto(s.(q := Store(s.q, s.w.node)), Download)
    case Dropping => Goto(s.(q := Complete(s.q, s.w.node, 0)), Transmit)
    case Download => Goto(s.(dnld := if hwOk then CmdSent else s.dnld), Transmit)
    case GoIdle => IdleStep(s)
    case Transmit =>
      if s.dnld == ResReceived && s.env.txPending > 0
      then Goto(s.(dnld := if hwOk then DataSent else ResReceived, env := s.env.(txPending := 0)), Top)
      else Goto(s, Top)
    case Calling => if s.w.node in s.q.prep then s else Goto(s, s.w.back)
    case _ => s
  }

  predicate InResponseSection(pc: Pc) {
    pc.Top? || pc.Processing? || pc.InCallback? || pc.FinishPs? || pc.ClearSlot? || pc.HandleTimeout?
      || pc.ClearTimeout?
  }

  predicate InCommandSection(pc: Pc) {
    pc.Execute? || pc.Peek? || pc.Peeked? || pc.Unlinked? || pc.Dropping? || pc.Download? || pc.GoIdle?
    || pc.Transmit? || pc.Calling?
  }

  function ThreadStep(s: State, hwOk: bool): (t: State)
    requires Sized(s)
    ensures Sized(t)
  {
    if InResponseSection(s.w.at) then ResponseSection(s)
    else if InCommandSection(s.w.at) then CommandSection(s, hwOk)
    else PowerSection(s, hwOk)
  }

  // ---------------------------------------------------------------- runs

  /** One section of one context. */
  datatype Label =
    | Thread(hwOk: bool)
    | Alloc(req: Request)
    | Caller(node: Node)
    | Waiter(node: Node)
    | Timer
    | RaiseEvent(code: nat)
    | Respond(resp: Response)
    | HostToCardDone
    | Configure(env: Env)

  /** A section that is not enabled leaves the state as it is; after the BUG_ON nothing runs. */
  function Step(s: State, l: Label): (t: State)
    requires Sized(s)
    ensures Sized(t)
  {
    if s.slots.bug then s
    else match l
      case Thread(hwOk) => ThreadStep(s, hwOk)
      case Alloc(req) => s.(q := TakeNode(s.q, req))
      case Caller(n) => s.(q := CallerStep(s.q, n, s.psstate))
      case Waiter(n) => s.(q := WaiterStep(s.q, n))
      case Timer => if s.q.cur == None then s else s.(timedOut := true)
      case RaiseEvent(code) => QueueEvent(s, code)
      case Respond(resp) => HandleCmd(s, resp)
      case HostToCardDone => s.(dnld := ResReceived)
      case Configure(env) => s.(env := env)
  }

  function Run(s: State, ls: seq<Label>): (t: State)
    requires Sized(s)
    ensures Sized(t)
    decreases |ls|
  {
    if ls == [] then s else Run(Step(s, ls[0]), ls[1..])
  }
}
