/** Commands other than EXIT_PS are completed in the order in which they were queued. */
module CommandOrder {
  import opened Options
  import opened LbsState
  import opened QueueMoves
  import opened NodeConservation

  /** The ticket of a command, unless it is EXIT_PS. */
  function Ticket(buf: seq<CmdNode>, n: Node): seq<nat>
    requires |buf| == NUM_CMD_BUFFERS
  {
    if IsExitPs(buf[n]) then [] else [buf[n].past.ticket]
  }

  function Tickets(buf: seq<CmdNode>, ns: seq<Node>): seq<nat>
    requires |buf| == NUM_CMD_BUFFERS
  {
    if ns == [] then [] else Ticket(buf, ns[0]) + Tickets(buf, ns[1..])
  }

  /** The ticket of the command which the worker thread has taken off the queue. */
  function Ahead(q: Queues): seq<nat>
    requires Buffered(q)
  {
    if q.cur.Some? then Ticket(q.buf, q.cur.value) else if q.hand.Some? then Ticket(q.buf, q.hand.value) else []
  }

  lemma {:induction false} TicketsAppend(buf: seq<CmdNode>, ns: seq<Node>, n: Node)
    requires |buf| == NUM_CMD_BUFFERS
    ensures Tickets(buf, ns + [n]) == Tickets(buf, ns) + Ticket(buf, n)
  {
    if ns == [] {
      assert Tickets(buf, [n]) == Ticket(buf, n) + Tickets(buf, []);
    } else {
      assert (ns + [n])[1..] == ns[1..] + [n];
      TicketsAppend(buf, ns[1..], n);
    }
  }

  lemma TicketsPrepend(buf: seq<CmdNode>, ns: seq<Node>, n: Node)
    requires |buf| == NUM_CMD_BUFFERS
    ensures Tickets(buf, [n] + ns) == Ticket(buf, n) + Tickets(buf, ns)
  {
    assert ([n] + ns)[1..] == ns;
  }

  /** The tickets in a queue depend on the buffers of its own nodes only. */
  lemma {:induction false} TicketsFrame(buf: seq<CmdNode>, n: Node, c: CmdNode, ns: seq<Node>)
    requires |buf| == NUM_CMD_BUFFERS
    ensures Count(ns, n) == 0 ==> Tickets(buf[n := c], ns) == Tickets(buf, ns)
  {
    if ns == [] {
    } else {
      TicketsFrame(buf, n, c, ns[1..]);
    }
  }

  /** Before n in the queue there are only EXIT_PS commands, unless n is one itself. */
  predicate FirstInLine(q: Queues, n: Node)
    requires Buffered(q)
  {
    Tickets(q.buf, q.pending) == Ticket(q.buf, n) + Tickets(q.buf, Remove(q.pending, n))
  }

  predicate HeadsAreExitPs(q: Queues)
    requires Buffered(q)
  {
    forall n :: n in q.prep && q.prep[n].phase == Aimed(true) ==> IsExitPs(q.buf[n])
  }

  predicate Ascending(ts: seq<nat>, bound: nat) {
    && (forall i, j :: 0 <= i < j < |ts| ==> ts[i] < ts[j])
    && (forall i :: 0 <= i < |ts| ==> ts[i] < bound)
  }

  predicate InOrder(q: Queues) {
    && Buffered(q)
    && HeadsAreExitPs(q)
    && Ascending(q.log.enqueued, q.log.tickets)
    && q.log.enqueued == q.log.done + Ahead(q) + Tickets(q.buf, q.pending)
  }

  lemma PreparedOnly(q: Queues, n: Node)
    requires Partitioned(q) && n in q.prep
    ensures q.cur != Some(n) && q.hand != Some(n)
  {
    assert Places(q, n) == 1;
  }

  /** The inserted command at its end of the queue, with its new ticket. */
  lemma InsertTickets(q: Queues, n: Node, atHead: bool)
    requires Buffered(q) && Partitioned(q) && n in q.prep
    ensures var r := Insert(q, n, atHead);
            && (forall m: Node :: m != n ==> Ticket(r.buf, m) == Ticket(q.buf, m))
            && Ticket(r.buf, n) == (if IsExitPs(q.buf[n]) then [] else [q.log.tickets])
            && Tickets(r.buf, r.pending) == (if atHead then Ticket(r.buf, n) + Tickets(q.buf, q.pending)
                                             else Tickets(q.buf, q.pending) + Ticket(r.buf, n))
  {
    hide Partitioned, Places, Count, Tickets;
    Unplaced(q, n);
    var r := Insert(q, n, atHead);
    TicketsFrame(q.buf, n, r.buf[n], q.pending);
    if atHead { TicketsPrepend(r.buf, q.pending, n); } else { TicketsAppend(r.buf, q.pending, n); }
  }

  lemma InsertAhead(q: Queues, n: Node, atHead: bool)
    requires Buffered(q) && Partitioned(q) && n in q.prep
    ensures var r := Insert(q, n, atHead);
            && Ahead(r) == Ahead(q) && r.log.done == q.log.done && r.log.tickets == q.log.tickets + 1
            && r.log.enqueued == q.log.enqueued + (if IsExitPs(q.buf[n]) then [] else [q.log.tickets])
            && r.prep == q.prep - {n} && forall m: Node :: m != n ==> r.buf[m] == q.buf[m]
  {
    hide Partitioned, Count, Tickets;
    PreparedOnly(q, n);
  }

  lemma InsertInOrder(q: Queues, n: Node, atHead: bool)
    requires Partitioned(q) && InOrder(q) && n in q.prep && q.prep[n].phase == Aimed(atHead)
    ensures InOrder(Insert(q, n, atHead))
  {
    hide Partitioned, Tickets, Ticket, Insert, Ahead, IsExitPs;
    InsertTickets(q, n, atHead);
    InsertAhead(q, n, atHead);
  }

  lemma FillInOrder(q: Queues, n: Node)
    requires Partitioned(q) && InOrder(q) && n in q.prep
    ensures InOrder(Fill(q, n))
  {
    hide Partitioned, Places, Count, Tickets;
    Unplaced(q, n);
    PreparedOnly(q, n);
    TicketsFrame(q.buf, n, Fill(q, n).buf[n], q.pending);
    assert Ahead(Fill(q, n)) == Ahead(q);
  }

  lemma AimInOrder(q: Queues, n: Node, p: PsState)
    requires Partitioned(q) && InOrder(q) && n in q.prep
    ensures InOrder(Aim(q, n, p))
  {
    hide Partitioned, Places, Count, Tickets;
    Unplaced(q, n);
    PreparedOnly(q, n);
    TicketsFrame(q.buf, n, q.buf[n].(result := 0), q.pending);
    assert Ahead(Aim(q, n, p)) == Ahead(q);
  }

  lemma CallerInOrder(q: Queues, n: Node, p: PsState)
    requires Partitioned(q) && InOrder(q) && n in q.prep
    ensures InOrder(CallerStep(q, n, p))
  {
    hide Insert, Fill, Aim, Partitioned, Tickets;
    match q.prep[n].phase
    case Taken =>
    case Loaded(_) =>
    case Numbered => FillInOrder(q, n);
    case Filled => AimInOrder(q, n, p);
    case Aimed(atHead) => InsertInOrder(q, n, atHead);
  }

  lemma Unplaced(q: Queues, n: Node)
    requires Partitioned(q)
    ensures Places(q, n) == 1
    ensures n in q.prep || n in q.owned || q.cur == Some(n) || q.hand == Some(n) ==> Count(q.pending, n) == 0
  {
  }

  lemma ReturnInOrder(q: Queues, n: Node)
    requires Partitioned(q) && InOrder(q)
    ensures InOrder(WaiterStep(q, n))
  {
    hide Partitioned, Count, Tickets, Places;
    Unplaced(q, n);
    if n in q.owned {
      OwnedOnly(q, n);
      TicketsFrame(q.buf, n, Freed(q.buf[n]), q.pending);
    }
  }

  lemma FinishInOrder(q: Queues, n: Node, code: int)
    requires Partitioned(q) && Legal(q, Finish(n, code)) && InOrder(q)
    ensures InOrder(Complete(q, n, code))
  {
    hide Partitioned, Count, Tickets, Places;
    Unplaced(q, n);
    assert n !in q.prep by { LiveOnly(q, n); }
    var r := Complete(q, n, code);
    TicketsFrame(q.buf, n, r.buf[n], q.pending);
    assert Ahead(r) == [] && r.log.done == q.log.done + Ahead(q);
  }

  lemma MoveInOrder(q: Queues, mv: Move)
    requires Partitioned(q) && Legal(q, mv) && InOrder(q)
    requires mv.Detach? ==> FirstInLine(q, mv.node)
    ensures InOrder(Apply(q, mv))
  {
    hide CallerStep, WaiterStep, Complete, Partitioned, Count, Tickets, Remove;
    match mv
    case Advance(n, p) => if n in q.prep { CallerInOrder(q, n, p); } else { NotPreparing(q, n, p); }
    case Return(n) => ReturnInOrder(q, n);
    case Retry(n) => TicketsPrepend(q.buf, q.pending, n);
    case Finish(n, code) => FinishInOrder(q, n, code);
    case _ =>
  }

  lemma OwnedOnly(q: Queues, n: Node)
    requires Partitioned(q) && n in q.owned
    ensures n !in q.prep && q.cur != Some(n) && q.hand != Some(n)
  {
    assert Places(q, n) == 1;
  }

  lemma LiveOnly(q: Queues, n: Node)
    requires Partitioned(q) && (q.cur == Some(n) || q.hand == Some(n) || Count(q.pending, n) > 0)
    ensures n !in q.prep && n !in q.owned
  {
    assert Places(q, n) == 1;
  }

  // ---------------------------------------------------------------- the peeked command

  lemma {:induction false} RemoveAppend(ns: seq<Node>, n: Node, m: Node)
    ensures Count(ns, n) > 0 ==> Remove(ns + [m], n) == Remove(ns, n) + [m]
  {
    if ns == [] {
    } else {
      assert (ns + [m])[1..] == ns[1..] + [m];
      RemoveAppend(ns[1..], n, m);
    }
  }

  lemma {:induction false} RemoveFrame(ns: seq<Node>, n: Node, m: Node)
    ensures Count(ns, m) == 0 ==> Count(Remove(ns, n), m) == 0
  {
    if ns == [] || ns[0] == n {
    } else {
      RemoveFrame(ns[1..], n, m);
      CountPrepend(Remove(ns[1..], n), ns[0], m);
    }
  }

  /** What stays behind when first is taken off a queue that got n at its head or its end. */
  lemma RestTickets(buf: seq<CmdNode>, ns: seq<Node>, n: Node, atHead: bool, first: Node)
    requires |buf| == NUM_CMD_BUFFERS && n != first && Count(ns, first) > 0
    ensures var r := if atHead then [n] + ns else ns + [n];
            Tickets(buf, Remove(r, first)) == if atHead then Ticket(buf, n) + Tickets(buf, Remove(ns, first))
                                              else Tickets(buf, Remove(ns, first)) + Ticket(buf, n)
  {
    hide Count, Tickets;
    if atHead {
      assert ([n] + ns)[1..] == ns;
      TicketsPrepend(buf, Remove(ns, first), n);
    } else {
      RemoveAppend(ns, first, n);
      TicketsAppend(buf, Remove(ns, first), n);
    }
  }

  /** Other contexts insert only EXIT_PS before a command that the thread has peeked. */
  lemma InsertKeepsFirst(q: Queues, n: Node, atHead: bool, first: Node)
    requires Buffered(q) && Partitioned(q) && HeadsAreExitPs(q) && n in q.prep && q.prep[n].phase == Aimed(atHead)
    requires Count(q.pending, first) > 0 && FirstInLine(q, first)
    ensures FirstInLine(Insert(q, n, atHead), first)
  {
    hide Count, Places, Tickets, Ticket, Remove, Partitioned, Insert;
    assert n != first && Count(q.pending, n) == 0 by { LiveOnly(q, first); Unplaced(q, n); }
    var r := Insert(q, n, atHead);
    InsertShape(q, n, atHead);
    InsertTickets(q, n, atHead);
    RestTickets(r.buf, q.pending, n, atHead, first);
    RemoveFrame(q.pending, first, n);
    TicketsFrame(q.buf, n, r.buf[n], Remove(q.pending, first));
    var head, rest, last := Ticket(q.buf, first), Tickets(q.buf, Remove(q.pending, first)), Ticket(r.buf, n);
    if atHead {
      assert last == [] && [] + (head + rest) == head + rest && [] + rest == rest;
    } else {
      assert (head + rest) + last == head + (rest + last);
    }
  }

  lemma InsertShape(q: Queues, n: Node, atHead: bool)
    requires Buffered(q) && n in q.prep
    ensures var r := Insert(q, n, atHead);
            r.pending == (if atHead then [n] + q.pending else q.pending + [n]) && r.buf == q.buf[n := r.buf[n]]
  {
  }

  lemma OthersKeepFirst(q: Queues, n: Node, p: PsState, first: Node)
    requires Partitioned(q) && HeadsAreExitPs(q) && Count(q.pending, first) > 0 && FirstInLine(q, first)
    ensures FirstInLine(CallerStep(q, n, p), first) && FirstInLine(WaiterStep(q, n), first)
  {
    hide Insert, Count, Tickets, Remove, Places;
    LiveOnly(q, first);
    Unplaced(q, n);
    RemoveFrame(q.pending, first, n);
    if n in q.prep && q.prep[n].phase.Aimed? {
      InsertKeepsFirst(q, n, q.prep[n].phase.atHead, first);
    } else {
      var c := CallerStep(q, n, p).buf[n];
      TicketsFrame(q.buf, n, c, q.pending);
      TicketsFrame(q.buf, n, c, Remove(q.pending, first));
      assert CallerStep(q, n, p).buf == q.buf[n := c];
    }
    var c := WaiterStep(q, n).buf[n];
    TicketsFrame(q.buf, n, c, q.pending);
    TicketsFrame(q.buf, n, c, Remove(q.pending, first));
  }

  predicate Ordered(s: State)
    requires Sized(s)
  {
    InOrder(s.q) && (s.w.at.Peeked? ==> FirstInLine(s.q, s.w.node))
  }

  lemma CallDoesNotPeek(s: State, action: nat, back: Pc)
    requires Sized(s) && !back.Peeked?
    ensures !CallPs(s, action, back).w.at.Peeked?
  {
  }

  lemma EventDoesNotPeek(s: State)
    requires Sized(s)
    ensures !HandleEvent(s).w.at.Peeked?
  {
    hide CallPs;
    CallDoesNotPeek(s.(psstate := Awake), CMD_SUBCMD_EXIT_PS, Events);
    CallDoesNotPeek(s.(env := s.env.(connected := false, txPending := 0)), CMD_SUBCMD_EXIT_PS, Events);
  }

  lemma ResponseDoesNotPeek(s: State)
    requires Sized(s) && InResponseSection(s.w.at)
    ensures !ResponseSection(s).w.at.Peeked?
  {
    hide CallPs, Complete, Accepts, HandleTimeoutStep;
    if s.w.at.Processing? && s.w.slot < 2 {
      var r := s.slots.buf[s.w.slot];
      CallDoesNotPeek(ApplyResponse(s, r).(w := s.w.(code := r.result)), CMD_SUBCMD_EXIT_PS, FinishPs);
    }
  }

  lemma DecideDoesNotPeek(s: State)
    requires Sized(s)
    ensures !Decide(s).w.at.Peeked? && !IdleStep(s).w.at.Peeked?
  {
    hide CallPs, Unlink;
    CallDoesNotPeek(s, CMD_SUBCMD_EXIT_PS, Transmit);
    CallDoesNotPeek(s, CMD_SUBCMD_ENTER_PS, Transmit);
  }

  lemma PowerDoesNotPeek(s: State, hwOk: bool)
    requires Placed(s) && !InResponseSection(s.w.at) && !InCommandSection(s.w.at)
    ensures !PowerSection(s, hwOk).w.at.Peeked?
  {
    hide HandleEvent, NothingToRead, Count;
    if s.w.at.Handling? { EventDoesNotPeek(s); }
  }

  lemma CommandPeeks(s: State, hwOk: bool)
    requires Placed(s) && InCommandSection(s.w.at)
    ensures var t := CommandSection(s, hwOk);
            t.w.at.Peeked? ==> s.w.at.Peek? && t.q == s.q && s.q.pending != [] && t.w.node == s.q.pending[0]
  {
    hide Decide, IdleStep, Complete, Count;
    DecideDoesNotPeek(s);
    match s.w.at
    case Calling =>
    case _ =>
  }

  /** The thread looks at the head of the queue only. */
  lemma PeeksAtHead(s: State, hwOk: bool)
    requires Placed(s)
    ensures var t := ThreadStep(s, hwOk);
            t.w.at.Peeked? ==> s.w.at.Peek? && t.q == s.q && s.q.pending != [] && t.w.node == s.q.pending[0]
  {
    hide ResponseSection, PowerSection, CommandSection, Refers;
    if InResponseSection(s.w.at) { ResponseDoesNotPeek(s); }
    else if InCommandSection(s.w.at) { CommandPeeks(s, hwOk); }
    else { PowerDoesNotPeek(s, hwOk); }
  }

  lemma StepOrdered(s: State, l: Label)
    requires Conserved(s) && Ordered(s)
    ensures Ordered(Step(s, l))
  {
    hide ThreadStep, CallerStep, WaiterStep, Partitioned, Ledger, InOrder, Count, Remove, Tickets;
    var m := StepMoves(s, l);
    MoveInOrder(s.q, m);
    assert HeadsAreExitPs(s.q) by { OrderParts(s.q); }
    match l
    case Thread(hwOk) => PeeksAtHead(s, hwOk);
      assert s.q.pending != [] ==> FirstInLine(s.q, s.q.pending[0]) by { HeadIsFirst(s.q); }
    case Caller(n) => if s.w.at.Peeked? { OthersKeepFirst(s.q, n, s.psstate, s.w.node); }
    case Waiter(n) => if s.w.at.Peeked? { OthersKeepFirst(s.q, n, s.psstate, s.w.node); }
    case _ =>
  }

  lemma OrderParts(q: Queues)
    requires InOrder(q)
    ensures HeadsAreExitPs(q)
  {
  }

  lemma HeadIsFirst(q: Queues)
    requires Buffered(q)
    ensures q.pending != [] ==> FirstInLine(q, q.pending[0])
  {
  }

  lemma InitOrdered(env: Env)
    ensures Ordered(Init(env))
  {
  }

  lemma {:induction false} RunOrdered(s: State, ls: seq<Label>)
    requires Conserved(s) && Ordered(s)
    ensures Ordered(Run(s, ls))
    decreases |ls|
  {
    hide Step, Partitioned, Ledger, Ordered;
    if ls == [] {
    } else {
      StepOrdered(s, ls[0]);
      StepConserves(s, ls[0]);
      RunOrdered(Step(s, ls[0]), ls[1..]);
    }
  }

  /** Over every run from the start the commands completed so far, EXIT_PS left out, are a
      prefix of the commands queued so far; and no command is queued twice in that list,
      so none is completed twice. */
  lemma CompletedInQueueOrder(env: Env, ls: seq<Label>)
    ensures var log := Run(Init(env), ls).q.log;
            log.done <= log.enqueued && Ascending(log.enqueued, log.tickets)
  {
    InitConserved(env);
    RunOrdered(Init(env), ls);
  }
}
