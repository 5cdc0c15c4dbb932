/** The wake-up of a waiting command, in whatever order the contexts run: how many calls of
    lbs_execute_next_command it takes, and what each of them does. */
module WakeRuns {
  import opened Options
  import opened LbsState
  import opened QueueMoves
  import opened NodeConservation
  import opened PowerSave
  import opened RetryBudget
  import opened GivingUp
  import CommandOrder
  import WakeProgress

  /** The events that send the card back to sleep or make the driver queue EXIT_PS itself. */
  predicate Disturbing(code: nat) {
    code == EVENT_PS_SLEEP || code == EVENT_DEAUTHENTICATED || code == EVENT_DISASSOCIATED
      || code == EVENT_LINK_LOST_NO_SCAN
  }

  /** What is excluded: a sleep or disconnect event, a timeout of the command in flight, and a
      failed answer to it.  Everything else may happen at any time: callers queue commands,
      EXIT_PS among them, waiters return nodes, responses and other events arrive, the
      timer ticks, settings change. */
  predicate Quiet(s: State, l: Label)
    requires Sized(s)
  {
    && (l.RaiseEvent? ==> !Disturbing(l.code))
    && !TimesOut(s, l)
    && (Answers(s, l) ==> IsPsReply(s.slots.buf[s.w.slot], CMD_SUBCMD_EXIT_PS))
  }

  predicate QuietRun(s: State, ls: seq<Label>)
    requires Sized(s)
    decreases |ls|
  {
    ls == [] || (Quiet(s, ls[0]) && QuietRun(Step(s, ls[0]), ls[1..]))
  }

  /** lbs_execute_next_command decides about the command at which it has looked. */
  predicate Decides(s: State, l: Label) {
    !s.slots.bug && l.Thread? && s.w.at.Peeked?
  }

  /** The calls of lbs_execute_next_command that get so far. */
  function Calls(s: State, ls: seq<Label>): nat
    requires Sized(s)
    decreases |ls|
  {
    if ls == [] then 0 else Bit(Decides(s, ls[0])) + Calls(Step(s, ls[0]), ls[1..])
  }

  /** A caller other than the thread puts its command, an EXIT_PS, at the head of the queue. */
  predicate Barges(s: State, l: Label) {
    && !s.slots.bug && l.Caller? && l.node in s.q.prep && s.q.prep[l.node].phase == Aimed(true)
    && !(s.w.at.Calling? && s.w.node == l.node)
  }

  /** Nobody does so in this run before the third call looks at the head of the queue; calls is
      the number of calls made before the run. */
  predicate Unbarged(s: State, ls: seq<Label>, calls: nat)
    requires Sized(s)
    decreases |ls|
  {
    ls == []
    || (!TooEarly(s, ls[0], calls) && Unbarged(Step(s, ls[0]), ls[1..], calls + Bit(Decides(s, ls[0]))))
  }

  predicate TooEarly(s: State, l: Label, calls: nat) {
    Barges(s, l) && !(calls == 2 && s.w.at.Peeked?)
  }

  // ---------------------------------------------------------------- the other contexts

  /** No disturbing event waits or is handled. */
  predicate Undisturbed(s: State) {
    (forall e :: e in s.fifo ==> !Disturbing(e)) && (s.w.at.Handling? ==> !Disturbing(s.w.event))
  }

  predicate Up(p: PsState) {
    p == Awake || p == FullPower
  }

  /** What the other contexts may do to the queues: add commands at the end, or, when one
      barges in, at the head. */
  predicate OnlyAdds(q: Queues, r: Queues, keep: Option<Node>, atHead: bool)
    requires Buffered(q) && Buffered(r)
  {
    && r.cur == q.cur && r.hand == q.hand
    && (if atHead then r.pending != [] && r.pending[1..] == q.pending else q.pending <= r.pending)
    && (keep.Some? && keep.value in q.prep ==>
          keep.value in r.prep && r.prep[keep.value] == q.prep[keep.value] && r.buf[keep.value] == q.buf[keep.value])
  }

  predicate ToHead(q: Queues, m: Node) {
    m in q.prep && q.prep[m].phase == Aimed(true)
  }

  lemma CallerAdds(q: Queues, m: Node, p: PsState, keep: Option<Node>)
    requires Buffered(q) && keep != Some(m)
    ensures OnlyAdds(q, CallerStep(q, m, p), keep, ToHead(q, m))
  {
    if m in q.prep {
      match q.prep[m].phase
      case Numbered => hide Aim, Insert;
      case Filled => hide Fill, Insert;
      case Aimed(_) => hide Fill, Aim;
      case _ => hide Fill, Aim, Insert;
    }
  }

  lemma TakeAdds(q: Queues, req: Request, keep: Option<Node>)
    requires Partitioned(q)
    ensures OnlyAdds(q, TakeNode(q, req), keep, false)
  {
    if q.free != [] { assert Places(q, q.free[0]) == 1; }
  }

  lemma WaiterAdds(q: Queues, m: Node, keep: Option<Node>)
    requires Partitioned(q)
    ensures OnlyAdds(q, WaiterStep(q, m), keep, false)
  {
    assert Places(q, m) == 1;
  }

  /** One section of another context. */
  lemma OthersAdd(s: State, l: Label, keep: Option<Node>)
    requires Conserved(s) && (!l.Thread? || s.slots.bug) && Quiet(s, l) && Up(s.psstate) && Undisturbed(s)
    requires l.Caller? ==> keep != Some(l.node)
    ensures var t := Step(s, l);
            && t.w == s.w && t.psstate == s.psstate && Undisturbed(t)
            && OnlyAdds(s.q, t.q, keep, !s.slots.bug && l.Caller? && ToHead(s.q, l.node))
  {
    hide ThreadStep, CallerStep, WaiterStep, TakeNode, Count, Ledger, Partitioned;
    if !s.slots.bug {
      match l
      case Alloc(req) => hide OnlyAdds; TakeAdds(s.q, req, keep);
      case Caller(m) => hide OnlyAdds; CallerAdds(s.q, m, s.psstate, keep);
      case Waiter(m) => hide OnlyAdds; WaiterAdds(s.q, m, keep);
      case _ =>
    }
  }

  // ---------------------------------------------------------------- the thread

  /** What a section of the thread does that neither calls, decides, stores nor finishes anything. */
  predicate CalmTo(s: State, t: State)
    requires s.q.pending != []
  {
    && (t.q == s.q || t.q == StoreSeqnum(s.q, s.w.num)) && t.psstate == s.psstate
    && !t.w.at.Calling? && !t.w.at.GoIdle? && !t.w.at.Dropping? && !t.w.at.Unlinked? && !Answered(t.w)
    && (t.w.at.Peeked? ==> t.w.node == s.q.pending[0])
    && Undisturbed(t)
  }

  /** The thread is at such a section. */
  predicate CalmAt(s: State)
    requires Sized(s)
  {
    && !s.w.at.Peeked? && !s.w.at.Unlinked? && !s.w.at.Dropping? && !s.w.at.GoIdle? && !s.w.at.Calling?
    && !Answered(s.w) && !Timed(s) && !AcceptsNow(s)
  }

  lemma ResponseCalm(s: State)
    requires Placed(s) && Undisturbed(s) && s.q.pending != [] && CalmAt(s) && InResponseSection(s.w.at)
    ensures CalmTo(s, ResponseSection(s))
  {
    hide Accepts, Complete, CallPs, Count;
  }

  lemma EventCalm(s: State)
    requires Sized(s) && Undisturbed(s) && s.q.pending != [] && Up(s.psstate) && !s.needtowakeup && s.w.at.Handling?
    ensures CalmTo(s, HandleEvent(s))
  {
    hide CallPs, Buffered, TwoSlots, Disconnect, StoreSeqnum;
  }

  lemma PowerCalm(s: State, hwOk: bool)
    requires Placed(s) && PowerSafe(s) && Undisturbed(s) && s.q.pending != [] && Up(s.psstate)
    requires !InResponseSection(s.w.at) && !InCommandSection(s.w.at)
    ensures CalmTo(s, PowerSection(s, hwOk))
  {
    hide HandleEvent, StoreSeqnum, Count, NothingToRead, SleepIsSafe, Gated;
    match s.w.at
    case Handling => EventCalm(s);
    case Events => if s.fifo != [] { assert s.fifo[0] in s.fifo; }
    case _ =>
  }

  lemma CommandCalm(s: State, hwOk: bool)
    requires Placed(s) && Undisturbed(s) && s.q.pending != [] && CalmAt(s) && InCommandSection(s.w.at)
    ensures CalmTo(s, CommandSection(s, hwOk))
  {
    hide Decide, IdleStep, Complete, Count, StoreSeqnum, Accepts;
  }

  lemma ThreadCalm(s: State, l: Label)
    requires Placed(s) && PowerSafe(s) && Undisturbed(s) && s.q.pending != [] && Up(s.psstate) && CalmAt(s)
    requires l.Thread? && !s.slots.bug
    ensures CalmTo(s, Step(s, l))
  {
    hide ResponseSection, PowerSection, CommandSection, CalmTo, PowerSafe, Count, Accepts;
    if InResponseSection(s.w.at) { ResponseCalm(s); }
    else if InCommandSection(s.w.at) { CommandCalm(s, l.hwOk); }
    else { PowerCalm(s, l.hwOk); }
  }

  // ---------------------------------------------------------------- the phases of a wake-up

  predicate ExitBuf(c: CmdNode) {
    IsExitPs(c) && c.callback == NoCallback && c.size > 0
  }

  /** The thread prepares EXIT_PS in node n. */
  predicate ExitPrep(q: Queues, n: Node)
    requires Buffered(q)
  {
    && n in q.prep && q.prep[n].req == PsRequest(CMD_SUBCMD_EXIT_PS)
    && match q.prep[n].phase
       case Filled => ExitBuf(q.buf[n])
       case Aimed(atHead) => atHead && ExitBuf(q.buf[n])
       case _ => true
  }

  predicate Idle(q: Queues) {
    q.cur == None && q.hand == None
  }

  /** The waiting command h is at this place of the queue. */
  predicate Waits(q: Queues, h: Node, i: nat) {
    i < |q.pending| && q.pending[i] == h && Buffered(q) && WakeProgress.NeedsWakeup(q.buf[h])
  }

  /** The first call is preparing EXIT_PS. */
  predicate Preparing(s: State, h: Node, n: Node)
    requires Sized(s)
  {
    && s.psstate == Awake && Idle(s.q) && Waits(s.q, h, 0)
    && s.w.at.Calling? && s.w.back.Transmit? && s.w.node == n && ExitPrep(s.q, n)
  }

  /** EXIT_PS stands before the waiting command. */
  predicate ExitQueued(s: State, h: Node, n: Node)
    requires Sized(s)
  {
    && s.psstate == Awake && Idle(s.q) && s.q.pending != [] && s.q.pending[0] == n && Waits(s.q, h, 1)
    && ExitBuf(s.q.buf[n])
    && (s.w.at.Calling? ==> s.w.back.Transmit? && s.w.node == n) && (s.w.at.Peeked? ==> s.w.node == n)
  }

  predicate ExitUnlinked(s: State, h: Node, n: Node)
    requires Sized(s)
  {
    && s.psstate == Awake && s.q.cur == None && s.q.hand == Some(n) && s.w.at.Unlinked? && s.w.node == n
    && Waits(s.q, h, 0) && ExitBuf(s.q.buf[n])
  }

  predicate ExitInFlight(s: State, h: Node, n: Node)
    requires Sized(s)
  {
    && s.psstate == Awake && s.q.cur == Some(n) && s.q.hand == None && !s.w.at.Calling?
    && Waits(s.q, h, 0) && ExitBuf(s.q.buf[n])
  }

  /** The waiting command is at the head: before the first call, and, at full power, once
      EXIT_PS has been answered. */
  predicate Waiting(s: State, h: Node, p: PsState)
    requires Sized(s)
  {
    && s.psstate == p && Idle(s.q) && Waits(s.q, h, 0)
    && !s.w.at.Calling? && (s.w.at.Peeked? ==> s.w.node == h)
  }

  /** The third call has looked at the waiting command, wherever that stands by now. */
  predicate Looked(s: State, h: Node)
    requires Sized(s)
  {
    s.psstate == FullPower && Idle(s.q) && s.w.at.Peeked? && s.w.node == h && Count(s.q.pending, h) > 0
  }

  /** The waiting command is handed to lbs_submit_command, at full power. */
  predicate Submitted(s: State, h: Node) {
    s.psstate == FullPower && s.q.cur == None && s.q.hand == Some(h) && s.w.at.Unlinked? && s.w.node == h
  }

  /** Where the wake-up is after so many calls. */
  predicate Stage(s: State, h: Node, n: Node, calls: nat)
    requires Sized(s)
  {
    && Undisturbed(s) && !s.w.at.GoIdle? && !s.w.at.Dropping? && !Answered(s.w)
    && match calls
       case 1 => Preparing(s, h, n) || ExitQueued(s, h, n)
       case 2 => ExitUnlinked(s, h, n) || ExitInFlight(s, h, n) || Waiting(s, h, FullPower) || Looked(s, h)
       case _ => false
  }

  lemma {:induction false} InQueue(ns: seq<Node>, i: nat)
    requires i < |ns|
    ensures Count(ns, ns[i]) > 0
  {
    if i == 0 {
    } else {
      InQueue(ns[1..], i - 1);
    }
  }

  /** A waiting command waits on with the same buffer, as long as it stays in the queue. */
  lemma StillWaits(s: State, l: Label, h: Node, i: nat, j: nat)
    requires Conserved(s) && Waits(s.q, h, i) && j < |Step(s, l).q.pending| && Step(s, l).q.pending[j] == h
    ensures Waits(Step(s, l).q, h, j)
  {
    hide Step, Count, Partitioned, Ledger;
    InQueue(s.q.pending, i);
    InQueue(Step(s, l).q.pending, j);
    LiveKeepsBuffer(s, l, h);
  }

  lemma SameNode(s: State, l: Label, n: Node)
    requires Conserved(s) && Live(s.q, n) && Live(Step(s, l).q, n)
    ensures Step(s, l).q.buf[n] == s.q.buf[n]
  {
    hide Step;
    LiveKeepsBuffer(s, l, n);
  }

  // ---------------------------------------------------------------- first call

  lemma ExitFills(q: Queues, n: Node)
    requires Buffered(q) && ExitPrep(q, n) && q.prep[n].phase.Numbered?
    ensures var r := Fill(q, n);
            r.pending == q.pending && r.cur == q.cur && r.hand == q.hand && ExitPrep(r, n)
            && forall x: Node :: x != n ==>
                 r.buf[x] == q.buf[x] && (x in r.prep <==> x in q.prep) && (x in q.prep ==> r.prep[x] == q.prep[x])
  {
  }

  lemma ExitAdvances(q: Queues, n: Node, p: PsState)
    requires Buffered(q) && ExitPrep(q, n) && p == Awake
    ensures var r := CallerStep(q, n, p);
            && r.cur == q.cur && r.hand == q.hand
            && (if n in r.prep then ExitPrep(r, n) && r.pending == q.pending
                else r.pending == [n] + q.pending && ExitBuf(r.buf[n]))
            && forall x: Node :: x != n ==>
                 r.buf[x] == q.buf[x] && (x in r.prep <==> x in q.prep) && (x in q.prep ==> r.prep[x] == q.prep[x])
  {
    match q.prep[n].phase
    case Numbered => ExitFills(q, n);
    case Taken => hide Fill, Aim, Insert;
    case Loaded(_) => hide Fill, Aim, Insert;
    case Filled => hide Fill, Insert;
    case Aimed(_) => hide Fill, Aim;
  }

  lemma CallerChangesQ(s: State, n: Node)
    requires Sized(s) && !s.slots.bug
    ensures Step(s, Caller(n)) == s.(q := CallerStep(s.q, n, s.psstate))
  {
    hide CallerStep, ThreadStep, WaiterStep;
  }

  lemma CallWaits(s: State, l: Label)
    requires Sized(s) && s.w.at.Calling? && l.Thread? && !s.slots.bug
    ensures Step(s, l) == if s.w.node in s.q.prep then s else Goto(s, s.w.back)
  {
    hide ResponseSection, PowerSection;
  }

  lemma PreparingStep(s: State, l: Label, h: Node, n: Node)
    requires Conserved(s) && Quiet(s, l) && !Barges(s, l) && Stage(s, h, n, 1) && Preparing(s, h, n)
    ensures Stage(Step(s, l), h, n, 1) && !Decides(s, l)
  {
    hide Step, Partitioned, Ledger, Refers, Quiet, CallerStep, ExitBuf, Count;
    var t := Step(s, l);
    if l == Caller(n) && !s.slots.bug {
      CallerChangesQ(s, n);
      ExitAdvances(s.q, n, s.psstate);
      StillWaits(s, l, h, 0, if n in t.q.prep then 0 else 1);
    } else if l.Thread? && !s.slots.bug {
      CallWaits(s, l);
    } else {
      assert s.slots.bug && l == Caller(n) ==> t == s by { if s.slots.bug { BugStops(s, l); } }
      if t != s {
        OthersAdd(s, l, Some(n));
        StillWaits(s, l, h, 0, 0);
      }
    }
  }

  lemma BugStops(s: State, l: Label)
    requires Sized(s) && s.slots.bug
    ensures Step(s, l) == s
  {
  }

  // ---------------------------------------------------------------- second call

  lemma DecideUnlinks(s: State, l: Label, n: Node)
    requires Placed(s) && s.w.at.Peeked? && s.w.node == n && l.Thread? && !s.slots.bug
    requires s.psstate == FullPower || (s.psstate == Awake && IsExitPs(s.q.buf[n]))
    ensures Step(s, l) == s.(w := s.w.(at := Unlinked), q := s.q.(pending := Remove(s.q.pending, n), hand := Some(n)))
    ensures s.q.pending != [] && s.q.pending[0] == n ==> Remove(s.q.pending, n) == s.q.pending[1..]
  {
    hide ResponseSection, PowerSection, CallPs, Complete, TwoSlots, IdleStep, Count;
  }

  lemma ExitQueuedStep(s: State, l: Label, h: Node, n: Node)
    requires Conserved(s) && PowerSafe(s) && Quiet(s, l) && !Barges(s, l) && Stage(s, h, n, 1) && ExitQueued(s, h, n)
    ensures Stage(Step(s, l), h, n, 1 + Bit(Decides(s, l)))
  {
    hide Step, Partitioned, Ledger, PowerSafe, Quiet, ExitBuf, Count;
    var t := Step(s, l);
    InQueue(s.q.pending, 0);
    if l.Thread? && !s.slots.bug {
      if s.w.at.Calling? {
        assert n !in s.q.prep by { QueuedOnly(s.q, n); }
        CallWaits(s, l);
      } else if s.w.at.Peeked? {
        DecideUnlinks(s, l, n) by { assert IsExitPs(s.q.buf[n]) by { ExitParts(s.q.buf[n]); } }
        StillWaits(s, l, h, 1, 0);
      } else {
        ThreadCalm(s, l);
        StillWaits(s, l, h, 1, 1);
      }
    } else {
      if s.w.at.Calling? { assert n !in s.q.prep by { QueuedOnly(s.q, n); } }
      OthersAdd(s, l, None);
      StillWaits(s, l, h, 1, 1);
      InQueue(t.q.pending, 0);
      SameNode(s, l, n);
    }
  }

  lemma ExitParts(c: CmdNode)
    requires ExitBuf(c)
    ensures IsExitPs(c)
  {
  }

  lemma QueuedOnly(q: Queues, n: Node)
    requires Partitioned(q) && Count(q.pending, n) > 0
    ensures n !in q.prep
  {
    assert Places(q, n) == 1;
  }

  lemma UnlinkedStores(s: State, l: Label)
    requires Sized(s) && s.w.at.Unlinked? && l.Thread? && !s.slots.bug
    ensures Step(s, l) == s.(w := s.w.(at := Download), q := s.q.(cur := Some(s.w.node), hand := None))
  {
    hide ResponseSection, PowerSection, Decide, IdleStep, Complete;
  }

  lemma ExitUnlinkedStep(s: State, l: Label, h: Node, n: Node)
    requires Conserved(s) && Quiet(s, l) && !Barges(s, l) && Stage(s, h, n, 2) && ExitUnlinked(s, h, n)
    ensures Stage(Step(s, l), h, n, 2) && !Decides(s, l)
  {
    hide Step, Partitioned, Ledger, Refers, Quiet, ExitBuf, Count;
    var t := Step(s, l);
    if l.Thread? && !s.slots.bug {
      UnlinkedStores(s, l);
    } else {
      OthersAdd(s, l, None);
      StillWaits(s, l, h, 0, 0);
      SameNode(s, l, n);
    }
  }

  /** The successful answer to EXIT_PS. */
  lemma AnswerWakes(s: State, l: Label, n: Node)
    requires Placed(s) && AcceptsNow(s) && IsPsReply(s.slots.buf[s.w.slot], CMD_SUBCMD_EXIT_PS) && l.Thread?
             && !s.slots.bug
    requires s.q.cur == Some(n) && s.q.buf[n].callback == NoCallback
    ensures var t := Step(s, l);
            && t.q == Complete(s.q, n, 0) && t.psstate == FullPower && t.w.at.ClearSlot? && t.fifo == s.fifo
  {
    hide PowerSection, CommandSection, CallPs, Complete, Count;
  }

  lemma CompleteFrees(q: Queues, n: Node)
    requires Buffered(q) && q.buf[n].callback == NoCallback
    ensures var r := Complete(q, n, 0);
            && r.cur == None && r.hand == None && r.pending == q.pending && r.prep == q.prep
            && forall x: Node :: x != n ==> r.buf[x] == q.buf[x]
  {
  }

  lemma ExitInFlightStep(s: State, l: Label, h: Node, n: Node)
    requires Conserved(s) && PowerSafe(s) && Quiet(s, l) && !Barges(s, l) && Stage(s, h, n, 2) && ExitInFlight(s, h, n)
    ensures Stage(Step(s, l), h, n, 2) && !Decides(s, l)
  {
    hide Step, Partitioned, Ledger, PowerSafe, Count, Accepts;
    var t := Step(s, l);
    if l.Thread? && !s.slots.bug {
      if AcceptsNow(s) {
        AnswerWakes(s, l, n);
        CompleteFrees(s.q, n);
        assert n !in s.q.prep by { InFlightOnly(s.q, n); }
        StillWaits(s, l, h, 0, 0);
      } else {
        ThreadCalm(s, l);
        StillWaits(s, l, h, 0, 0);
      }
    } else {
      OthersAdd(s, l, None);
      StillWaits(s, l, h, 0, 0);
      SameNode(s, l, n);
    }
  }

  lemma InFlightOnly(q: Queues, n: Node)
    requires Partitioned(q) && q.cur == Some(n)
    ensures n !in q.prep
  {
    assert Places(q, n) == 1;
  }

  // ---------------------------------------------------------------- third call

  lemma WaitingStep(s: State, l: Label, h: Node, p: PsState)
    requires Conserved(s) && PowerSafe(s) && Quiet(s, l) && !Barges(s, l) && Up(p) && Waiting(s, h, p)
    requires Undisturbed(s) && !s.w.at.GoIdle? && !s.w.at.Dropping? && !Answered(s.w)
    ensures !Decides(s, l) ==> var t := Step(s, l);
              Waiting(t, h, p) && Undisturbed(t) && !t.w.at.GoIdle? && !t.w.at.Dropping? && !Answered(t.w)
    ensures Decides(s, l) && p == FullPower ==> Submitted(Step(s, l), h)
  {
    hide Step, Partitioned, Ledger, PowerSafe, Quiet, Count, Remove;
    var t := Step(s, l);
    if l.Thread? && !s.slots.bug {
      if !s.w.at.Peeked? {
        ThreadCalm(s, l);
        StillWaits(s, l, h, 0, 0);
      } else if p == FullPower {
        DecideUnlinks(s, l, h);
      }
    } else {
      OthersAdd(s, l, None);
      StillWaits(s, l, h, 0, 0);
    }
  }

  /** Once the third call has looked, whatever is put before the command comes too late. */
  lemma LookedStep(s: State, l: Label, h: Node)
    requires Conserved(s) && Quiet(s, l) && Undisturbed(s) && Looked(s, h)
    ensures var t := Step(s, l);
            if Decides(s, l) then Submitted(t, h) else Looked(t, h) && Undisturbed(t) && t.w == s.w
  {
    hide Step, Partitioned, Ledger, Quiet, Count, Remove;
    if l.Thread? && !s.slots.bug {
      DecideUnlinks(s, l, h);
    } else {
      OthersAdd(s, l, None);
      StillQueued(s.q.pending, Step(s, l).q.pending, h);
    }
  }

  lemma StillQueued(ns: seq<Node>, ms: seq<Node>, h: Node)
    requires Count(ns, h) > 0 && (ns <= ms || (ms != [] && ms[1..] == ns))
    ensures Count(ms, h) > 0
  {
    var i := Find(ns, h);
    InQueue(ms, if ns <= ms then i else i + 1);
  }

  lemma {:induction false} Find(ns: seq<Node>, h: Node) returns (i: nat)
    requires Count(ns, h) > 0
    ensures i < |ns| && ns[i] == h
  {
    if ns[0] == h {
      i := 0;
    } else {
      var j := Find(ns[1..], h);
      i := j + 1;
    }
  }

  lemma PeekedIsLooked(s: State, h: Node)
    requires Sized(s) && s.w.at.Peeked? && (Looked(s, h) || Waiting(s, h, FullPower))
    ensures Looked(s, h)
  {
    if Waiting(s, h, FullPower) { InQueue(s.q.pending, 0); }
  }

  lemma StageStep(s: State, l: Label, h: Node, n: Node, calls: nat)
    requires Conserved(s) && PowerSafe(s) && Quiet(s, l) && !TooEarly(s, l, calls) && Stage(s, h, n, calls)
    ensures if calls == 2 && Decides(s, l) then Submitted(Step(s, l), h)
            else Stage(Step(s, l), h, n, calls + Bit(Decides(s, l)))
  {
    hide Step, Partitioned, Ledger, PowerSafe, Quiet, Preparing, ExitQueued, ExitUnlinked, ExitInFlight, Undisturbed,
         Count;
    if calls == 1 {
      if Preparing(s, h, n) { PreparingStep(s, l, h, n); } else { ExitQueuedStep(s, l, h, n); }
    } else if ExitUnlinked(s, h, n) {
      assert !s.w.at.Peeked? by { UnlinkedPlace(s, h, n); }
      ExitUnlinkedStep(s, l, h, n);
    } else if ExitInFlight(s, h, n) {
      assert !s.w.at.Peeked? by { InFlightPlace(s, h, n); }
      ExitInFlightStep(s, l, h, n);
    } else if s.w.at.Peeked? {
      PeekedIsLooked(s, h);
      LookedStep(s, l, h);
    } else {
      WaitingStep(s, l, h, FullPower);
    }
  }

  lemma UnlinkedPlace(s: State, h: Node, n: Node)
    requires Sized(s) && ExitUnlinked(s, h, n)
    ensures s.w.at.Unlinked?
  {
  }

  lemma InFlightPlace(s: State, h: Node, n: Node)
    requires Placed(s) && ExitInFlight(s, h, n)
    ensures !s.w.at.Peeked?
  {
  }

  // ---------------------------------------------------------------- overtaken

  /** At least so many commands stand before h in the queue. */
  predicate Behind(q: Queues, h: Node, lo: nat) {
    lo <= |q.pending| && h in q.pending[lo..]
  }

  /** Too many commands stand before h for the calls that are left. */
  predicate Overtaken(s: State, h: Node, calls: nat) {
    Behind(s.q, h, if calls == 1 then 2 else 1) && (s.w.at.Peeked? ==> s.w.node != h)
  }

  /** There will be as soon as EXIT_PS is queued. */
  predicate PreparingBehind(s: State, h: Node, n: Node)
    requires Sized(s)
  {
    && s.psstate == Awake && Undisturbed(s) && Behind(s.q, h, 1)
    && s.w.at.Calling? && s.w.back.Transmit? && s.w.node == n && ExitPrep(s.q, n)
  }

  predicate Blocked(s: State, h: Node, n: Node, calls: nat)
    requires Sized(s)
  {
    Overtaken(s, h, calls) || (calls == 1 && PreparingBehind(s, h, n))
  }

  lemma {:induction false} RemoveBehind(ns: seq<Node>, x: Node, h: Node, lo: nat)
    requires lo < |ns| && h in ns[lo + 1..] && x != h
    ensures lo <= |Remove(ns, x)| && h in Remove(ns, x)[lo..]
  {
    if ns[0] == x {
      assert ns[lo + 1..] == ns[1..][lo..];
    } else if lo == 0 {
      KeepsOther(ns[1..], x, h);
    } else {
      assert ns[lo + 1..] == ns[1..][lo..];
      RemoveBehind(ns[1..], x, h, lo - 1);
      assert Remove(ns, x)[lo..] == Remove(ns[1..], x)[lo - 1..];
    }
  }

  lemma {:induction false} KeepsOther(ns: seq<Node>, x: Node, h: Node)
    requires h in ns && x != h
    ensures h in Remove(ns, x)
  {
    if ns[0] == x || ns[0] == h {
    } else {
      KeepsOther(ns[1..], x, h);
    }
  }

  lemma AddedBehind(ns: seq<Node>, n: Node, h: Node, lo: nat)
    requires lo <= |ns| && h in ns[lo..]
    ensures h in ([n] + ns)[lo + 1..] && h in ([n] + ns)[lo..] && h in (ns + [n])[lo..]
  {
    assert ([n] + ns)[lo + 1..] == ns[lo..] && (ns + [n])[lo..] == ns[lo..] + [n];
    var k :| lo <= k < |ns| && ns[k] == h;
    assert ([n] + ns)[k + 1] == h;
  }

  /** A move leaves as many commands before h as there were, but for one that is unlinked. */
  lemma MoveBehind(q: Queues, m: Move, h: Node, lo: nat)
    requires Buffered(q) && Behind(q, h, lo) && (m.Detach? ==> lo > 0 && m.node != h)
    ensures Behind(Apply(q, m), h, if m.Detach? then lo - 1 else lo)
  {
    match m
    case Detach(n) => RemoveBehind(q.pending, n, h, lo - 1);
    case Retry(n) => AddedBehind(q.pending, n, h, lo);
    case Advance(n, p) => hide Fill, Aim; AddedBehind(q.pending, n, h, lo); AdvancePending(q, n, p);
    case Finish(_, _) =>
    case _ =>
  }

  lemma AdvancePending(q: Queues, n: Node, p: PsState)
    requires Buffered(q)
    ensures CallerStep(q, n, p).pending in {q.pending, [n] + q.pending, q.pending + [n]}
  {
  }

  lemma NotFirst(q: Queues, h: Node)
    requires Partitioned(q) && Behind(q, h, 1)
    ensures q.pending[0] != h
  {
    var k :| 1 <= k < |q.pending| && q.pending[k] == h;
    InQueue(q.pending[1..], k - 1);
    assert Places(q, h) == 1;
  }

  lemma OvertakenStep(s: State, l: Label, h: Node, calls: nat)
    requires Conserved(s) && Overtaken(s, h, calls) && (calls == 1 || calls == 2)
    ensures if Decides(s, l) then (calls == 1 ==> Overtaken(Step(s, l), h, 2)) && Step(s, l).q.hand != Some(h)
            else Overtaken(Step(s, l), h, calls)
  {
    hide Step, Partitioned, Ledger, Apply, Behind, Count;
    var m := StepMoves(s, l);
    var lo := if calls == 1 then 2 else 1;
    MoveBehind(s.q, m, h, lo);
    if Decides(s, l) { HandAfter(s.q, m); }
    assert s.q.pending != [] && s.q.pending[0] != h by { Fewer(s.q, h, lo, 1); NotFirst(s.q, h); }
    if l.Thread? && !s.slots.bug {
      StepIsThread(s, l);
      CommandOrder.PeeksAtHead(s, l.hwOk);
      if m.Detach? {
        Fewer(Step(s, l).q, h, lo - 1, lo - 1);
      } else {
        Fewer(Step(s, l).q, h, lo, if calls == 1 then 1 else lo);
      }
    } else {
      OthersControl(s, l);
    }
  }

  lemma HandAfter(q: Queues, m: Move)
    requires Buffered(q) && q.hand == None
    ensures m.Detach? ==> Apply(q, m).hand == Some(m.node)
    ensures !m.Detach? ==> Apply(q, m).hand == None
  {
  }

  lemma Fewer(q: Queues, h: Node, lo: nat, less: nat)
    requires Behind(q, h, lo) && less <= lo
    ensures Behind(q, h, less) && q.pending != []
  {
    var k :| lo <= k < |q.pending| && q.pending[k] == h;
    assert q.pending[less..][k - less] == h;
  }

  lemma PreparingBehindStep(s: State, l: Label, h: Node, n: Node)
    requires Conserved(s) && Quiet(s, l) && PreparingBehind(s, h, n)
    ensures Blocked(Step(s, l), h, n, 1) && !Decides(s, l)
  {
    hide Step, Partitioned, Ledger, Refers, Quiet, CallerStep, ExitBuf, Count;
    var t := Step(s, l);
    if l == Caller(n) && !s.slots.bug {
      CallerChangesQ(s, n);
      ExitAdvances(s.q, n, s.psstate);
      AddedBehind(s.q.pending, n, h, 1);
    } else if l.Thread? && !s.slots.bug {
      CallWaits(s, l);
    } else {
      assert s.slots.bug && l == Caller(n) ==> t == s by { if s.slots.bug { BugStops(s, l); } }
      if t != s {
        OthersAdd(s, l, Some(n));
        GrowsBehind(s.q.pending, t.q.pending, h);
      }
    }
  }

  lemma GrowsBehind(ns: seq<Node>, ms: seq<Node>, h: Node)
    requires ns != [] && h in ns[1..] && (ns <= ms || (ms != [] && ms[1..] == ns))
    ensures h in ms[1..]
  {
    var k :| 1 <= k < |ns| && ns[k] == h;
    if ns <= ms { assert ms[1..][k - 1] == h; } else { assert ms[1..][k] == h; }
  }

  /** An EXIT_PS that barges in overtakes the waiting command for good. */
  lemma BargeBlocks(s: State, l: Label, h: Node, n: Node, calls: nat)
    requires Conserved(s) && Quiet(s, l) && TooEarly(s, l, calls) && Stage(s, h, n, calls)
    ensures Blocked(Step(s, l), h, n, calls) && !Decides(s, l)
  {
    hide Step, Partitioned, Ledger, Quiet, ExitBuf, Count;
    var t := Step(s, l);
    if calls == 1 && Preparing(s, h, n) {
      OthersAdd(s, l, Some(n));
    } else {
      if calls == 1 && s.w.at.Calling? { assert n !in s.q.prep by { InQueue(s.q.pending, 0); QueuedOnly(s.q, n); } }
      OthersAdd(s, l, None);
      if calls == 1 {
        assert t.q.pending[2..][0] == h;
        assert n != h by { TwoPlaces(s.q); }
      } else {
        assert t.q.pending[1..] == s.q.pending;
      }
    }
  }

  lemma TwoPlaces(q: Queues)
    requires Partitioned(q) && |q.pending| > 1
    ensures q.pending[0] != q.pending[1]
  {
    assert q.pending[1..][0] == q.pending[1];
    NotFirst(q, q.pending[1]);
  }

  lemma StageLives(s: State, h: Node, n: Node, calls: nat)
    requires Sized(s) && Stage(s, h, n, calls)
    ensures Live(s.q, h)
  {
    hide Count;
    if s.q.pending != [] { InQueue(s.q.pending, 0); }
    if |s.q.pending| > 1 { InQueue(s.q.pending, 1); }
  }

  // ---------------------------------------------------------------- runs

  /** The thread has looked at a command that needs full power, at the head of the queue, the
      card is awake, and no disturbing event is under way. */
  predicate Begins(s: State) {
    && Conserved(s) && PowerSafe(s) && !s.slots.bug && s.w.at.Peeked? && s.psstate == Awake
    && s.q.pending != [] && s.q.pending[0] == s.w.node && WakeProgress.NeedsWakeup(s.q.buf[s.w.node])
    && Undisturbed(s)
  }

  /** The call takes a node for EXIT_PS if there is a free one, whoever holds the others, and
      does nothing otherwise. */
  lemma CallWakes(s: State, hwOk: bool)
    requires Begins(s)
    ensures s.q.free == [] ==> Step(s, Thread(hwOk)) == Goto(s, Transmit) && Waiting(Goto(s, Transmit), s.w.node, Awake)
    ensures s.q.free != [] ==> Stage(Step(s, Thread(hwOk)), s.w.node, s.q.free[0], 1)
  {
    hide ResponseSection, PowerSection, Complete, Partitioned, Ledger, PowerSafe, Count, Remove;
    assert s.q.cur == None && s.q.hand == None;
  }

  lemma StepInvariants(s: State, l: Label)
    requires Conserved(s) && PowerSafe(s)
    ensures Conserved(Step(s, l)) && PowerSafe(Step(s, l))
  {
    hide Step, Conserved, PowerSafe;
    StepConserves(s, l);
    StepSafe(s, l);
  }

  lemma {:induction false} WaitingRun(s: State, ls: seq<Label>, h: Node)
    requires Conserved(s) && PowerSafe(s) && QuietRun(s, ls) && Unbarged(s, ls, 1) && Calls(s, ls) == 0
             && Waiting(s, h, Awake)
    requires Undisturbed(s) && !s.w.at.GoIdle? && !s.w.at.Dropping? && !Answered(s.w)
    ensures Waiting(Run(s, ls), h, Awake)
    decreases |ls|
  {
    hide Step, Partitioned, Ledger, Refers, PowerSafe, Waiting, Undisturbed, Quiet, Decides, Barges;
    if ls == [] {
    } else {
      WaitingStep(s, ls[0], h, Awake);
      StepInvariants(s, ls[0]);
      WaitingRun(Step(s, ls[0]), ls[1..], h);
    }
  }

  lemma {:induction false} BlockedRun(s: State, ls: seq<Label>, h: Node, n: Node, calls: nat)
    requires Conserved(s) && PowerSafe(s) && QuietRun(s, ls) && Blocked(s, h, n, calls) && 1 <= calls
             && calls + Calls(s, ls) <= 2
    ensures Blocked(Run(s, ls), h, n, calls + Calls(s, ls))
    decreases |ls|
  {
    hide Step, Partitioned, Ledger, Refers, PowerSafe, Overtaken, PreparingBehind, Quiet, Decides;
    if ls == [] {
    } else {
      if Overtaken(s, h, calls) { OvertakenStep(s, ls[0], h, calls); } else { PreparingBehindStep(s, ls[0], h, n); }
      StepInvariants(s, ls[0]);
      BlockedRun(Step(s, ls[0]), ls[1..], h, n, calls + Bit(Decides(s, ls[0])));
    }
  }

  /** Up to the third call the wake-up goes on exactly as long as nobody barges in. */
  lemma {:induction false} StageRun(s: State, ls: seq<Label>, h: Node, n: Node, calls: nat)
    requires Conserved(s) && PowerSafe(s) && QuietRun(s, ls) && Stage(s, h, n, calls) && calls + Calls(s, ls) <= 2
    ensures if Unbarged(s, ls, calls) then Stage(Run(s, ls), h, n, calls + Calls(s, ls))
            else Blocked(Run(s, ls), h, n, calls + Calls(s, ls))
    ensures Unbarged(s, ls, calls) ==> Run(s, ls).q.buf[h] == s.q.buf[h]
    decreases |ls|
  {
    hide Step, Partitioned, Ledger, Refers, PowerSafe, Stage, Blocked, Quiet, Decides, TooEarly, Live;
    assert 1 <= calls by { StageCalls(s, h, n, calls); }
    if ls == [] {
    } else {
      StepInvariants(s, ls[0]);
      if TooEarly(s, ls[0], calls) {
        BargeBlocks(s, ls[0], h, n, calls);
        BlockedRun(Step(s, ls[0]), ls[1..], h, n, calls);
      } else {
        StageStep(s, ls[0], h, n, calls);
        StageLives(s, h, n, calls);
        StageLives(Step(s, ls[0]), h, n, calls + Bit(Decides(s, ls[0])));
        SameNode(s, ls[0], h);
        StageRun(Step(s, ls[0]), ls[1..], h, n, calls + Bit(Decides(s, ls[0])));
      }
    }
  }

  lemma StageCalls(s: State, h: Node, n: Node, calls: nat)
    requires Sized(s) && Stage(s, h, n, calls)
    ensures calls == 1 || calls == 2
  {
  }

  /** In every quiet run in which nobody else puts EXIT_PS at the head of the queue: when the
      thread is back from the first call, EXIT_PS stands there if and only if a node was free
      when the call decided. */
  lemma FirstCallExactly(s: State, hwOk: bool, ls: seq<Label>)
    requires Begins(s)
    requires var t := Step(s, Thread(hwOk));
             QuietRun(t, ls) && Unbarged(t, ls, 1) && Calls(t, ls) == 0 && Run(t, ls).w.at.Transmit?
    ensures var q := Run(Step(s, Thread(hwOk)), ls).q;
            (q.pending != [] && IsExitPs(q.buf[q.pending[0]])) <==> s.q.free != []
  {
    hide Step, Run, Partitioned, Ledger, PowerSafe, QuietRun, Unbarged, Calls;
    var t := Step(s, Thread(hwOk));
    CallWakes(s, hwOk);
    StepInvariants(s, Thread(hwOk));
    if s.q.free != [] { StageRun(t, ls, s.w.node, s.q.free[0], 1); } else { WaitingRun(t, ls, s.w.node); }
  }

  /** Where the next two calls have been made. */
  lemma {:induction false} SecondFurtherCall(s: State, ls: seq<Label>, calls: nat) returns (k: nat)
    requires Sized(s) && calls <= 1 && calls + Calls(s, ls) >= 2
    ensures k < |ls| && calls + Calls(s, ls[..k]) == 1 && Decides(Run(s, ls[..k]), ls[k])
            && (QuietRun(s, ls) ==> QuietRun(s, ls[..k]))
    ensures QuietRun(s, ls) ==> Quiet(Run(s, ls[..k]), ls[k])
    decreases |ls|
  {
    hide Step, Decides, Quiet;
    if calls == 1 && Decides(s, ls[0]) {
      k := 0;
    } else {
      var j := SecondFurtherCall(Step(s, ls[0]), ls[1..], calls + Bit(Decides(s, ls[0])));
      k := j + 1;
      assert ls[..k][1..] == ls[1..][..j];
    }
  }

  lemma RunInvariants(s: State, ls: seq<Label>)
    requires Conserved(s) && PowerSafe(s)
    ensures Conserved(Run(s, ls)) && PowerSafe(Run(s, ls))
  {
    hide Run, Conserved, PowerSafe;
    RunConserves(s, ls);
    RunSafe(s, ls);
  }

  lemma DecidesIsThread(s: State, l: Label)
    requires Decides(s, l)
    ensures l.Thread? && s.w.at.Peeked?
  {
  }

  lemma SubmittedLives(s: State, h: Node)
    requires Submitted(s, h)
    ensures Live(s.q, h)
  {
  }

  lemma HeadLives(q: Queues)
    requires q.pending != []
    ensures Live(q, q.pending[0])
  {
    InQueue(q.pending, 0);
  }

  /** In every quiet run from a first call that finds a free node, with two more calls of
      lbs_execute_next_command, whatever else happens and in whatever order: the third call
      submits the waiting command, in its old buffer and at full power, if and only if nobody
      else puts EXIT_PS at the head of the queue before that call looks there. */
  lemma ThirdCallExactly(s: State, hwOk: bool, ls: seq<Label>) returns (k: nat)
    requires Begins(s) && s.q.free != []
    requires var t := Step(s, Thread(hwOk)); QuietRun(t, ls) && 1 + Calls(t, ls) >= 3
    ensures var t := Step(s, Thread(hwOk));
            && k < |ls| && 1 + Calls(t, ls[..k]) == 2 && Decides(Run(t, ls[..k]), ls[k])
            && var u := Step(Run(t, ls[..k]), ls[k]);
               && (Submitted(u, s.w.node) <==> Unbarged(t, ls[..k], 1))
               && (Submitted(u, s.w.node) ==> u.q.buf[s.w.node] == s.q.buf[s.w.node])
  {
    hide Step, Run, Partitioned, Ledger, PowerSafe, QuietRun, Unbarged, Calls, Stage, Live, Quiet, Decides;
    var h, n := s.w.node, s.q.free[0];
    var t := Step(s, Thread(hwOk));
    CallWakes(s, hwOk);
    StepInvariants(s, Thread(hwOk));
    k := SecondFurtherCall(t, ls, 0);
    var r := Run(t, ls[..k]);
    RunInvariants(t, ls[..k]);
    StageRun(t, ls[..k], h, n, 1);
    if Unbarged(t, ls[..k], 1) {
      assert !TooEarly(r, ls[k], 2) by { DecidesIsThread(r, ls[k]); }
      StageStep(r, ls[k], h, n, 2);
      StageLives(t, h, n, 1);
      StageLives(r, h, n, 2);
      SubmittedLives(Step(r, ls[k]), h);
      HeadLives(s.q);
      SameNode(s, Thread(hwOk), h);
      SameNode(r, ls[k], h);
    } else {
      OvertakenStep(r, ls[k], h, 2);
    }
  }
}
