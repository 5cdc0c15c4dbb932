/** Runs up to the moment at which the worker thread gets to a certain section. */
module RunUntil {
  import opened Options
  import opened LbsState
  import opened QueueMoves
  import opened NodeConservation

  /** The run ends when the thread is at this section for the first time after a step. */
  predicate Reaches(s: State, ls: seq<Label>, at: Pc)
    requires Sized(s)
    decreases |ls|
  {
    && ls != []
    && var t := Step(s, ls[0]);
       if |ls| == 1 then t.w.at == at else t.w.at != at && Reaches(t, ls[1..], at)
  }

  lemma RunOfOne(s: State, ls: seq<Label>)
    requires Sized(s) && |ls| == 1
    ensures Run(s, ls) == Step(s, ls[0])
  {
    hide Step;
    assert ls[1..] == [];
  }

  lemma RunOfMore(s: State, ls: seq<Label>)
    requires Sized(s) && ls != []
    ensures Run(s, ls) == Run(Step(s, ls[0]), ls[1..])
  {
    hide Step;
  }

  /** A section of another context leaves the thread, and a card that is not asleep, alone. */
  lemma OthersLeave(s: State, l: Label)
    requires Sized(s) && (!l.Thread? || s.slots.bug) && s.psstate != Sleep
    ensures Step(s, l).w == s.w && Step(s, l).psstate == s.psstate
  {
    hide ThreadStep, CallerStep, WaiterStep, TakeNode;
  }

  // ---------------------------------------------------------------- lbs_ps_wakeup and lbs_ps_sleep

  predicate IsPs(c: CmdNode, action: nat) {
    c.command == 0x21 && c.action == action
  }

  /** The thread prepares a PS command in node n, or has just queued it. */
  predicate OwnCall(s: State, n: Node, action: nat, back: Pc)
    requires Sized(s)
  {
    && s.w.at.Calling? && s.w.node == n && s.w.back == back && s.psstate != Sleep
    && if n in s.q.prep then
         && s.q.prep[n].req == Request(0x21, action, 18, Prepare(true))
         && (s.q.prep[n].phase.Filled? || s.q.prep[n].phase.Aimed? ==> IsPs(s.q.buf[n], action) && s.q.buf[n].size > 0)
       else n in s.q.pending && IsPs(s.q.buf[n], action)
  }

  lemma OwnAdvances(q: Queues, n: Node, p: PsState, action: nat)
    requires Buffered(q) && n in q.prep && q.prep[n].req == Request(0x21, action, 18, Prepare(true))
    requires q.prep[n].phase.Filled? || q.prep[n].phase.Aimed? ==> IsPs(q.buf[n], action) && q.buf[n].size > 0
    ensures var r := CallerStep(q, n, p);
            && r.cur == q.cur && r.hand == q.hand && r.owned == q.owned && r.free == q.free
            && if n in r.prep then
                 && r.prep[n].req == q.prep[n].req && r.pending == q.pending
                 && (r.prep[n].phase.Filled? || r.prep[n].phase.Aimed? ==> IsPs(r.buf[n], action) && r.buf[n].size > 0)
               else n in r.pending && IsPs(r.buf[n], action)
  {
    match q.prep[n].phase
    case Numbered => hide Aim, Insert;
    case Filled => hide Fill, Insert;
    case Aimed(_) => hide Fill, Aim;
    case _ => hide Fill, Aim, Insert;
  }

  /** Another caller, or a waiter, leaves node n alone, wherever it is. */
  lemma OthersAvoid(q: Queues, m: Move, n: Node)
    requires Partitioned(q) && (n in q.prep || n in q.pending)
    requires m.Keep? || m.Take? || m.Return? || (m.Advance? && m.node != n)
    ensures var r := Apply(q, m);
            && (n in q.prep <==> n in r.prep) && (n in q.prep ==> r.prep[n] == q.prep[n])
            && (n in q.pending ==> n in r.pending) && r.buf[n] == q.buf[n] && r.cur == q.cur && r.hand == q.hand
  {
    assert Places(q, n) == 1;
    if n in q.pending { InList(q.pending, n); }
    match m
    case Take(_) => if q.free != [] { assert Places(q, q.free[0]) == 1; }
    case Return(k) => assert Places(q, k) == 1;
    case Advance(k, p) => hide Places; OtherCaller(q, k, n, p);
    case _ =>
  }

  lemma {:induction false} InList(ns: seq<Node>, n: Node)
    requires n in ns
    ensures Count(ns, n) > 0
  {
    if ns[0] == n {
    } else {
      InList(ns[1..], n);
    }
  }

  lemma FirstFreeWaitsNowhere(q: Queues)
    requires Partitioned(q)
    ensures q.free != [] ==> q.free[0] !in q.pending
  {
    if q.free != [] {
      assert Places(q, q.free[0]) == 1;
      if q.free[0] in q.pending { InList(q.pending, q.free[0]); }
    }
  }

  lemma OtherCaller(q: Queues, k: Node, n: Node, p: PsState)
    requires Buffered(q) && k != n
    ensures var r := CallerStep(q, k, p);
            && (n in q.prep <==> n in r.prep) && (n in q.prep ==> r.prep[n] == q.prep[n])
            && (n in q.pending ==> n in r.pending) && r.buf[n] == q.buf[n] && r.cur == q.cur && r.hand == q.hand
  {
    if k in q.prep {
      match q.prep[k].phase
      case Numbered => hide Aim, Insert;
      case Filled => hide Fill, Insert;
      case Aimed(_) => hide Fill, Aim;
      case _ => hide Fill, Aim, Insert;
    }
  }

  /** While the thread waits for its call, it returns exactly when its command is queued. */
  lemma OwnCallStep(s: State, l: Label, n: Node, action: nat, back: Pc)
    requires Conserved(s) && OwnCall(s, n, action, back)
    ensures var t := Step(s, l);
            && t.q.cur == s.q.cur && t.q.hand == s.q.hand && t.psstate == s.psstate
            && if l.Thread? && !s.slots.bug && n !in s.q.prep then t == s.(w := s.w.(at := back))
               else OwnCall(t, n, action, back) && t.w == s.w
  {
    hide Step, Partitioned, Ledger, CallerStep, Apply, Refers;
    var m := StepMoves(s, l);
    if l.Thread? && !s.slots.bug {
      CallWaits(s, l);
    } else {
      OthersLeave(s, l);
      if s.slots.bug {
        assert Step(s, l).q == s.q by { hide Places; assert m.Keep?; KeepMove(s.q); }
      } else if l == Caller(n) {
        CallerMoves(s, n);
        if n in s.q.prep { OwnAdvances(s.q, n, s.psstate, action); } else { NotPreparing(s.q, n, s.psstate); }
      } else {
        OthersMove(s, l, m);
        OthersAvoid(s.q, m, n);
      }
    }
  }

  lemma KeepMove(q: Queues)
    requires Buffered(q)
    ensures Apply(q, Keep) == q
  {
  }

  lemma CallerMoves(s: State, n: Node)
    requires Sized(s) && !s.slots.bug
    ensures Step(s, Caller(n)).q == CallerStep(s.q, n, s.psstate)
  {
    hide CallerStep;
  }

  lemma OthersMove(s: State, l: Label, m: Move)
    requires Placed(s) && !l.Thread? && Step(s, l).q == Apply(s.q, m) && Legal(s.q, m)
    requires m.Detach? || m.Submit? || m.Retry? || m.Finish? ==> l.Thread?
    requires m.Advance? ==> l.Caller? && m.node == l.node
    requires m.Bump? ==> l.Thread?
    ensures m.Keep? || m.Take? || m.Return? || (m.Advance? && l.Caller? && m.node == l.node)
  {
  }

  lemma CallWaits(s: State, l: Label)
    requires Sized(s) && s.w.at.Calling? && l.Thread? && !s.slots.bug
    ensures Step(s, l) == if s.w.node in s.q.prep then s else s.(w := s.w.(at := s.w.back))
  {
    hide ResponseSection, PowerSection;
  }

  /** In every interleaving: when the thread is back from its call, its command is queued. */
  lemma {:induction false} OwnCallReturns(s: State, ls: seq<Label>, n: Node, action: nat, back: Pc)
    requires Conserved(s) && OwnCall(s, n, action, back) && Reaches(s, ls, back) && !back.Calling?
    ensures var t := Run(s, ls);
            && n in t.q.pending && IsPs(t.q.buf[n], action) && t.q.cur == s.q.cur && t.psstate == s.psstate
    decreases |ls|
  {
    hide Step, Partitioned, Ledger, Refers;
    OwnCallStep(s, ls[0], n, action, back);
    StepConserves(s, ls[0]);
    if |ls| == 1 {
      RunOfOne(s, ls);
    } else {
      OwnCallReturns(Step(s, ls[0]), ls[1..], n, action, back);
    }
  }
}
