/** What becomes of a node that a caller has taken, and how nodes look in the free queue. */
module CallerFates {
  import opened Options
  import opened LbsState
  import opened QueueMoves
  import opened NodeConservation
  import opened RunUntil

  /** The run ends when node n is no longer in preparation. */
  predicate Prepares(s: State, ls: seq<Label>, n: Node)
    requires Sized(s)
    decreases |ls|
  {
    && ls != []
    && var t := Step(s, ls[0]);
       if |ls| == 1 then n !in t.q.prep else n in t.q.prep && Prepares(t, ls[1..], n)
  }

  /** The AFC commands, 0x3c and 0x3d, of lbs_prepare_and_send_command. */
  predicate Afc(req: Request) {
    req.origin.Prepare? && (req.command == 0x3c || req.command == 0x3d)
  }

  /** The buffer holds what the caller asked for. */
  predicate FilledWith(c: CmdNode, req: Request) {
    && c.command == req.command && c.action == req.action && c.size == req.size
    && (req.origin.Prepare? ==> c.callback.NoCallback?) && (req.origin.Async? ==> c.callback.AsyncCallback?)
    && (req.origin.Sync? ==> c.callback.WaiterCallback?)
  }

  /** A caller that may still queue its command. */
  predicate OnItsWay(q: Queues, n: Node, req: Request)
    requires Buffered(q)
  {
    && n in q.prep && q.prep[n].req == req
    && match q.prep[n].phase
       case Filled => FilledWith(q.buf[n], req) && !Afc(req) && req.origin != Prepare(false)
       case Aimed(_) =>
         FilledWith(q.buf[n], req) && !Afc(req) && req.origin != Prepare(false) && req.size > 0 && q.buf[n].result == 0
       case _ => true
  }

  /** Where the node is afterwards. */
  predicate Fate(q: Queues, n: Node, req: Request)
    requires Buffered(q)
  {
    if Afc(req) then n in q.lost
    else if req.origin == Prepare(false) then q.free != [] && q.free[|q.free| - 1] == n
    else if req.size == 0 then n in q.lost
    else
      && q.pending != [] && (q.pending[0] == n || q.pending[|q.pending| - 1] == n)
      && FilledWith(q.buf[n], req) && q.buf[n].result == 0
  }

  /** The next section of the caller: on its way, or at its end. */
  lemma OwnSection(q: Queues, n: Node, p: PsState, req: Request)
    requires Buffered(q) && OnItsWay(q, n, req)
    ensures var r := CallerStep(q, n, p);
            if n in r.prep then OnItsWay(r, n, req) else Fate(r, n, req)
    ensures q.prep[n].phase.Filled? && req.size > 0 ==>
              var r := CallerStep(q, n, p);
              n in r.prep && r.prep[n].phase == Aimed(req.command == 0x21 && req.action == 0x31 && p != FullPower)
    ensures q.prep[n].phase.Aimed? ==>
              CallerStep(q, n, p).pending == if q.prep[n].phase.atHead then [n] + q.pending else q.pending + [n]
  {
    match q.prep[n].phase
    case Numbered => hide Aim, Insert;
    case Filled => hide Fill, Insert;
    case Aimed(_) => hide Fill, Aim;
    case _ => hide Fill, Aim, Insert;
  }

  /** Every other section leaves it alone. */
  lemma OtherSections(q: Queues, m: Move, n: Node)
    requires Partitioned(q) && Legal(q, m) && n in q.prep && !(m.Advance? && m.node == n)
    ensures var r := Apply(q, m);
            n in r.prep && r.prep[n] == q.prep[n] && r.buf[n] == q.buf[n]
  {
    assert Places(q, n) == 1;
    match m
    case Take(_) => if q.free != [] { assert Places(q, q.free[0]) == 1; }
    case Advance(k, p) => hide Places; OtherCaller(q, k, n, p);
    case _ =>
  }

  lemma StepOnItsWay(s: State, l: Label, n: Node, req: Request)
    requires Conserved(s) && OnItsWay(s.q, n, req)
    ensures var t := Step(s, l);
            if n in t.q.prep then OnItsWay(t.q, n, req) else Fate(t.q, n, req)
  {
    hide Step, Partitioned, Ledger, CallerStep, Apply, Fate;
    var m := StepMoves(s, l);
    if m.Advance? && m.node == n {
      AdvanceMoves(s.q, m);
      OwnSection(s.q, n, m.p, req);
    } else {
      OtherSections(s.q, m, n);
    }
  }

  lemma AdvanceMoves(q: Queues, m: Move)
    requires Buffered(q) && m.Advance?
    ensures Apply(q, m) == CallerStep(q, m.node, m.p)
  {
  }

  /** In every interleaving, when the caller of a node is done with it: it is lost if the command is
      an AFC command or has size zero; it is the last free node if the builder has failed; and
      otherwise it is queued at one end, filled with what the caller asked for. */
  lemma {:induction false} FateExactly(s: State, ls: seq<Label>, n: Node)
    requires Conserved(s) && n in s.q.prep && s.q.prep[n].phase.Taken? && Prepares(s, ls, n)
    ensures Fate(Run(s, ls).q, n, s.q.prep[n].req)
  {
    FateOnTheWay(s, ls, n, s.q.prep[n].req);
  }

  lemma {:induction false} FateOnTheWay(s: State, ls: seq<Label>, n: Node, req: Request)
    requires Conserved(s) && OnItsWay(s.q, n, req) && Prepares(s, ls, n)
    ensures Fate(Run(s, ls).q, n, req)
    decreases |ls|
  {
    hide Step, Partitioned, Ledger, OnItsWay, Fate;
    StepOnItsWay(s, ls[0], n, req);
    StepConserves(s, ls[0]);
    if |ls| == 1 {
      RunOfOne(s, ls);
    } else {
      FateOnTheWay(Step(s, ls[0]), ls[1..], n, req);
    }
  }

  /** A new caller gets the first free node, with its own request, or none. */
  lemma AllocTakesFirst(s: State, req: Request)
    requires Sized(s) && !s.slots.bug
    ensures var t := Step(s, Alloc(req));
            if s.q.free == [] then t == s
            else t == s.(q := s.q.(free := s.q.free[1..], prep := s.q.prep[s.q.free[0] := Prep(req, Taken)]))
  {
    hide ThreadStep, CallerStep, WaiterStep;
  }

  // ---------------------------------------------------------------- free nodes

  predicate Blank(c: CmdNode) {
    c.command == 0 && c.action == 0 && c.size == 0 && c.seqnum == 0 && c.callback.NoCallback?
  }

  /** Free nodes, and those that a caller has not filled yet, have empty buffers. */
  predicate BlankWhileFree(q: Queues, n: Node)
    requires Buffered(q)
  {
    n in q.free || (n in q.prep && !q.prep[n].phase.Filled? && !q.prep[n].phase.Aimed?) ==> Blank(q.buf[n])
  }

  lemma MoveBlanks(q: Queues, m: Move, n: Node)
    requires Partitioned(q) && Legal(q, m) && BlankWhileFree(q, n) && !m.Advance?
    ensures BlankWhileFree(Apply(q, m), n)
  {
    assert Places(q, n) == 1;
    if n in q.free { InList(q.free, n); }
    match m
    case Take(_) => if q.free != [] { assert Places(q, q.free[0]) == 1; }
    case Return(k) => assert Places(q, k) == 1;
    case Finish(k, _) => assert Places(q, k) == 1;
    case _ =>
  }

  lemma CallerBlanks(q: Queues, k: Node, p: PsState, n: Node)
    requires Partitioned(q) && BlankWhileFree(q, n) && k in q.prep
    ensures BlankWhileFree(CallerStep(q, k, p), n)
  {
    assert Places(q, k) == 1;
    if k in q.free { InList(q.free, k); }
    match q.prep[k].phase
    case Numbered => hide Aim, Insert, Count;
    case Filled => hide Fill, Insert, Count;
    case Aimed(_) => hide Fill, Aim, Count;
    case _ => hide Fill, Aim, Insert, Count;
  }

  lemma StepBlanks(s: State, l: Label, n: Node)
    requires Conserved(s) && BlankWhileFree(s.q, n)
    ensures BlankWhileFree(Step(s, l).q, n)
  {
    hide Step, Partitioned, Ledger, BlankWhileFree, Count;
    var m := StepMoves(s, l);
    if m.Advance? {
      if m.node in s.q.prep { CallerBlanks(s.q, m.node, m.p, n); } else { NotPreparing(s.q, m.node, m.p); }
    } else {
      MoveBlanks(s.q, m, n);
    }
  }

  lemma {:induction false} RunBlanks(s: State, ls: seq<Label>, n: Node)
    requires Conserved(s) && BlankWhileFree(s.q, n)
    ensures BlankWhileFree(Run(s, ls).q, n)
    decreases |ls|
  {
    hide Step, Partitioned, Ledger, BlankWhileFree;
    if ls == [] {
    } else {
      StepBlanks(s, ls[0], n);
      StepConserves(s, ls[0]);
      RunBlanks(Step(s, ls[0]), ls[1..], n);
    }
  }

  /** In every run from the start no free node shows anything of the commands that it carried. */
  lemma FreeNodesAreBlank(env: Env, ls: seq<Label>, n: Node)
    requires n in Run(Init(env), ls).q.free
    ensures Blank(Run(Init(env), ls).q.buf[n])
  {
    hide Run;
    InitConserved(env);
    RunBlanks(Init(env), ls, n);
  }
}
