/** Who gets a command node back when its command is completed. */
module NodeOwners {
  import opened Options
  import opened LbsState
  import opened QueueMoves
  import opened NodeConservation
  import opened SequenceNumbers
  import opened RunUntil

  /** For whom the buffer of n was last filled in a run; was is the answer before it. */
  function FilledFor(s: State, ls: seq<Label>, n: Node, was: Option<Origin>): Option<Origin>
    requires Sized(s)
    decreases |ls|
  {
    if ls == [] then was else FilledFor(Step(s, ls[0]), ls[1..], n, FilledBy(s, ls[0], n, was))
  }

  function FilledBy(s: State, l: Label, n: Node, was: Option<Origin>): Option<Origin> {
    if Reads(s, l) && l.node == n then Some(s.q.prep[n].req.origin) else was
  }

  /** A command in n has a waiter exactly if it was filled for __lbs_cmd; and a waiter owns n
      only then. */
  predicate Owed(q: Queues, n: Node, origin: Option<Origin>)
    requires Buffered(q)
  {
    && (Carries(q, n) ==> origin.Some? && (q.buf[n].callback == WaiterCallback <==> origin == Some(Sync)))
    && (n in q.owned ==> origin == Some(Sync))
  }

  /** What a move other than filling n does to that. */
  lemma MoveOwes(q: Queues, m: Move, n: Node, origin: Option<Origin>)
    requires Partitioned(q) && Legal(q, m) && Owed(q, n, origin) && !m.Advance?
    ensures Owed(Apply(q, m), n, origin)
  {
    assert Places(q, n) == 1;
    match m
    case Return(k) => assert Places(q, k) == 1;
    case Finish(k, _) => assert Places(q, k) == 1;
    case Detach(k) => CountRemove(q.pending, k, n);
    case Retry(k) => CountPrepend(q.pending, k, n);
    case _ =>
  }

  lemma CallerOwes(q: Queues, k: Node, p: PsState, n: Node, origin: Option<Origin>)
    requires Partitioned(q) && Owed(q, n, origin) && k in q.prep && !q.prep[k].phase.Numbered?
    ensures Owed(CallerStep(q, k, p), n, origin)
  {
    match q.prep[k].phase
    case Aimed(_) =>
      hide Fill, Aim, Partitioned, Places;
      CountAppend(q.pending, k, n);
      CountPrepend(q.pending, k, n);
    case _ => hide Fill, Insert, Partitioned, Places, Count;
  }

  lemma FillOwes(q: Queues, k: Node, n: Node, origin: Option<Origin>)
    requires Partitioned(q) && Owed(q, n, origin) && k in q.prep
    ensures Owed(Fill(q, k), n, if k == n then Some(q.prep[n].req.origin) else origin)
  {
    assert Places(q, k) == 1;
    hide Count;
  }

  lemma StepOwes(s: State, l: Label, n: Node, was: Option<Origin>)
    requires Conserved(s) && Owed(s.q, n, was)
    ensures Owed(Step(s, l).q, n, FilledBy(s, l, n, was))
  {
    hide Step, Partitioned, Ledger, Owed, Fill, Aim, Insert, Count;
    var m := StepMoves(s, l);
    if m.Advance? {
      if m.node in s.q.prep {
        if s.q.prep[m.node].phase.Numbered? {
          FillOwes(s.q, m.node, n, was);
        } else {
          CallerOwes(s.q, m.node, m.p, n, was);
        }
      }
    } else {
      MoveOwes(s.q, m, n, was);
    }
  }

  lemma {:induction false} RunOwes(s: State, ls: seq<Label>, n: Node, was: Option<Origin>)
    requires Conserved(s) && Owed(s.q, n, was)
    ensures Conserved(Run(s, ls)) && Owed(Run(s, ls).q, n, FilledFor(s, ls, n, was))
    decreases |ls|
  {
    hide Step, Partitioned, Ledger, Owed, FilledBy;
    if ls == [] {
    } else {
      StepOwes(s, ls[0], n, was);
      StepConserves(s, ls[0]);
      RunOwes(Step(s, ls[0]), ls[1..], n, FilledBy(s, ls[0], n, was));
    }
  }

  lemma InitOwes(env: Env, n: Node)
    ensures Owed(Init(env).q, n, None)
  {
  }

  /** In every run from the start a node that was completed and not yet returned belongs to a
      caller of __lbs_cmd. */
  lemma OwnedHasItsCaller(env: Env, ls: seq<Label>, n: Node)
    requires n in Run(Init(env), ls).q.owned
    ensures FilledFor(Init(env), ls, n, None) == Some(Sync)
  {
    hide Run, FilledFor;
    InitConserved(env);
    RunOwes(Init(env), ls, n, None);
  }

  lemma FinishReturns(q: Queues, m: Move, n: Node)
    requires Partitioned(q) && Legal(q, m) && Apply(q, m).buf[n].past.completed > q.buf[n].past.completed
    ensures Live(q, n) && n !in q.free && n !in q.owned
    ensures if q.buf[n].callback == WaiterCallback then n in Apply(q, m).owned && Apply(q, m).free == q.free
            else n !in Apply(q, m).owned && Apply(q, m).free == q.free + [n]
  {
    assert m.Finish? && m.node == n by { OnlyFinishCompletes(q, m, n); }
    assert Places(q, n) == 1;
    if n in q.free { InList(q.free, n); }
  }

  lemma OnlyFinishCompletes(q: Queues, m: Move, n: Node)
    requires Buffered(q) && Apply(q, m).buf[n].past.completed > q.buf[n].past.completed
    ensures m.Finish? && m.node == n
  {
  }

  /** In every run from the start the step that completes a command leaves its node to the waiter if
      and only if the node was filled for __lbs_cmd, and puts it at the end of the free queue
      otherwise. */
  lemma CompletedGoesTo(env: Env, ls: seq<Label>, l: Label, n: Node)
    requires var s := Run(Init(env), ls); Step(s, l).q.buf[n].past.completed > s.q.buf[n].past.completed
    ensures var s := Run(Init(env), ls);
            var t := Step(s, l);
            if FilledFor(Init(env), ls, n, None) == Some(Sync) then n in t.q.owned && t.q.free == s.q.free
            else n !in t.q.owned && t.q.free == s.q.free + [n]
  {
    hide Run, Step, FilledFor, Count, Complete, Partitioned, Ledger;
    InitConserved(env);
    InitOwes(env, n);
    RunOwes(Init(env), ls, n, None);
    var m := StepMoves(Run(Init(env), ls), l);
    FinishReturns(Run(Init(env), ls).q, m, n);
  }

  /** The waiter puts a completed node of its own at the end of the free queue. */
  lemma WaiterReturnsNode(s: State, n: Node)
    requires Sized(s) && !s.slots.bug && n in s.q.owned
    ensures var t := Step(s, Waiter(n));
            t.q.free == s.q.free + [n] && t.q.owned == s.q.owned - {n}
  {
  }
}
