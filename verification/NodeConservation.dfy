/** Where the ten command nodes are, in every state that any run reaches. */
module NodeConservation {
  import opened Options
  import opened LbsState
  import opened QueueMoves

  /** In how many places node n is. */
  function Places(q: Queues, n: Node): nat {
    Count(q.free, n) + Count(q.pending, n) + Bit(q.cur == Some(n)) + Bit(q.hand == Some(n))
    + Bit(n in q.prep) + Bit(n in q.owned) + Bit(n in q.lost)
  }

  predicate Partitioned(q: Queues) {
    Buffered(q) && forall n: Node :: Places(q, n) == 1
  }

  lemma {:induction false} CountRemove(ns: seq<Node>, m: Node, n: Node)
    ensures Count(ns, m) > 0 ==> Count(Remove(ns, m), n) == Count(ns, n) - Bit(m == n)
  {
    if ns == [] || ns[0] == m {
    } else {
      CountPrepend(Remove(ns[1..], m), ns[0], n);
      CountRemove(ns[1..], m, n);
    }
  }

  lemma FillPlaces(q: Queues, n: Node, m: Node)
    requires Buffered(q) && n in q.prep && n !in q.lost
    ensures Places(Fill(q, n), m) == Places(q, m)
  {
    CountAppend(q.free, n, m);
  }

  lemma InsertPlaces(q: Queues, n: Node, atHead: bool, m: Node)
    requires Buffered(q) && n in q.prep
    ensures Places(Insert(q, n, atHead), m) == Places(q, m)
  {
    CountAppend(q.pending, n, m);
    CountPrepend(q.pending, n, m);
  }

  lemma CallerPlaces(q: Queues, n: Node, p: PsState, m: Node)
    requires Partitioned(q) && n in q.prep
    ensures Places(CallerStep(q, n, p), m) == Places(q, m)
  {
    hide Fill, Insert, Count;
    assert Places(q, n) == 1;
    match q.prep[n].phase
    case Numbered => FillPlaces(q, n, m);
    case Aimed(atHead) => InsertPlaces(q, n, atHead, m);
    case _ =>
  }

  lemma MovePlaces(q: Queues, mv: Move, m: Node)
    requires Partitioned(q) && Legal(q, mv)
    ensures Places(Apply(q, mv), m) == Places(q, m)
  {
    hide CallerStep;
    match mv
    case Advance(n, p) => hide Places; if n in q.prep { CallerPlaces(q, n, p, m); } else { NotPreparing(q, n, p); }
    case Take(_) => if q.free != [] { assert Places(q, q.free[0]) == 1; }
    case Return(n) => assert Places(q, n) == 1; CountAppend(q.free, n, m);
    case Detach(n) => CountRemove(q.pending, n, m);
    case Retry(n) => CountPrepend(q.pending, n, m);
    case Finish(n, _) => assert Places(q, n) == 1; CountAppend(q.free, n, m);
    case _ =>
  }

  lemma NotPreparing(q: Queues, n: Node, p: PsState)
    requires Buffered(q) && n !in q.prep
    ensures CallerStep(q, n, p) == q
  {
  }

  lemma MoveConserves(q: Queues, mv: Move)
    requires Partitioned(q) && Legal(q, mv)
    ensures Partitioned(Apply(q, mv))
  {
    hide Apply, Places;
    forall m: Node ensures Places(Apply(q, mv), m) == 1 {
      MovePlaces(q, mv, m);
    }
  }

  /** The worker thread has the node either in flight or just unlinked. */
  predicate Live(q: Queues, n: Node) {
    Count(q.pending, n) > 0 || q.cur == Some(n) || q.hand == Some(n)
  }

  /** The ledger of one node: it has been completed once for each time it was queued,
      except that the command it carries now may still be open; and it has been returned
      to the free queue once for each completion, except that its waiter may still own it. */
  predicate Balanced(q: Queues, n: Node)
    requires Buffered(q)
  {
    && q.buf[n].past.queued == q.buf[n].past.completed + Bit(Live(q, n))
    && q.buf[n].past.completed == q.buf[n].past.freed + Bit(n in q.owned)
  }

  predicate Ledger(q: Queues) {
    Buffered(q) && forall n: Node :: Balanced(q, n)
  }

  lemma CallerBalances(q: Queues, n: Node, p: PsState, m: Node)
    requires Partitioned(q) && Balanced(q, m) && n in q.prep
    ensures Balanced(CallerStep(q, n, p), m)
  {
    assert Places(q, n) == 1;
    match q.prep[n].phase
    case Numbered => hide Aim, Insert;
    case Aimed(_) =>
      hide Aim, Fill;
      CountAppend(q.pending, n, m);
      CountPrepend(q.pending, n, m);
    case _ => hide Fill, Insert;
  }

  lemma MoveBalances(q: Queues, mv: Move, m: Node)
    requires Partitioned(q) && Legal(q, mv) && Balanced(q, m)
    ensures Balanced(Apply(q, mv), m)
  {
    hide CallerStep;
    assert Places(q, m) == 1;
    match mv
    case Advance(n, p) => hide Balanced; if n in q.prep { CallerBalances(q, n, p, m); } else { NotPreparing(q, n, p); }
    case Return(n) => assert Places(q, n) == 1;
    case Finish(n, _) => assert Places(q, n) == 1;
    case Detach(n) => CountRemove(q.pending, n, m);
    case Retry(n) => CountPrepend(q.pending, n, m);
    case _ =>
  }

  lemma MoveKeepsLedger(q: Queues, mv: Move)
    requires Partitioned(q) && Legal(q, mv) && Ledger(q)
    ensures Ledger(Apply(q, mv))
  {
    hide Apply, Partitioned, Balanced;
    forall m: Node ensures Balanced(Apply(q, mv), m) {
      MoveBalances(q, mv, m);
    }
  }

  predicate Conserved(s: State) {
    Placed(s) && Partitioned(s.q) && Ledger(s.q)
  }

  lemma StepConserves(s: State, l: Label)
    requires Conserved(s)
    ensures Conserved(Step(s, l))
  {
    hide Step, Apply, Partitioned, Ledger;
    var m := StepMoves(s, l);
    MoveConserves(s.q, m);
    MoveKeepsLedger(s.q, m);
  }

  lemma InitConserved(env: Env)
    ensures Conserved(Init(env))
  {
    var q := Init(env).q;
    CountTo(10);
    forall n: Node ensures Places(q, n) == 1 && Balanced(q, n) {
      assert q.free == UpTo(10);
      assert Count(UpTo(10), n) == 1;
    }
  }

  function UpTo(k: nat): (r: seq<Node>)
    requires k <= NUM_CMD_BUFFERS
  {
    if k == 0 then [] else UpTo(k - 1) + [k - 1]
  }

  lemma {:induction false} CountTo(k: nat)
    requires k <= NUM_CMD_BUFFERS
    ensures forall n: Node :: Count(UpTo(k), n) == Bit(n < k)
  {
    if k == 0 {
    } else {
      CountTo(k - 1);
      forall n: Node ensures Count(UpTo(k), n) == Bit(n < k) {
        CountAppend(UpTo(k - 1), k - 1, n);
      }
    }
  }

  /** In every state of every run each of the ten nodes is in exactly one place, and the
      ledger of each node balances. */
  lemma {:induction false} RunConserves(s: State, ls: seq<Label>)
    requires Conserved(s)
    ensures Conserved(Run(s, ls))
    decreases |ls|
  {
    if ls == [] {
    } else {
      StepConserves(s, ls[0]);
      RunConserves(Step(s, ls[0]), ls[1..]);
    }
  }

  // ---------------------------------------------------------------- open commands

  /** From its insertion to its completion a command keeps its buffer, through every retry. */
  lemma LiveKeepsBuffer(s: State, l: Label, n: Node)
    requires Conserved(s) && Live(s.q, n) && Live(Step(s, l).q, n)
    ensures Step(s, l).q.buf[n] == s.q.buf[n]
  {
    hide Step, Ledger, Balanced, Count;
    assert Places(s.q, n) == 1;
    var m := StepMoves(s, l);
    if m.Finish? || m.Return? {
      assert Places(s.q, m.node) == 1;
      var t := Step(s, l).q;
      MoveConserves(s.q, m);
      assert Places(t, m.node) == 1;
    }
  }

  lemma StepForgetsNothing(s: State, l: Label, n: Node)
    requires Conserved(s)
    ensures var p, t := s.q.buf[n].past, Step(s, l).q.buf[n].past;
            t.queued >= p.queued && t.completed >= p.completed
    ensures Live(s.q, n) && Live(Step(s, l).q, n) ==> Step(s, l).q.buf[n].past.queued == s.q.buf[n].past.queued
  {
    hide Step, Partitioned, Ledger, Balanced, Count;
    if Live(s.q, n) && Live(Step(s, l).q, n) { LiveKeepsBuffer(s, l, n); }
    var m := StepMoves(s, l);
  }

  /** A node that was queued is still the same command, in the same buffer with the same
      number, over any run at whose end it is open and has not been queued again. */
  lemma {:induction false} OpenKeepsBuffer(s: State, ls: seq<Label>, n: Node)
    requires Conserved(s) && Live(s.q, n) && Live(Run(s, ls).q, n)
    requires Run(s, ls).q.buf[n].past.queued == s.q.buf[n].past.queued
    ensures Run(s, ls).q.buf[n] == s.q.buf[n]
    decreases |ls|
  {
    hide Step, Partitioned, Live;
    if ls == [] {
    } else {
      var t := Step(s, ls[0]);
      StepConserves(s, ls[0]);
      StepForgetsNothing(s, ls[0], n);
      RunForgetsNothing(t, ls[1..], n);
      assert Balanced(s.q, n) && Balanced(t.q, n) && Balanced(Run(s, ls).q, n) by { RunConserves(s, ls); }
      assert Live(t.q, n);
      LiveKeepsBuffer(s, ls[0], n);
      OpenKeepsBuffer(t, ls[1..], n);
    }
  }

  lemma {:induction false} RunForgetsNothing(s: State, ls: seq<Label>, n: Node)
    requires Conserved(s)
    ensures var p, t := s.q.buf[n].past, Run(s, ls).q.buf[n].past;
            t.queued >= p.queued && t.completed >= p.completed
    decreases |ls|
  {
    hide Step, Partitioned, Ledger;
    if ls == [] {
    } else {
      StepConserves(s, ls[0]);
      StepForgetsNothing(s, ls[0], n);
      RunForgetsNothing(Step(s, ls[0]), ls[1..], n);
    }
  }

  // ---------------------------------------------------------------- lost nodes

  /** The two steps after which nobody will return node n: the caller of an AFC command
      leaves without queueing it, and lbs_queue_cmd ignores a command of size zero. */
  predicate Leaks(s: State, l: Label)
    requires Sized(s)
  {
    && !s.slots.bug && l.Caller? && l.node in s.q.prep
    && var prep := s.q.prep[l.node];
       || (prep.phase == Numbered && IsAfc(prep.req))
       || (prep.phase == Filled && s.q.buf[l.node].size == 0)
  }

  predicate NeverLeaks(s: State, ls: seq<Label>)
    requires Sized(s)
    decreases |ls|
  {
    ls == [] || (!Leaks(s, ls[0]) && NeverLeaks(Step(s, ls[0]), ls[1..]))
  }

  lemma StepLost(s: State, l: Label)
    requires Placed(s)
    ensures Step(s, l).q.lost == (if Leaks(s, l) then s.q.lost + {l.node} else s.q.lost)
  {
    hide ResponseSection, PowerSection, CommandSection, Placed, Count;
    if l.Thread? {
      var m := StepMoves(s, l);
      assert !m.Advance?;
    }
  }

  /** Nodes are lost in a run exactly if one of the two leaking steps is taken in it. */
  lemma {:induction false} LostExactlyByLeaks(s: State, ls: seq<Label>)
    requires Placed(s)
    ensures Run(s, ls).q.lost >= s.q.lost
    ensures s.q.lost == {} ==> (Run(s, ls).q.lost == {} <==> NeverLeaks(s, ls))
    decreases |ls|
  {
    hide Step;
    if ls == [] {
    } else {
      var m := StepMoves(s, ls[0]);
      StepLost(s, ls[0]);
      LostExactlyByLeaks(Step(s, ls[0]), ls[1..]);
      assert Leaks(s, ls[0]) ==> Step(s, ls[0]).q.lost != {} && Run(s, ls).q.lost != {};
    }
  }
}
