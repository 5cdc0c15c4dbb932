/** Which command a response is taken to answer. */
module SequenceNumbers {
  import opened Options
  import opened LbsState
  import opened QueueMoves
  import opened NodeConservation

  /** The buffer of n holds a command with a number: it is being placed, queued or in flight. */
  predicate Carries(q: Queues, n: Node) {
    Live(q, n) || (n in q.prep && (q.prep[n].phase.Filled? || q.prep[n].phase.Aimed?))
  }

  predicate Issuing(q: Queues, n: Node) {
    n in q.prep && q.prep[n].phase.Numbered?
  }

  predicate Increasing(xs: seq<nat>) {
    forall i, j :: 0 <= i < j < |xs| ==> xs[i] < xs[j]
  }

  /** A number carried by n is the low half of the index under which it was issued. */
  predicate Numbers(q: Queues, n: Node)
    requires Buffered(q)
  {
    Carries(q, n) ==> q.buf[n].past.idx in q.log.indices && q.buf[n].seqnum == q.buf[n].past.idx % SEQ_MODULUS
  }

  predicate Unique(q: Queues, n: Node, m: Node)
    requires Buffered(q)
  {
    Carries(q, n) && Carries(q, m) && q.buf[n].past.idx == q.buf[m].past.idx ==> n == m
  }

  /** Nobody has read the present value of the counter, or somebody has. */
  predicate Counter(q: Queues, ahead: bool) {
    if ahead then forall x :: x in q.log.indices ==> x < q.log.issued
    else q.log.issued in q.log.indices && forall x :: x in q.log.indices ==> x <= q.log.issued
  }

  predicate Issued(q: Queues, ahead: bool) {
    && Buffered(q)
    && q.seqnum == q.log.issued % SEQ_MODULUS
    && Increasing(q.log.indices) && Counter(q, ahead)
    && (forall n: Node :: Numbers(q, n))
    && (forall n: Node, m: Node :: Unique(q, n, m))
  }

  lemma BumpKeepsNumbering(k: nat)
    ensures (k % SEQ_MODULUS + 1) % SEQ_MODULUS == (k + 1) % SEQ_MODULUS
  {
  }

  lemma FillIssues(q: Queues, n: Node)
    requires Partitioned(q) && Issued(q, true) && Issuing(q, n)
    ensures Issued(Fill(q, n), false)
  {
    hide Partitioned, Count, Places;
    var r := Fill(q, n);
    IndicesAppend(q);
    assert r.log.indices == q.log.indices + [q.log.issued];
    forall m: Node ensures Numbers(r, m) {
      assert Numbers(q, m) && Unique(q, n, m);
      Apart(q, n);
    }
    forall m: Node, k: Node ensures Unique(r, m, k) {
      assert Numbers(q, m) && Numbers(q, k) && Unique(q, m, k);
      Apart(q, n);
    }
  }

  lemma IndicesAppend(q: Queues)
    requires Increasing(q.log.indices) && Counter(q, true)
    ensures Increasing(q.log.indices + [q.log.issued])
  {
    forall i | 0 <= i < |q.log.indices| ensures q.log.indices[i] < q.log.issued {
      assert q.log.indices[i] in q.log.indices;
    }
  }

  lemma Apart(q: Queues, n: Node)
    requires Partitioned(q) && n in q.prep
    ensures !Live(q, n)
  {
    assert Places(q, n) == 1;
  }

  lemma AimIssues(q: Queues, n: Node, p: PsState, ahead: bool)
    requires Partitioned(q) && Issued(q, ahead) && n in q.prep && q.prep[n].phase.Filled?
    ensures Issued(Aim(q, n, p), ahead)
  {
    hide Partitioned, Count, Places;
    var r := Aim(q, n, p);
    forall m: Node ensures Numbers(r, m) { assert Numbers(q, m); }
    forall m: Node, k: Node ensures Unique(r, m, k) { assert Unique(q, m, k); }
  }

  lemma InsertIssues(q: Queues, n: Node, atHead: bool, ahead: bool)
    requires Partitioned(q) && Issued(q, ahead) && n in q.prep && q.prep[n].phase.Aimed?
    ensures Issued(Insert(q, n, atHead), ahead)
  {
    hide Partitioned, Count, Places;
    var r := Insert(q, n, atHead);
    forall m: Node ensures Carries(r, m) == Carries(q, m) {
      CountAppend(q.pending, n, m);
      CountPrepend(q.pending, n, m);
      assert Count(r.pending, n) > 0 by { CountAppend(q.pending, n, n); CountPrepend(q.pending, n, n); }
    }
    forall m: Node ensures Numbers(r, m) { assert Numbers(q, m); }
    forall m: Node, k: Node ensures Unique(r, m, k) { assert Unique(q, m, k); }
  }

  /** The store that ends an increment, with or without a caller that takes its next step. */
  lemma StoreIssues(q: Queues, r: Queues, ahead: bool)
    requires Issued(q, ahead) && r.buf == q.buf && r.log == q.log
    requires forall n: Node :: Carries(r, n) == Carries(q, n)
    ensures Issued(StoreSeqnum(r, q.seqnum), true)
  {
    hide Carries;
    BumpKeepsNumbering(q.log.issued);
    var t := StoreSeqnum(r, q.seqnum);
    forall m: Node ensures Carries(t, m) == Carries(q, m) { SameCarriers(r, q.seqnum, m); }
    forall m: Node ensures Numbers(t, m) { assert Numbers(q, m); }
    forall m: Node, k: Node ensures Unique(t, m, k) { assert Unique(q, m, k); }
  }

  lemma SameCarriers(q: Queues, num: nat, n: Node)
    ensures Carries(StoreSeqnum(q, num), n) == Carries(q, n)
  {
  }

  lemma NumberIssues(q: Queues, n: Node, ahead: bool)
    requires Issued(q, ahead) && n in q.prep && q.prep[n].phase == Loaded(q.seqnum)
    ensures Issued(StoreSeqnum(q.(prep := q.prep[n := Prep(q.prep[n].req, Numbered)]), q.seqnum), true)
  {
    hide Count, Issued;
    StoreIssues(q, q.(prep := q.prep[n := Prep(q.prep[n].req, Numbered)]), ahead);
  }

  lemma LoadIssues(q: Queues, n: Node, ahead: bool)
    requires Buffered(q) && Issued(q, ahead) && n in q.prep && q.prep[n].phase.Taken?
    ensures Issued(q.(prep := q.prep[n := Prep(q.prep[n].req, Loaded(q.seqnum))]), ahead)
  {
    hide Count, Issued;
    ShrinkIssues(q, q.(prep := q.prep[n := Prep(q.prep[n].req, Loaded(q.seqnum))]), ahead);
  }

  /** A move after which no more buffers are live, and which changes only dead ones. */
  lemma ShrinkIssues(q: Queues, r: Queues, ahead: bool)
    requires Issued(q, ahead) && Buffered(r)
    requires r.log.indices == q.log.indices && r.log.issued == q.log.issued && r.seqnum == q.seqnum
    requires forall n: Node :: Carries(r, n) ==> Carries(q, n) && r.buf[n] == q.buf[n]
    ensures Issued(r, ahead)
  {
    hide Carries;
    forall m: Node ensures Numbers(r, m) { assert Numbers(q, m); }
    forall m: Node, k: Node ensures Unique(r, m, k) { assert Unique(q, m, k); }
  }

  lemma MoveShrinks(q: Queues, mv: Move, n: Node)
    requires Partitioned(q) && Legal(q, mv) && !mv.Advance? && !mv.Bump?
    ensures Carries(Apply(q, mv), n) ==> Carries(q, n) && Apply(q, mv).buf[n] == q.buf[n]
  {
    assert Places(q, n) == 1;
    match mv
    case Return(m) => assert Places(q, m) == 1;
    case Finish(m, _) => assert Places(q, m) == 1;
    case Detach(m) => CountRemove(q.pending, m, n);
    case Retry(m) => CountPrepend(q.pending, m, n);
    case _ =>
  }

  /** The move ends an increment of the counter, or reads it. */
  predicate MoveIncrements(q: Queues, m: Move) {
    m.Bump? || (m.Advance? && m.node in q.prep && q.prep[m.node].phase.Loaded?)
  }

  /** What the load of that increment found. */
  function MoveNum(q: Queues, m: Move): nat
    requires MoveIncrements(q, m)
  {
    if m.Bump? then m.num else q.prep[m.node].phase.num
  }

  predicate MoveReads(q: Queues, m: Move) {
    m.Advance? && Issuing(q, m.node)
  }

  lemma MoveIssues(q: Queues, mv: Move, ahead: bool)
    requires Buffered(q) && Partitioned(q) && Legal(q, mv) && Issued(q, ahead) && (MoveReads(q, mv) ==> ahead)
    requires MoveIncrements(q, mv) ==> MoveNum(q, mv) == q.seqnum
    ensures Issued(Apply(q, mv), !MoveReads(q, mv) && (ahead || MoveIncrements(q, mv)))
  {
    hide Fill, Aim, Insert, Partitioned, Issued, Carries, Live;
    match mv
    case Advance(n, p) =>
      if n in q.prep {
        match q.prep[n].phase
        case Taken => LoadIssues(q, n, ahead);
        case Loaded(_) => NumberIssues(q, n, ahead);
        case Numbered => FillIssues(q, n);
        case Filled => AimIssues(q, n, p, ahead);
        case Aimed(atHead) => InsertIssues(q, n, atHead, ahead);
      }
    case Bump(_) => StoreIssues(q, q, ahead);
    case _ =>
      forall n: Node ensures Carries(Apply(q, mv), n) ==> Carries(q, n) && Apply(q, mv).buf[n] == q.buf[n] {
        MoveShrinks(q, mv, n);
      }
      ShrinkIssues(q, Apply(q, mv), ahead);
  }

  // ---------------------------------------------------------------- runs

  /** The step in which a caller or the wake confirmation stores the incremented number. */
  predicate Increments(s: State, l: Label) {
    && !s.slots.bug
    && ((l.Caller? && l.node in s.q.prep && s.q.prep[l.node].phase.Loaded?) || (l.Thread? && ConfirmsWake(s)))
  }

  /** What it had loaded. */
  function LoadedBy(s: State, l: Label): nat
    requires Increments(s, l)
  {
    if l.Thread? then s.w.num else s.q.prep[l.node].phase.num
  }

  /** The step in which a caller reads the number, after an increment of its own. */
  predicate Reads(s: State, l: Label) {
    !s.slots.bug && l.Caller? && Issuing(s.q, l.node)
  }

  /** Every store finds the counter as its own context has loaded it, as it does when no other
      store comes between: no increment is lost. */
  predicate WholeRun(s: State, ls: seq<Label>)
    requires Sized(s)
    decreases |ls|
  {
    ls == [] || ((Increments(s, ls[0]) ==> LoadedBy(s, ls[0]) == s.q.seqnum) && WholeRun(Step(s, ls[0]), ls[1..]))
  }

  /** Between any two reads there is an increment, whoever makes it; ahead tells whether
      there is one before the next read already. */
  predicate SpacedRun(s: State, ls: seq<Label>, ahead: bool)
    requires Sized(s)
    decreases |ls|
  {
    ls == [] || ((Reads(s, ls[0]) ==> ahead) && SpacedRun(Step(s, ls[0]), ls[1..], AheadAfter(s, ls[0], ahead)))
  }

  predicate AheadAfter(s: State, l: Label, ahead: bool) {
    !Reads(s, l) && (ahead || Increments(s, l))
  }

  predicate AheadAtEnd(s: State, ls: seq<Label>, ahead: bool)
    requires Sized(s)
    decreases |ls|
  {
    if ls == [] then ahead else AheadAtEnd(Step(s, ls[0]), ls[1..], AheadAfter(s, ls[0], ahead))
  }

  lemma StepIssues(s: State, l: Label, ahead: bool)
    requires Conserved(s) && Issued(s.q, ahead) && (Reads(s, l) ==> ahead)
    requires Increments(s, l) ==> LoadedBy(s, l) == s.q.seqnum
    ensures Issued(Step(s, l).q, AheadAfter(s, l, ahead))
  {
    hide Step, Partitioned, Ledger, Issued, Apply;
    var m := StepMoves(s, l);
    MoveIssues(s.q, m, ahead);
  }

  lemma {:induction false} RunIssues(s: State, ls: seq<Label>, ahead: bool)
    requires Conserved(s) && Issued(s.q, ahead) && WholeRun(s, ls) && SpacedRun(s, ls, ahead)
    ensures Conserved(Run(s, ls)) && Issued(Run(s, ls).q, AheadAtEnd(s, ls, ahead))
    decreases |ls|
  {
    hide Step, Partitioned, Ledger, Issued, AheadAfter, Reads, Increments;
    if ls == [] {
    } else {
      StepIssues(s, ls[0], ahead);
      StepConserves(s, ls[0]);
      RunIssues(Step(s, ls[0]), ls[1..], AheadAfter(s, ls[0], ahead));
    }
  }

  lemma InitIssued(env: Env)
    ensures Issued(Init(env).q, true)
  {
  }

  /** Fewer than 2^16 numbers have been issued since this index. */
  predicate Recent(q: Queues, idx: nat) {
    idx <= q.log.issued < idx + SEQ_MODULUS
  }

  lemma SameResidue(i: nat, j: nat, top: nat)
    requires i <= top < i + SEQ_MODULUS && j <= top < j + SEQ_MODULUS
    ensures i % SEQ_MODULUS == j % SEQ_MODULUS <==> i == j
  {
    if i % SEQ_MODULUS == j % SEQ_MODULUS {
      var a, b := i / SEQ_MODULUS, j / SEQ_MODULUS;
      assert i == SEQ_MODULUS * a + i % SEQ_MODULUS && j == SEQ_MODULUS * b + j % SEQ_MODULUS;
      assert i - j == SEQ_MODULUS * (a - b);
    }
  }

  /** In every run in which no increment is lost and one comes between any two reads: two
      commands that carry numbers issued among the last 2^16 have different numbers. */
  lemma LiveNumbersDiffer(env: Env, ls: seq<Label>, n: Node, m: Node)
    requires WholeRun(Init(env), ls) && SpacedRun(Init(env), ls, true)
    requires var q := Run(Init(env), ls).q;
             Carries(q, n) && Carries(q, m) && n != m && Recent(q, q.buf[n].past.idx) && Recent(q, q.buf[m].past.idx)
    ensures var q := Run(Init(env), ls).q;
            q.buf[n].seqnum != q.buf[m].seqnum
  {
    hide Init, Run, WholeRun, SpacedRun, Carries, Partitioned, Ledger;
    InitConserved(env);
    InitIssued(env);
    RunIssues(Init(env), ls, true);
    var q := Run(Init(env), ls).q;
    assert Numbers(q, n) && Numbers(q, m) && Unique(q, n, m);
    SameResidue(q.buf[n].past.idx, q.buf[m].past.idx, q.log.issued);
  }

  /** In such a run a response that answers the command of index idx, however late, is
      accepted only while exactly that command is in flight. */
  lemma AnswersItsOwnCommand(env: Env, ls: seq<Label>, resp: Response, idx: nat)
    requires WholeRun(Init(env), ls) && SpacedRun(Init(env), ls, true)
    requires var q := Run(Init(env), ls).q;
             && resp.seqnum == idx % SEQ_MODULUS && Recent(q, idx)
             && (q.cur.Some? ==> Recent(q, q.buf[q.cur.value].past.idx))
    ensures var q := Run(Init(env), ls).q;
            Accepts(q, resp) ==> q.buf[q.cur.value].past.idx == idx && idx in q.log.indices && Increasing(q.log.indices)
  {
    hide Init, Run, WholeRun, SpacedRun, Partitioned, Ledger, CmdRet;
    InitConserved(env);
    InitIssued(env);
    RunIssues(Init(env), ls, true);
    var q := Run(Init(env), ls).q;
    if Accepts(q, resp) {
      var n := q.cur.value;
      assert Numbers(q, n) && Carries(q, n);
      SameResidue(q.buf[n].past.idx, idx, q.log.issued);
    }
  }

  /** A response while nothing is in flight, with another number, with a code that does not
      fit, or with result DEFER leaves everything but the place of the thread alone. */
  lemma RejectedChangesNothing(s: State, hwOk: bool)
    requires Sized(s) && s.w.slot < 2 && s.w.at.Processing? && !s.slots.bug
    requires var r := s.slots.buf[s.w.slot];
             s.q.cur.Some? ==>
               var c := s.q.buf[s.q.cur.value];
               || r.seqnum != c.seqnum || r.result == RESULT_DEFER
               || (r.command != c.command + 0x8000 && r.command != c.command
                   && r.command != CMD_RET_802_11_ASSOCIATE && c.command != CMD_802_11_ASSOCIATE)
    ensures Step(s, Thread(hwOk)) == s.(w := s.w.(at := ClearSlot))
  {
  }

}
