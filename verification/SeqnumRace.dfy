/** The race for priv->seqnum, which no lock protects: exactly when an increment is lost, and
    exactly when two commands are given the same number. */
module SeqnumRace {
  import opened Options
  import opened LbsState
  import opened QueueMoves
  import opened NodeConservation
  import opened SequenceNumbers

  /** What one section does to the counter and to the numbers read from it. */
  lemma StepReads(s: State, l: Label)
    requires Placed(s)
    ensures var t := Step(s, l);
            && t.q.log.indices == s.q.log.indices + (if Reads(s, l) then [s.q.log.issued] else [])
            && t.q.log.given == s.q.log.given + (if Reads(s, l) then [s.q.seqnum] else [])
            && t.q.log.issued == s.q.log.issued + Bit(Increments(s, l))
            && t.q.seqnum == (if Increments(s, l) then (LoadedBy(s, l) + 1) % SEQ_MODULUS else s.q.seqnum)
  {
    hide Step, Placed, Count;
    var m := StepMoves(s, l);
  }

  // ---------------------------------------------------------------- spaced reads

  lemma {:induction false} IndicesGrow(s: State, ls: seq<Label>)
    requires Placed(s)
    ensures s.q.log.indices <= Run(s, ls).q.log.indices
    decreases |ls|
  {
    hide Step, Reads, Increments;
    if ls == [] {
    } else {
      var m := StepMoves(s, ls[0]);
      StepReads(s, ls[0]);
      IndicesGrow(Step(s, ls[0]), ls[1..]);
    }
  }

  /** No two commands are given their numbers after equally many increments exactly if there is
      an increment between any two reads. */
  lemma {:induction false} DistinctExactlyIfSpaced(s: State, ls: seq<Label>, ahead: bool)
    requires Placed(s) && Increasing(s.q.log.indices) && Counter(s.q, ahead)
    ensures Increasing(Run(s, ls).q.log.indices) <==> SpacedRun(s, ls, ahead)
    ensures SpacedRun(s, ls, ahead) ==> Counter(Run(s, ls).q, AheadAtEnd(s, ls, ahead))
    decreases |ls|
  {
    hide Step, Reads, Increments, LoadedBy;
    if ls == [] {
    } else {
      var m := StepMoves(s, ls[0]);
      StepReads(s, ls[0]);
      var t := Step(s, ls[0]);
      var xs := s.q.log.indices;
      if Reads(s, ls[0]) && !ahead {
        var i :| 0 <= i < |xs| && xs[i] == s.q.log.issued;
        IndicesGrow(t, ls[1..]);
        assert Run(s, ls).q.log.indices[i] == t.q.log.indices[i] == t.q.log.indices[|xs|] == Run(s,
               ls).q.log.indices[|xs|];
      } else {
        if Reads(s, ls[0]) { IndicesAppend(s.q); }
        DistinctExactlyIfSpaced(t, ls[1..], AheadAfter(s, ls[0], ahead));
      }
    }
  }

  predicate IndicesOrdered(q: Queues) {
    && (forall i, j :: 0 <= i < j < |q.log.indices| ==> q.log.indices[i] <= q.log.indices[j])
    && forall x :: x in q.log.indices ==> x <= q.log.issued
  }

  lemma {:induction false} IndicesAscend(s: State, ls: seq<Label>)
    requires Placed(s) && IndicesOrdered(s.q)
    ensures IndicesOrdered(Run(s, ls).q)
    decreases |ls|
  {
    hide Step, Reads, Increments, LoadedBy;
    if ls == [] {
    } else {
      var m := StepMoves(s, ls[0]);
      StepReads(s, ls[0]);
      var xs := s.q.log.indices;
      forall i | 0 <= i < |xs| ensures xs[i] <= s.q.log.issued { assert xs[i] in xs; }
      IndicesAscend(Step(s, ls[0]), ls[1..]);
    }
  }

  /** The counter counts the increments modulo 2^16, and so do the numbers read from it. */
  predicate Counts(q: Queues) {
    && q.seqnum == q.log.issued % SEQ_MODULUS && |q.log.given| == |q.log.indices|
    && forall i :: 0 <= i < |q.log.given| ==> q.log.given[i] == q.log.indices[i] % SEQ_MODULUS
  }

  lemma {:induction false} WholeRunCounts(s: State, ls: seq<Label>)
    requires Placed(s) && Counts(s.q) && WholeRun(s, ls)
    ensures Counts(Run(s, ls).q)
    decreases |ls|
  {
    hide Step, Reads, Increments, LoadedBy;
    if ls == [] {
    } else {
      var m := StepMoves(s, ls[0]);
      StepReads(s, ls[0]);
      BumpKeepsNumbering(s.q.log.issued);
      WholeRunCounts(Step(s, ls[0]), ls[1..]);
    }
  }

  // ---------------------------------------------------------------- lost increments

  /** What was loaded and not yet stored again, and what was read, lies below a bound; nobody
      has read a zero, or is about to. */
  predicate Below(s: State, bound: nat) {
    && (forall n: Node :: n in s.q.prep && s.q.prep[n].phase.Loaded? ==> s.q.prep[n].phase.num < bound)
    && (s.w.at.ConfirmWake? ==> s.w.num < bound)
    && (forall n: Node :: n in s.q.prep && s.q.prep[n].phase.Numbered? ==> s.q.seqnum > 0)
    && (forall i :: 0 <= i < |s.q.log.given| ==> 0 < s.q.log.given[i] < bound)
  }

  /** No increment has been lost so far. */
  predicate Level(s: State) {
    s.q.seqnum == s.q.log.issued && Below(s, s.q.log.issued + 1)
  }

  /** One has been: the counter will not catch up any more. */
  predicate Behind(s: State) {
    s.q.seqnum < s.q.log.issued && Below(s, s.q.log.issued)
  }

  lemma MoveLoads(q: Queues, m: Move, n: Node)
    requires Buffered(q) && n in Apply(q, m).prep
    ensures var r := Apply(q, m);
            && (r.prep[n].phase.Loaded?
               ==> (n in q.prep && q.prep[n].phase == r.prep[n].phase) || r.prep[n].phase.num == q.seqnum)
            && (r.prep[n].phase.Numbered? ==> (n in q.prep && q.prep[n].phase.Numbered?) || MoveIncrements(q, m))
  {
  }

  lemma CallDoesNotConfirm(s: State, action: nat, back: Pc)
    requires Sized(s) && !back.ConfirmWake?
    ensures !CallPs(s, action, back).w.at.ConfirmWake?
  {
  }

  lemma ResponseDoesNotConfirm(s: State)
    requires Sized(s) && InResponseSection(s.w.at)
    ensures !ResponseSection(s).w.at.ConfirmWake?
  {
    hide CallPs, Complete, Accepts, HandleTimeoutStep;
    if s.w.at.Processing? && s.w.slot < 2 {
      var r := s.slots.buf[s.w.slot];
      CallDoesNotConfirm(ApplyResponse(s, r).(w := s.w.(code := r.result)), CMD_SUBCMD_EXIT_PS, FinishPs);
    }
  }

  lemma EventConfirms(s: State)
    requires Sized(s)
    ensures HandleEvent(s).w.at.ConfirmWake? ==> HandleEvent(s).w.num == s.q.seqnum
  {
    hide CallPs;
    CallDoesNotConfirm(s.(psstate := Awake), CMD_SUBCMD_EXIT_PS, Events);
    CallDoesNotConfirm(s.(env := s.env.(connected := false, txPending := 0)), CMD_SUBCMD_EXIT_PS, Events);
  }

  lemma PowerConfirms(s: State, hwOk: bool)
    requires Placed(s) && !InResponseSection(s.w.at) && !InCommandSection(s.w.at)
    ensures PowerSection(s, hwOk).w.at.ConfirmWake? ==> PowerSection(s, hwOk).w.num == s.q.seqnum
  {
    hide HandleEvent, NothingToRead, Count;
    EventConfirms(s);
  }

  lemma CommandDoesNotConfirm(s: State, hwOk: bool)
    requires Placed(s) && InCommandSection(s.w.at)
    ensures !CommandSection(s, hwOk).w.at.ConfirmWake?
  {
    hide CallPs, Unlink, Complete, Count;
    CallDoesNotConfirm(s, CMD_SUBCMD_EXIT_PS, Transmit);
    CallDoesNotConfirm(s, CMD_SUBCMD_ENTER_PS, Transmit);
  }

  /** The thread loads the counter only where it handles the event. */
  lemma ThreadLoads(s: State, l: Label)
    requires Placed(s)
    ensures var t := Step(s, l);
            t.w.at.ConfirmWake? ==> t.w.num == s.q.seqnum || t.w == s.w
  {
    hide ResponseSection, PowerSection, CommandSection, CallerStep, WaiterStep, Refers;
    if l.Thread? && !s.slots.bug {
      if InResponseSection(s.w.at) { ResponseDoesNotConfirm(s); }
      else if InCommandSection(s.w.at) { CommandDoesNotConfirm(s, l.hwOk); }
      else { PowerConfirms(s, l.hwOk); }
    }
  }

  /** What was loaded or read stays below a bound that the counter stays below. */
  lemma StaysBelow(s: State, l: Label, bound: nat)
    requires Placed(s) && Below(s, bound) && s.q.seqnum < bound && Step(s, l).q.log.issued < SEQ_MODULUS
             && bound <= s.q.log.issued + 1
    ensures Below(Step(s, l), bound) && Step(s, l).q.seqnum <= bound
    ensures Increments(s, l) ==> Step(s, l).q.seqnum == LoadedBy(s, l) + 1
  {
    hide Step, Count, Refers, Apply;
    var t := Step(s, l);
    var m := StepMoves(s, l);
    StepReads(s, l);
    ThreadLoads(s, l);
    forall n: Node | n in t.q.prep
      ensures t.q.prep[n].phase.Loaded? ==> t.q.prep[n].phase.num < bound
      ensures t.q.prep[n].phase.Numbered? ==> t.q.seqnum > 0
    {
      MoveLoads(s.q, m, n);
    }
  }

  /** An increment is lost where the store finds another value than was loaded. */
  lemma LevelStep(s: State, l: Label)
    requires Placed(s) && Level(s) && Step(s, l).q.log.issued < SEQ_MODULUS
    ensures if Increments(s, l) && LoadedBy(s, l) != s.q.seqnum then Behind(Step(s, l)) else Level(Step(s, l))
  {
    hide Step, Placed;
    StepReads(s, l);
    StaysBelow(s, l, s.q.log.issued + 1);
  }

  lemma BehindStep(s: State, l: Label)
    requires Placed(s) && Behind(s) && Step(s, l).q.log.issued < SEQ_MODULUS
    ensures Behind(Step(s, l))
  {
    hide Step, Placed;
    StepReads(s, l);
    StaysBelow(s, l, s.q.log.issued);
  }

  lemma {:induction false} IssuedGrows(s: State, ls: seq<Label>)
    requires Placed(s)
    ensures s.q.log.issued <= Run(s, ls).q.log.issued
    decreases |ls|
  {
    hide Step, Reads, Increments, LoadedBy;
    if ls == [] {
    } else {
      var m := StepMoves(s, ls[0]);
      StepReads(s, ls[0]);
      IssuedGrows(Step(s, ls[0]), ls[1..]);
    }
  }

  lemma {:induction false} BehindRun(s: State, ls: seq<Label>)
    requires Placed(s) && Behind(s) && Run(s, ls).q.log.issued < SEQ_MODULUS
    ensures Behind(Run(s, ls))
    decreases |ls|
  {
    hide Step, Refers, Below;
    if ls == [] {
    } else {
      var m := StepMoves(s, ls[0]);
      IssuedGrows(Step(s, ls[0]), ls[1..]);
      BehindStep(s, ls[0]);
      BehindRun(Step(s, ls[0]), ls[1..]);
    }
  }

  lemma {:induction false} LevelRun(s: State, ls: seq<Label>)
    requires Placed(s) && Level(s) && Run(s, ls).q.log.issued < SEQ_MODULUS
    ensures if WholeRun(s, ls) then Level(Run(s, ls)) else Behind(Run(s, ls))
    decreases |ls|
  {
    hide Step, Refers, Level, Behind, Increments, LoadedBy;
    if ls == [] {
    } else {
      var m := StepMoves(s, ls[0]);
      IssuedGrows(Step(s, ls[0]), ls[1..]);
      LevelStep(s, ls[0]);
      if Increments(s, ls[0]) && LoadedBy(s, ls[0]) != s.q.seqnum { BehindRun(Step(s, ls[0]), ls[1..]); }
      else { LevelRun(Step(s, ls[0]), ls[1..]); }
    }
  }

  /** While fewer than 2^16 increments have been made: the counter has counted them all exactly
      if every store found the counter as its own context had loaded it. */
  lemma CountsExactlyIfWhole(env: Env, ls: seq<Label>)
    requires Run(Init(env), ls).q.log.issued < SEQ_MODULUS
    ensures var q := Run(Init(env), ls).q; q.seqnum == q.log.issued <==> WholeRun(Init(env), ls)
  {
    hide Run, WholeRun, Below;
    InitConserved(env);
    InitLevel(env);
    LevelRun(Init(env), ls);
  }

  lemma InitLevel(env: Env)
    ensures Level(Init(env))
  {
  }

  // ---------------------------------------------------------------- different numbers

  predicate Different(xs: seq<nat>) {
    forall i, j :: 0 <= i < j < |xs| ==> xs[i] != xs[j]
  }

  /** In a run that loses no increment the numbers given are all different, while fewer than 2^16
      increments have been made, exactly if one comes between any two reads. */
  lemma NumbersDifferExactlyIfSpaced(env: Env, ls: seq<Label>)
    requires WholeRun(Init(env), ls) && Run(Init(env), ls).q.log.issued < SEQ_MODULUS
    ensures Different(Run(Init(env), ls).q.log.given) <==> SpacedRun(Init(env), ls, true)
  {
    hide Run, SpacedRun, WholeRun;
    var q := Run(Init(env), ls).q;
    InitConserved(env);
    DistinctExactlyIfSpaced(Init(env), ls, true);
    IndicesAscend(Init(env), ls);
    WholeRunCounts(Init(env), ls);
    var xs := q.log.indices;
    forall i | 0 <= i < |xs| ensures q.log.given[i] == xs[i] { assert xs[i] in xs; }
  }

  function UpTo(n: nat): (r: set<nat>)
    ensures |r| == n && forall x: nat :: x in r <==> 0 < x <= n
  {
    if n == 0 then {} else UpTo(n - 1) + {n}
  }

  lemma {:induction false} Distinct(xs: seq<nat>) returns (r: set<nat>)
    requires Different(xs)
    ensures |r| == |xs| && forall x :: x in r <==> x in xs
  {
    if xs == [] {
      r := {};
    } else {
      var t := Distinct(xs[1..]);
      assert forall k :: 0 <= k < |xs| - 1 ==> xs[1..][k] == xs[k + 1] != xs[0];
      r := {xs[0]} + t;
    }
  }

  lemma {:induction false} Subset(a: set<nat>, b: set<nat>)
    requires a <= b
    ensures |a| <= |b|
  {
    if a == {} {
    } else {
      var x :| x in a;
      Subset(a - {x}, b - {x});
    }
  }

  /** More numbers than values cannot all be different. */
  lemma Pigeonhole(xs: seq<nat>)
    requires forall i :: 0 <= i < |xs| ==> 0 < xs[i] < |xs|
    ensures xs != [] ==> !Different(xs)
  {
    if xs != [] && Different(xs) {
      var a := Distinct(xs);
      Subset(a, UpTo(|xs| - 1));
    }
  }

  /** In every run that has read as many numbers as it has made increments (every caller has got
      as far as its read, and no wake confirmation has used up a number), fewer than 2^16: the
      numbers given are all different exactly if no increment is lost and one comes between
      any two reads. */
  lemma NumbersDifferExactly(env: Env, ls: seq<Label>)
    requires var log := Run(Init(env), ls).q.log; |log.given| == log.issued < SEQ_MODULUS
    ensures Different(Run(Init(env), ls).q.log.given) <==> WholeRun(Init(env), ls) && SpacedRun(Init(env), ls, true)
  {
    hide Run, SpacedRun, WholeRun, Level, Different;
    if WholeRun(Init(env), ls) {
      NumbersDifferExactlyIfSpaced(env, ls);
    } else {
      InitConserved(env);
      InitLevel(env);
      LevelRun(Init(env), ls);
      Pigeonhole(Run(Init(env), ls).q.log.given);
    }
  }

  // ---------------------------------------------------------------- both conditions are needed

  lemma FirstLabel(s: State, l: Label, ls: seq<Label>, ahead: bool)
    requires Sized(s)
    ensures Run(s, [l] + ls) == Run(Step(s, l), ls)
    ensures WholeRun(s, [l] + ls) <==> (Increments(s, l) ==> LoadedBy(s, l) == s.q.seqnum) && WholeRun(Step(s, l), ls)
    ensures SpacedRun(s, [l] + ls, ahead)
            <==> (Reads(s, l) ==> ahead) && SpacedRun(Step(s, l), ls, AheadAfter(s, l, ahead))
  {
    hide Step, Increments, Reads, LoadedBy, AheadAfter;
    assert ([l] + ls)[1..] == ls;
  }

  /** The next section of one of two callers of this request. */
  lemma CallerTurn(s: State, n: Node, rest: seq<Label>, ahead: bool)
    requires Sized(s) && !s.slots.bug && n in s.q.prep
    requires s.q.prep[n].req == Request(CMD_802_11_RSSI, 0, 8, Async)
    ensures var req := s.q.prep[n].req;
            var t := Step(s, Caller(n));
            && Run(s, [Caller(n)] + rest) == Run(t, rest) && !t.slots.bug
            && match s.q.prep[n].phase
               case Taken =>
                 && t.q.prep == s.q.prep[n := Prep(req, Loaded(s.q.seqnum))] && t.q.seqnum == s.q.seqnum
                    && t.q.buf == s.q.buf
                 && (WholeRun(s, [Caller(n)] + rest) <==> WholeRun(t, rest))
                 && (SpacedRun(s, [Caller(n)] + rest, ahead) <==> SpacedRun(t, rest, ahead))
               case Loaded(num) =>
                 && t.q.prep == s.q.prep[n := Prep(req, Numbered)] && t.q.seqnum == (num + 1) % SEQ_MODULUS
                    && t.q.buf == s.q.buf
                 && (WholeRun(s, [Caller(n)] + rest) <==> num == s.q.seqnum && WholeRun(t, rest))
                 && (SpacedRun(s, [Caller(n)] + rest, ahead) <==> SpacedRun(t, rest, true))
               case Numbered =>
                 && t.q.prep == s.q.prep[n := Prep(req, Filled)] && t.q.seqnum == s.q.seqnum
                 && t.q.buf[n].seqnum == s.q.seqnum && (forall m: Node :: m != n ==> t.q.buf[m] == s.q.buf[m])
                 && (WholeRun(s, [Caller(n)] + rest) <==> WholeRun(t, rest))
                 && (SpacedRun(s, [Caller(n)] + rest, ahead) <==> ahead && SpacedRun(t, rest, false))
               case _ => true
  {
    hide ThreadStep, WaiterStep, Aim, Insert, TakeNode, Run, WholeRun, SpacedRun;
    FirstLabel(s, Caller(n), rest, ahead);
  }

  /** Two callers have their nodes. */
  lemma TwoCallers(env: Env, rest: seq<Label>) returns (s: State)
    ensures var req := Request(CMD_802_11_RSSI, 0, 8, Async);
            var ls := [Alloc(req)] + ([Alloc(req)] + rest);
            && Sized(s) && !s.slots.bug && s.q.seqnum == 0
               && s.q.prep == map[0 := Prep(req, Taken), 1 := Prep(req, Taken)]
            && Run(Init(env), ls) == Run(s, rest)
            && (WholeRun(Init(env), ls) <==> WholeRun(s, rest))
            && (SpacedRun(Init(env), ls, true) <==> SpacedRun(s, rest, true))
  {
    hide Run, WholeRun, SpacedRun;
    var req := Request(CMD_802_11_RSSI, 0, 8, Async);
    var a := Init(env);
    var b := Step(a, Alloc(req));
    assert b.q.free == [1, 2, 3, 4, 5, 6, 7, 8, 9] && b.q.prep == map[0 := Prep(req, Taken)];
    FirstLabel(a, Alloc(req), [Alloc(req)] + rest, true);
    FirstLabel(b, Alloc(req), rest, true);
    s := Step(b, Alloc(req));
  }

  /** Two callers that both store before either reads get the same number, although no increment
      is lost. */
  lemma RacingCallersShareANumber(env: Env) returns (ls: seq<Label>)
    ensures WholeRun(Init(env), ls) && !SpacedRun(Init(env), ls, true)
    ensures var q := Run(Init(env), ls).q;
            Carries(q, 0) && Carries(q, 1) && q.buf[0].seqnum == q.buf[1].seqnum
  {
    hide Step, Run, WholeRun, SpacedRun, Live;
    var c, d := Caller(0), Caller(1);
    var l5 := [d] + [];
    var l4 := [c] + l5;
    var l3 := [d] + l4;
    var l2 := [d] + l3;
    var l1 := [c] + l2;
    var l0 := [c] + l1;
    var s0 := TwoCallers(env, l0);
    CallerTurn(s0, 0, l1, true);
    var s1 := Step(s0, c);
    CallerTurn(s1, 0, l2, true);
    var s2 := Step(s1, c);
    CallerTurn(s2, 1, l3, true);
    var s3 := Step(s2, d);
    CallerTurn(s3, 1, l4, true);
    var s4 := Step(s3, d);
    CallerTurn(s4, 0, l5, true);
    var s5 := Step(s4, c);
    CallerTurn(s5, 1, [], false);
    NothingLeft(Step(s5, d));
    var req := Request(CMD_802_11_RSSI, 0, 8, Async);
    ls := [Alloc(req)] + ([Alloc(req)] + l0);
  }

  /** Two callers that both load before either stores get the same number, although there is an
      increment between their reads: it is lost. */
  lemma LostIncrementSharesANumber(env: Env) returns (ls: seq<Label>)
    ensures !WholeRun(Init(env), ls) && SpacedRun(Init(env), ls, true)
    ensures var q := Run(Init(env), ls).q;
            Carries(q, 0) && Carries(q, 1) && q.buf[0].seqnum == q.buf[1].seqnum
  {
    hide Step, Run, WholeRun, SpacedRun, Live;
    var c, d := Caller(0), Caller(1);
    var l5 := [d] + [];
    var l4 := [d] + l5;
    var l3 := [c] + l4;
    var l2 := [c] + l3;
    var l1 := [d] + l2;
    var l0 := [c] + l1;
    var s0 := TwoCallers(env, l0);
    CallerTurn(s0, 0, l1, true);
    var s1 := Step(s0, c);
    CallerTurn(s1, 1, l2, true);
    var s2 := Step(s1, d);
    CallerTurn(s2, 0, l3, true);
    var s3 := Step(s2, c);
    CallerTurn(s3, 0, l4, true);
    var s4 := Step(s3, c);
    CallerTurn(s4, 1, l5, false);
    var s5 := Step(s4, d);
    CallerTurn(s5, 1, [], true);
    NothingLeft(Step(s5, d));
    var req := Request(CMD_802_11_RSSI, 0, 8, Async);
    ls := [Alloc(req)] + ([Alloc(req)] + l0);
  }

  lemma NothingLeft(s: State)
    requires Sized(s)
    ensures Run(s, []) == s && WholeRun(s, []) && SpacedRun(s, [], false)
  {
  }
}
