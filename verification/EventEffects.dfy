/** What the thread does about each event of the card, PS_SLEEP aside. */
module EventEffects {
  import opened Options
  import opened LbsState
  import opened QueueMoves
  import opened NodeConservation
  import opened PowerSave
  import opened RunUntil

  predicate Handles(s: State, code: nat) {
    Placed(s) && !s.slots.bug && s.w.at.Handling? && s.w.event == code
  }

  /** Loss of the link, deauthentication, disassociation. */
  predicate EndsConnection(code: nat) {
    code == 3 || code == 8 || code == 9
  }

  /** PS_AWAKE, event 10, ends a sleep request outside full power, and does nothing at full power. */
  lemma AwakeEvent(s: State, hwOk: bool)
    requires Handles(s, 10) && PowerSafe(s)
    ensures Step(s, Thread(hwOk)) ==
            s.(psstate := if s.psstate == FullPower then FullPower else Awake, w := s.w.(at := Events))
  {
    hide ResponseSection, CommandSection, Disconnect, CallPs;
  }

  lemma AwakeStep(s: State, l: Label)
    requires Conserved(s) && Handles(s, 10) && s.psstate != FullPower && l.Thread?
    ensures var t := Step(s, l);
            && t.psstate == Awake
            && if s.needtowakeup && s.q.free != []
               then OwnCall(t, s.q.free[0], 0x31, Events) && t.q.pending == s.q.pending && s.q.free[0] !in s.q.pending
               else t == s.(psstate := Awake, w := s.w.(at := Events))
  {
    hide ResponseSection, CommandSection, Disconnect, Ledger, Count;
    FirstFreeWaitsNowhere(s.q);
  }

  /** In every interleaving after PS_AWAKE outside full power: when the thread is back at its event
      loop, an EXIT_PS has been queued if and only if needtowakeup was set and a node was free. */
  lemma AwakeWakesExactly(s: State, ls: seq<Label>)
    requires Conserved(s) && Handles(s, 10) && s.psstate != FullPower && Reaches(s, ls, Events) && ls[0].Thread?
    ensures var t := Run(s, ls);
            (exists n: Node :: n in t.q.pending && n !in s.q.pending && IsPs(t.q.buf[n], 0x31))
            <==> s.needtowakeup && s.q.free != []
    ensures Run(s, ls).psstate == Awake
  {
    hide Step, Run, Partitioned, Ledger;
    AwakeStep(s, ls[0]);
    StepConserves(s, ls[0]);
    if s.needtowakeup && s.q.free != [] {
      RunOfMore(s, ls);
      OwnCallReturns(Step(s, ls[0]), ls[1..], s.q.free[0], 0x31, Events);
    } else {
      RunOfOne(s, ls);
    }
  }

  /** HOST_AWAKE, event 18, is answered by a wake confirmation, whatever the other contexts do between
      the load of its number and the store. */
  lemma HostAwakeEvent(s: State, hwOk: bool, others: seq<Label>, taken: bool)
    requires Handles(s, 18) && forall l :: l in others ==> !l.Thread?
    ensures var u := Run(Step(s, Thread(hwOk)), others);
            var t := Step(u, Thread(taken));
            !u.slots.bug ==>
              && t.w.at.Events? && t.q.seqnum == (s.q.seqnum + 1) % 0x1_0000
              && t.dnld == (if taken then CmdSent else u.dnld)
  {
    var t := Step(s, Thread(hwOk));
    assert t == s.(w := s.w.(at := ConfirmWake, num := s.q.seqnum)) by { HostAwakeLoads(s, hwOk); }
    hide Step, Run;
    ThreadWaits(t, others);
    var u := Run(t, others);
    if !u.slots.bug { Confirms(u, taken); }
  }

  lemma HostAwakeLoads(s: State, hwOk: bool)
    requires Handles(s, 18)
    ensures Step(s, Thread(hwOk)) == s.(w := s.w.(at := ConfirmWake, num := s.q.seqnum))
  {
    hide ResponseSection, CommandSection, Disconnect, CallPs;
  }

  lemma Confirms(s: State, taken: bool)
    requires Sized(s) && !s.slots.bug && s.w.at.ConfirmWake?
    ensures var t := Step(s, Thread(taken));
            t.w.at.Events? && t.q.seqnum == (s.w.num + 1) % 0x1_0000 && t.dnld == (if taken then CmdSent else s.dnld)
  {
    hide ResponseSection, CommandSection, HandleEvent;
  }

  lemma {:induction false} ThreadWaits(s: State, ls: seq<Label>)
    requires Sized(s) && forall l :: l in ls ==> !l.Thread?
    ensures Run(s, ls).w == s.w
    decreases |ls|
  {
    if ls == [] {
    } else {
      assert ls[0] in ls;
      hide ThreadStep, CallerStep, WaiterStep, TakeNode;
      assert Step(s, ls[0]).w == s.w;
      ThreadWaits(Step(s, ls[0]), ls[1..]);
    }
  }

  /** An event that ends the connection. */
  lemma DisconnectStep(s: State, l: Label)
    requires Conserved(s) && Handles(s, s.w.event) && EndsConnection(s.w.event) && s.psstate != Sleep && l.Thread?
    ensures var t := Step(s, l);
            && !t.env.connected && t.psstate == s.psstate
            && (s.env.connected ==> t.env.txPending == 0)
            && if s.env.connected && s.psstate != FullPower && s.q.free != []
               then OwnCall(t, s.q.free[0], 0x31, Events) && t.q.pending == s.q.pending && s.q.free[0] !in s.q.pending
               else t.w == s.w.(at := Events) && t.q == s.q
  {
    hide ResponseSection, CommandSection, Ledger, Count;
    FirstFreeWaitsNowhere(s.q);
  }

  /** In every interleaving: when the thread is back at its event loop, an EXIT_PS has been queued if
      and only if there was a connection, the card was not at full power and a node was free. */
  lemma DisconnectWakesExactly(s: State, ls: seq<Label>)
    requires Conserved(s) && PowerSafe(s) && Handles(s, s.w.event) && EndsConnection(s.w.event)
    requires Reaches(s, ls, Events) && ls[0].Thread?
    ensures !Step(s, ls[0]).env.connected
    ensures var t := Run(s, ls);
            (exists n: Node :: n in t.q.pending && n !in s.q.pending && IsPs(t.q.buf[n], 0x31))
            <==> s.env.connected && s.psstate != FullPower && s.q.free != []
  {
    assert s.psstate != Sleep;
    hide Step, Run, Partitioned, Ledger, PowerSafe;
    DisconnectStep(s, ls[0]);
    StepConserves(s, ls[0]);
    if s.env.connected && s.psstate != FullPower && s.q.free != [] {
      RunOfMore(s, ls);
      OwnCallReturns(Step(s, ls[0]), ls[1..], s.q.free[0], 0x31, Events);
    } else {
      RunOfOne(s, ls);
    }
  }

  /** Every other event, MESH_AUTO_STARTED (35) aside, changes nothing but the place of the thread. */
  lemma OtherEvents(s: State, hwOk: bool)
    requires Handles(s, s.w.event) && !EndsConnection(s.w.event) && s.w.event !in {10, 11, 18, 35}
    ensures Step(s, Thread(hwOk)) == s.(w := s.w.(at := Events))
  {
    hide ResponseSection, CommandSection, Disconnect, CallPs;
  }
}
