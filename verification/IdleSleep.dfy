/** The driver's own way back into power save: lbs_execute_next_command with an empty queue. */
module IdleSleep {
  import opened Options
  import opened LbsState
  import opened QueueMoves
  import opened NodeConservation
  import opened PowerSave
  import opened RunUntil

  /** Power-save mode is on, the card is at full power, there is a connection and, if WPA is used,
      there are keys. */
  predicate MaySleep(s: State) {
    && !s.env.cam && s.psstate == FullPower && (s.env.connected || s.env.meshConnected)
    && (s.env.wpa ==> s.env.keysSet)
  }

  lemma IdleChooses(s: State, l: Label)
    requires Conserved(s) && s.w.at.GoIdle? && l.Thread? && !s.slots.bug
    ensures if MaySleep(s) && s.q.free != []
            then OwnCall(Step(s, l), s.q.free[0], 0x30, Transmit) && s.q.free[0] !in s.q.pending
                 && Step(s, l).q.pending == s.q.pending
            else Step(s, l) == s.(w := s.w.(at := Transmit))
  {
    hide ResponseSection, PowerSection, Decide, Complete, Ledger, Count;
    FirstFreeWaitsNowhere(s.q);
  }

  /** In every interleaving: when the thread is back from lbs_execute_next_command with an empty
      queue, an ENTER_PS has been queued if and only if the power state allowed it and a node
      was free; otherwise nothing has changed. */
  lemma AsksForSleepExactly(s: State, ls: seq<Label>)
    requires Conserved(s) && s.w.at.GoIdle? && !s.slots.bug && Reaches(s, ls, Transmit) && ls[0].Thread?
    ensures var t := Run(s, ls);
            (exists n: Node :: n in t.q.pending && n !in s.q.pending && IsPs(t.q.buf[n], 0x30))
            <==> MaySleep(s) && s.q.free != []
    ensures !(MaySleep(s) && s.q.free != []) ==> Run(s, ls) == s.(w := s.w.(at := Transmit))
  {
    hide Step, Run, Partitioned, Ledger, Refers;
    IdleChooses(s, ls[0]);
    StepConserves(s, ls[0]);
    if MaySleep(s) && s.q.free != [] {
      RunOfMore(s, ls);
      OwnCallReturns(Step(s, ls[0]), ls[1..], s.q.free[0], 0x30, Transmit);
    } else {
      RunOfOne(s, ls);
    }
  }
}
