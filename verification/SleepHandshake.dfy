/** The handshake in which the card asks for sleep and the driver confirms it. */
module SleepHandshake {
  import opened Options
  import opened LbsState
  import opened QueueMoves
  import opened NodeConservation
  import opened PowerSave
  import opened RetryBudget
  import opened RunUntil

  /** Nothing is in flight or on its way to the card. */
  predicate NothingGoesOut(s: State) {
    s.q.cur == None && s.dnld == ResReceived
  }

  /** No event waits, and no response in the newest slot. */
  predicate NothingCameIn(s: State)
    requires Sized(s)
  {
    s.fifo == [] && s.slots.len[s.slots.idx] == 0
  }

  /** At the first check of the handshake nothing goes out and nothing came in, the card then takes
      the confirmation, and at the second check still nothing came in. */
  predicate Unhindered(s: State, ls: seq<Label>)
    requires Sized(s)
    decreases |ls|
  {
    ls == []
    || ((ls[0].Thread? && !s.slots.bug ==>
           && (s.w.at.ConfirmSleep? ==> NothingGoesOut(s) && NothingCameIn(s))
           && (s.w.at.SendConfirm? ==> ls[0].hwOk)
           && (s.w.at.CommitSleep? ==> NothingCameIn(s)))
        && Unhindered(Step(s, ls[0]), ls[1..]))
  }

  /** The thread is in lbs_ps_confirm_sleep. */
  predicate InHandshake(s: State, back: Pc) {
    (s.w.at.ConfirmSleep? || s.w.at.SendConfirm? || s.w.at.CommitSleep?) && s.w.back == back && s.psstate == PreSleep
  }

  /** One section of it: to the next one or, when it is hindered, back. */
  lemma HandshakeStep(s: State, l: Label, back: Pc)
    requires Placed(s) && InHandshake(s, back) && l.Thread? && !s.slots.bug
    ensures var t := Step(s, l);
            match s.w.at
            case ConfirmSleep =>
              && t.psstate == PreSleep
              && t.w == s.w.(at := if NothingGoesOut(s) && NothingCameIn(s) then SendConfirm else back)
            case SendConfirm =>
              && t.psstate == PreSleep && t.w == s.w.(at := if l.hwOk then CommitSleep else back)
              && t.dnld == (if l.hwOk then CmdSent else s.dnld)
            case _ =>
              && t.psstate == (if NothingCameIn(s) then Sleep else PreSleep) && t.w == s.w.(at := back)
              && t.dnld == ResReceived
  {
    hide ResponseSection, CommandSection, HandleEvent, Count;
  }

  /** In every interleaving: when the thread is back, the card sleeps exactly if the handshake was
      unhindered, whatever arrived meanwhile; otherwise the driver still owes a confirmation. */
  lemma {:induction false} HandshakeEnds(s: State, ls: seq<Label>, back: Pc)
    requires Placed(s) && InHandshake(s, back) && (back.Events? || back.Gate?) && Reaches(s, ls, back)
    ensures Run(s, ls).psstate == Sleep <==> Unhindered(s, ls)
    ensures Run(s, ls).psstate in {Sleep, PreSleep}
    decreases |ls|
  {
    hide Step, Refers, NothingGoesOut, NothingCameIn;
    var m := StepMoves(s, ls[0]);
    var t := Step(s, ls[0]);
    if ls[0].Thread? && !s.slots.bug { HandshakeStep(s, ls[0], back); } else { OthersLeave(s, ls[0]); }
    if |ls| == 1 {
      RunOfOne(s, ls);
      assert Unhindered(t, ls[1..]);
    } else {
      HandshakeEnds(t, ls[1..], back);
    }
  }

  /** The thread handles PS_SLEEP, event 11. */
  predicate AskedToSleep(s: State) {
    s.w.at.Handling? && s.w.event == 11
  }

  lemma SleepEvent(s: State, l: Label)
    requires Sized(s) && AskedToSleep(s) && l.Thread? && !s.slots.bug
    ensures if s.psstate == FullPower then Step(s, l) == s.(w := s.w.(at := Events))
            else Step(s, l) == s.(psstate := PreSleep, w := s.w.(at := ConfirmSleep, back := Events))
  {
    hide ResponseSection, CommandSection, Disconnect, CallPs;
  }

  /** From a PS_SLEEP event outside full power, in every interleaving up to the moment when the
      thread is back at its event loop: the card sleeps if and only if nothing was in flight or
      on its way at the first check, nothing waited at either check, and the card took the
      confirmation.  In every other case the driver stays in PRE_SLEEP. */
  lemma {:induction false} SleepsExactlyIfUnhindered(s: State, ls: seq<Label>)
    requires Placed(s) && AskedToSleep(s) && s.psstate != FullPower && s.psstate != Sleep && Reaches(s, ls, Events)
    ensures Run(s, ls).psstate == Sleep <==> Unhindered(s, ls)
    ensures Run(s, ls).psstate in {Sleep, PreSleep}
    decreases |ls|
  {
    hide Step, Refers, NothingGoesOut, NothingCameIn;
    var m := StepMoves(s, ls[0]);
    var t := Step(s, ls[0]);
    if ls[0].Thread? && !s.slots.bug {
      SleepEvent(s, ls[0]);
      HandshakeEnds(t, ls[1..], Events);
    } else {
      OthersLeave(s, ls[0]);
      SleepsExactlyIfUnhindered(t, ls[1..]);
    }
  }

  /** At full power the event changes nothing but the place of the thread. */
  lemma NoSleepAtFullPower(s: State, hwOk: bool)
    requires Sized(s) && AskedToSleep(s) && s.psstate == FullPower && !s.slots.bug
    ensures Step(s, Thread(hwOk)) == s.(w := s.w.(at := Events))
  {
    SleepEvent(s, Thread(hwOk));
  }

  lemma DelayedCheck(s: State, l: Label)
    requires Sized(s) && s.w.at.CheckPreSleep? && l.Thread? && !s.slots.bug
    ensures var t := Step(s, l);
            if s.psstate == PreSleep && NothingGoesOut(s) then
              if s.env.connected then t == s.(w := s.w.(at := ConfirmSleep, back := Gate))
              else t == s.(psstate := Awake, w := s.w.(at := Gate))
            else t == s.(w := s.w.(at := Gate))
  {
    hide ResponseSection, CommandSection, HandleEvent, NothingToRead;
  }

  /** A confirmation that is still owed is tried again once nothing is in flight or on its way: with a
      connection the card then sleeps if and only if the second attempt is unhindered; without
      one the request is forgotten. */
  lemma DelayedConfirmation(s: State, ls: seq<Label>)
    requires Placed(s) && s.w.at.CheckPreSleep? && s.psstate == PreSleep && NothingGoesOut(s) && !s.slots.bug
    requires Reaches(s, ls, Gate) && ls[0].Thread?
    ensures s.env.connected ==> (Run(s, ls).psstate == Sleep <==> Unhindered(s, ls))
    ensures s.env.connected ==> Run(s, ls).psstate in {Sleep, PreSleep}
    ensures !s.env.connected ==> Run(s, ls) == s.(psstate := Awake, w := s.w.(at := Gate))
  {
    hide Step, Refers, NothingGoesOut, NothingCameIn;
    var m := StepMoves(s, ls[0]);
    DelayedCheck(s, ls[0]);
    if s.env.connected {
      HandshakeEnds(Step(s, ls[0]), ls[1..], Gate);
    } else {
      RunOfOne(s, ls);
    }
  }
}
