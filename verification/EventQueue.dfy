/** The event fifo between the card and the worker thread. */
module EventQueue {
  import opened Options
  import opened LbsState
  import opened QueueMoves
  import opened NodeConservation
  import opened RetryBudget

  /** The events that a run accepts: those that find fewer than 16 waiting. */
  function AcceptedEvents(s: State, ls: seq<Label>): seq<nat>
    requires Sized(s)
    decreases |ls|
  {
    if ls == [] then []
    else (if ls[0].RaiseEvent? && !s.slots.bug && |s.fifo| < 16 then [ls[0].code] else [])
         + AcceptedEvents(Step(s, ls[0]), ls[1..])
  }

  /** The events that the thread handles in a run. */
  function HandledEvents(s: State, ls: seq<Label>): seq<nat>
    requires Sized(s)
    decreases |ls|
  {
    if ls == [] then []
    else (if ls[0].Thread? && !s.slots.bug && s.w.at.Handling? then [s.w.event] else [])
         + HandledEvents(Step(s, ls[0]), ls[1..])
  }

  /** The events that have been accepted and not yet handled, the oldest first. */
  function Awaiting(s: State): seq<nat> {
    (if s.w.at.Handling? then [s.w.event] else []) + s.fifo
  }

  lemma CallKeepsEvents(s: State, action: nat, back: Pc)
    requires Sized(s) && !back.Handling?
    ensures CallPs(s, action, back).fifo == s.fifo && !CallPs(s, action, back).w.at.Handling?
  {
  }

  lemma ResponseKeepsEvents(s: State)
    requires Sized(s) && InResponseSection(s.w.at) && s.w.slot < 2
    ensures ResponseSection(s).fifo == s.fifo && !ResponseSection(s).w.at.Handling?
  {
    hide CallPs, Complete, Accepts;
    if s.w.at.Processing? {
      var r := s.slots.buf[s.w.slot];
      CallKeepsEvents(ApplyResponse(s, r).(w := s.w.(code := r.result)), CMD_SUBCMD_EXIT_PS, FinishPs);
    }
  }

  lemma HandlingKeepsFifo(s: State)
    requires Sized(s)
    ensures HandleEvent(s).fifo == s.fifo && !HandleEvent(s).w.at.Handling?
  {
    hide CallPs;
    CallKeepsEvents(s.(psstate := Awake), CMD_SUBCMD_EXIT_PS, Events);
    CallKeepsEvents(s.(env := s.env.(connected := false, txPending := 0)), CMD_SUBCMD_EXIT_PS, Events);
  }

  lemma PowerTakesOldest(s: State, hwOk: bool)
    requires Placed(s) && !InResponseSection(s.w.at) && !InCommandSection(s.w.at)
    ensures var t := PowerSection(s, hwOk);
            if s.w.at.Events? && s.fifo != [] then t.w.at.Handling? && [t.w.event] + t.fifo == s.fifo
            else t.fifo == s.fifo && !t.w.at.Handling?
  {
    hide HandleEvent, NothingToRead, Count;
    HandlingKeepsFifo(s);
  }

  lemma CommandKeepsEvents(s: State, hwOk: bool)
    requires Placed(s) && InCommandSection(s.w.at)
    ensures CommandSection(s, hwOk).fifo == s.fifo && !CommandSection(s, hwOk).w.at.Handling?
  {
    hide CallPs, Complete, Unlink, Count;
    CallKeepsEvents(s, CMD_SUBCMD_EXIT_PS, Transmit);
    CallKeepsEvents(s, CMD_SUBCMD_ENTER_PS, Transmit);
  }

  lemma ThreadTakesOldest(s: State, hwOk: bool)
    requires Placed(s)
    ensures var t := ThreadStep(s, hwOk);
            if s.w.at.Events? && s.fifo != [] then t.w.at.Handling? && [t.w.event] + t.fifo == s.fifo
            else t.fifo == s.fifo && !t.w.at.Handling?
  {
    hide ResponseSection, PowerSection, CommandSection;
    if InResponseSection(s.w.at) { ResponseKeepsEvents(s); }
    else if InCommandSection(s.w.at) { CommandKeepsEvents(s, hwOk); }
    else { PowerTakesOldest(s, hwOk); }
  }

  lemma OthersKeepFifo(s: State, l: Label)
    requires Sized(s) && (!l.Thread? || s.slots.bug)
    ensures var t := Step(s, l);
            t.w == s.w && t.fifo == s.fifo + (if l.RaiseEvent? && !s.slots.bug && |s.fifo| < 16 then [l.code] else [])
  {
    hide ThreadStep, CallerStep, WaiterStep, TakeNode;
  }

  lemma StepKeepsEvents(s: State, l: Label)
    requires Placed(s)
    ensures Awaiting(s) + AcceptedEvents(s, [l]) == HandledEvents(s, [l]) + Awaiting(Step(s, l))
    ensures |s.fifo| <= 16 ==> |Step(s, l).fifo| <= 16
  {
    hide Step, Refers;
    assert [l][1..] == [];
    if l.Thread? && !s.slots.bug {
      StepIsThread(s, l);
      ThreadTakesOldest(s, l.hwOk);
    } else {
      OthersKeepFifo(s, l);
    }
  }

  /** Over every run the events handled, followed by those that still wait, are the ones that
      waited at its start, followed by those accepted: none is lost, repeated or overtaken. */
  lemma {:induction false} EventsInOrder(s: State, ls: seq<Label>)
    requires Placed(s) && |s.fifo| <= 16
    ensures Awaiting(s) + AcceptedEvents(s, ls) == HandledEvents(s, ls) + Awaiting(Run(s, ls))
    ensures |Run(s, ls).fifo| <= 16
    decreases |ls|
  {
    hide Step, Awaiting, Refers;
    if ls == [] {
    } else {
      var l, t := ls[0], Step(s, ls[0]);
      var m := StepMoves(s, l);
      StepKeepsEvents(s, l);
      assert [l][1..] == [];
      EventsInOrder(t, ls[1..]);
      var a, h := AcceptedEvents(s, [l]), HandledEvents(s, [l]);
      var later, handled := AcceptedEvents(t, ls[1..]), HandledEvents(t, ls[1..]);
      assert AcceptedEvents(s, ls) == a + later && HandledEvents(s, ls) == h + handled;
      calc {
        Awaiting(s) + (a + later);
        (Awaiting(s) + a) + later;
        h + (Awaiting(t) + later);
        (h + handled) + Awaiting(Run(s, ls));
      }
    }
  }

  /** In every run from the start each accepted event is handled once, in order of arrival,
      except those that still wait; and at most 16 wait in the fifo. */
  lemma EachEventHandledOnce(env: Env, ls: seq<Label>)
    ensures var t := Run(Init(env), ls);
            && HandledEvents(Init(env), ls) + Awaiting(t) == AcceptedEvents(Init(env), ls)
            && |t.fifo| <= 16
  {
    hide Run, Step;
    InitConserved(env);
    EventsInOrder(Init(env), ls);
    assert Awaiting(Init(env)) == [];
  }
}
