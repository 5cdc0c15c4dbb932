/** The two response slots between the card and the worker thread. */
module ResponseSlots {
  import opened Options
  import opened LbsState
  import opened QueueMoves

  /** The worker thread has taken the response of slot w.slot and not yet cleared the slot. */
  predicate Busy(w: Worker) {
    w.at.Processing? || w.at.InCallback? || w.at.FinishPs? || w.at.ClearSlot? || (w.at.Calling? && w.back.FinishPs?)
  }

  /** The newest response has not been taken yet. */
  predicate Untaken(s: State)
    requires Sized(s)
  {
    s.slots.len[s.slots.idx] != 0 && !(Busy(s.w) && s.w.slot == s.slots.idx)
  }

  /** A response that the buffers can hold arrives only when the thread has taken the previous
      one, which it may still be at work on; and it is not empty. */
  predicate Paced(s: State, l: Label)
    requires Sized(s)
  {
    l.Respond? && l.resp.size <= 2048 ==> l.resp.size > 0 && !Untaken(s)
  }

  predicate PacedRun(s: State, ls: seq<Label>)
    requires Sized(s)
    decreases |ls|
  {
    ls == [] || (Paced(s, ls[0]) && PacedRun(Step(s, ls[0]), ls[1..]))
  }

  predicate Delivered(s: State) {
    && Sized(s)
    && !s.slots.bug
    // only the slot at work can be full beside the newest one
    && (s.slots.len[1 - s.slots.idx] != 0 ==> Busy(s.w) && s.w.slot == 1 - s.slots.idx && s.slots.len[s.slots.idx] != 0)
    // the slot at work still holds what the thread took
    && (Busy(s.w) ==> s.w.slot < 2 && s.slots.len[s.w.slot] != 0 && s.slots.taken != []
                      && s.slots.buf[s.w.slot] == s.slots.taken[|s.slots.taken| - 1])
    // every response was taken once, in order of arrival, except the newest
    && s.slots.arrived == s.slots.taken + (if Untaken(s) then [s.slots.buf[s.slots.idx]] else [])
  }

  lemma CallStays(s: State, action: nat, back: Pc)
    requires Sized(s)
    ensures var t := CallPs(s, action, back);
            t.slots == s.slots && t.w.slot == s.w.slot && (t.w.at == back || (t.w.at == Calling && t.w.back == back))
  {
  }

  lemma ResponseBusy(s: State)
    requires Placed(s) && !s.w.at.Top? && !s.w.at.ClearSlot? && InResponseSection(s.w.at)
    ensures var t := ResponseSection(s);
            Busy(t.w) == Busy(s.w) && t.slots == s.slots && t.w.slot == s.w.slot
  {
    hide CallPs, Complete, Accepts, Count;
    if s.w.at.Processing? {
      var r := s.slots.buf[s.w.slot];
      CallStays(ApplyResponse(s, r).(w := s.w.(code := r.result)), CMD_SUBCMD_EXIT_PS, FinishPs);
    }
  }

  lemma EventBusy(s: State)
    requires Sized(s) && s.w.at.Handling?
    ensures var t := HandleEvent(s);
            !Busy(t.w) && t.slots == s.slots && t.w.slot == s.w.slot
  {
    hide CallPs, Count;
    CallStays(s.(psstate := Awake), CMD_SUBCMD_EXIT_PS, Events);
    CallStays(s.(env := s.env.(connected := false, txPending := 0)), CMD_SUBCMD_EXIT_PS, Events);
  }

  lemma DecideBusy(s: State)
    requires Sized(s) && s.w.at.Peeked?
    ensures var t := Decide(s);
            !Busy(t.w) && t.slots == s.slots && t.w.slot == s.w.slot
  {
    hide CallPs, Count, Remove;
    CallStays(s, CMD_SUBCMD_EXIT_PS, Transmit);
  }

  lemma PowerBusy(s: State, hwOk: bool)
    requires Placed(s) && !InResponseSection(s.w.at) && !InCommandSection(s.w.at)
    ensures var t := PowerSection(s, hwOk);
            Busy(t.w) == Busy(s.w) && t.slots == s.slots && t.w.slot == s.w.slot
  {
    hide HandleEvent, Count, NothingToRead;
    match s.w.at
    case Handling => EventBusy(s);
    case ConfirmSleep =>
    case SendConfirm =>
    case CommitSleep =>
    case CheckPreSleep =>
    case _ =>
  }

  lemma CommandBusy(s: State, hwOk: bool)
    requires Placed(s) && InCommandSection(s.w.at)
    ensures var t := CommandSection(s, hwOk);
            Busy(t.w) == Busy(s.w) && t.slots == s.slots && t.w.slot == s.w.slot
  {
    hide CallPs, Count, Complete, Decide;
    match s.w.at
    case Peeked => DecideBusy(s);
    case GoIdle => CallStays(s, CMD_SUBCMD_ENTER_PS, Transmit);
    case Calling =>
    case _ =>
  }

  /** Only the top of the loop makes the thread busy, and only ClearSlot makes it idle. */
  lemma ThreadBusy(s: State, hwOk: bool)
    requires Placed(s) && !s.w.at.Top? && !s.w.at.ClearSlot?
    ensures var t := ThreadStep(s, hwOk);
            Busy(t.w) == Busy(s.w) && t.slots == s.slots && t.w.slot == s.w.slot
  {
    hide ResponseSection, PowerSection, CommandSection, Busy, Placed;
    if InResponseSection(s.w.at) { ResponseBusy(s); }
    else if InCommandSection(s.w.at) { CommandBusy(s, hwOk); }
    else { PowerBusy(s, hwOk); }
  }

  lemma StepDelivers(s: State, l: Label)
    requires Placed(s) && Delivered(s) && Paced(s, l)
    ensures Delivered(Step(s, l))
  {
    hide ResponseSection, PowerSection, CommandSection, CallerStep, WaiterStep, Count;
    match l
    case Thread(hwOk) =>
      if s.w.at.Top? || s.w.at.ClearSlot? { TakeOrClear(s, hwOk); } else { ThreadBusy(s, hwOk); }
    case _ =>
  }

  lemma TakeOrClear(s: State, hwOk: bool)
    requires Placed(s) && Delivered(s) && (s.w.at.Top? || s.w.at.ClearSlot?)
    ensures Delivered(ThreadStep(s, hwOk))
  {
    hide PowerSection, CommandSection, ProcessResponse, FinishResponse, HandleTimeoutStep, Count;
  }

  lemma {:induction false} RunDelivers(s: State, ls: seq<Label>)
    requires Placed(s) && Delivered(s) && PacedRun(s, ls)
    ensures Delivered(Run(s, ls))
    decreases |ls|
  {
    hide Step, Delivered, Paced;
    if ls == [] {
    } else {
      var m := StepMoves(s, ls[0]);
      StepDelivers(s, ls[0]);
      RunDelivers(Step(s, ls[0]), ls[1..]);
    }
  }

  /** In every paced run the BUG_ON does not fire, the slot at work is not overwritten, and
      the responses are taken exactly once, in order of arrival. */
  lemma EachResponseTakenOnce(env: Env, ls: seq<Label>)
    requires PacedRun(Init(env), ls)
    ensures var t := Run(Init(env), ls);
            && !t.slots.bug
            && t.slots.taken <= t.slots.arrived && |t.slots.arrived| <= |t.slots.taken| + 1
            && (Busy(t.w) ==> t.w.slot < 2 && t.slots.taken != []
                              && t.slots.buf[t.w.slot] == t.slots.taken[|t.slots.taken| - 1])
  {
    RunDelivers(Init(env), ls);
  }

  /** One response that comes too early, or is empty, already breaks this. */
  lemma PaceIsNeeded(s: State, resp: Response)
    requires Delivered(s)
    ensures Delivered(Step(s, Respond(resp))) <==> Paced(s, Respond(resp))
  {
    hide ThreadStep, CallerStep, WaiterStep;
    if resp.size <= CMD_BUFFER_SIZE && Untaken(s) {
      assert |s.slots.arrived| == |s.slots.taken| + 1;
      assert !Delivered(Step(s, Respond(resp)));
    }
  }

  /** Every state of the run delivers the responses as it should. */
  predicate AlwaysDelivered(s: State, ls: seq<Label>)
    requires Sized(s)
    decreases |ls|
  {
    Delivered(s) && (ls == [] || AlwaysDelivered(Step(s, ls[0]), ls[1..]))
  }

  /** The BUG_ON does not fire, nothing is overwritten and every response is taken once, in
      order, in all states of a run exactly if the run is paced. */
  lemma {:induction false} DeliveredExactlyIfPaced(s: State, ls: seq<Label>)
    requires Placed(s) && Delivered(s)
    ensures AlwaysDelivered(s, ls) <==> PacedRun(s, ls)
    decreases |ls|
  {
    hide Step, Delivered, Paced;
    if ls == [] {
    } else {
      var m := StepMoves(s, ls[0]);
      if Paced(s, ls[0]) {
        StepDelivers(s, ls[0]);
        DeliveredExactlyIfPaced(Step(s, ls[0]), ls[1..]);
      } else {
        OnlyResponses(s, ls[0]);
        PaceIsNeeded(s, ls[0].resp);
      }
    }
  }

  lemma OnlyResponses(s: State, l: Label)
    requires Sized(s) && !Paced(s, l)
    ensures l.Respond?
  {
  }

  /** An empty response is stored, but the thread never sees it: when it comes while the first
      response is at work, the next one, although nothing waits to be taken, finds the slot
      at work full. */
  lemma EmptyResponseHitsBug(env: Env, a: Response, z: Response, b: Response, hwOk: bool)
    requires 0 < a.size <= CMD_BUFFER_SIZE && z.size == 0 && 0 < b.size <= CMD_BUFFER_SIZE
    ensures var s1 := Run(Init(env), [Respond(a), Thread(hwOk)]);
            var s2 := Step(s1, Respond(z));
            && Delivered(s1) && !Untaken(s1) && !s2.slots.bug && !Untaken(s2)
            && Step(s2, Respond(b)).slots.bug
  {
    var s0 := Step(Init(env), Respond(a));
    var s1 := Step(s0, Thread(hwOk));
    assert [Respond(a), Thread(hwOk)][1..] == [Thread(hwOk)];
    assert Run(s0, [Thread(hwOk)]) == s1;
  }

  /** Three responses without the thread between them run into the BUG_ON. */
  lemma UnpacedResponsesHitBug(env: Env, a: Response, b: Response, c: Response)
    requires 0 < a.size <= CMD_BUFFER_SIZE && 0 < b.size <= CMD_BUFFER_SIZE && 0 < c.size <= CMD_BUFFER_SIZE
    ensures Run(Init(env), [Respond(a), Respond(b), Respond(c)]).slots.bug
  {
    var s1 := Step(Init(env), Respond(a));
    var s2 := Step(s1, Respond(b));
    var s3 := Step(s2, Respond(c));
    assert [Respond(a), Respond(b), Respond(c)][1..] == [Respond(b), Respond(c)];
    assert [Respond(b), Respond(c)][1..] == [Respond(c)];
    assert Run(s2, [Respond(c)]) == s3;
  }
}
