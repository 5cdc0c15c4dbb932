/** What the answer to a command does. */
module CommandAnswers {
  import opened Options
  import opened LbsState
  import opened QueueMoves
  import opened NodeConservation
  import opened PowerSave
  import opened RetryBudget
  import opened RunUntil

  /** A response is an answer to a command: it has its number and its code with bit 15 set, unless
      one side is an association, and its result is not DEFER (4). */
  predicate Fits(c: CmdNode, r: Response) {
    && r.seqnum == c.seqnum && r.result != 4
    && (r.command == 0x8012 || c.command == 0x50
        || r.command == (if c.command / 0x8000 % 2 == 1 then c.command else c.command + 0x8000))
  }

  /** The thread is about to look at an answer to the command in node n. */
  predicate HasAnswer(s: State, n: Node) {
    && Placed(s) && !s.slots.bug && s.w.at.Processing? && s.q.cur == Some(n)
    && Fits(s.q.buf[n], s.slots.buf[s.w.slot])
  }

  predicate IsPsAnswer(r: Response) {
    r.command == 0x8021
  }

  predicate EnterDone(r: Response) {
    IsPsAnswer(r) && r.result == 0 && r.action == 0x30
  }

  predicate ExitDone(r: Response) {
    IsPsAnswer(r) && r.result == 0 && r.action == 0x31
  }

  /** ENTER_PS has succeeded, but there is no connection any more. */
  predicate MustWake(s: State, r: Response) {
    EnterDone(r) && !s.env.connected
  }

  /** The command is completed in the section that looks at its answer: errors, answers to PS_MODE,
      and codes without bit 15. */
  predicate AtOnce(s: State, r: Response) {
    !MustWake(s, r) && (IsPsAnswer(r) || r.result != 0 || r.command / 0x8000 % 2 == 0)
  }

  /** From q to t exactly the command in node n has been completed, with this result. */
  predicate CompletedWith(q: Queues, t: Queues, n: Node, result: int)
    requires Buffered(q) && Buffered(t)
  {
    && t.cur == None && t.buf[n].result == result
    && t.buf[n].past.completed == q.buf[n].past.completed + 1 && t.buf[n].past.outcome == result
    && forall m: Node :: m != n ==> t.buf[m].past.completed == q.buf[m].past.completed
  }

  lemma CompletesOne(q: Queues, n: Node, code: int)
    requires Buffered(q)
    ensures CompletedWith(q, Complete(q, n, code), n, code)
    ensures Complete(q, n, code).pending == q.pending
  {
  }

  /** The section that looks at the answer. */
  lemma AnswerStep(s: State, l: Label, n: Node)
    requires HasAnswer(s, n) && l.Thread?
    ensures var t := Step(s, l);
            var r := s.slots.buf[s.w.slot];
            && !t.timedOut && t.nrRetries == 0 && t.w.code == r.result && t.slots == s.slots && t.dnld == s.dnld
            && t.fifo == s.fifo && t.needtowakeup == (s.needtowakeup && !EnterDone(r) && !ExitDone(r))
            && t.psstate == (if EnterDone(r) then Awake else if ExitDone(r) then FullPower else s.psstate)
            && t.env == s.env.(cam := s.env.cam || (IsPsAnswer(r) && r.result != 0 && s.env.adhoc && r.action == 0x30))
            && (AtOnce(s, r) ==> t.w.at.ClearSlot? && CompletedWith(s.q, t.q, n, r.result))
            && (!AtOnce(s, r) && !MustWake(s, r) ==> t.w.at.InCallback? && t.q == s.q)
            && (MustWake(s, r) && s.q.free == [] ==> t.w.at.FinishPs? && t.q == s.q)
            && (MustWake(s, r) && s.q.free != [] ==>
                  OwnCall(t, s.q.free[0], 0x31, FinishPs)
                  && t.q.cur == s.q.cur && t.q.buf == s.q.buf && t.q.pending == s.q.pending)
  {
    hide PowerSection, CommandSection, Complete, Count;
    CompletesOne(s.q, n, s.slots.buf[s.w.slot].result);
  }

  /** The command has been answered and is not completed yet. */
  predicate Finishing(s: State, n: Node, code: int) {
    && Placed(s) && s.q.cur == Some(n) && s.w.code == code
    && (s.w.at.InCallback? || s.w.at.FinishPs? || (s.w.at.Calling? && s.w.back.FinishPs?))
  }

  lemma FinishStep(s: State, l: Label, n: Node, code: int)
    requires Finishing(s, n, code) && l.Thread? && !s.slots.bug && !s.w.at.Calling?
    ensures var t := Step(s, l);
            t.w.at.ClearSlot? && CompletedWith(s.q, t.q, n, code) && t.q.pending == s.q.pending
  {
    hide PowerSection, CommandSection, Complete, Count;
    CompletesOne(s.q, n, code);
  }

  /** A step that completes nothing. */
  lemma StepCompletesNothing(s: State, l: Label, m: Node)
    requires Placed(s) && (!l.Thread? || s.slots.bug || s.w.at.Calling?)
    ensures Step(s, l).q.buf[m].past.completed == s.q.buf[m].past.completed && Step(s, l).q.cur == s.q.cur
  {
    hide Step, Apply, Refers;
    var mv := StepMoves(s, l);
    if l.Thread? && !s.slots.bug { CallWaits(s, l); } else { MoveCompletesNothing(s.q, mv, m); }
  }

  lemma MoveCompletesNothing(q: Queues, mv: Move, m: Node)
    requires Buffered(q) && !mv.Finish? && !mv.Submit? && !mv.Retry?
    ensures Apply(q, mv).buf[m].past.completed == q.buf[m].past.completed && Apply(q, mv).cur == q.cur
  {
  }

  /** In every interleaving up to the end of the section that finishes the response, exactly the
      answered command has been completed, with the result of its answer. */
  lemma {:induction false} FinishRun(s: State, ls: seq<Label>, n: Node, code: int)
    requires Conserved(s) && s.psstate != Sleep && Finishing(s, n, code) && Reaches(s, ls, ClearSlot)
    ensures CompletedWith(s.q, Run(s, ls).q, n, code)
    decreases |ls|
  {
    hide Step, Partitioned, Ledger, Refers, CompletedWith;
    var t := Step(s, ls[0]);
    StepConserves(s, ls[0]);
    if ls[0].Thread? && !s.slots.bug && !s.w.at.Calling? {
      FinishStep(s, ls[0], n, code);
      RunOfOne(s, ls);
    } else {
      if ls[0].Thread? && !s.slots.bug { CallWaits(s, ls[0]); } else { OthersLeave(s, ls[0]); }
      forall m: Node ensures t.q.buf[m].past.completed == s.q.buf[m].past.completed {
        StepCompletesNothing(s, ls[0], m);
      }
      StepCompletesNothing(s, ls[0], n);
      FinishRun(t, ls[1..], n, code);
      SameStart(s.q, t.q, Run(s, ls).q, n, code);
    }
  }

  lemma SameStart(p: Queues, q: Queues, t: Queues, n: Node, code: int)
    requires Buffered(p) && Buffered(q) && Buffered(t) && CompletedWith(q, t, n, code)
    requires forall m: Node :: q.buf[m].past.completed == p.buf[m].past.completed
    ensures CompletedWith(p, t, n, code)
  {
  }

  /** In every interleaving from an answer to the end of its processing: the command in flight, and
      no other one, is completed, with the result of the answer.  An error, or an answer to
      PS_MODE, completes it at once. */
  lemma AnswerCompletes(s: State, ls: seq<Label>, n: Node)
    requires Conserved(s) && PowerSafe(s) && HasAnswer(s, n) && Reaches(s, ls, ClearSlot) && ls[0].Thread?
    ensures CompletedWith(s.q, Run(s, ls).q, n, s.slots.buf[s.w.slot].result)
    ensures AtOnce(s, s.slots.buf[s.w.slot]) ==> Run(s, ls) == Step(s, ls[0])
  {
    hide Step, Partitioned, Ledger, CompletedWith, PowerSafe, Run;
    var t := Step(s, ls[0]);
    var r := s.slots.buf[s.w.slot];
    AnswerStep(s, ls[0], n);
    StepConserves(s, ls[0]);
    AwakeThere(s);
    if AtOnce(s, r) {
      RunOfOne(s, ls);
    } else {
      RunOfMore(s, ls);
      FinishRun(t, ls[1..], n, r.result);
      assert forall m: Node :: t.q.buf[m].past.completed == s.q.buf[m].past.completed;
      SameStart(s.q, t.q, Run(s, ls).q, n, r.result);
    }
  }

  lemma AwakeThere(s: State)
    requires Sized(s) && PowerSafe(s) && s.w.at.Processing?
    ensures s.psstate != Sleep
  {
  }

  /** When ENTER_PS has succeeded without a connection, and a node is free, the driver has queued
      EXIT_PS by the time at which it completes the command. */
  lemma AnswerWakesAgain(s: State, ls: seq<Label>, n: Node)
    requires Conserved(s) && PowerSafe(s) && HasAnswer(s, n) && Reaches(s, ls, FinishPs) && ls[0].Thread?
    requires MustWake(s, s.slots.buf[s.w.slot]) && s.q.free != []
    ensures var t := Run(s, ls);
            s.q.free[0] in t.q.pending && IsPs(t.q.buf[s.q.free[0]], 0x31) && t.psstate == Awake && t.q.cur == Some(n)
  {
    hide Step, Partitioned, Ledger, Refers, PowerSafe, Run;
    AnswerStep(s, ls[0], n);
    StepConserves(s, ls[0]);
    RunOfMore(s, ls);
    OwnCallReturns(Step(s, ls[0]), ls[1..], s.q.free[0], 0x31, FinishPs);
  }

  /** A response that is no answer to the command in flight changes nothing but the place of the
      thread. */
  lemma OthersAreDropped(s: State, hwOk: bool)
    requires Placed(s) && !s.slots.bug && s.w.at.Processing?
    requires s.q.cur.Some? ==> !Fits(s.q.buf[s.q.cur.value], s.slots.buf[s.w.slot])
    ensures Step(s, Thread(hwOk)) == s.(w := s.w.(at := ClearSlot))
  {
    hide PowerSection, CommandSection;
  }
}
