/**
The stream a client sees from a catch-up reply on: what the reply replays, then the live updates. It is
tracked against the session's log while later updates, prompts and retractions go on changing that log.
*/
module Splice {
  import opened Sequences
  import opened ReplayBuffer
  import opened CatchUp
  import opened CatchUpTheorems

  function PromptsAfter(t: Traced, prompts: set<int>, op: Op): set<int> {
    if op.PromptBlock? then prompts + {t.s.head + 1} else prompts
  }

  /** The numbers ever given to prompt blocks, whether those carry a prompt id or not. */
  ghost function Prompts(ops: seq<Op>): set<int> {
    if ops == [] then {}
    else
      var before := ops[..|ops| - 1];
      PromptsAfter(Run(before), Prompts(before), ops[|ops| - 1])
  }

  /** Blocks that carry a prompt id are among prompts, which were all given out. */
  ghost predicate Known(t: Traced, prompts: set<int>) {
    && (forall n | n in prompts :: 1 <= n <= t.s.head)
    && (forall f | f in Log(t) && f.promptID != "" :: f.number in prompts)
  }

  lemma PromptsThen(ops: seq<Op>, op: Op)
    ensures Prompts(ops + [op]) == PromptsAfter(Run(ops), Prompts(ops), op)
  {
    hide Run, PromptsAfter;
    assert (ops + [op])[..|ops|] == ops;
  }

  lemma {:induction false} KnownRun(ops: seq<Op>)
    ensures Known(Run(ops), Prompts(ops))
  {
    hide Known, Step;
    if ops == [] {
      NoneKnown();
    } else {
      var before := ops[..|ops| - 1];
      KnownRun(before);
      RunInv(before);
      KnownStep(Run(before), Prompts(before), ops[|ops| - 1]);
    }
  }

  lemma NoneKnown()
    ensures Known(START, {})
  {
  }

  lemma KnownStep(t: Traced, prompts: set<int>, op: Op)
    requires Inv(t) && Known(t, prompts)
    ensures Known(Step(t, op), PromptsAfter(t, prompts, op))
  {
    hide Inv;
    StepInv(t, op);
    if op.Reject? {
      RejectedLog(t, op.promptID);
    } else {
      HeadNatural(t);
      hide Step, Log;
      StepRecords(t, op);
      forall f | f in Log(Step(t, op)) && f.promptID != "" ensures f.number in PromptsAfter(t, prompts, op) {
        assert f in Log(t) || f == Recorded(t, op);
      }
      if op.PromptBlock? { assert Recordable(t, Recorded(t, op), Step(t, op).s.head); }
    }
  }

  /** An update the agent sent, as opposed to a prompt block the gateway buffered for a request. */
  function FromAgent(prompts: set<int>): HistoryFrame -> bool {
    (f: HistoryFrame) => f.number !in prompts
  }

  /** The agent's updates past cursor after that are still part of the conversation. */
  function Due(t: Traced, prompts: set<int>, after: int): seq<HistoryFrame> {
    Keep(Keep(Log(t), RankAbove(after)), FromAgent(prompts))
  }

  /** sent holds each due agent update exactly once and in order, with strictly rising numbers. */
  ghost predicate Seamless(t: Traced, prompts: set<int>, after: int, sent: seq<HistoryFrame>) {
    && after <= t.s.head
    && Keep(sent, FromAgent(prompts)) == Due(t, prompts, after)
    && Ordered(sent)
    && forall f | f in sent :: after < Rank(f) && WellNumbered(f, t.s.head)
  }

  lemma SpliceStarts(t: Traced, prompts: set<int>, after: int)
    requires Inv(t) && !Gap(t.s, after)
    ensures Seamless(t, prompts, after, Missed(t.s, after))
  {
    hide PoisonInv, Honest, Missed;
    MissedIsRest(t, after);
    var sent := Missed(t.s, after);
    OrderedKeep(Log(t), RankAbove(after));
    forall f | f in sent ensures after < Rank(f) && WellNumbered(f, t.s.head) { KeepIn(Log(t), RankAbove(after), f); }
  }

  lemma DueGrows(t: Traced, u: Traced, prompts: set<int>, f: HistoryFrame, after: int)
    requires Log(u) == Log(t) + [f] && after < Rank(f)
    ensures Due(u, prompts, after) == Due(t, prompts, after) + if f.number !in prompts then [f] else []
  {
    hide Log, Keep;
    KeepConcat(Log(t), [f], RankAbove(after));
    KeepAll([f], RankAbove(after));
    KeepConcat(Keep(Log(t), RankAbove(after)), [f], FromAgent(prompts));
    if f.number !in prompts { KeepAll([f], FromAgent(prompts)); } else { KeepNone([f], FromAgent(prompts)); }
  }

  lemma SentGrows(t: Traced, prompts: set<int>, after: int, sent: seq<HistoryFrame>, f: HistoryFrame, head: int)
    requires Seamless(t, prompts, after, sent) && Recordable(t, f, head) && f.number !in prompts
    ensures Keep(sent + [f], FromAgent(prompts)) == Keep(sent, FromAgent(prompts)) + [f]
    ensures Ordered(sent + [f])
    ensures forall g | g in sent + [f] :: after < Rank(g) && WellNumbered(g, head)
  {
    hide Due;
    KeepConcat(sent, [f], FromAgent(prompts));
    KeepAll([f], FromAgent(prompts));
    LogGrows(sent, f, t.s.head, head);
    assert forall g | g in sent + [f] :: g in sent || g == f;
  }

  /** A live update extends the stream by exactly itself. */
  lemma SpliceUpdate(t: Traced, prompts: set<int>, op: Op, after: int, sent: seq<HistoryFrame>)
    requires Inv(t) && Known(t, prompts) && op.Update? && Seamless(t, prompts, after, sent)
    ensures Seamless(Step(t, op), prompts, after, sent + [Recorded(t, op)])
  {
    StepInv(t, op);
    hide Inv, Step, Due, Recorded;
    StepRecords(t, op);
    assert Recordable(t, Recorded(t, op), Step(t, op).s.head);
    DueGrows(t, Step(t, op), prompts, Recorded(t, op), after);
    SentGrows(t, prompts, after, sent, Recorded(t, op), Step(t, op).s.head);
  }

  /** Frames no newer than the head are told apart as before. */
  lemma SameOrigin(frames: seq<HistoryFrame>, prompts: set<int>, head: int)
    requires forall f | f in frames :: f.number <= head
    ensures Keep(frames, FromAgent(prompts + {head + 1})) == Keep(frames, FromAgent(prompts))
  {
    KeepAgree(frames, FromAgent(prompts + {head + 1}), FromAgent(prompts));
  }

  lemma DueSame(t: Traced, prompts: set<int>, after: int)
    requires LogInv(t)
    ensures Due(t, prompts + {t.s.head + 1}, after) == Due(t, prompts, after)
  {
    hide Ordered, Honest;
    var past := Keep(Log(t), RankAbove(after));
    forall f | f in past ensures f.number <= t.s.head { KeepIn(Log(t), RankAbove(after), f); }
    SameOrigin(past, prompts, t.s.head);
  }

  /** A prompt block, with a prompt id or without, is not sent live and is not an agent update. */
  lemma SpliceBlock(t: Traced, prompts: set<int>, op: Op, after: int, sent: seq<HistoryFrame>)
    requires Inv(t) && op.PromptBlock? && Seamless(t, prompts, after, sent)
    ensures Seamless(Step(t, op), PromptsAfter(t, prompts, op), after, sent)
  {
    StepInv(t, op);
    StepRecords(t, op);
    DueSame(t, prompts, after);
    SameOrigin(sent, prompts, t.s.head);
    hide Inv, Step, Due, Ordered;
    DueGrows(t, Step(t, op), prompts + {t.s.head + 1}, Recorded(t, op), after);
  }

  lemma DueKept(gone: seq<HistoryFrame>, h: seq<HistoryFrame>, prompts: set<int>, promptID: string, after: int)
    requires forall f | f in h && f.promptID == promptID :: f.number in prompts
    ensures Keep(Keep(gone + Keep(h, OtherThan(promptID)), RankAbove(after)), FromAgent(prompts))
         == Keep(Keep(gone + h, RankAbove(after)), FromAgent(prompts))
  {
    var kept := Keep(h, OtherThan(promptID));
    KeepKeep(gone + kept, RankAbove(after), FromAgent(prompts));
    KeepKeep(gone + h, RankAbove(after), FromAgent(prompts));
    KeepConcat(gone, kept, FromAgent(prompts));
    KeepConcat(gone, h, FromAgent(prompts));
    KeepKeep(h, OtherThan(promptID), FromAgent(prompts));
  }

  /** Retractions take back prompts only, never an agent update. */
  lemma SpliceReject(t: Traced, prompts: set<int>, op: Op, after: int, sent: seq<HistoryFrame>)
    requires Inv(t) && Known(t, prompts) && op.Reject? && Seamless(t, prompts, after, sent)
    ensures Seamless(Step(t, op), prompts, after, sent)
  {
    StepInv(t, op);
    hide Inv, Ordered, Retracts, InvalidateAll, Keep;
    if op.promptID != "" {
      assert forall f | f in t.s.history :: f in Log(t);
      DueKept(t.gone, t.s.history, prompts, op.promptID, after);
    } else {
      NothingToReject(t.s);
    }
  }

  lemma NothingToReject(s: Session)
    ensures !Retracts(s, "")
  {
  }
}
