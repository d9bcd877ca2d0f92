/** The whole-run theorems about catch-up resume and re-load replay. */
module CatchUpTheorems {
  import opened Sequences
  import opened ReplayBuffer
  import opened CatchUp

  lemma {:induction false} RunInv(ops: seq<Op>)
    ensures Inv(Run(ops))
  {
    if ops == [] {
      InvInit();
    } else {
      RunInv(ops[..|ops| - 1]);
      StepInv(Run(ops[..|ops| - 1]), ops[|ops| - 1]);
    }
  }

  /** The updates a client whose cursor is c is known to hold. */
  function Held(t: Traced, c: int): seq<HistoryFrame> {
    Keep(Log(t), RankAtMost(c))
  }

  // ----- One step -----

  lemma StepPoisoned(t: Traced, op: Op, c: int)
    requires Covers(t.poisoned, c)
    ensures Covers(Step(t, op).poisoned, c)
  {
    hide Record, BufferBlock, Forget, Retracts;
    var added := Step(t, op).poisoned[|t.poisoned|..];
    assert Step(t, op).poisoned == t.poisoned + added;
    CoversConcat(t.poisoned, added, c);
  }

  /** Recording changes nothing a cursor at or below the head covers. */
  lemma GrowthHeld(t: Traced, op: Op, c: int)
    requires Inv(t) && !op.Reject? && c <= t.s.head
    ensures Held(Step(t, op), c) == Held(t, c)
  {
    hide Inv, Step, Log, Recorded;
    StepRecords(t, op);
    KeepConcat(Log(t), [Recorded(t, op)], RankAtMost(c));
    assert Keep([Recorded(t, op)], RankAtMost(c)) == [];
  }

  lemma PoisonCovers(blocks: seq<HistoryFrame>, head: int, f: HistoryFrame, c: int)
    requires f in blocks && f.number <= c <= head
    ensures Covers(Poison(blocks, head), c)
  {
    var i :| 0 <= i < |blocks| && blocks[i] == f;
    assert Poison(blocks, head)[i] == CursorRange(f.number, head);
  }

  /** A retraction either poisons a cursor or removes nothing it covers. */
  lemma RetractionHeld(t: Traced, promptID: string, c: int)
    requires LogInv(t) && Retracts(t.s, promptID) && c <= t.s.head
    requires !Covers(Step(t, Reject(promptID)).poisoned, c)
    ensures Held(Step(t, Reject(promptID)), c) == Held(t, c)
  {
    var h := t.s.history;
    var blocks, added := Keep(h, BlockOf(promptID)), Poison(Keep(h, BlockOf(promptID)), t.s.head);
    BlocksNumbered(t, promptID);
    CoversConcat(t.poisoned, added, c);
    forall f | f in h && RankAtMost(c)(f) ensures OtherThan(promptID)(f) {
      if f.promptID == promptID {
        KeepIn(h, BlockOf(promptID), f);
        PoisonCovers(blocks, t.s.head, f, c);
      }
    }
    KeepKeep(h, OtherThan(promptID), RankAtMost(c));
    KeepConcat(t.gone, h, RankAtMost(c));
    KeepConcat(t.gone, Keep(h, OtherThan(promptID)), RankAtMost(c));
  }

  /** Over one step, a cursor that stays unpoisoned keeps covering the same updates. */
  lemma StepHeld(t: Traced, op: Op, c: int)
    requires Inv(t) && c <= t.s.head
    ensures Covers(Step(t, op).poisoned, c) || Held(Step(t, op), c) == Held(t, c)
  {
    if !op.Reject? {
      GrowthHeld(t, op, c);
    } else {
      hide LogInv, PoisonInv, Held, Forget, Poison;
      if !Retracts(t.s, op.promptID) {
        assert Step(t, op) == t;
      } else if !Covers(Step(t, op).poisoned, c) {
        RetractionHeld(t, op.promptID, c);
      }
    }
  }

  // ----- Whole runs -----

  lemma RunThen(ops: seq<Op>, op: Op)
    ensures Run(ops + [op]) == Step(Run(ops), op)
  {
    hide Step;
    assert (ops + [op])[..|ops|] == ops;
  }

  /** What a cursor covered once it covers for good, unless a retraction poisoned that cursor. */
  lemma {:induction false} HeldForGood(early: seq<Op>, later: seq<Op>, c: int)
    requires c <= Run(early).s.head
    ensures c <= Run(early + later).s.head
    ensures Covers(Run(early + later).poisoned, c) || Held(Run(early + later), c) == Held(Run(early), c)
    decreases later
  {
    hide Run, Step, Inv, Held, Covers;
    if later == [] {
      assert early + later == early;
    } else {
      var before := later[..|later| - 1];
      HeldForGood(early, before, c);
      assert early + later == early + before + [later[|later| - 1]];
      RunThen(early + before, later[|later| - 1]);
      RunInv(early + before);
      StepInv(Run(early + before), later[|later| - 1]);
      StepHeld(Run(early + before), later[|later| - 1], c);
      if Covers(Run(early + before).poisoned, c) {
        StepPoisoned(Run(early + before), later[|later| - 1], c);
      }
    }
  }

  lemma GoneHeld(t: Traced, c: int)
    requires LogInv(t) && t.s.evicted <= c
    ensures Keep(t.gone, RankAbove(c)) == []
  {
    forall f | f in t.gone ensures Rank(f) <= c { GoneBelowMark(t, f); }
    KeepNone(t.gone, RankAbove(c));
  }

  lemma MissedByRank(t: Traced, c: int)
    requires LogInv(t) && !Gap(t.s, c)
    ensures Missed(t.s, c) == Keep(t.s.history, RankAbove(c))
  {
    hide Ordered, Honest, Covers;
    forall f | f in t.s.history ensures NumberedAfter(c)(f) == RankAbove(c)(f) {
      assert f in Log(t) && WellNumbered(f, t.s.head);
    }
    KeepAgree(t.s.history, NumberedAfter(c), RankAbove(c));
  }

  /** A catch-up without a gap returns exactly what the log holds past the cursor. */
  lemma MissedIsRest(t: Traced, c: int)
    requires Inv(t) && !Gap(t.s, c)
    ensures Held(t, c) + Missed(t.s, c) == Log(t)
    ensures Missed(t.s, c) == Keep(Log(t), RankAbove(c))
  {
    hide PoisonInv, Missed, Honest, Ordered, Covers, Keep;
    SplitAt(Log(t), c);
    KeepConcat(t.gone, t.s.history, RankAbove(c));
    GoneHeld(t, c);
    MissedByRank(t, c);
  }

  lemma GoneBelowMark(t: Traced, f: HistoryFrame)
    requires LogInv(t) && f in t.gone
    ensures Rank(f) <= t.s.evicted
  {
    var last := |t.gone| - 1;
    var i :| 0 <= i < |t.gone| && t.gone[i] == f;
    OrderedConcat(t.gone, t.s.history);
    if i < last {
      assert t.gone == t.gone[..last] + [t.gone[last]];
      OrderedConcat(t.gone[..last], [t.gone[last]]);
      assert f in t.gone[..last] && t.gone[last] in [t.gone[last]];
      assert Before(f, t.gone[last]);
    }
  }

  /**
   * Catch-up is sound over every run: whatever was recorded, evicted and retracted since a client stood at
   * cursor c, a catch-up without a gap completes what it held then to the whole of today's log.
   */
  lemma CatchUpSound(early: seq<Op>, later: seq<Op>, c: int)
    requires c <= Run(early).s.head
    requires !Gap(Run(early + later).s, c)
    ensures Held(Run(early), c) + Missed(Run(early + later).s, c) == Log(Run(early + later))
  {
    hide Run, Held;
    var t := Run(early + later);
    RunInv(early + later);
    HeldForGood(early, later, c);
    assert !Covers(t.poisoned, c) by { UnpoisonedWithoutGap(t, c); }
    MissedIsRest(t, c);
  }

  lemma UnpoisonedWithoutGap(t: Traced, c: int)
    requires Inv(t) && !Gap(t.s, c)
    ensures !Covers(t.poisoned, c)
  {
    hide LogInv;
  }

  // ----- Gaps are reported only when needed -----

  /** A poisoned cursor once covered an update that was taken back. */
  ghost predicate OnceHeldMore(ops: seq<Op>, c: int) {
    exists k :: 0 <= k <= |ops| && c <= Run(ops[..k]).s.head && Held(Run(ops[..k]), c) != Held(Run(ops), c)
  }

  /** Some update the cursor does not cover is no longer buffered. */
  ghost predicate LostSince(t: Traced, c: int) {
    exists f :: f in t.gone && Rank(f) > c
  }

  ghost predicate UnnumberedSince(t: Traced, c: int) {
    exists f :: f in t.s.history && f.number == 0 && f.gapBoundary > c
  }

  lemma EvictedExactly(t: Traced, c: int)
    requires LogInv(t)
    ensures c < t.s.evicted <==> LostSince(t, c) || (t.gone == [] && c < 0)
  {
    if t.gone != [] {
      var last := t.gone[|t.gone| - 1];
      assert last in t.gone;
      forall f | f in t.gone && Rank(f) > c ensures c < t.s.evicted { GoneBelowMark(t, f); }
    }
  }

  /** Before a retraction, each poisoned cursor covered the block that poisons it. */
  lemma PoisonedHeldBlock(t: Traced, promptID: string, r: CursorRange)
    requires Inv(t) && Retracts(t.s, promptID)
    requires r in Poison(Keep(t.s.history, BlockOf(promptID)), t.s.head)
    ensures exists f :: f in Log(t) && f.number == r.from && Rank(f) == r.from
    ensures r.through == t.s.head
  {
    var f := PoisonIn(Keep(t.s.history, BlockOf(promptID)), t.s.head, r);
    BlocksNumbered(t, promptID);
    KeptIn(t.s.history, promptID);
    assert f in Log(t);
  }

  lemma NewlyPoisoned(t: Traced, op: Op, r: CursorRange)
    requires Inv(t) && r in Step(t, op).poisoned && r !in t.poisoned
    ensures exists f :: f in Log(t) && f.number == r.from && Rank(f) == r.from
    ensures r.through == t.s.head
  {
    hide Record, BufferBlock, Forget, LogInv, PoisonInv;
    PoisonedHeldBlock(t, op.promptID, r);
  }

  /** Every poisoned range was set at some earlier moment, when the log still held its first update. */
  lemma {:induction false} PoisonedSince(ops: seq<Op>, r: CursorRange) returns (k: nat)
    requires r in Run(ops).poisoned
    ensures k <= |ops| && Run(ops[..k]).s.head == r.through
    ensures exists f :: f in Log(Run(ops[..k])) && f.number == r.from && Rank(f) == r.from
    decreases ops
  {
    hide Step, Inv;
    assert ops != [];
    var before := ops[..|ops| - 1];
    RunInv(before);
    if r in Run(before).poisoned {
      k := PoisonedSince(before, r);
      assert ops[..k] == before[..k];
    } else {
      k := |ops| - 1;
      NewlyPoisoned(Run(before), ops[k], r);
    }
  }

  lemma PoisonedMeansHeldMore(ops: seq<Op>, c: int)
    requires Covers(Run(ops).poisoned, c)
    ensures OnceHeldMore(ops, c)
  {
    var t := Run(ops);
    var i :| 0 <= i < |t.poisoned| && t.poisoned[i].from <= c <= t.poisoned[i].through;
    var r := t.poisoned[i];
    var k := PoisonedSince(ops, r);
    var f :| f in Log(Run(ops[..k])) && f.number == r.from && Rank(f) == r.from;
    RunInv(ops);
    KeepIn(Log(Run(ops[..k])), RankAtMost(c), f);
    KeepIn(Log(t), RankAtMost(c), f);
    assert f !in Log(t) by { NotNamed(t, r, f); }
    assert f in Held(Run(ops[..k]), c) && f !in Held(t, c);
  }

  lemma NotNamed(t: Traced, r: CursorRange, f: HistoryFrame)
    requires Inv(t) && r in t.poisoned && f.number == r.from
    ensures f !in Log(t)
  {
    hide LogInv;
  }

  /**
   * A gap is reported exactly when it must be: the cursor is not one this epoch handed out, an update past it
   * was evicted or could not be numbered, or a client at that cursor once held an update since taken back.
   */
  lemma GapExactly(ops: seq<Op>, c: int)
    ensures var t := Run(ops);
      Gap(t.s, c) <==> c < 0 || c > t.s.head || LostSince(t, c) || UnnumberedSince(t, c) || OnceHeldMore(ops, c)
  {
    hide Run, Held, LostSince;
    var t := Run(ops);
    RunInv(ops);
    EvictedExactly(t, c);
    EvictedNatural(t);
    if t.s.evicted <= c <= t.s.head {
      assert Covers(t.s.rejected, c) <==> Covers(t.poisoned, c) by { SameCover(t, c); }
      if Covers(t.poisoned, c) {
        PoisonedMeansHeldMore(ops, c);
      } else if OnceHeldMore(ops, c) {
        var k :| 0 <= k <= |ops| && c <= Run(ops[..k]).s.head && Held(Run(ops[..k]), c) != Held(Run(ops), c);
        assert ops[..k] + ops[k..] == ops;
        HeldForGood(ops[..k], ops[k..], c);
      }
    }
  }

  lemma EvictedNatural(t: Traced)
    requires Inv(t)
    ensures 0 <= t.s.evicted
  {
    if t.gone != [] {
      var last := t.gone[|t.gone| - 1];
      assert last in Log(t) && WellNumbered(last, t.s.head);
    }
  }

  /** The merged ranges give every cursor the verdict of the plain list of everything ever poisoned. */
  lemma SameCover(t: Traced, c: int)
    requires Inv(t) && t.s.evicted <= c
    ensures Covers(t.s.rejected, c) <==> Covers(t.poisoned, c)
  {
    hide LogInv;
  }

  // ----- What a load replay shows -----

  /** The replay that follows an "already loaded" rejection is announced as truncated exactly when it is. */
  lemma TruncatedExactly(ops: seq<Op>)
    ensures Run(ops).s.trimmed <==> Run(ops).s.history != Log(Run(ops))
  {
    hide Run;
    RunInv(ops);
    TruncatedNow(Run(ops));
  }

  lemma TruncatedNow(t: Traced)
    requires Inv(t)
    ensures t.s.trimmed <==> t.s.history != Log(t)
  {
    hide PoisonInv, Ordered;
    assert |Log(t)| == |t.gone| + |t.s.history|;
    assert t.gone == [] ==> Log(t) == t.s.history;
  }

  /** The buffer never outgrows its cap, unless one update alone does. */
  lemma {:induction false} Bounded(ops: seq<Op>)
    ensures var s := Run(ops).s;
      s.histSize == Size(s.history) && (s.histSize <= MAX_LOAD_HISTORY_BYTES || |s.history| <= 1)
  {
    RunInv(ops);
    if ops != [] {
      var before := ops[..|ops| - 1];
      Bounded(before);
      RunInv(before);
      StepBounded(Run(before), ops[|ops| - 1]);
    }
  }

  lemma StepBounded(t: Traced, op: Op)
    requires LogInv(t) && (t.s.histSize <= MAX_LOAD_HISTORY_BYTES || |t.s.history| <= 1)
    ensures var s := Step(t, op).s; s.histSize <= MAX_LOAD_HISTORY_BYTES || |s.history| <= 1
  {
    hide Ordered, Append, InvalidateAll, Retracts;
    match op
    case Update(line, user, numbered) =>
      AppendBounded(if numbered then t.s.(head := t.s.head + 1) else t.s, RecordedFrame(t.s, line, user, numbered));
    case PromptBlock(line, promptID) =>
      AppendBounded(t.s.(head := t.s.head + 1), PromptFrame(t.s, line, promptID));
    case Reject(promptID) =>
  }

  lemma AppendBounded(s: Session, f: HistoryFrame)
    requires Accounted(s)
    ensures var r := Append(s, f); r.histSize <= MAX_LOAD_HISTORY_BYTES || |r.history| <= 1
  {
    AppendKeeps(s, f);
    assert (s.history + [f])[0..] == s.history + [f];
  }

  // ----- Prompts bigger than the buffer -----

  /** At one moment: a retraction removes the buffered blocks and knows nothing of the evicted ones. */
  lemma RetractionLeavesGone(t: Traced, promptID: string)
    requires Inv(t) && Retracts(t.s, promptID)
    ensures (forall f | f in Log(Step(t, Reject(promptID))) :: f.promptID != promptID)
        <==> (forall f | f in t.gone :: f.promptID != promptID)
  {
    hide LogInv, PoisonInv, InvalidateAll;
    KeptIn(t.s.history, promptID);
    var u := Step(t, Reject(promptID));
    assert forall f | f in t.gone :: f in Log(u);
    assert forall f | f in Log(u) :: f in t.gone || f in Keep(t.s.history, OtherThan(promptID));
  }

  /** The prompt's first block has number n; it is still in the conversation. */
  ghost predicate StartsAt(t: Traced, promptID: string, n: int) {
    && n <= t.s.head
    && (exists f :: f in Log(t) && f.number == n && f.promptID == promptID)
    && (forall f | f in Log(t) && f.promptID == promptID :: n <= f.number)
  }

  lemma StartsNow(t: Traced, line: string, promptID: string)
    requires Inv(t) && promptID != "" && forall f | f in Log(t) :: f.promptID != promptID
    ensures StartsAt(Step(t, PromptBlock(line, promptID)), promptID, t.s.head + 1)
  {
    hide Inv, Step, Log;
    StepRecords(t, PromptBlock(line, promptID));
    var f := Recorded(t, PromptBlock(line, promptID));
    assert Log(t) + [f] == Log(Step(t, PromptBlock(line, promptID))) && f in Log(t) + [f];
    assert Recordable(t, f, Step(t, PromptBlock(line, promptID)).s.head);
  }

  lemma StartsStill(t: Traced, op: Op, promptID: string, n: int)
    requires Inv(t) && promptID != "" && 1 <= n && StartsAt(t, promptID, n) && op != Reject(promptID)
    ensures StartsAt(Step(t, op), promptID, n)
  {
    hide Inv;
    StepInv(t, op);
    var f :| f in Log(t) && f.number == n && f.promptID == promptID;
    if op.Reject? {
      RejectedLog(t, op.promptID);
      assert f in Log(Step(t, op));
    } else {
      hide Step, Log;
      StepRecords(t, op);
      assert Recordable(t, Recorded(t, op), Step(t, op).s.head);
      assert f in Log(t) + [Recorded(t, op)];
    }
  }

  /** A rejection takes nothing but blocks of its prompt. */
  lemma RejectedLog(t: Traced, promptID: string)
    ensures var u := Step(t, Reject(promptID));
      && (forall f | f in Log(u) :: f in Log(t))
      && (forall f | f in Log(t) && f.promptID != promptID :: f in Log(u))
  {
    hide InvalidateAll;
    KeptIn(t.s.history, promptID);
    forall f | f in t.s.history && f.promptID != promptID ensures f in Keep(t.s.history, OtherThan(promptID)) {
      KeepIn(t.s.history, OtherThan(promptID), f);
    }
  }

  lemma {:induction false} StartsSince(early: seq<Op>, line: string, promptID: string, later: seq<Op>)
    requires promptID != "" && Reject(promptID) !in later && forall f | f in Log(Run(early)) :: f.promptID != promptID
    ensures StartsAt(Run(early + [PromptBlock(line, promptID)] + later), promptID, Run(early).s.head + 1)
    decreases later
  {
    hide StartsAt, Step, Inv, Log;
    var first := early + [PromptBlock(line, promptID)];
    RunInv(early);
    HeadNatural(Run(early));
    if later == [] {
      assert first + later == first;
      RunThen(early, PromptBlock(line, promptID));
      StartsNow(Run(early), line, promptID);
    } else {
      var before, op := later[..|later| - 1], later[|later| - 1];
      assert op in later && forall o | o in before :: o in later;
      StartsSince(early, line, promptID, before);
      assert first + later == first + before + [op];
      RunThen(first + before, op);
      RunInv(first + before);
      StartsStill(Run(first + before), op, promptID, Run(early).s.head + 1);
    }
  }

  lemma FirstBlockDecides(t: Traced, promptID: string, n: int)
    requires Inv(t) && promptID != "" && 1 <= n && StartsAt(t, promptID, n)
    ensures (forall f | f in Log(Step(t, Reject(promptID))) :: f.promptID != promptID)
        <==> (exists f :: f in t.s.history && f.number == n) && !Followed(t.s.history, promptID)
  {
    hide Step, Ordered, Honest;
    var first :| first in Log(t) && first.number == n && first.promptID == promptID;
    forall f | f in t.s.history && f.number == n ensures f == first { NumberNames(Log(t), f, first); }
    assert first in t.gone || first in t.s.history;
    if first in t.s.history {
      forall f | f in t.gone ensures f.promptID != promptID {
        OrderedConcat(t.gone, t.s.history);
        assert Before(f, first) && f in Log(t);
      }
      if Followed(t.s.history, promptID) {
        NotFollowed(t, promptID);
      } else {
        RetractionLeavesGone(t, promptID);
      }
    } else {
      KeepsGone(t, promptID, first);
    }
  }

  lemma NotFollowed(t: Traced, promptID: string)
    requires Followed(t.s.history, promptID)
    ensures Step(t, Reject(promptID)) == t
  {
  }

  lemma KeepsGone(t: Traced, promptID: string, f: HistoryFrame)
    requires f in t.gone
    ensures f in Log(Step(t, Reject(promptID)))
  {
    hide Forget, Retracts;
  }

  /** An update without a prompt id came after the one numbered n, and is in the conversation. */
  ghost predicate MovedOn(t: Traced, n: int) {
    exists f :: f in Log(t) && f.promptID == "" && Rank(f) > n
  }

  lemma MovedOnNow(t: Traced, line: string, promptID: string)
    requires Inv(t) && promptID != ""
    ensures !MovedOn(Step(t, PromptBlock(line, promptID)), t.s.head + 1)
  {
    hide Step;
    StepRecords(t, PromptBlock(line, promptID));
    forall f | f in Log(t) ensures Rank(f) <= t.s.head + 1 { assert WellNumbered(f, t.s.head); }
  }

  lemma MovedOnStep(t: Traced, op: Op, n: int)
    requires Inv(t) && 0 <= n <= t.s.head
    ensures MovedOn(Step(t, op), n) <==> MovedOn(t, n) || op.Update? || (op.PromptBlock? && op.promptID == "")
  {
    hide Inv;
    if op.Reject? {
      if op.promptID == "" { assert Step(t, op) == t; } else { RejectedLog(t, op.promptID); }
    } else {
      hide Step, Log;
      StepRecords(t, op);
      assert Recordable(t, Recorded(t, op), Step(t, op).s.head);
      assert forall f :: f in Log(Step(t, op)) <==> f in Log(t) || f == Recorded(t, op);
    }
  }

  lemma {:induction false} MovedOnSince(early: seq<Op>, line: string, promptID: string, later: seq<Op>)
    requires promptID != ""
    ensures Run(early).s.head + 1 <= Run(early + [PromptBlock(line, promptID)] + later).s.head
    ensures MovedOn(Run(early + [PromptBlock(line, promptID)] + later), Run(early).s.head + 1)
      <==> exists op :: op in later && (op.Update? || (op.PromptBlock? && op.promptID == ""))
    decreases later
  {
    hide MovedOn, Step, Inv, Log;
    var first := early + [PromptBlock(line, promptID)];
    RunInv(early);
    HeadNatural(Run(early));
    if later == [] {
      assert first + later == first;
      RunThen(early, PromptBlock(line, promptID));
      MovedOnNow(Run(early), line, promptID);
      StepRecords(Run(early), PromptBlock(line, promptID));
    } else {
      var before, op := later[..|later| - 1], later[|later| - 1];
      assert forall o :: o in later <==> o in before || o == op;
      MovedOnSince(early, line, promptID, before);
      assert first + later == first + before + [op];
      RunThen(first + before, op);
      RunInv(first + before);
      StepInv(Run(first + before), op);
      MovedOnStep(Run(first + before), op, Run(early).s.head + 1);
    }
  }

  lemma {:induction false} OrderedAt(h: seq<HistoryFrame>, i: nat, j: nat)
    requires Ordered(h) && i < j < |h|
    ensures Before(h[i], h[j])
  {
    if i == 0 { assert h[j] in h[1..]; } else { OrderedAt(h[1..], i - 1, j - 1); }
  }

  /** While its first block is buffered, what follows a prompt in the buffer is what followed it in the conversation. */
  lemma FollowedIsMovedOn(t: Traced, promptID: string, n: int)
    requires Inv(t) && promptID != "" && 1 <= n && StartsAt(t, promptID, n) && exists f :: f in t.s.history && f.number == n
    ensures Followed(t.s.history, promptID) <==> MovedOn(t, n)
  {
    hide PoisonInv, Honest, Ordered;
    var h := t.s.history;
    var first :| first in Log(t) && first.number == n && first.promptID == promptID;
    forall f | f in h && f.number == n ensures f == first { NumberNames(Log(t), f, first); }
    var i :| 0 <= i < |h| && h[i] == first;
    OrderedConcat(t.gone, h);
    if Followed(h, promptID) {
      var k, j :| 0 <= k < j < |h| && h[k].promptID == promptID && h[j].promptID == "";
      OrderedAt(h, k, j);
      assert h[k] in Log(t) && h[j] in Log(t);
    }
    if MovedOn(t, n) {
      var g :| g in Log(t) && g.promptID == "" && Rank(g) > n;
      assert g in t.gone ==> Before(g, first);
      var j :| 0 <= j < |h| && h[j] == g;
      if j < i { OrderedAt(h, j, i); }
    }
  }

  /** None of the prompt is gone while its first block is buffered. */
  lemma NoneGone(t: Traced, promptID: string, n: int)
    requires Inv(t) && promptID != "" && 1 <= n && StartsAt(t, promptID, n) && exists f :: f in t.s.history && f.number == n
    ensures forall f | f in t.gone :: f.promptID != promptID
    ensures exists f :: f in t.s.history && f.promptID == promptID
  {
    hide PoisonInv, Honest, Ordered;
    var first :| first in Log(t) && first.number == n && first.promptID == promptID;
    forall f | f in t.s.history && f.number == n ensures f == first { NumberNames(Log(t), f, first); }
    OrderedConcat(t.gone, t.s.history);
    forall f | f in t.gone ensures f.promptID != promptID { assert Before(f, first) && f in Log(t); }
  }

  /** Removing the buffered blocks removes them from the log. */
  lemma RetractedLog(t: Traced, promptID: string)
    requires Retracts(t.s, promptID) && forall f | f in t.gone :: f.promptID != promptID
    ensures Step(t, Reject(promptID)) != t && Log(Step(t, Reject(promptID))) == Keep(Log(t), OtherThan(promptID))
  {
    hide InvalidateAll, Poison;
    KeepConcat(t.gone, t.s.history, OtherThan(promptID));
    KeepAll(t.gone, OtherThan(promptID));
    assert Step(t, Reject(promptID)).s.head == t.s.head + 1 by { ForgetBumps(t.s, promptID); }
  }

  lemma {:induction false} InvalidateAllHead(s: Session, blocks: seq<HistoryFrame>)
    ensures InvalidateAll(s, blocks).head == s.head
    decreases blocks
  {
    if blocks != [] { InvalidateAllHead(Invalidate(s, blocks[0].number), blocks[1..]); }
  }

  lemma ForgetBumps(s: Session, promptID: string)
    requires Retracts(s, promptID)
    ensures Forget(s, promptID).head == s.head + 1
  {
    InvalidateAllHead(s, Keep(s.history, BlockOf(promptID)));
  }

  /**
   * While its first block is buffered, a rejected prompt is left as it is if and only if, since then, the agent sent an
   * update or a client a block without an id. Otherwise the conversation loses that prompt's blocks, and no others.
   */
  lemma RejectedExactly(early: seq<Op>, line: string, promptID: string, later: seq<Op>)
    requires promptID != "" && Reject(promptID) !in later && forall f | f in Log(Run(early)) :: f.promptID != promptID
    requires exists f :: f in Run(early + [PromptBlock(line, promptID)] + later).s.history && f.number == Run(early).s.head + 1
    ensures var t := Run(early + [PromptBlock(line, promptID)] + later);
      if exists op :: op in later && (op.Update? || (op.PromptBlock? && op.promptID == "")) then
        Step(t, Reject(promptID)) == t
      else
        Step(t, Reject(promptID)) != t && Log(Step(t, Reject(promptID))) == Keep(Log(t), (f: HistoryFrame) => f.promptID != promptID)
  {
    hide StartsAt, MovedOn, Run, Step, Inv, Followed, Log;
    var t, n := Run(early + [PromptBlock(line, promptID)] + later), Run(early).s.head + 1;
    RunInv(early);
    HeadNatural(Run(early));
    StartsSince(early, line, promptID, later);
    MovedOnSince(early, line, promptID, later);
    RunInv(early + [PromptBlock(line, promptID)] + later);
    FollowedIsMovedOn(t, promptID, n);
    NoneGone(t, promptID, n);
    if Followed(t.s.history, promptID) {
      NotFollowed(t, promptID);
    } else {
      RetractedLog(t, promptID);
      KeepAgree(Log(t), OtherThan(promptID), (f: HistoryFrame) => f.promptID != promptID);
    }
  }

  /**
   * A rejected prompt leaves the conversation whole if and only if its first block, whose number was one past the head
   * when it was buffered, is in the buffer still and the agent has sent no update since. Otherwise a part of it stays.
   */
  lemma RetractionWholeExactly(early: seq<Op>, line: string, promptID: string, later: seq<Op>)
    requires promptID != "" && Reject(promptID) !in later && forall f | f in Log(Run(early)) :: f.promptID != promptID
    ensures var t, n := Run(early + [PromptBlock(line, promptID)] + later), Run(early).s.head + 1;
      (forall f | f in Log(Step(t, Reject(promptID))) :: f.promptID != promptID)
      <==> (exists f :: f in t.s.history && f.number == n)
           && !(exists op :: op in later && (op.Update? || (op.PromptBlock? && op.promptID == "")))
  {
    hide StartsAt, MovedOn, Run, Step, Inv, Followed;
    var t, n := Run(early + [PromptBlock(line, promptID)] + later), Run(early).s.head + 1;
    RunInv(early);
    HeadNatural(Run(early));
    StartsSince(early, line, promptID, later);
    MovedOnSince(early, line, promptID, later);
    RunInv(early + [PromptBlock(line, promptID)] + later);
    FirstBlockDecides(t, promptID, n);
    if exists f :: f in t.s.history && f.number == n { FollowedIsMovedOn(t, promptID, n); }
  }

  function Filler(): string {
    seq(0x50_0000, _ => 'a')
  }

  /** The state after a prompt of two 5 MiB blocks, the first of which no longer fits. */
  function Oversized(): Traced {
    var first, second := HistoryFrame(Filler(), true, 1, "7", 2), HistoryFrame(Filler(), true, 2, "7", 3);
    Traced(Session([second], 0x50_0000, 1, true, 2, 1, []), [first], [])
  }

  lemma FirstBlock(first: HistoryFrame)
    requires first == HistoryFrame(Filler(), true, 1, "7", 2)
    ensures Step(START, PromptBlock(Filler(), "7")) == Traced(Session([first], 0x50_0000, 1, false, 1, 0, []), [], [])
  {
    var one := Session([first], 0x50_0000, 1, false, 1, 0, []);
    assert Buffered(EMPTY.(head := 1), first) == one by { assert [] + [first] == [first]; }
    assert EvictOverCap(one) == one;
    assert Lost([first], [first]) == [];
  }

  lemma SecondBlock(first: HistoryFrame, second: HistoryFrame)
    requires first.line == second.line == Filler() && first.user && second.user && first.number == 1
    ensures Append(Session([first], 0x50_0000, 1, false, 2, 0, []), second) == Session([second], 0x50_0000, 1, true, 2, 1, [])
  {
    var s := Session([first], 0x50_0000, 1, false, 2, 0, []);
    var full, fits := Session([first, second], 0xA0_0000, 2, false, 2, 0, []), Session([second], 0x50_0000, 1, false, 2, 1, []);
    assert Buffered(s, second) == full by { assert [first] + [second] == [first, second]; }
    assert DropOldest(full) == fits by { assert [first, second][1..] == [second]; }
    assert EvictOverCap(fits) == fits && EvictToUser(fits) == fits;
    assert EvictOverCap(full) == fits;
  }

  lemma OversizedReached()
    ensures Run([PromptBlock(Filler(), "7"), PromptBlock(Filler(), "7")]) == Oversized()
  {
    var op := PromptBlock(Filler(), "7");
    var first, second := HistoryFrame(Filler(), true, 1, "7", 2), HistoryFrame(Filler(), true, 2, "7", 3);
    FirstBlock(first);
    RunThen([], op);
    RunThen([op], op);
    assert [] + [op] == [op] && [op] + [op] == [op, op];
    hide Run, Filler;
    SecondBlock(first, second);
    hide Append;
    assert Lost([first] + [second], [second]) == [first] by { assert ([first] + [second])[..1] == [first]; }
  }

  /**
   * So a client that stands at the evicted block keeps it: its catch-up reports no gap and sends nothing,
   * although the prompt was taken back and its other block is gone from the log.
   */
  lemma PartialRetraction()
    ensures var ops := [PromptBlock(Filler(), "7"), PromptBlock(Filler(), "7")];
      && Retracts(Run(ops).s, "7")
      && !Gap(Step(Run(ops), Reject("7")).s, 1)
      && Missed(Step(Run(ops), Reject("7")).s, 1) == []
      && |Log(Step(Run(ops), Reject("7")))| == 1 && Log(Step(Run(ops), Reject("7")))[0].promptID == "7"
  {
    hide Run, Filler;
    OversizedReached();
    OversizedRejected();
  }

  lemma OversizedRejected()
    ensures var t := Oversized(); var u := Step(t, Reject("7"));
      Retracts(t.s, "7") && !Gap(u.s, 1) && Missed(u.s, 1) == [] && Log(u) == t.gone
  {
    hide Filler, Size;
    var t := Oversized();
    var second := t.s.history[0];
    assert t.s.history[0].promptID == "7" && second in t.s.history;
    assert Keep(t.s.history, BlockOf("7")) == [second] && Keep(t.s.history, OtherThan("7")) == [];
    var r := Invalidate(t.s, 2);
    assert r.rejected == [CursorRange(2, 2)];
    assert InvalidateAll(t.s, [second]) == InvalidateAll(r, []) == r;
    assert !Covers([CursorRange(2, 2)], 1);
  }
}
