/**
What catch-up resume promises, over every run of a session's replay buffer:
nothing a client is missing is left out, nothing it should not hold stays, and
a gap is reported exactly when the buffer cannot keep that promise.
*/
module CatchUp {
  import opened Sequences
  import opened ReplayBuffer

  // ----- Order -----

  lemma {:induction false} OrderedConcat(a: seq<HistoryFrame>, b: seq<HistoryFrame>)
    ensures Ordered(a + b) <==> Ordered(a) && Ordered(b) && forall f, g | f in a && g in b :: Before(f, g)
  {
    if a == [] {
      assert a + b == b;
    } else {
      OrderedConcat(a[1..], b);
      assert (a + b)[1..] == a[1..] + b && (a + b)[0] == a[0];
      assert forall g :: g in a[1..] + b <==> g in a[1..] || g in b;
      assert forall f :: f in a <==> f == a[0] || f in a[1..];
    }
  }

  lemma {:induction false} OrderedKeep(h: seq<HistoryFrame>, p: HistoryFrame -> bool)
    requires Ordered(h)
    ensures Ordered(Keep(h, p))
  {
    if h != [] {
      OrderedKeep(h[1..], p);
      var rest := Keep(h[1..], p);
      forall g | g in rest ensures Before(h[0], g) { KeepIn(h[1..], p, g); }
      if p(h[0]) { assert Keep(h, p)[0] == h[0] && Keep(h, p)[1..] == rest; } else { assert Keep(h, p) == rest; }
    }
  }

  /** Numbers are never shared. */
  lemma {:induction false} NumberNames(h: seq<HistoryFrame>, f: HistoryFrame, g: HistoryFrame)
    requires Ordered(h) && f in h && g in h && f.number == g.number != 0
    ensures f == g
  {
    assert f == h[0] || f in h[1..];
    assert g == h[0] || g in h[1..];
    if f in h[1..] && g in h[1..] { NumberNames(h[1..], f, g); }
  }

  function RankAtMost(c: int): HistoryFrame -> bool {
    (f: HistoryFrame) => Rank(f) <= c
  }

  function RankAbove(c: int): HistoryFrame -> bool {
    (f: HistoryFrame) => Rank(f) > c
  }

  /** An ordered log splits at a cursor into what came up to it and what came after. */
  lemma {:induction false} SplitAt(h: seq<HistoryFrame>, c: int)
    requires Ordered(h)
    ensures Keep(h, RankAtMost(c)) + Keep(h, RankAbove(c)) == h
  {
    if h != [] {
      if Rank(h[0]) <= c {
        SplitAt(h[1..], c);
      } else {
        forall f | f in h ensures Rank(f) > c { assert f == h[0] || f in h[1..]; }
        KeepNone(h, RankAtMost(c));
        KeepAll(h, RankAbove(c));
      }
    }
  }

  // ----- Sizes -----

  lemma {:induction false} SizeConcat(a: seq<HistoryFrame>, b: seq<HistoryFrame>)
    ensures Size(a + b) == Size(a) + Size(b)
    ensures Users(a + b) == Users(a) + Users(b)
  {
    if a == [] {
      assert a + b == b;
    } else {
      SizeConcat(a[1..], b);
      assert (a + b)[1..] == a[1..] + b && (a + b)[0] == a[0];
    }
  }

  lemma {:induction false} SizeSplit(h: seq<HistoryFrame>, promptID: string)
    requires forall f | f in h && f.promptID == promptID :: f.user
    ensures Size(Keep(h, OtherThan(promptID))) == Size(h) - Size(Keep(h, BlockOf(promptID)))
    ensures Users(Keep(h, OtherThan(promptID))) == Users(h) - |Keep(h, BlockOf(promptID))|
  {
    if h != [] {
      assert h[0] in h && forall f | f in h[1..] :: f in h;
      SizeSplit(h[1..], promptID);
      var mine, others := Keep(h[1..], BlockOf(promptID)), Keep(h[1..], OtherThan(promptID));
      if h[0].promptID == promptID {
        SizeConcat([h[0]], mine);
        calc { Keep(h, OtherThan(promptID)); [] + others; others; }
      } else {
        SizeConcat([h[0]], others);
        calc { Keep(h, BlockOf(promptID)); [] + mine; mine; }
      }
    }
  }

  lemma {:induction false} UsersPositive(h: seq<HistoryFrame>)
    ensures Users(h) > 0 <==> exists f :: f in h && f.user
  {
    if h != [] {
      UsersPositive(h[1..]);
      assert forall f :: f in h <==> f == h[0] || f in h[1..];
    }
  }

  // ----- Eviction -----

  /** The session after dropping its oldest k frames, one at a time. */
  function Dropped(s: Session, k: nat): Session
    requires k <= |s.history|
    decreases k
  {
    if k == 0 then s else Dropped(DropOldest(s), k - 1)
  }

  lemma DroppedThen(s: Session, j: nat, k: nat)
    requires j + k <= |s.history|
    ensures |Dropped(s, j).history| == |s.history| - j
    ensures Dropped(Dropped(s, j), k) == Dropped(s, j + k)
    decreases j
  {
    if j > 0 { DroppedThen(DropOldest(s), j - 1, k); }
  }

  /** A replay of h may open at position k: everything from there fits, and no reply opens partway. */
  predicate FitsFrom(h: seq<HistoryFrame>, k: nat)
    requires k <= |h|
  {
    Size(h[k..]) <= MAX_LOAD_HISTORY_BYTES || k + 1 >= |h|
  }

  predicate OpensWell(h: seq<HistoryFrame>, k: nat)
    requires k <= |h|
  {
    FitsFrom(h, k) && (Users(h[k..]) == 0 || (k < |h| && h[k].user))
  }

  /** How many frames each eviction loop drops from h. */
  function OverCap(h: seq<HistoryFrame>): nat {
    if Size(h) > MAX_LOAD_HISTORY_BYTES && |h| > 1 then 1 + OverCap(h[1..]) else 0
  }

  function UntilUser(h: seq<HistoryFrame>): nat {
    if Users(h) > 0 && h != [] && !h[0].user then 1 + UntilUser(h[1..]) else 0
  }

  lemma {:induction false} OverCapDrops(s: Session)
    requires Accounted(s)
    ensures OverCap(s.history) <= |s.history|
    ensures EvictOverCap(s) == Dropped(s, OverCap(s.history))
    decreases |s.history|
  {
    if Size(s.history) > MAX_LOAD_HISTORY_BYTES && |s.history| > 1 {
      OverCapDrops(DropOldest(s));
    }
  }

  lemma {:induction false} UntilUserDrops(s: Session)
    requires Accounted(s)
    ensures UntilUser(s.history) <= |s.history|
    ensures EvictToUser(s) == Dropped(s, UntilUser(s.history))
    decreases |s.history|
  {
    if Users(s.history) > 0 && s.history != [] && !s.history[0].user {
      UntilUserDrops(DropOldest(s));
    }
  }

  lemma {:induction false} OverCapLeast(h: seq<HistoryFrame>)
    requires h != []
    ensures var k := OverCap(h);
      k < |h| && FitsFrom(h, k) && forall j: nat | j < k :: !FitsFrom(h, j)
  {
    assert h[0..] == h;
    if Size(h) > MAX_LOAD_HISTORY_BYTES && |h| > 1 {
      OverCapLeast(h[1..]);
      forall j: nat | 0 < j < |h| ensures FitsFrom(h, j) == FitsFrom(h[1..], j - 1) {
        assert h[1..][j - 1..] == h[j..];
      }
    }
  }

  lemma {:induction false} UntilUserLeast(h: seq<HistoryFrame>)
    ensures var k := UntilUser(h);
      && k <= |h|
      && (Users(h[k..]) == 0 || (k < |h| && h[k].user))
      && (k > 0 ==> Users(h[k..]) > 0)
      && forall j: nat | j < k :: !h[j].user
  {
    assert h[0..] == h;
    if Users(h) > 0 && h != [] && !h[0].user {
      UntilUserLeast(h[1..]);
      var k := UntilUser(h);
      assert h[1..][k - 1..] == h[k..];
      forall j: nat | 0 < j < k ensures !h[j].user { assert h[j] == h[1..][j - 1]; }
    }
  }

  lemma UsersBetween(h: seq<HistoryFrame>, j: nat, k: nat)
    requires j <= k <= |h|
    requires Users(h[k..]) > 0
    ensures Users(h[j..]) > 0
  {
    assert h[j..] == h[j..k] + h[k..];
    SizeConcat(h[j..k], h[k..]);
  }

  lemma SizeShrinks(h: seq<HistoryFrame>, j: nat, k: nat)
    requires j <= k <= |h|
    ensures Size(h[k..]) <= Size(h[j..])
  {
    assert h[j..] == h[j..k] + h[k..];
    SizeConcat(h[j..k], h[k..]);
  }

  /** The position a buffer holding h opens from after the append that made it h. */
  function Cut(h: seq<HistoryFrame>): nat {
    var m := OverCap(h);
    if 0 < m <= |h| then m + UntilUser(h[m..]) else 0
  }

  /** The cut is the first position from which everything fits and no reply opens partway. */
  lemma CutLeast(h: seq<HistoryFrame>)
    requires h != []
    ensures var k := Cut(h);
      && k < |h|
      && (k == 0 <==> FitsFrom(h, 0))
      && (k > 0 ==> OpensWell(h, k) && forall j: nat | 0 < j < k :: !OpensWell(h, j))
  {
    hide Size, Users, OverCap, UntilUser;
    OverCapLeast(h);
    var m, k := OverCap(h), Cut(h);
    if m > 0 {
      UntilUserLeast(h[m..]);
      assert h[m..][k - m..] == h[k..];
      SizeShrinks(h, m, k);
      if k > m { assert Users(h[k..]) > 0; assert k < |h| by { EmptyUsers(h, k); } }
      forall j: nat | 0 < j < k ensures !OpensWell(h, j) {
        if j >= m {
          assert h[j] == h[m..][j - m];
          UsersBetween(h, j, k);
        }
      }
    }
  }

  lemma EmptyUsers(h: seq<HistoryFrame>, k: nat)
    requires k <= |h| && Users(h[k..]) > 0
    ensures k < |h|
  {
  }

  lemma {:induction false} DroppedAccounted(s: Session, k: nat)
    requires Accounted(s) && k <= |s.history|
    ensures Accounted(Dropped(s, k)) && Dropped(s, k).history == s.history[k..]
    ensures Dropped(s, k).head == s.head && Dropped(s, k).rejected == s.rejected && Dropped(s, k).trimmed == s.trimmed
    decreases k
  {
    if k > 0 {
      DroppedAccounted(DropOldest(s), k - 1);
      assert s.history[1..][k - 1..] == s.history[k..];
    }
  }

  lemma BufferedAccounted(s: Session, f: HistoryFrame)
    requires Accounted(s)
    ensures Accounted(Buffered(s, f))
  {
    SizeConcat(s.history, [f]);
    assert Users([f]) == if f.user then 1 else 0;
  }

  lemma AppendDrops(s: Session, f: HistoryFrame)
    requires Accounted(s)
    ensures var h, full := s.history + [f], Buffered(s, f);
      && Cut(h) <= |h|
      && Append(s, f) == Dropped(full, Cut(h)).(trimmed := Dropped(full, Cut(h)).trimmed || Cut(h) > 0)
  {
    var h, full := s.history + [f], Buffered(s, f);
    BufferedAccounted(s, f);
    OverCapDrops(full);
    var m := OverCap(h);
    DroppedAccounted(full, m);
    if m > 0 {
      UntilUserDrops(Dropped(full, m));
      DroppedThen(full, m, UntilUser(h[m..]));
    }
  }

  /**
   * What an append keeps: everything if it all fits, else the longest tail that fits and does not open
   * partway through a reply. The frame just appended always survives.
   */
  lemma AppendKeeps(s: Session, f: HistoryFrame)
    requires Accounted(s)
    ensures var h, k, r := s.history + [f], Cut(s.history + [f]), Append(s, f);
      && k < |h| && r.history == h[k..]
      && r.histSize == Size(r.history) && r.userFrames == Users(r.history)
      && (k == 0 <==> FitsFrom(h, 0))
      && (k > 0 ==> OpensWell(h, k) && forall j: nat | 0 < j < k :: !OpensWell(h, j))
      && r.trimmed == (s.trimmed || k > 0)
      && r.head == s.head && r.rejected == s.rejected
  {
    CutLeast(s.history + [f]);
    AppendDrops(s, f);
    BufferedAccounted(s, f);
    DroppedAccounted(Buffered(s, f), Cut(s.history + [f]));
  }

  /** Dropping frames in order leaves the evicted mark at the rank of the last one dropped. */
  lemma {:induction false} DroppedMark(s: Session, k: nat)
    requires Ordered(s.history) && k <= |s.history|
    requires forall f | f in s.history :: s.evicted <= Rank(f)
    ensures Dropped(s, k).evicted == if k == 0 then s.evicted else Rank(s.history[k - 1])
    decreases k
  {
    if k > 0 {
      assert s.history[0] in s.history;
      DroppedMark(DropOldest(s), k - 1);
    }
  }

  lemma AppendMark(s: Session, f: HistoryFrame)
    requires Accounted(s) && Ordered(s.history + [f])
    requires forall g | g in s.history + [f] :: s.evicted <= Rank(g)
    ensures var h, k := s.history + [f], Cut(s.history + [f]);
      k < |h| && Append(s, f).evicted == if k == 0 then s.evicted else Rank(h[k - 1])
  {
    CutLeast(s.history + [f]);
    AppendDrops(s, f);
    DroppedMark(Buffered(s, f), Cut(s.history + [f]));
  }

  // ----- Retraction -----

  lemma CoversConcat(a: seq<CursorRange>, b: seq<CursorRange>, c: int)
    ensures Covers(a + b, c) <==> Covers(a, c) || Covers(b, c)
  {
    if i :| 0 <= i < |a| && a[i].from <= c <= a[i].through { assert (a + b)[i] == a[i]; }
    if i :| 0 <= i < |b| && b[i].from <= c <= b[i].through { assert (a + b)[|a| + i] == b[i]; }
  }

  lemma {:induction false} DropShadowedCovers(ranges: seq<CursorRange>, evicted: int, head: int, c: int)
    requires Separated(ranges, head) && evicted <= c
    ensures Separated(DropShadowed(ranges, evicted), head)
    ensures Covers(DropShadowed(ranges, evicted), c) <==> Covers(ranges, c)
  {
    if ranges != [] && ranges[0].through < evicted {
      DropShadowedCovers(ranges[1..], evicted, head, c);
      assert ranges == ranges[..1] + ranges[1..];
      CoversConcat(ranges[..1], ranges[1..], c);
    }
  }

  lemma CoversOne(r: CursorRange, c: int)
    ensures Covers([r], c) <==> r.from <= c <= r.through
  {
    assert [r][0] == r;
  }

  lemma CoversLast(ranges: seq<CursorRange>, c: int)
    requires ranges != []
    ensures var last := ranges[|ranges| - 1];
      Covers(ranges, c) <==> Covers(ranges[..|ranges| - 1], c) || last.from <= c <= last.through
  {
    var n := |ranges| - 1;
    assert ranges == ranges[..n] + [ranges[n]];
    CoversConcat(ranges[..n], [ranges[n]], c);
    CoversOne(ranges[n], c);
  }

  lemma {:induction false} MergeCovers(ranges: seq<CursorRange>, number: int, through: int, c: int)
    requires Separated(ranges, through + 1) && 1 <= number <= through
    ensures Covers(Merge(ranges, number, through), c) <==> Covers(ranges, c) || number <= c <= through
    decreases |ranges|
  {
    if ranges != [] && ranges[|ranges| - 1].through >= number - 1 {
      var last := ranges[|ranges| - 1];
      MergeCovers(ranges[..|ranges| - 1], if last.from < number then last.from else number, through, c);
      CoversLast(ranges, c);
    } else {
      CoversConcat(ranges, [CursorRange(number, through)], c);
      CoversOne(CursorRange(number, through), c);
    }
  }

  lemma {:induction false} MergeSeparated(ranges: seq<CursorRange>, number: int, through: int)
    requires Separated(ranges, through + 1) && 1 <= number <= through
    ensures Separated(Merge(ranges, number, through), through + 1)
    decreases |ranges|
  {
    if ranges != [] && ranges[|ranges| - 1].through >= number - 1 {
      var last := ranges[|ranges| - 1];
      MergeSeparated(ranges[..|ranges| - 1], if last.from < number then last.from else number, through);
    }
  }

  /** The merged ranges answer for every cursor not yet evicted as the plain list of all of them would. */
  lemma {:induction false} InvalidateAllCovers(s: Session, blocks: seq<HistoryFrame>, c: int)
    requires Separated(s.rejected, s.head + 1) && s.evicted <= c
    requires forall f | f in blocks :: 1 <= f.number <= s.head
    ensures var r := InvalidateAll(s, blocks);
      && r == s.(rejected := r.rejected)
      && Separated(r.rejected, s.head + 1)
      && (Covers(r.rejected, c) <==> Covers(s.rejected, c) || Covers(Poison(blocks, s.head), c))
    decreases blocks
  {
    if blocks != [] {
      assert blocks[0] in blocks;
      DropShadowedCovers(s.rejected, s.evicted, s.head + 1, c);
      MergeCovers(DropShadowed(s.rejected, s.evicted), blocks[0].number, s.head, c);
      MergeSeparated(DropShadowed(s.rejected, s.evicted), blocks[0].number, s.head);
      InvalidateAllCovers(Invalidate(s, blocks[0].number), blocks[1..], c);
      CoversOne(CursorRange(blocks[0].number, s.head), c);
      CoversConcat([CursorRange(blocks[0].number, s.head)], Poison(blocks[1..], s.head), c);
    }
  }

  lemma InvInit()
    ensures Inv(START)
  {
  }

  /** f is the frame an append records when it moves the head to head. */
  ghost predicate Recordable(t: Traced, f: HistoryFrame, head: int) {
    && t.s.head <= head <= t.s.head + 1
    && WellNumbered(f, head) && Rank(f) == t.s.head + 1
    && f.number == if head > t.s.head then head else 0
  }

  lemma GrowLog(t: Traced, s: Session, f: HistoryFrame, k: nat)
    requires k < |t.s.history| + 1 && s.history == (t.s.history + [f])[k..]
    ensures Grow(t, s, f).gone == t.gone + (t.s.history + [f])[..k]
    ensures Log(Grow(t, s, f)) == Log(t) + [f]
  {
    var h := t.s.history + [f];
    calc {
      Log(Grow(t, s, f));
      t.gone + h[..k] + h[k..];
      { assert h[..k] + h[k..] == h; }
      t.gone + h;
      Log(t) + [f];
    }
  }

  lemma LogGrows(log: seq<HistoryFrame>, f: HistoryFrame, was: int, head: int)
    requires Ordered(log) && was <= head && Rank(f) == was + 1 && WellNumbered(f, head)
    requires forall g | g in log :: WellNumbered(g, was)
    ensures Ordered(log + [f])
    ensures forall g | g in log + [f] :: WellNumbered(g, head)
  {
    forall g | g in log ensures Before(g, f) { assert WellNumbered(g, was); }
    OrderedConcat(log, [f]);
    assert forall g | g in log + [f] :: g in log || g == f;
  }

  /** What is still buffered ranks at least as high as what is gone. */
  lemma MarkBelow(t: Traced, f: HistoryFrame)
    requires LogInv(t) && Rank(f) == t.s.head + 1 && Ordered(Log(t) + [f])
    ensures Ordered(t.s.history + [f])
    ensures forall g | g in t.s.history + [f] :: t.s.evicted <= Rank(g)
  {
    assert Log(t) + [f] == t.gone + (t.s.history + [f]);
    OrderedConcat(t.gone, t.s.history + [f]);
    if t.gone != [] { assert t.gone[|t.gone| - 1] in t.gone; }
    forall g | g in t.s.history ensures 1 <= Rank(g) { assert g in Log(t) && WellNumbered(g, t.s.head); }
  }

  lemma AppendHonest(t: Traced, f: HistoryFrame, head: int, u: Traced)
    requires LogInv(t) && Rank(f) == t.s.head + 1 && Ordered(Log(t) + [f])
    requires u == Grow(t, Append(t.s.(head := head), f), f)
    ensures Honest(u.s, u.gone) && u.s.head == head && Log(u) == Log(t) + [f]
    ensures t.s.evicted <= u.s.evicted && u.s.rejected == t.s.rejected
  {
    hide Append, Cut, OpensWell, FitsFrom, Ordered, Log;
    var s, h, k := t.s.(head := head), t.s.history + [f], Cut(t.s.history + [f]);
    MarkBelow(t, f);
    AppendKeeps(s, f);
    AppendMark(s, f);
    GrowLog(t, u.s, f, k);
    if k > 0 {
      assert h[k - 1] in h;
      assert u.gone[|u.gone| - 1] == h[k - 1];
    } else {
      assert h[..k] == [];
    }
  }

  lemma AppendLogInv(t: Traced, f: HistoryFrame, head: int, u: Traced)
    requires LogInv(t) && Recordable(t, f, head)
    requires u == Grow(t, Append(t.s.(head := head), f), f)
    ensures LogInv(u) && u.s.head == head && Log(u) == Log(t) + [f]
    ensures t.s.evicted <= u.s.evicted && u.s.rejected == t.s.rejected
  {
    hide Append, Ordered, Grow, Honest, Log;
    LogGrows(Log(t), f, t.s.head, head);
    AppendHonest(t, f, head, u);
  }

  lemma AppendInv(t: Traced, f: HistoryFrame, head: int, u: Traced)
    requires Inv(t) && Recordable(t, f, head)
    requires u == Grow(t, Append(t.s.(head := head), f), f)
    ensures Inv(u) && u.s.head == head
    ensures Log(u) == Log(t) + [f] && u.poisoned == t.poisoned
  {
    hide Append, LogInv;
    AppendLogInv(t, f, head, u);
    forall r, g | r in t.poisoned && g in Log(t) + [f] ensures g.number != r.from {
      assert g in Log(t) || g == f;
    }
  }

  lemma KeptIn(h: seq<HistoryFrame>, promptID: string)
    ensures forall f | f in Keep(h, OtherThan(promptID)) :: f in h && f.promptID != promptID
    ensures forall f | f in Keep(h, BlockOf(promptID)) :: f in h && f.promptID == promptID
  {
    forall f | f in Keep(h, OtherThan(promptID)) ensures f in h && f.promptID != promptID {
      KeepIn(h, OtherThan(promptID), f);
    }
    forall f | f in Keep(h, BlockOf(promptID)) ensures f in h && f.promptID == promptID {
      KeepIn(h, BlockOf(promptID), f);
    }
  }

  lemma KeptOrdered(gone: seq<HistoryFrame>, h: seq<HistoryFrame>, promptID: string)
    requires Ordered(gone + h)
    ensures Ordered(gone + Keep(h, OtherThan(promptID)))
  {
    OrderedConcat(gone, h);
    OrderedKeep(h, OtherThan(promptID));
    KeptIn(h, promptID);
    OrderedConcat(gone, Keep(h, OtherThan(promptID)));
  }

  lemma BlocksNumbered(t: Traced, promptID: string)
    requires LogInv(t) && promptID != ""
    ensures forall f | f in t.s.history && f.promptID == promptID :: f.user && 1 <= f.number <= t.s.head
    ensures forall f | f in Keep(t.s.history, BlockOf(promptID)) :: 1 <= f.number <= t.s.head
  {
    KeptIn(t.s.history, promptID);
    forall f | f in t.s.history ensures WellNumbered(f, t.s.head) { assert f in Log(t); }
  }

  lemma RejectHonest(t: Traced, promptID: string)
    requires LogInv(t) && PoisonInv(t) && Retracts(t.s, promptID)
    ensures Honest(Forget(t.s, promptID), t.gone)
    ensures Forget(t.s, promptID).evicted == t.s.evicted
    ensures Separated(Forget(t.s, promptID).rejected, t.s.head + 1)
  {
    hide Ordered, Covers, Merge, DropShadowed, InvalidateAll;
    BlocksNumbered(t, promptID);
    InvalidateAllCovers(t.s, Keep(t.s.history, BlockOf(promptID)), t.s.evicted);
    SizeSplit(t.s.history, promptID);
  }

  lemma KeptNumbered(t: Traced, promptID: string)
    requires LogInv(t)
    ensures var log := t.gone + Keep(t.s.history, OtherThan(promptID));
      Ordered(log) && forall f | f in log :: f in Log(t) && WellNumbered(f, t.s.head + 1)
  {
    KeptOrdered(t.gone, t.s.history, promptID);
    KeptIn(t.s.history, promptID);
    forall f | f in t.gone + Keep(t.s.history, OtherThan(promptID)) ensures f in Log(t) && WellNumbered(f, t.s.head + 1) {
      assert f in Log(t) && WellNumbered(f, t.s.head);
    }
  }

  lemma RejectLogInv(t: Traced, promptID: string)
    requires LogInv(t) && PoisonInv(t) && Retracts(t.s, promptID)
    ensures LogInv(Step(t, Reject(promptID)))
  {
    hide Ordered, Honest, PoisonInv, InvalidateAll, Retracts;
    RejectHonest(t, promptID);
    KeptNumbered(t, promptID);
    assert Log(Step(t, Reject(promptID))) == t.gone + Keep(t.s.history, OtherThan(promptID));
  }

  lemma NumberApart(a: seq<HistoryFrame>, b: seq<HistoryFrame>, f: HistoryFrame, g: HistoryFrame)
    requires Ordered(a + b) && f in a && g in b && g.number != 0
    ensures f.number != g.number
  {
    OrderedConcat(a, b);
  }

  /** A retracted block's number names nothing that is left. */
  lemma RetractedNumber(gone: seq<HistoryFrame>, h: seq<HistoryFrame>, promptID: string, f: HistoryFrame, g: HistoryFrame)
    requires Ordered(gone + h)
    requires f in gone + Keep(h, OtherThan(promptID))
    requires g in h && g.promptID == promptID && g.number != 0
    ensures f.number != g.number
  {
    if f in gone {
      NumberApart(gone, h, f, g);
    } else {
      KeepIn(h, OtherThan(promptID), f);
      if f.number == g.number {
        NumberNames(gone + h, f, g);
      }
    }
  }

  lemma PoisonIn(blocks: seq<HistoryFrame>, head: int, r: CursorRange) returns (f: HistoryFrame)
    requires r in Poison(blocks, head)
    ensures f in blocks && r == CursorRange(f.number, head)
  {
    var i :| 0 <= i < |blocks| && Poison(blocks, head)[i] == r;
    f := blocks[i];
  }

  lemma PoisonFresh(t: Traced, promptID: string)
    requires LogInv(t) && promptID != ""
    ensures Unnamed(Poison(Keep(t.s.history, BlockOf(promptID)), t.s.head), t.gone + Keep(t.s.history, OtherThan(promptID)))
    ensures Below(Poison(Keep(t.s.history, BlockOf(promptID)), t.s.head), t.s.head + 1)
  {
    var h, blocks := t.s.history, Keep(t.s.history, BlockOf(promptID));
    BlocksNumbered(t, promptID);
    KeptIn(h, promptID);
    forall r, f | r in Poison(blocks, t.s.head) && f in t.gone + Keep(h, OtherThan(promptID)) ensures f.number != r.from {
      var g := PoisonIn(blocks, t.s.head, r);
      RetractedNumber(t.gone, h, promptID, f, g);
    }
    forall r | r in Poison(blocks, t.s.head) ensures 1 <= r.from <= r.through < t.s.head + 1 {
      var g := PoisonIn(blocks, t.s.head, r);
    }
  }

  lemma UnnamedConcat(a: seq<CursorRange>, b: seq<CursorRange>, log: seq<HistoryFrame>, kept: seq<HistoryFrame>, head: int)
    requires Unnamed(a, log) && Unnamed(b, kept) && Below(a, head) && Below(b, head + 1)
    requires forall f | f in kept :: f in log
    ensures Unnamed(a + b, kept) && Below(a + b, head + 1)
  {
    assert forall r | r in a + b :: r in a || r in b;
  }

  lemma RejectCovers(t: Traced, promptID: string, c: int)
    requires Inv(t) && Retracts(t.s, promptID) && t.s.evicted <= c
    ensures var u := Step(t, Reject(promptID)); Covers(u.s.rejected, c) <==> Covers(u.poisoned, c)
  {
    hide InvalidateAll, Poison, Covers, Ordered;
    BlocksNumbered(t, promptID);
    InvalidateAllCovers(t.s, Keep(t.s.history, BlockOf(promptID)), c);
    CoversConcat(t.poisoned, Poison(Keep(t.s.history, BlockOf(promptID)), t.s.head), c);
  }

  lemma RejectUnnamed(t: Traced, promptID: string)
    requires Inv(t) && Retracts(t.s, promptID)
    ensures var u := Step(t, Reject(promptID)); Below(u.poisoned, u.s.head) && Unnamed(u.poisoned, Log(u))
  {
    assert promptID != "";
    hide LogInv, Retracts, InvalidateAll, Poison;
    PoisonFresh(t, promptID);
    KeptNumbered(t, promptID);
    UnnamedConcat(t.poisoned, Poison(Keep(t.s.history, BlockOf(promptID)), t.s.head), Log(t),
                  t.gone + Keep(t.s.history, OtherThan(promptID)), t.s.head);
  }

  lemma RejectPoisonInv(t: Traced, promptID: string)
    requires Inv(t) && Retracts(t.s, promptID)
    ensures PoisonInv(Step(t, Reject(promptID)))
  {
    hide Covers, LogInv, Retracts, InvalidateAll, Below, Unnamed;
    RejectHonest(t, promptID);
    RejectUnnamed(t, promptID);
    var u := Step(t, Reject(promptID));
    forall c | u.s.evicted <= c ensures Covers(u.s.rejected, c) <==> Covers(u.poisoned, c) {
      RejectCovers(t, promptID, c);
    }
  }

  /** Every step keeps the buffer accounted for, in order, and honest about what it lost. */
  lemma StepInv(t: Traced, op: Op)
    requires Inv(t)
    ensures Inv(Step(t, op))
    ensures t.s.head <= Step(t, op).s.head
  {
    hide Inv, Append;
    assert Inv(t) ==> 0 <= t.s.head by { HeadNatural(t); }
    match op
    case Update(line, user, numbered) =>
      var head := if numbered then t.s.head + 1 else t.s.head;
      AppendInv(t, RecordedFrame(t.s, line, user, numbered), head, Step(t, op));
    case PromptBlock(line, promptID) =>
      AppendInv(t, PromptFrame(t.s, line, promptID), t.s.head + 1, Step(t, op));
    case Reject(promptID) => RejectInv(t, promptID);
  }

  lemma HeadNatural(t: Traced)
    requires Inv(t)
    ensures 0 <= t.s.head
  {
  }

  lemma RejectInv(t: Traced, promptID: string)
    requires Inv(t)
    ensures Inv(Step(t, Reject(promptID)))
    ensures t.s.head <= Step(t, Reject(promptID)).s.head
  {
    hide LogInv, PoisonInv;
    if Retracts(t.s, promptID) {
      RejectLogInv(t, promptID);
      RejectPoisonInv(t, promptID);
    }
  }

  /** The frame a recording step adds to the log. */
  function Recorded(t: Traced, op: Op): HistoryFrame
    requires !op.Reject?
  {
    if op.Update? then RecordedFrame(t.s, op.line, op.user, op.numbered) else PromptFrame(t.s, op.line, op.promptID)
  }

  lemma StepRecords(t: Traced, op: Op)
    requires Inv(t) && !op.Reject?
    ensures Log(Step(t, op)) == Log(t) + [Recorded(t, op)] && Step(t, op).poisoned == t.poisoned
    ensures Recordable(t, Recorded(t, op), Step(t, op).s.head)
  {
    hide Inv, Append, Log;
    assert Inv(t) ==> 0 <= t.s.head by { HeadNatural(t); }
    match op
    case Update(line, user, numbered) =>
      var head := if numbered then t.s.head + 1 else t.s.head;
      AppendInv(t, RecordedFrame(t.s, line, user, numbered), head, Step(t, op));
    case PromptBlock(line, promptID) =>
      AppendInv(t, PromptFrame(t.s, line, promptID), t.s.head + 1, Step(t, op));
  }
}
