/** internal/session/load_recovery.go: the replay buffers of every ACP session one agent process hosts. */
module LoadRecovery {
  import opened Sequences
  import opened ReplayBuffer
  import opened CatchUp
  import opened CatchUpTheorems

  import opened Names

  /** The error member of an agent frame that carries an id. */
  datatype FrameError = NoError(line: string) | AlreadyLoaded | OtherError

  /** What a load replay is made of: the announcement, the buffered updates, the synthesized success. */
  datatype ReplayFrame =
    | Resumed(sid: SessionID, replayed: nat, truncated: bool)
    | Buffered(line: string)
    | LoadSuccess(cached: Option<string>, epoch: string, headSeq: int)

  /** Changing the prompt id of the newest frame. */
  function Patch(s: Session, promptID: string): Session
    requires s.history != []
  {
    var last := |s.history| - 1;
    s.(history := s.history[last := s.history[last].(promptID := promptID)])
  }

  lemma DropPatch(s: Session, promptID: string)
    requires |s.history| > 1
    ensures DropOldest(Patch(s, promptID)) == Patch(DropOldest(s), promptID)
  {
    assert Patch(s, promptID).history[1..] == Patch(DropOldest(s), promptID).history;
  }

  lemma {:induction false} OverCapPatch(s: Session, promptID: string)
    requires s.history != []
    ensures EvictOverCap(s).history != [] && EvictOverCap(Patch(s, promptID)) == Patch(EvictOverCap(s), promptID)
    decreases |s.history|
  {
    if s.histSize > MAX_LOAD_HISTORY_BYTES && |s.history| > 1 {
      DropPatch(s, promptID);
      OverCapPatch(DropOldest(s), promptID);
    }
  }

  lemma {:induction false} ToUserPatch(s: Session, promptID: string)
    requires s.history != [] && Accounted(s)
    ensures EvictToUser(s).history != [] && EvictToUser(Patch(s, promptID)) == Patch(EvictToUser(s), promptID)
    decreases |s.history|
  {
    if s.userFrames > 0 && !s.history[0].user {
      assert Users(s.history) == (if s.history[0].user then 1 else 0) + Users(s.history[1..]);
      DropPatch(s, promptID);
      ToUserPatch(DropOldest(s), promptID);
    }
  }

  /** Naming the newest frame after appending it is appending it named. */
  lemma AppendPatch(s: Session, f: HistoryFrame, promptID: string)
    requires Accounted(s)
    ensures Append(s, f).history != []
    ensures Append(s, f.(promptID := promptID)) == Patch(Append(s, f), promptID)
  {
    var full := ReplayBuffer.Buffered(s, f);
    var named := f.(promptID := promptID);
    assert ReplayBuffer.Buffered(s, named) == Patch(full, promptID) by {
      assert (s.history + [f])[|s.history| := named] == s.history + [named];
    }
    BufferedAccounted(s, f);
    OverCapPatch(full, promptID);
    OverCapDrops(full);
    DroppedAccounted(full, OverCap(full.history));
    ToUserPatch(EvictOverCap(full), promptID);
  }

  /** m and was agree everywhere but at sid. */
  ghost predicate Apart<V>(sid: SessionID, m: map<SessionID, V>, was: map<SessionID, V>, zero: V) {
    forall other | other != sid :: At(m, other, zero) == At(was, other, zero)
  }

  lemma DropShortens(s: Session)
    requires s.history != []
    ensures ReplayBuffer.DropOldest(s).history == s.history[1..]
    ensures Accounted(s) ==> Accounted(ReplayBuffer.DropOldest(s))
  {
  }

  lemma BufferAccounted(ops: seq<Op>)
    ensures Accounted(Run(ops).s)
  {
    RunInv(ops);
  }

  function Theirs(promptID: string): HistoryFrame -> bool {
    (f: HistoryFrame) => promptID != "" && f.promptID == promptID
  }

  function NotTheirs(promptID: string): HistoryFrame -> bool {
    (f: HistoryFrame) => promptID == "" || f.promptID != promptID
  }

  /** s once the prompt's blocks among done are discounted and their cursors poisoned. */
  function Forgotten(s: Session, done: seq<HistoryFrame>, promptID: string): Session {
    var blocks := Keep(done, Theirs(promptID));
    InvalidateAll(s, blocks).(histSize := s.histSize - Size(blocks), userFrames := s.userFrames - |blocks|)
  }

  lemma ForgottenNone(s: Session, promptID: string)
    ensures Forgotten(s, [], promptID) == s
  {
  }

  lemma {:induction false} InvalidateAllKeeps(s: Session, blocks: seq<HistoryFrame>)
    ensures InvalidateAll(s, blocks) == s.(rejected := InvalidateAll(s, blocks).rejected)
    decreases blocks
  {
    if blocks != [] { InvalidateAllKeeps(Invalidate(s, blocks[0].number), blocks[1..]); }
  }

  lemma {:induction false} InvalidateAllThen(s: Session, blocks: seq<HistoryFrame>, f: HistoryFrame)
    ensures InvalidateAll(s, blocks + [f]) == Invalidate(InvalidateAll(s, blocks), f.number)
    decreases blocks
  {
    if blocks == [] {
      assert blocks + [f] == [f] && [f][1..] == [];
      assert InvalidateAll(Invalidate(s, f.number), []) == Invalidate(s, f.number);
    } else {
      assert (blocks + [f])[1..] == blocks[1..] + [f];
      InvalidateAllThen(Invalidate(s, blocks[0].number), blocks[1..], f);
    }
  }

  lemma MissedGrows(h: seq<HistoryFrame>, i: nat, c: int)
    requires i < |h|
    ensures Map(Keep(h[..i + 1], NumberedAfter(c)), LineText)
         == Map(Keep(h[..i], NumberedAfter(c)), LineText) + if h[i].number > c then [h[i].line] else []
  {
    KeepNext(h, i, NumberedAfter(c));
  }

  lemma MissedNone(h: seq<HistoryFrame>, c: int)
    ensures Keep(h[..0], NumberedAfter(c)) == []
  {
  }

  lemma ForgottenGrows(s: Session, frames: seq<HistoryFrame>, i: nat, promptID: string)
    requires i < |frames|
    ensures Keep(frames[..i + 1], NotTheirs(promptID))
         == Keep(frames[..i], NotTheirs(promptID)) + if NotTheirs(promptID)(frames[i]) then [frames[i]] else []
    ensures NotTheirs(promptID)(frames[i]) ==> Forgotten(s, frames[..i + 1], promptID) == Forgotten(s, frames[..i], promptID)
    ensures Theirs(promptID)(frames[i]) ==>
      var r := Forgotten(s, frames[..i], promptID);
      Forgotten(s, frames[..i + 1], promptID)
        == Invalidate(r.(histSize := r.histSize - |frames[i].line|, userFrames := r.userFrames - 1), frames[i].number)
  {
    hide InvalidateAll, Keep;
    KeepNext(frames, i, NotTheirs(promptID));
    KeepNext(frames, i, Theirs(promptID));
    var blocks := Keep(frames[..i], Theirs(promptID));
    assert blocks + [] == blocks;
    InvalidateAllThen(s, blocks, frames[i]);
    InvalidateAllKeeps(s, blocks);
    SizeConcat(blocks, [frames[i]]);
  }

  /** What the loop of forgetPrompt leaves is what the rejection step leaves. */
  lemma ForgetEnds(s: Session, promptID: string)
    requires promptID == "" || !Followed(s.history, promptID)
    ensures var kept, r := Keep(s.history, NotTheirs(promptID)), Forgotten(s, s.history, promptID);
      ReplayBuffer.Forget(s, promptID) == r.(history := kept, head := r.head + if |kept| < |s.history| then 1 else 0)
  {
    hide Followed, InvalidateAll, Size;
    var h := s.history;
    KeepFull(h, NotTheirs(promptID));
    if Retracts(s, promptID) {
      KeepAgree(h, Theirs(promptID), BlockOf(promptID));
      KeepAgree(h, NotTheirs(promptID), OtherThan(promptID));
      InvalidateAllKeeps(s, Keep(h, BlockOf(promptID)));
    } else {
      KeepNone(h, Theirs(promptID));
      KeepAll(h, NotTheirs(promptID));
      ForgottenNone(s, promptID);
      assert Keep([], Theirs(promptID)) == [];
    }
  }

  lemma FollowedMeans(h: seq<HistoryFrame>, promptID: string)
    ensures Followed(h, promptID) <==> exists i, j :: 0 <= i < j < |h| && h[i].promptID == promptID && h[j].promptID == ""
  {
  }

  lemma RejectStep(t: Traced, promptID: string)
    ensures Step(t, Reject(promptID)).s == ReplayBuffer.Forget(t.s, promptID)
    ensures t.s.history == [] || (promptID != "" && Followed(t.s.history, promptID)) ==> ReplayBuffer.Forget(t.s, promptID) == t.s
  {
  }

  class LoadRecovery {
    var history: map<SessionID, seq<HistoryFrame>>
    var histSize: map<SessionID, int>
    var userFrames: map<SessionID, int>
    var trimmed: map<SessionID, bool>
    var response: map<SessionID, string>
    var pendingLoads: map<Key, SessionID>

    const epoch: string
    var head: map<SessionID, int>
    var evicted: map<SessionID, int>
    var rejected: map<SessionID, seq<CursorRange>>

    // withUpdateMeta: the line carrying its number, or None when it has no object update to carry one.
    const numbering: (string, int) -> Option<string>
    // The user_message_chunk built for one prompt block, or None when it cannot be encoded.
    const chunk: (string, string, int) -> Option<string>

    // Everything that ever happened to each session.
    ghost var ops: map<SessionID, seq<Op>>

    ghost function Ops(sid: SessionID): seq<Op>
      reads this`ops
    {
      At(ops, sid, [])
    }

    function Of(sid: SessionID): Session
      reads this`history, this`histSize, this`userFrames, this`trimmed, this`head, this`evicted, this`rejected
    {
      Session(At(history, sid, []), At(histSize, sid, 0), At(userFrames, sid, 0), At(trimmed, sid, false),
              At(head, sid, 0), At(evicted, sid, 0), At(rejected, sid, []))
    }

    /** Every session's buffer is what its own past makes it. */
    ghost predicate Valid()
      reads this`history, this`histSize, this`userFrames, this`trimmed, this`head, this`evicted, this`rejected, this`ops
    {
      forall sid :: Of(sid) == Run(Ops(sid)).s
    }

    constructor (epoch: string, numbering: (string, int) -> Option<string>, chunk: (string, string, int) -> Option<string>)
      ensures Valid() && this.epoch == epoch && this.numbering == numbering && this.chunk == chunk
      ensures forall sid :: Ops(sid) == []
    {
      this.epoch, this.numbering, this.chunk := epoch, numbering, chunk;
      history, histSize, userFrames, trimmed := map[], map[], map[], map[];
      response, pendingLoads := map[], map[];
      head, evicted, rejected := map[], map[], map[];
      ops := map[];
    }

    /** The buffer of every session but sid is what it was. */
    twostate predicate OthersKept(sid: SessionID)
      reads this
    {
      forall other | other != sid :: Of(other) == old(Of(other))
    }

    twostate lemma Kept(sid: SessionID)
      requires Apart(sid, history, old(history), []) && Apart(sid, histSize, old(histSize), 0)
      requires Apart(sid, userFrames, old(userFrames), 0) && Apart(sid, trimmed, old(trimmed), false)
      requires Apart(sid, head, old(head), 0) && Apart(sid, evicted, old(evicted), 0) && Apart(sid, rejected, old(rejected), [])
      ensures OthersKept(sid)
    {
    }

    method DropOldest(sid: SessionID)
      requires Of(sid).history != []
      modifies this`history, this`histSize, this`userFrames, this`evicted
      ensures Of(sid) == ReplayBuffer.DropOldest(old(Of(sid)))
      ensures OthersKept(sid)
    {
      hide OthersKept;
      var dropped := history[sid][0];
      history := history[sid := history[sid][1..]];
      histSize := histSize[sid := At(histSize, sid, 0) - |dropped.line|];
      var boundary := dropped.number;
      if boundary == 0 {
        boundary := dropped.gapBoundary;
      }
      var mark := At(evicted, sid, 0);
      evicted := evicted[sid := if mark < boundary then boundary else mark];
      if dropped.user {
        userFrames := userFrames[sid := At(userFrames, sid, 0) - 1];
      }
      Kept(sid);
    }

    method EvictOver(sid: SessionID) returns (evictedAny: bool)
      requires Accounted(Of(sid)) && Of(sid).history != []
      modifies this`history, this`histSize, this`userFrames, this`evicted
      ensures Of(sid) == EvictOverCap(old(Of(sid)))
      ensures evictedAny <==> |Of(sid).history| < |old(Of(sid)).history|
      ensures OthersKept(sid)
    {
      hide ReplayBuffer.DropOldest, Size, Users;
      evictedAny := false;
      while At(histSize, sid, 0) > MAX_LOAD_HISTORY_BYTES && |At(history, sid, [])| > 1
        invariant Of(sid).history != []
        invariant EvictOverCap(Of(sid)) == EvictOverCap(old(Of(sid)))
        invariant |Of(sid).history| <= |old(Of(sid)).history|
        invariant evictedAny <==> |Of(sid).history| < |old(Of(sid)).history|
        invariant OthersKept(sid)
        decreases |At(history, sid, [])|
      {
        DropShortens(Of(sid));
        DropOldest(sid);
        evictedAny := true;
      }
    }

    method EvictUntilUser(sid: SessionID)
      requires Accounted(Of(sid))
      modifies this`history, this`histSize, this`userFrames, this`evicted
      ensures Of(sid) == EvictToUser(old(Of(sid)))
      ensures OthersKept(sid)
    {
      hide ReplayBuffer.DropOldest, Size;
      while At(userFrames, sid, 0) > 0 && !history[sid][0].user
        invariant Accounted(Of(sid))
        invariant EvictToUser(Of(sid)) == EvictToUser(old(Of(sid)))
        invariant OthersKept(sid)
        decreases |At(history, sid, [])|
      {
        DropShortens(Of(sid));
        DropOldest(sid);
      }
    }

    method Push(sid: SessionID, line: string, user: bool, number: int)
      modifies this`history, this`histSize, this`userFrames
      ensures Of(sid) == ReplayBuffer.Buffered(old(Of(sid)), HistoryFrame(line, user, number, "", old(Of(sid)).head + 1))
      ensures OthersKept(sid)
    {
      hide OthersKept;
      history := history[sid := At(history, sid, []) + [HistoryFrame(line, user, number, "", At(head, sid, 0) + 1)]];
      histSize := histSize[sid := At(histSize, sid, 0) + |line|];
      if user {
        userFrames := userFrames[sid := At(userFrames, sid, 0) + 1];
      }
      Kept(sid);
    }

    method MarkTrimmed(sid: SessionID)
      modifies this`trimmed
      ensures Of(sid) == old(Of(sid)).(trimmed := true)
      ensures OthersKept(sid)
    {
      hide OthersKept;
      trimmed := trimmed[sid := true];
      Kept(sid);
    }

    method SetHead(sid: SessionID, number: int)
      modifies this`head
      ensures Of(sid) == old(Of(sid)).(head := number)
      ensures OthersKept(sid)
    {
      hide OthersKept;
      head := head[sid := number];
      Kept(sid);
    }

    method AppendHistory(sid: SessionID, line: string, user: bool, number: int)
      requires Accounted(Of(sid))
      modifies this`history, this`histSize, this`userFrames, this`evicted, this`trimmed
      ensures Of(sid) == Append(old(Of(sid)), HistoryFrame(line, user, number, "", old(Of(sid)).head + 1))
      ensures OthersKept(sid)
    {
      hide EvictOverCap, EvictToUser, Size, Users;
      ghost var frame := HistoryFrame(line, user, number, "", Of(sid).head + 1);
      ghost var full := ReplayBuffer.Buffered(Of(sid), frame);
      BufferedAccounted(Of(sid), frame);
      OverCapDrops(full);
      DroppedAccounted(full, OverCap(full.history));
      Push(sid, line, user, number);
      var dropping := EvictOver(sid);
      if dropping {
        EvictUntilUser(sid);
        MarkTrimmed(sid);
      }
    }

    /** A step taken on one session is that session's next step. */
    twostate lemma Advance(sid: SessionID)
      requires old(Valid()) && OthersKept(sid)
      requires Ops(sid) != []
      requires var op := Ops(sid)[|Ops(sid)| - 1];
        ops == old(ops)[sid := old(Ops(sid)) + [op]] && Of(sid) == Step(Run(old(Ops(sid))), op).s
      ensures Valid()
    {
      hide Run, Step;
      RunThen(old(Ops(sid)), Ops(sid)[|Ops(sid)| - 1]);
      forall other ensures Of(other) == Run(Ops(other)).s {
        if other != sid { assert Ops(other) == old(Ops(other)); }
      }
    }

    /** The line to forward: with its number when it can carry one, else as it is. */
    function Stamped(line: string, number: int): string {
      var stamped := numbering(line, number);
      if stamped.Some? then stamped.value else line
    }

    /** Numbers and buffers one session/update, and returns the line to forward. */
    method Record(sid: SessionID, line: string, user: bool) returns (forwarded: string)
      requires Valid()
      modifies this`history, this`histSize, this`userFrames, this`evicted, this`trimmed, this`head, this`ops
      ensures Valid()
      ensures forwarded == Stamped(line, old(Of(sid)).head + 1)
      ensures forwarded == match numbering(line, old(Of(sid)).head + 1) case Some(stamped) => stamped case None => line
      ensures ops == old(ops)[sid := old(Ops(sid)) + [Update(forwarded, user, numbering(line, old(Of(sid)).head + 1).Some?)]]
    {
      hide Run, Append;
      BufferAccounted(Ops(sid));
      var number := At(head, sid, 0) + 1;
      var stamped := numbering(line, number);
      if stamped.None? {
        forwarded := line;
        AppendHistory(sid, line, user, 0);
      } else {
        forwarded := stamped.value;
        SetHead(sid, number);
        AppendHistory(sid, stamped.value, user, number);
      }
      ghost var op := Update(forwarded, user, stamped.Some?);
      ops := ops[sid := Ops(sid) + [op]];
      Advance(sid);
    }

    /** Buffers a prompt's blocks as the updates a load replay would carry. */
    method BufferPrompt(sid: SessionID, blocks: seq<string>, clientID: string, promptID: string)
      requires Valid()
      modifies this`history, this`histSize, this`userFrames, this`evicted, this`trimmed, this`head, this`ops
      ensures Valid()
      ensures Ops(sid) == old(Ops(sid)) + Chunks(blocks, clientID, promptID, old(Of(sid)).head)
      ensures forall other | other != sid :: Ops(other) == old(Ops(other))
    {
      hide Run, Append, Valid;
      var i := 0;
      while i < |blocks|
        invariant 0 <= i <= |blocks| && Valid()
        invariant forall other | other != sid :: Ops(other) == old(Ops(other))
        invariant Ops(sid) + Chunks(blocks[i..], clientID, promptID, Of(sid).head)
               == old(Ops(sid)) + Chunks(blocks, clientID, promptID, old(Of(sid)).head)
      {
        assert blocks[i..][0] == blocks[i] && blocks[i..][1..] == blocks[i + 1..];
        var number := At(head, sid, 0) + 1;
        var frame := chunk(blocks[i], clientID, number);
        if frame.Some? {
          BufferChunk(sid, frame.value, number, promptID);
        }
        i := i + 1;
      }
    }

    method BufferChunk(sid: SessionID, line: string, number: int, promptID: string)
      requires Valid() && number == Of(sid).head + 1
      modifies this`history, this`histSize, this`userFrames, this`evicted, this`trimmed, this`head, this`ops
      ensures Valid() && Of(sid).head == number
      ensures ops == old(ops)[sid := old(Ops(sid)) + [PromptBlock(line, promptID)]]
    {
      hide Run, Append;
      BufferAccounted(Ops(sid));
      ghost var before := Of(sid).(head := number);
      SetHead(sid, number);
      AppendHistory(sid, line, true, number);
      AppendPatch(before, HistoryFrame(line, true, number, "", number + 1), promptID);
      AppendKeeps(before, PromptFrame(old(Of(sid)), line, promptID));
      NameNewest(sid, promptID);
      ghost var op := PromptBlock(line, promptID);
      ops := ops[sid := Ops(sid) + [op]];
      Advance(sid);
    }

    /** Names the frame just buffered, which is still the newest one. */
    method NameNewest(sid: SessionID, promptID: string)
      requires Of(sid).history != []
      modifies this`history
      ensures Of(sid) == Patch(old(Of(sid)), promptID)
      ensures OthersKept(sid)
    {
      hide OthersKept;
      var last := |history[sid]| - 1;
      history := history[sid := history[sid][last := history[sid][last].(promptID := promptID)]];
      Kept(sid);
    }

    /** The recorded blocks: those that encode, numbered in a row. */
    function Chunks(blocks: seq<string>, clientID: string, promptID: string, head: int): seq<Op>
      decreases blocks
    {
      if blocks == [] then [] else
      var frame := chunk(blocks[0], clientID, head + 1);
      if frame.Some? then [PromptBlock(frame.value, promptID)] + Chunks(blocks[1..], clientID, promptID, head + 1)
      else Chunks(blocks[1..], clientID, promptID, head)
    }

    /** A block that cannot be encoded takes no number; each other one takes the next. */
    lemma {:induction false} ChunksSplit(blocks: seq<string>, more: seq<string>, clientID: string, promptID: string, head: int)
      ensures Chunks(blocks + more, clientID, promptID, head)
        == Chunks(blocks, clientID, promptID, head)
           + Chunks(more, clientID, promptID, head + |Chunks(blocks, clientID, promptID, head)|)
      decreases blocks
    {
      if blocks == [] {
        assert blocks + more == more;
      } else {
        assert (blocks + more)[0] == blocks[0] && (blocks + more)[1..] == blocks[1..] + more;
        ChunksSplit(blocks[1..], more, clientID, promptID, head + if chunk(blocks[0], clientID, head + 1).Some? then 1 else 0);
      }
    }

    lemma ChunksOne(block: string, clientID: string, promptID: string, head: int)
      ensures Chunks([block], clientID, promptID, head)
        == match chunk(block, clientID, head + 1) case None => [] case Some(line) => [PromptBlock(line, promptID)]
    {
      assert [block][1..] == [];
      assert Chunks([], clientID, promptID, head + 1) == Chunks([], clientID, promptID, head) == [];
    }

    /** Answers a client that holds everything up to afterSeq: what came after, or a gap. */
    method CatchUp(sid: SessionID, epoch: string, afterSeq: int) returns (frames: seq<string>, headSeq: int, gap: bool)
      requires Valid()
      ensures headSeq == Run(Ops(sid)).s.head
      ensures gap <==> epoch != this.epoch || Gap(Run(Ops(sid)).s, afterSeq)
      ensures frames == if gap then [] else Map(Missed(Run(Ops(sid)).s, afterSeq), LineText)
    {
      hide Run, Covers;
      frames, headSeq, gap := [], At(head, sid, 0), true;
      if epoch != this.epoch || afterSeq < At(evicted, sid, 0) || afterSeq > headSeq {
        return;
      }
      var invalid := InRanges(At(rejected, sid, []), afterSeq);
      if !invalid {
        frames, gap := After(At(history, sid, []), afterSeq);
      }
    }

    static method InRanges(ranges: seq<CursorRange>, c: int) returns (found: bool)
      ensures found <==> Covers(ranges, c)
    {
      var i := 0;
      while i < |ranges|
        invariant 0 <= i <= |ranges|
        invariant forall j | 0 <= j < i :: !(ranges[j].from <= c <= ranges[j].through)
      {
        if ranges[i].from <= c && c <= ranges[i].through {
          return true;
        }
        i := i + 1;
      }
      return false;
    }

    static method After(buffered: seq<HistoryFrame>, c: int) returns (frames: seq<string>, gap: bool)
      ensures gap <==> exists f :: f in buffered && f.number == 0 && f.gapBoundary > c
      ensures frames == if gap then [] else Map(Keep(buffered, NumberedAfter(c)), LineText)
    {
      hide Keep, Map;
      frames, gap := [], false;
      var i := 0;
      MissedNone(buffered, c);
      while i < |buffered|
        invariant 0 <= i <= |buffered|
        invariant forall j | 0 <= j < i :: !(buffered[j].number == 0 && buffered[j].gapBoundary > c)
        invariant frames == Map(Keep(buffered[..i], NumberedAfter(c)), LineText)
      {
        var f := buffered[i];
        if f.number == 0 && f.gapBoundary > c {
          return [], true;
        }
        MissedGrows(buffered, i, c);
        if f.number > c {
          frames := frames + [f.line];
        }
        i := i + 1;
      }
      assert buffered[..|buffered|] == buffered;
    }

    /** Remembers the cursors that may hold the removed message numbered number. */
    method InvalidatePrompt(sid: SessionID, number: int)
      modifies this`rejected
      ensures Of(sid) == Invalidate(old(Of(sid)), number)
      ensures OthersKept(sid)
    {
      hide OthersKept;
      var ranges, lowest := At(rejected, sid, []), number;
      while |ranges| > 0 && ranges[0].through < At(evicted, sid, 0)
        invariant DropShadowed(ranges, At(evicted, sid, 0)) == DropShadowed(Of(sid).rejected, Of(sid).evicted)
      {
        ranges := ranges[1..];
      }
      while |ranges| > 0 && ranges[|ranges| - 1].through >= lowest - 1
        invariant Merge(ranges, lowest, Of(sid).head)
               == Merge(DropShadowed(Of(sid).rejected, Of(sid).evicted), number, Of(sid).head)
      {
        lowest := if ranges[|ranges| - 1].from < lowest then ranges[|ranges| - 1].from else lowest;
        ranges := ranges[..|ranges| - 1];
      }
      rejected := rejected[sid := ranges + [CursorRange(lowest, At(head, sid, 0))]];
      Kept(sid);
    }

    method Discount(sid: SessionID, f: HistoryFrame)
      modifies this`histSize, this`userFrames
      ensures Of(sid) == old(Of(sid)).(histSize := old(Of(sid)).histSize - |f.line|, userFrames := old(Of(sid)).userFrames - 1)
      ensures OthersKept(sid)
    {
      hide OthersKept;
      histSize := histSize[sid := At(histSize, sid, 0) - |f.line|];
      userFrames := userFrames[sid := At(userFrames, sid, 0) - 1];
      Kept(sid);
    }

    method Replace(sid: SessionID, kept: seq<HistoryFrame>, number: int)
      modifies this`history, this`head
      ensures Of(sid) == old(Of(sid)).(history := kept, head := number)
      ensures OthersKept(sid)
    {
      hide OthersKept;
      history := history[sid := kept];
      head := head[sid := number];
      Kept(sid);
    }

    /** Whether agent updates follow a block of the prompt. */
    static method IsFollowed(frames: seq<HistoryFrame>, promptID: string) returns (followed: bool)
      ensures followed <==> promptID != "" && exists i, j :: 0 <= i < j < |frames| && frames[i].promptID == promptID && frames[j].promptID == ""
    {
      var found, i := false, 0;
      while i < |frames|
        invariant 0 <= i <= |frames|
        invariant found <==> promptID != "" && exists k :: 0 <= k < i && frames[k].promptID == promptID
        invariant promptID != "" ==> forall j, k :: 0 <= j < k < i && frames[j].promptID == promptID ==> frames[k].promptID != ""
      {
        if frames[i].promptID == promptID && promptID != "" {
          found := true;
        }
        if found && frames[i].promptID == "" {
          return true;
        }
        i := i + 1;
      }
      return false;
    }

    /** Removes a rejected prompt's blocks unless agent updates already followed them. */
    method ForgetPrompt(sid: SessionID, promptID: string)
      requires Valid()
      modifies this`history, this`histSize, this`userFrames, this`head, this`rejected, this`ops
      ensures Valid()
      ensures ops == old(ops)[sid := old(Ops(sid)) + [Reject(promptID)]]
    {
      hide Run, Followed, ReplayBuffer.Forget, Forgotten;
      ghost var s := Of(sid);
      var frames := At(history, sid, []);
      var followed := IsFollowed(frames, promptID);
      FollowedMeans(frames, promptID);
      if |frames| > 0 && !followed {
        var kept := Withdraw(sid, frames, promptID);
        ForgetEnds(s, promptID);
        // A cursor past the poisoned ones, for a transcript repaired by a load.
        Replace(sid, kept, At(head, sid, 0) + if |kept| < |frames| then 1 else 0);
      }
      RejectStep(Run(Ops(sid)), promptID);
      ops := ops[sid := Ops(sid) + [Reject(promptID)]];
      Advance(sid);
    }

    method Withdraw(sid: SessionID, frames: seq<HistoryFrame>, promptID: string) returns (kept: seq<HistoryFrame>)
      modifies this`histSize, this`userFrames, this`rejected
      ensures kept == Keep(frames, NotTheirs(promptID))
      ensures Of(sid) == Forgotten(old(Of(sid)), frames, promptID)
      ensures OthersKept(sid)
    {
      hide Forgotten, Invalidate;
      var i := 0;
      kept := [];
      assert frames[..0] == [];
      ForgottenNone(Of(sid), promptID);
      while i < |frames|
        invariant 0 <= i <= |frames| && OthersKept(sid)
        invariant Of(sid) == Forgotten(old(Of(sid)), frames[..i], promptID)
        invariant kept == Keep(frames[..i], NotTheirs(promptID))
      {
        ForgottenGrows(old(Of(sid)), frames, i, promptID);
        if frames[i].promptID != promptID || promptID == "" {
          kept := kept + [frames[i]];
        } else {
          Discount(sid, frames[i]);
          InvalidatePrompt(sid, frames[i].number);
        }
        i := i + 1;
      }
      assert frames[..|frames|] == frames;
    }

    /** Tracks a session/load until a frame with its id arrives. */
    method OnLoad(requestID: Key, sid: SessionID)
      modifies this`pendingLoads
      ensures pendingLoads == old(pendingLoads)[requestID := sid]
    {
      pendingLoads := pendingLoads[requestID := sid];
    }

    /**
     * Answers a rejected duplicate load with the buffered history. The replay is the whole conversation
     * exactly when it is not announced as truncated, and its cursor is one a later catch-up can use.
     */
    method OnFrame(requestID: Key, error: FrameError, synthesizes: bool) returns (frames: seq<ReplayFrame>, handled: bool)
      requires Valid()
      modifies this`pendingLoads, this`response
      ensures Valid() && ops == old(ops)
      ensures pendingLoads == old(pendingLoads) - {requestID}
      ensures handled <==> requestID in old(pendingLoads) && error.AlreadyLoaded? && synthesizes
      ensures response == if requestID in old(pendingLoads) && error.NoError?
                          then old(response)[old(pendingLoads)[requestID] := error.line] else old(response)
      ensures !handled ==> frames == []
      ensures handled ==>
        var t := Run(Ops(old(pendingLoads)[requestID]));
        && |frames| == |t.s.history| + 2
        && frames[0] == Resumed(old(pendingLoads)[requestID], |t.s.history|, t.s.history != Log(t))
        && (forall i | 0 <= i < |t.s.history| :: frames[i + 1] == ReplayFrame.Buffered(t.s.history[i].line))
        && frames[|frames| - 1] == LoadSuccess(if old(pendingLoads)[requestID] in response
                                               then Some(response[old(pendingLoads)[requestID]]) else None, epoch, t.s.head)
    {
      hide Run, Log;
      frames, handled := [], false;
      if requestID !in pendingLoads {
        return;
      }
      var sid := pendingLoads[requestID];
      pendingLoads := pendingLoads - {requestID};
      if error.NoError? {
        response := response[sid := error.line];
        return;
      }
      if error.OtherError? || !synthesizes {
        return;
      }
      TruncatedExactly(Ops(sid));
      var replay := At(history, sid, []);
      frames := [Resumed(sid, |replay|, At(trimmed, sid, false))];
      var i := 0;
      while i < |replay|
        invariant 0 <= i <= |replay| && |frames| == i + 1
        invariant frames[0] == Resumed(sid, |replay|, At(trimmed, sid, false))
        invariant forall j | 0 <= j < i :: frames[j + 1] == ReplayFrame.Buffered(replay[j].line)
      {
        frames := frames + [ReplayFrame.Buffered(replay[i].line)];
        i := i + 1;
      }
      frames := frames + [LoadSuccess(if sid in response then Some(response[sid]) else None, epoch, At(head, sid, 0))];
      handled := true;
    }
  }
}
