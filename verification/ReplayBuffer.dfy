/**
The replay buffer of one ACP session, on values: what each step of
internal/session/load_recovery.go does to it, and what holds over every run.

`Session` is the buffer as the gateway stores it. `Traced` adds what the
gateway does not store: the conversation log (every recorded update that was
not retracted, however long ago it was evicted) and every range of cursors a
retraction ever poisoned.
*/
module ReplayBuffer {
  import opened Sequences

  const MAX_LOAD_HISTORY_BYTES := 0x80_0000

  /** One buffered update. number is its ferngeist/seq, 0 for an update that could not be numbered. */
  datatype HistoryFrame = HistoryFrame(line: string, user: bool, number: int, promptID: string, gapBoundary: int)

  datatype CursorRange = CursorRange(from: int, through: int)

  datatype Session = Session(
    history: seq<HistoryFrame>,
    histSize: int,
    userFrames: int,
    trimmed: bool,
    head: int,
    evicted: int,
    rejected: seq<CursorRange>)

  const EMPTY := Session([], 0, 0, false, 0, 0, [])

  // ----- The buffer's own steps -----

  function Size(h: seq<HistoryFrame>): nat {
    if h == [] then 0 else |h[0].line| + Size(h[1..])
  }

  function Users(h: seq<HistoryFrame>): nat {
    if h == [] then 0 else (if h[0].user then 1 else 0) + Users(h[1..])
  }

  /** The cursor from which a client is known to hold f. */
  function Rank(f: HistoryFrame): int {
    if f.number == 0 then f.gapBoundary else f.number
  }

  function DropOldest(s: Session): Session
    requires s.history != []
  {
    var dropped := s.history[0];
    s.(history := s.history[1..],
       histSize := s.histSize - |dropped.line|,
       evicted := if s.evicted < Rank(dropped) then Rank(dropped) else s.evicted,
       userFrames := s.userFrames - if dropped.user then 1 else 0)
  }

  function EvictOverCap(s: Session): Session
    decreases |s.history|
  {
    if s.histSize > MAX_LOAD_HISTORY_BYTES && |s.history| > 1 then EvictOverCap(DropOldest(s)) else s
  }

  function EvictToUser(s: Session): Session
    decreases |s.history|
  {
    if s.userFrames > 0 && s.history != [] && !s.history[0].user then EvictToUser(DropOldest(s)) else s
  }

  function Buffered(s: Session, f: HistoryFrame): Session {
    s.(history := s.history + [f],
       histSize := s.histSize + |f.line|,
       userFrames := s.userFrames + if f.user then 1 else 0)
  }

  function Append(s: Session, f: HistoryFrame): Session {
    var full := Buffered(s, f);
    var fits := EvictOverCap(full);
    if |fits.history| < |full.history| then EvictToUser(fits).(trimmed := true) else fits
  }

  function RecordedFrame(s: Session, line: string, user: bool, numbered: bool): HistoryFrame {
    if numbered then HistoryFrame(line, user, s.head + 1, "", s.head + 2)
    else HistoryFrame(line, user, 0, "", s.head + 1)
  }

  function Record(s: Session, line: string, user: bool, numbered: bool): Session {
    var f := RecordedFrame(s, line, user, numbered);
    Append(if numbered then s.(head := s.head + 1) else s, f)
  }

  function PromptFrame(s: Session, line: string, promptID: string): HistoryFrame {
    HistoryFrame(line, true, s.head + 1, promptID, s.head + 2)
  }

  function BufferBlock(s: Session, line: string, promptID: string): Session {
    Append(s.(head := s.head + 1), PromptFrame(s, line, promptID))
  }

  /** An update without a prompt id comes after a block of promptID: the agent has moved on. */
  ghost predicate Followed(h: seq<HistoryFrame>, promptID: string) {
    exists i, j :: 0 <= i < j < |h| && h[i].promptID == promptID && h[j].promptID == ""
  }

  function OtherThan(promptID: string): HistoryFrame -> bool {
    (f: HistoryFrame) => f.promptID != promptID
  }

  function BlockOf(promptID: string): HistoryFrame -> bool {
    (f: HistoryFrame) => f.promptID == promptID
  }

  /** forgetPrompt removes something. */
  ghost predicate Retracts(s: Session, promptID: string) {
    && promptID != ""
    && !Followed(s.history, promptID)
    && exists f :: f in s.history && f.promptID == promptID
  }

  /** Ranges that end below the evicted mark go from the front. */
  function DropShadowed(ranges: seq<CursorRange>, evicted: int): seq<CursorRange> {
    if ranges != [] && ranges[0].through < evicted then DropShadowed(ranges[1..], evicted) else ranges
  }

  /** Ranges the new one [number, through] touches are merged into it from the back. */
  function Merge(ranges: seq<CursorRange>, number: int, through: int): seq<CursorRange> {
    if ranges != [] && ranges[|ranges| - 1].through >= number - 1 then
      var last := ranges[|ranges| - 1];
      Merge(ranges[..|ranges| - 1], if last.from < number then last.from else number, through)
    else
      ranges + [CursorRange(number, through)]
  }

  function Invalidate(s: Session, number: int): Session {
    s.(rejected := Merge(DropShadowed(s.rejected, s.evicted), number, s.head))
  }

  function InvalidateAll(s: Session, blocks: seq<HistoryFrame>): Session
    decreases blocks
  {
    if blocks == [] then s else InvalidateAll(Invalidate(s, blocks[0].number), blocks[1..])
  }

  ghost function Forget(s: Session, promptID: string): Session {
    if !Retracts(s, promptID) then s else
    var blocks := Keep(s.history, BlockOf(promptID));
    var poisoned := InvalidateAll(s, blocks);
    poisoned.(history := Keep(s.history, OtherThan(promptID)),
              histSize := s.histSize - Size(blocks),
              userFrames := s.userFrames - |blocks|,
              head := s.head + 1)
  }

  predicate Covers(ranges: seq<CursorRange>, c: int) {
    exists i :: 0 <= i < |ranges| && ranges[i].from <= c <= ranges[i].through
  }

  /** catchUp reports a gap for cursor c of this epoch. */
  ghost predicate Gap(s: Session, c: int) {
    || c < s.evicted
    || c > s.head
    || Covers(s.rejected, c)
    || exists f :: f in s.history && f.number == 0 && f.gapBoundary > c
  }

  function NumberedAfter(c: int): HistoryFrame -> bool {
    (f: HistoryFrame) => f.number > c
  }

  /** The frames catchUp returns when there is no gap. */
  function Missed(s: Session, c: int): seq<HistoryFrame> {
    Keep(s.history, NumberedAfter(c))
  }

  function LineText(f: HistoryFrame): string {
    f.line
  }

  // ----- The conversation, and the steps on it -----

  /** gone is what the buffer evicted: log = gone + history. */
  datatype Traced = Traced(s: Session, gone: seq<HistoryFrame>, poisoned: seq<CursorRange>)

  /** Every recorded update that was not retracted, oldest first. */
  function Log(t: Traced): seq<HistoryFrame> {
    t.gone + t.s.history
  }

  datatype Op =
    | Update(line: string, user: bool, numbered: bool)
    | PromptBlock(line: string, promptID: string)
    | Reject(promptID: string)

  /** Every retracted block poisons the cursors from its own number to the head. */
  function Poison(blocks: seq<HistoryFrame>, head: int): (ranges: seq<CursorRange>)
    ensures |ranges| == |blocks|
    ensures forall i | 0 <= i < |blocks| :: ranges[i] == CursorRange(blocks[i].number, head)
  {
    if blocks == [] then [] else [CursorRange(blocks[0].number, head)] + Poison(blocks[1..], head)
  }

  /** The oldest frames of h that are not in its tail kept. */
  function Lost(h: seq<HistoryFrame>, kept: seq<HistoryFrame>): seq<HistoryFrame> {
    if |kept| <= |h| then h[..|h| - |kept|] else []
  }

  function Grow(t: Traced, s: Session, f: HistoryFrame): Traced {
    Traced(s, t.gone + Lost(t.s.history + [f], s.history), t.poisoned)
  }

  ghost function Step(t: Traced, op: Op): Traced {
    match op
    case Update(line, user, numbered) =>
      Grow(t, Record(t.s, line, user, numbered), RecordedFrame(t.s, line, user, numbered))
    case PromptBlock(line, promptID) =>
      Grow(t, BufferBlock(t.s, line, promptID), PromptFrame(t.s, line, promptID))
    case Reject(promptID) =>
      if !Retracts(t.s, promptID) then t else
      Traced(Forget(t.s, promptID), t.gone, t.poisoned + Poison(Keep(t.s.history, BlockOf(promptID)), t.s.head))
  }

  // ----- What every run keeps -----

  /** f was recorded before g. */
  predicate Before(f: HistoryFrame, g: HistoryFrame) {
    Rank(f) <= Rank(g) && (f.number != 0 ==> Rank(f) < Rank(g))
  }

  predicate Ordered(h: seq<HistoryFrame>) {
    h == [] || ((forall g | g in h[1..] :: Before(h[0], g)) && Ordered(h[1..]))
  }

  predicate WellNumbered(f: HistoryFrame, head: int) {
    && 0 <= f.number <= head
    && 1 <= Rank(f) <= head + 1
    && (f.promptID != "" ==> f.user && f.number != 0)
  }

  /** Ranges are nonempty, ascending, never adjacent, and stay strictly below the head. */
  predicate Separated(ranges: seq<CursorRange>, head: int) {
    && (forall i | 0 <= i < |ranges| :: 1 <= ranges[i].from <= ranges[i].through < head)
    && (forall i, j | 0 <= i < j < |ranges| :: ranges[i].through + 1 < ranges[j].from)
  }

  predicate Accounted(s: Session) {
    && s.histSize == Size(s.history)
    && s.userFrames == Users(s.history)
  }

  /** s accounts for what it buffers and remembers the rank of what it lost last. */
  predicate Honest(s: Session, gone: seq<HistoryFrame>) {
    && Accounted(s)
    && s.evicted == (if gone == [] then 0 else Rank(gone[|gone| - 1]))
    && (s.trimmed <==> gone != [])
  }

  predicate LogInv(t: Traced) {
    && 0 <= t.s.head
    && Honest(t.s, t.gone)
    && Ordered(Log(t))
    && (forall f | f in Log(t) :: WellNumbered(f, t.s.head))
  }

  predicate Below(ranges: seq<CursorRange>, head: int) {
    forall r | r in ranges :: 1 <= r.from <= r.through < head
  }

  /** No range starts at the number of an update that is still in the log. */
  predicate Unnamed(ranges: seq<CursorRange>, log: seq<HistoryFrame>) {
    forall r, f | r in ranges && f in log :: f.number != r.from
  }

  ghost predicate PoisonInv(t: Traced) {
    && Separated(t.s.rejected, t.s.head)
    && Below(t.poisoned, t.s.head)
    && Unnamed(t.poisoned, Log(t))
    && (forall c | t.s.evicted <= c :: Covers(t.s.rejected, c) <==> Covers(t.poisoned, c))
  }

  ghost predicate Inv(t: Traced) {
    LogInv(t) && PoisonInv(t)
  }

  const START := Traced(EMPTY, [], [])

  /** The session after any sequence of recorded updates, buffered prompts and rejections. */
  ghost function Run(ops: seq<Op>): Traced {
    if ops == [] then START else Step(Run(ops[..|ops| - 1]), ops[|ops| - 1])
  }
}
