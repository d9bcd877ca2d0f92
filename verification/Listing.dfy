/**
internal/projects/queue.go and lister.go: listing agents' chats, one flight per agent, and the processes kept warm
in between. Each method is one critical section, or one move of a call's goroutine; they may come in any order.
*/
module Listing {
  import opened Names
  import opened Sequences

  const MAX_CONCURRENT_AGENTS := 4
  const CACHE_TTL := 10

  datatype AgentID = AgentID(name: string)

  /** The n-th agent process started for a listing. */
  datatype Conn = Conn(n: nat)

  datatype Line = Answer(text: string) | Failure

  /**
  How far a call's goroutine is: from Holding to Listed it has a slot. Using has the process, if there is one, and is
  passed once its listing succeeded and its context was found alive after that.
  */
  datatype Stage =
    | Waiting | Holding | Running | Using(conn: Option<Conn>, passed: bool)
    | Listed(line: Line) | Finishing(line: Line) | Done(line: Line)

  datatype Call = Call(agent: AgentID, waiters: int, started: bool, cancelled: bool, stage: Stage)

  datatype Warm = Warm(conn: Conn, lastUsed: int)

  datatype Cached = Cached(line: Line, at: int)

  /** The only places of a process: with a call, parked for its agent, being stopped, gone, or left running by a call that forgot it. */
  datatype Place = InUse(call: nat) | Parked(agent: AgentID) | Stopping | Gone | Orphaned(call: nat)

  // ----- Calls -----

  predicate HasSlot(stage: Stage) {
    stage.Holding? || stage.Running? || stage.Using? || stage.Listed?
  }

  predicate Current(pending: map<AgentID, nat>, c: nat, k: Call) {
    k.agent in pending && pending[k.agent] == c
  }

  ghost predicate CallSound(pending: map<AgentID, nat>, c: nat, k: Call) {
    && k.waiters >= 0
    && (k.stage.Waiting? || k.stage.Holding? ==> !k.started)
    && (k.stage.Running? || k.stage.Using? || k.stage.Listed? ==> k.started)
    && (k.started && !k.stage.Done? ==> Current(pending, c, k))
    && (!k.cancelled && !k.stage.Done? ==> Current(pending, c, k))
    && (k.stage.Done? ==> !Current(pending, c, k))
    && (!k.started && Current(pending, c, k) ==> k.waiters > 0)
    && (!k.started && k.waiters == 0 ==> k.cancelled)
  }

  ghost predicate CallsSound(pending: map<AgentID, nat>, calls: map<nat, Call>, next: nat) {
    && (forall a | a in pending :: pending[a] in calls && calls[pending[a]].agent == a)
    && (forall c | c in calls :: c < next && CallSound(pending, c, calls[c]))
  }

  /** An admitted call is its agent's only one until it is done. */
  lemma SingleFlight(pending: map<AgentID, nat>, calls: map<nat, Call>, next: nat, c: nat, d: nat)
    requires CallsSound(pending, calls, next) && c in calls && d in calls && calls[c].agent == calls[d].agent
    requires calls[c].started && !calls[c].stage.Done? && calls[d].started && !calls[d].stage.Done?
    ensures c == d
  {
    assert CallSound(pending, c, calls[c]) && CallSound(pending, d, calls[d]);
  }

  // ----- Slots -----

  ghost function InSlots(slots: set<nat>): int {
    |slots|
  }

  ghost predicate SlotsSound(holders: set<nat>, calls: map<nat, Call>) {
    forall c :: c in holders <==> c in calls && HasSlot(calls[c].stage)
  }

  // ----- Processes -----

  ghost predicate UsedExactly(calls: map<nat, Call>, places: map<Conn, Place>) {
    && (forall c | c in calls && calls[c].stage.Using? && calls[c].stage.conn.Some? ::
          calls[c].stage.conn.value in places && places[calls[c].stage.conn.value] == InUse(c))
    && (forall p | p in places && places[p].InUse? ::
          && places[p].call in calls && calls[places[p].call].stage.Using? && calls[places[p].call].stage.conn == Some(p))
  }

  ghost predicate ParkedExactly(warm: map<AgentID, Warm>, places: map<Conn, Place>) {
    && (forall a | a in warm :: warm[a].conn in places && places[warm[a].conn] == Parked(a))
    && (forall p | p in places && places[p].Parked? :: places[p].agent in warm && warm[places[p].agent].conn == p)
  }

  ghost predicate StoppingExactly(stopping: set<Conn>, places: map<Conn, Place>) {
    forall p :: p in stopping <==> p in places && places[p].Stopping?
  }

  /** The call has let go of its process. */
  predicate Over(stage: Stage) {
    stage.Listed? || stage.Finishing? || stage.Done?
  }

  /** The calls of late listed successfully when their context had ended; they, and they alone, left their process running. */
  ghost predicate LateExactly(late: map<nat, Conn>, calls: map<nat, Call>, places: map<Conn, Place>) {
    && (forall c | c in late :: c in calls && Over(calls[c].stage) && late[c] in places && places[late[c]] == Orphaned(c))
    && (forall p | p in places && places[p].Orphaned? :: places[p].call in late && late[places[p].call] == p)
  }

  predicate LineTrue(listed: map<nat, Line>, c: nat, k: Call) {
    && (k.stage.Listed? || k.stage.Finishing? || k.stage.Done? ==> k.stage.line == if c in listed then listed[c] else Failure)
    && (c in listed ==> k.stage.Listed? || k.stage.Finishing? || k.stage.Done?)
  }

  /** A call answers what its full listing was, and a failure if it had none. */
  ghost predicate LinesTrue(listed: map<nat, Line>, calls: map<nat, Call>) {
    && (forall c | c in calls :: LineTrue(listed, c, calls[c]))
    && (forall c | c in listed :: c in calls)
  }

  /** While a call has taken its agent's process, none is parked. */
  ghost predicate NoneBeside(calls: map<nat, Call>, warm: map<AgentID, Warm>) {
    forall c | c in calls && calls[c].stage.Using? :: calls[c].agent !in warm
  }

  predicate ClosedEmpty(closed: bool, warm: map<AgentID, Warm>) {
    closed ==> warm == map[]
  }

  ghost predicate Numbered(places: map<Conn, Place>, conns: nat) {
    forall p | p in places :: p.n < conns
  }

  /** Everything the lister and its goroutines know. */
  datatype Books = Books(closed: bool, pending: map<AgentID, nat>, calls: map<nat, Call>, next: nat, slots: int, holders: set<nat>,
                         warm: map<AgentID, Warm>, conns: nat, stopping: set<Conn>, places: map<Conn, Place>,
                         late: map<nat, Conn>, listed: map<nat, Line>)

  ghost predicate Sound(b: Books) {
    && CallsSound(b.pending, b.calls, b.next)
    && SlotsSound(b.holders, b.calls)
    && b.slots == InSlots(b.holders) && b.slots <= MAX_CONCURRENT_AGENTS
    && UsedExactly(b.calls, b.places)
    && ParkedExactly(b.warm, b.places)
    && StoppingExactly(b.stopping, b.places)
    && LateExactly(b.late, b.calls, b.places)
    && LinesTrue(b.listed, b.calls)
    && NoneBeside(b.calls, b.warm)
    && ClosedEmpty(b.closed, b.warm)
    && Numbered(b.places, b.conns)
  }

  /** At no time do more than four calls hold a slot. */
  lemma AtMostFour(b: Books, some: set<nat>)
    requires Sound(b) && forall c | c in some :: c in b.calls && HasSlot(b.calls[c].stage)
    ensures |some| <= MAX_CONCURRENT_AGENTS
  {
    hide CallsSound, UsedExactly, ParkedExactly, StoppingExactly, LateExactly, LinesTrue, NoneBeside, ClosedEmpty, Numbered;
    Cardinal(some, b.holders);
  }

  /** All its requesters left before it was admitted. */
  predicate Abandoned(k: Call) {
    !k.started && k.waiters == 0
  }

  /** What is abandoned stays so and never starts; what is done stays done, with its line. */
  ghost predicate Lasting(was: map<nat, Call>, now: map<nat, Call>) {
    forall c | c in was :: c in now && Follows(was[c], now[c])
  }

  ghost predicate Follows(was: Call, k: Call) {
    && k.agent == was.agent
    && (was.stage.Done? ==> k.stage == was.stage)
    && (Abandoned(was) ==> Abandoned(k))
  }

  /** What is gone stays gone, and what is orphaned is never stopped. */
  ghost predicate Settled(was: map<Conn, Place>, now: map<Conn, Place>) {
    forall p | p in was :: p in now && (was[p].Gone? || was[p].Orphaned? ==> now[p] == was[p])
  }

  // ----- Changing one call -----

  lemma PutCall(pending: map<AgentID, nat>, calls: map<nat, Call>, next: nat, c: nat, k: Call)
    requires CallsSound(pending, calls, next) && c in calls && k.agent == calls[c].agent && CallSound(pending, c, k)
    ensures CallsSound(pending, calls[c := k], next)
  {
  }

  /** Once an agent's call is no longer current it may be replaced. */
  lemma Forget(pending: map<AgentID, nat>, calls: map<nat, Call>, next: nat, c: nat, k: Call)
    requires CallsSound(pending, calls, next) && c in calls && Current(pending, c, calls[c])
    requires k.agent == calls[c].agent && CallSound(Minus(pending, k.agent), c, k)
    ensures CallsSound(Minus(pending, k.agent), calls[c := k], next)
  {
    forall d | d in calls && d != c ensures CallSound(Minus(pending, k.agent), d, calls[d]) {
      assert CallSound(pending, d, calls[d]);
    }
  }

  lemma NewCall(pending: map<AgentID, nat>, calls: map<nat, Call>, next: nat, a: AgentID)
    requires CallsSound(pending, calls, next) && a !in pending
    ensures next !in calls && CallsSound(pending[a := next], calls[next := Call(a, 1, false, false, Waiting)], next + 1)
  {
    forall d | d in calls ensures CallSound(pending[a := next], d, calls[d]) { assert CallSound(pending, d, calls[d]); }
  }

  lemma SlotKept(holders: set<nat>, calls: map<nat, Call>, c: nat, k: Call)
    requires SlotsSound(holders, calls) && c in calls && HasSlot(k.stage) == HasSlot(calls[c].stage)
    ensures SlotsSound(holders, calls[c := k])
  {
  }

  lemma SlotTaken(holders: set<nat>, calls: map<nat, Call>, c: nat, k: Call)
    requires SlotsSound(holders, calls) && c in calls && HasSlot(k.stage) && !HasSlot(calls[c].stage)
    ensures SlotsSound(holders + {c}, calls[c := k]) && InSlots(holders + {c}) == InSlots(holders) + 1
  {
  }

  lemma SlotFreed(holders: set<nat>, calls: map<nat, Call>, c: nat, k: Call)
    requires SlotsSound(holders, calls) && c in calls && !HasSlot(k.stage) && HasSlot(calls[c].stage)
    ensures SlotsSound(holders - {c}, calls[c := k]) && InSlots(holders - {c}) == InSlots(holders) - 1
  {
  }

  lemma SlotUnclaimed(holders: set<nat>, calls: map<nat, Call>, c: nat, k: Call)
    requires SlotsSound(holders, calls) && c !in calls && !HasSlot(k.stage)
    ensures SlotsSound(holders, calls[c := k])
  {
  }

  /** A call that takes no part in processes. */
  lemma UsesNothing(calls: map<nat, Call>, warm: map<AgentID, Warm>, places: map<Conn, Place>, c: nat, k: Call)
    requires UsedExactly(calls, places) && NoneBeside(calls, warm) && !k.stage.Using?
    requires c in calls ==> !(calls[c].stage.Using? && calls[c].stage.conn.Some?)
    ensures UsedExactly(calls[c := k], places) && NoneBeside(calls[c := k], warm)
  {
  }

  lemma LastingCall(calls: map<nat, Call>, c: nat, k: Call)
    requires c !in calls || Follows(calls[c], k)
    ensures Lasting(calls, calls[c := k])
  {
  }

  lemma Moved(places: map<Conn, Place>, conns: nat, p: Conn, to: Place)
    requires Numbered(places, conns) && (p in places ==> !places[p].Gone? && !places[p].Orphaned?)
    ensures Settled(places, places[p := to]) && Numbered(places[p := to], if p.n < conns then conns else p.n + 1)
  {
  }

  lemma Unmoved(places: map<Conn, Place>)
    ensures Settled(places, places)
  {
  }

  lemma LateCall(late: map<nat, Conn>, calls: map<nat, Call>, places: map<Conn, Place>, c: nat, k: Call)
    requires LateExactly(late, calls, places) && (c in calls && Over(calls[c].stage) ==> Over(k.stage))
    ensures LateExactly(late, calls[c := k], places)
  {
  }

  lemma LineCall(listed: map<nat, Line>, calls: map<nat, Call>, c: nat, k: Call)
    requires LinesTrue(listed, calls) && (LineTrue(listed, c, k) || (c in calls && k.stage == calls[c].stage))
    ensures LinesTrue(listed, calls[c := k])
  {
  }

  /** Before its listing is over a call has none on record. */
  lemma NotListed(listed: map<nat, Line>, calls: map<nat, Call>, c: nat)
    requires LinesTrue(listed, calls) && (c in calls ==> !Over(calls[c].stage))
    ensures c !in listed
  {
    if c in calls { assert LineTrue(listed, c, calls[c]); }
  }

  lemma LatePlace(late: map<nat, Conn>, calls: map<nat, Call>, places: map<Conn, Place>, p: Conn, to: Place)
    requires LateExactly(late, calls, places) && (p in places ==> !places[p].Orphaned?) && !to.Orphaned?
    ensures LateExactly(late, calls, places[p := to])
  {
  }

  // ----- Moves of a process -----

  /** A call takes its agent's parked process. */
  lemma TakeWarm(calls: map<nat, Call>, warm: map<AgentID, Warm>, places: map<Conn, Place>, stopping: set<Conn>, c: nat, k: Call)
    requires UsedExactly(calls, places) && ParkedExactly(warm, places) && StoppingExactly(stopping, places) && NoneBeside(calls, warm)
    requires c in calls && !calls[c].stage.Using? && k.agent == calls[c].agent && k.agent in warm
    requires k.stage == Using(Some(warm[k.agent].conn), false)
    ensures var p := warm[k.agent].conn; var now := places[p := InUse(c)];
      && p in places && places[p].Parked?
      && UsedExactly(calls[c := k], now) && ParkedExactly(Minus(warm, k.agent), now) && StoppingExactly(stopping, now)
      && NoneBeside(calls[c := k], Minus(warm, k.agent))
  {
  }

  /** A call finds no process parked, or lost the one it had, and goes on without. */
  lemma TakeNone(calls: map<nat, Call>, warm: map<AgentID, Warm>, places: map<Conn, Place>, c: nat, k: Call)
    requires UsedExactly(calls, places) && NoneBeside(calls, warm) && c in calls
    requires !calls[c].stage.Using? && k.agent == calls[c].agent && k.agent !in warm && k.stage == Using(None, false)
    ensures UsedExactly(calls[c := k], places) && NoneBeside(calls[c := k], warm)
  {
  }

  /** A call gives up the process it uses. */
  lemma GiveBack(calls: map<nat, Call>, warm: map<AgentID, Warm>, places: map<Conn, Place>, stopping: set<Conn>, c: nat, k: Call)
    requires UsedExactly(calls, places) && ParkedExactly(warm, places) && StoppingExactly(stopping, places) && NoneBeside(calls, warm)
    requires c in calls && calls[c].stage.Using? && calls[c].stage.conn.Some? && k.agent == calls[c].agent
    requires k.stage.Using? ==> k.stage.conn.None?
    ensures var p := calls[c].stage.conn.value; var now := places[p := Stopping];
      && p in places && places[p].InUse?
      && UsedExactly(calls[c := k], now) && ParkedExactly(warm, now) && StoppingExactly(stopping + {p}, now) && NoneBeside(calls[c := k], warm)
  {
  }

  /** A call parks the process it used: nothing is parked there yet. */
  lemma ParkBack(calls: map<nat, Call>, warm: map<AgentID, Warm>, places: map<Conn, Place>, stopping: set<Conn>, c: nat, k: Call, at: int)
    requires UsedExactly(calls, places) && ParkedExactly(warm, places) && StoppingExactly(stopping, places) && NoneBeside(calls, warm)
    requires c in calls && calls[c].stage.Using? && calls[c].stage.conn.Some? && k.agent == calls[c].agent && !k.stage.Using?
    requires forall d | d in calls && d != c && calls[d].agent == k.agent :: !calls[d].stage.Using?
    ensures k.agent !in warm
    ensures var p := calls[c].stage.conn.value; var now, parked := places[p := Parked(k.agent)], warm[k.agent := Warm(p, at)];
      && p in places && places[p].InUse?
      && UsedExactly(calls[c := k], now) && ParkedExactly(parked, now) && StoppingExactly(stopping, now) && NoneBeside(calls[c := k], parked)
  {
  }

  /** A call leaves the process it used running. */
  lemma LeaveRunning(calls: map<nat, Call>, warm: map<AgentID, Warm>, places: map<Conn, Place>, stopping: set<Conn>, late: map<nat, Conn>,
                     c: nat, k: Call)
    requires UsedExactly(calls, places) && ParkedExactly(warm, places) && StoppingExactly(stopping, places) && NoneBeside(calls, warm)
    requires LateExactly(late, calls, places)
    requires c in calls && calls[c].stage.Using? && calls[c].stage.conn.Some? && k.agent == calls[c].agent && Over(k.stage)
    ensures var p := calls[c].stage.conn.value; var now := places[p := Orphaned(c)];
      && p in places && places[p].InUse?
      && UsedExactly(calls[c := k], now) && ParkedExactly(warm, now) && StoppingExactly(stopping, now) && NoneBeside(calls[c := k], warm)
      && LateExactly(late[c := p], calls[c := k], now)
  {
  }

  lemma StartProcess(calls: map<nat, Call>, warm: map<AgentID, Warm>, places: map<Conn, Place>, stopping: set<Conn>, c: nat, k: Call, p: Conn)
    requires UsedExactly(calls, places) && ParkedExactly(warm, places) && StoppingExactly(stopping, places) && NoneBeside(calls, warm)
    requires c in calls && calls[c].stage == Using(None, false) && k.agent == calls[c].agent && k.stage == Using(Some(p), false) && p !in places
    ensures var now := places[p := InUse(c)];
      UsedExactly(calls[c := k], now) && ParkedExactly(warm, now) && StoppingExactly(stopping, now) && NoneBeside(calls[c := k], warm)
  {
  }

  /** A parked process is taken away to be stopped. */
  lemma Evict(calls: map<nat, Call>, warm: map<AgentID, Warm>, places: map<Conn, Place>, stopping: set<Conn>, a: AgentID)
    requires UsedExactly(calls, places) && ParkedExactly(warm, places) && StoppingExactly(stopping, places) && NoneBeside(calls, warm)
    requires a in warm
    ensures var p := warm[a].conn; var now := places[p := Stopping];
      && p in places && places[p].Parked?
      && UsedExactly(calls, now) && ParkedExactly(Minus(warm, a), now) && StoppingExactly(stopping + {p}, now) && NoneBeside(calls, Minus(warm, a))
  {
  }

  lemma StopEnds(calls: map<nat, Call>, warm: map<AgentID, Warm>, places: map<Conn, Place>, stopping: set<Conn>, p: Conn)
    requires UsedExactly(calls, places) && ParkedExactly(warm, places) && StoppingExactly(stopping, places) && p in stopping
    ensures p in places && places[p].Stopping?
    ensures var now := places[p := Gone]; UsedExactly(calls, now) && ParkedExactly(warm, now) && StoppingExactly(stopping - {p}, now)
  {
  }

  /** An admitted call's process is the only one its agent's listings use. */
  lemma OnlyUser(pending: map<AgentID, nat>, calls: map<nat, Call>, next: nat, c: nat)
    requires CallsSound(pending, calls, next) && c in calls && calls[c].stage.Using?
    ensures forall d | d in calls && d != c && calls[d].agent == calls[c].agent :: !calls[d].stage.Using?
  {
    forall d | d in calls && d != c && calls[d].agent == calls[c].agent ensures !calls[d].stage.Using? {
      assert CallSound(pending, d, calls[d]) && CallSound(pending, c, calls[c]);
    }
  }

  lemma ClosedFewer(closed: bool, warm: map<AgentID, Warm>, a: AgentID)
    requires ClosedEmpty(closed, warm)
    ensures ClosedEmpty(closed, Minus(warm, a))
  {
  }

  /** A step that puts k for call c and leaves its line true. */
  lemma Lines(b: Books, c: nat, k: Call)
    requires LinesTrue(b.listed, b.calls)
    requires
      || (c in b.calls && k.stage == b.calls[c].stage)
      || (!Over(k.stage) && (c in b.calls ==> !Over(b.calls[c].stage)))
      || (Over(k.stage) && c in b.calls && Over(b.calls[c].stage) && k.stage.line == b.calls[c].stage.line)
      || (Over(k.stage) && c in b.calls && !Over(b.calls[c].stage) && k.stage.line == Failure)
    ensures LinesTrue(b.listed, b.calls[c := k])
  {
    if c in b.calls { assert LineTrue(b.listed, c, b.calls[c]); }
    if c !in b.calls || !Over(b.calls[c].stage) { NotListed(b.listed, b.calls, c); }
    LineCall(b.listed, b.calls, c, k);
  }

  // ----- Steps -----

  /** A requester joins a new call for its agent. */
  function Begun(b: Books, a: AgentID): Books {
    b.(pending := b.pending[a := b.next], calls := b.calls[b.next := Call(a, 1, false, false, Waiting)], next := b.next + 1)
  }

  lemma BegunSound(b: Books, a: AgentID)
    requires Sound(b) && a !in b.pending
    ensures Sound(Begun(b, a)) && Lasting(b.calls, Begun(b, a).calls)
  {
    hide CallsSound, SlotsSound, InSlots, UsedExactly, ParkedExactly, StoppingExactly, LateExactly, LinesTrue, NoneBeside, ClosedEmpty, Numbered, Lasting, Minus;
    var k := Call(a, 1, false, false, Waiting);
    NewCall(b.pending, b.calls, b.next, a);
    SlotUnclaimed(b.holders, b.calls, b.next, k);
    UsesNothing(b.calls, b.warm, b.places, b.next, k);
    LastingCall(b.calls, b.next, k);
    LateCall(b.late, b.calls, b.places, b.next, k);
    Lines(b, b.next, k);
  }

  /** Another requester joins the agent's call. */
  function Joined(b: Books, c: nat): Books
    requires c in b.calls
  {
    b.(calls := b.calls[c := b.calls[c].(waiters := b.calls[c].waiters + 1)])
  }

  lemma JoinedSound(b: Books, a: AgentID)
    requires Sound(b) && a in b.pending
    ensures var c := b.pending[a];
      c in b.calls && b.calls[c].agent == a && !b.calls[c].stage.Done? && Sound(Joined(b, c)) && Lasting(b.calls, Joined(b, c).calls)
  {
    hide CallsSound, SlotsSound, InSlots, UsedExactly, ParkedExactly, StoppingExactly, LateExactly, LinesTrue, NoneBeside, ClosedEmpty, Numbered, Lasting, Minus;
    PendingCall(b.pending, b.calls, b.next, a);
    var c := b.pending[a];
    var k := b.calls[c].(waiters := b.calls[c].waiters + 1);
    PutCall(b.pending, b.calls, b.next, c, k);
    SlotKept(b.holders, b.calls, c, k);
    SameUse(b.calls, b.warm, b.places, c, k);
    LastingCall(b.calls, c, k);
    LateCall(b.late, b.calls, b.places, c, k);
    Lines(b, c, k);
  }

  lemma PendingCall(pending: map<AgentID, nat>, calls: map<nat, Call>, next: nat, a: AgentID)
    requires CallsSound(pending, calls, next) && a in pending
    ensures pending[a] in calls && calls[pending[a]].agent == a && CallSound(pending, pending[a], calls[pending[a]])
  {
  }

  lemma ThatCall(pending: map<AgentID, nat>, calls: map<nat, Call>, next: nat, c: nat)
    requires CallsSound(pending, calls, next) && c in calls
    ensures CallSound(pending, c, calls[c])
  {
  }

  lemma SameUse(calls: map<nat, Call>, warm: map<AgentID, Warm>, places: map<Conn, Place>, c: nat, k: Call)
    requires UsedExactly(calls, places) && NoneBeside(calls, warm) && c in calls && k.agent == calls[c].agent
    requires k.stage == calls[c].stage || (k.stage.Using? && calls[c].stage.Using? && k.stage.conn == calls[c].stage.conn)
    ensures UsedExactly(calls[c := k], places) && NoneBeside(calls[c := k], warm)
  {
  }

  /** A requester leaves; the last to leave a call that was not admitted takes it back. */
  function Released(b: Books, c: nat): Books
    requires c in b.calls
  {
    var k := b.calls[c].(waiters := b.calls[c].waiters - 1);
    if k.waiters == 0 && !k.started then
      b.(calls := b.calls[c := k.(cancelled := true)], pending := if Current(b.pending, c, k) then Minus(b.pending, k.agent) else b.pending)
    else b.(calls := b.calls[c := k])
  }

  lemma ReleasedSound(b: Books, c: nat)
    requires Sound(b) && c in b.calls && b.calls[c].waiters > 0
    ensures Sound(Released(b, c)) && Lasting(b.calls, Released(b, c).calls)
  {
    hide CallsSound, SlotsSound, InSlots, UsedExactly, ParkedExactly, StoppingExactly, LateExactly, LinesTrue, NoneBeside, ClosedEmpty, Numbered, Lasting, Minus;
    ThatCall(b.pending, b.calls, b.next, c);
    var k := b.calls[c].(waiters := b.calls[c].waiters - 1);
    if k.waiters == 0 && !k.started {
      var left := k.(cancelled := true);
      if Current(b.pending, c, k) {
        NoLonger(b.pending, c, left);
        Forget(b.pending, b.calls, b.next, c, left);
      } else {
        PutCall(b.pending, b.calls, b.next, c, left);
      }
      SlotKept(b.holders, b.calls, c, left);
      SameUse(b.calls, b.warm, b.places, c, left);
      LastingCall(b.calls, c, left);
      LateCall(b.late, b.calls, b.places, c, left);
      Lines(b, c, left);
    } else {
      PutCall(b.pending, b.calls, b.next, c, k);
      SlotKept(b.holders, b.calls, c, k);
      SameUse(b.calls, b.warm, b.places, c, k);
      LastingCall(b.calls, c, k);
      LateCall(b.late, b.calls, b.places, c, k);
      Lines(b, c, k);
    }
  }

  lemma NoLonger(pending: map<AgentID, nat>, c: nat, k: Call)
    ensures !Current(Minus(pending, k.agent), c, k)
  {
  }

  /** A call that moves on without touching slots, processes or what is current. */
  function Moves(b: Books, c: nat, k: Call): Books {
    b.(calls := b.calls[c := k])
  }

  lemma GivenUpSound(b: Books, c: nat)
    requires Sound(b) && c in b.calls && b.calls[c].stage.Waiting? && b.calls[c].cancelled
    ensures var k := b.calls[c].(stage := Finishing(Failure)); Sound(Moves(b, c, k)) && Lasting(b.calls, b.calls[c := k])
  {
    hide CallsSound, SlotsSound, InSlots, UsedExactly, ParkedExactly, StoppingExactly, LateExactly, LinesTrue, NoneBeside, ClosedEmpty, Numbered, Lasting, Minus;
    ThatCall(b.pending, b.calls, b.next, c);
    var k := b.calls[c].(stage := Finishing(Failure));
    PutCall(b.pending, b.calls, b.next, c, k);
    SlotKept(b.holders, b.calls, c, k);
    UsesNothing(b.calls, b.warm, b.places, c, k);
    LastingCall(b.calls, c, k);
    LateCall(b.late, b.calls, b.places, c, k);
    Lines(b, c, k);
  }

  /** A waiting call gets a slot. */
  function Held(b: Books, c: nat): Books
    requires c in b.calls
  {
    b.(calls := b.calls[c := b.calls[c].(stage := Holding)], slots := b.slots + 1, holders := b.holders + {c})
  }

  lemma HeldSound(b: Books, c: nat)
    requires Sound(b) && c in b.calls && b.calls[c].stage.Waiting? && b.slots < MAX_CONCURRENT_AGENTS
    ensures Sound(Held(b, c)) && Lasting(b.calls, Held(b, c).calls)
  {
    hide CallsSound, SlotsSound, InSlots, UsedExactly, ParkedExactly, StoppingExactly, LateExactly, LinesTrue, NoneBeside, ClosedEmpty, Numbered, Lasting, Minus;
    ThatCall(b.pending, b.calls, b.next, c);
    var k := b.calls[c].(stage := Holding);
    PutCall(b.pending, b.calls, b.next, c, k);
    SlotTaken(b.holders, b.calls, c, k);
    UsesNothing(b.calls, b.warm, b.places, c, k);
    LastingCall(b.calls, c, k);
    LateCall(b.late, b.calls, b.places, c, k);
    Lines(b, c, k);
  }

  /** A call with a slot gives it back and goes on to finish. */
  function Freed(b: Books, c: nat, line: Line): Books
    requires c in b.calls
  {
    b.(calls := b.calls[c := b.calls[c].(stage := Finishing(line))], slots := b.slots - 1, holders := b.holders - {c})
  }

  lemma FreedSound(b: Books, c: nat, line: Line)
    requires Sound(b) && c in b.calls && ((b.calls[c].stage.Holding? && line == Failure) || b.calls[c].stage == Listed(line))
    ensures Sound(Freed(b, c, line)) && Lasting(b.calls, Freed(b, c, line).calls)
  {
    hide CallsSound, SlotsSound, InSlots, UsedExactly, ParkedExactly, StoppingExactly, LateExactly, LinesTrue, NoneBeside, ClosedEmpty, Numbered, Lasting, Minus;
    ThatCall(b.pending, b.calls, b.next, c);
    var k := b.calls[c].(stage := Finishing(line));
    PutCall(b.pending, b.calls, b.next, c, k);
    SlotFreed(b.holders, b.calls, c, k);
    UsesNothing(b.calls, b.warm, b.places, c, k);
    LastingCall(b.calls, c, k);
    LateCall(b.late, b.calls, b.places, c, k);
    Lines(b, c, k);
  }

  /** A call with a slot is admitted: its agent's only one from here on, and still wanted. */
  function Admitted(b: Books, c: nat): Books
    requires c in b.calls
  {
    b.(calls := b.calls[c := b.calls[c].(started := true, stage := Running)])
  }

  lemma AdmittedSound(b: Books, c: nat)
    requires Sound(b) && c in b.calls && b.calls[c].stage.Holding? && !b.calls[c].cancelled && b.calls[c].waiters > 0
    ensures Sound(Admitted(b, c)) && Lasting(b.calls, Admitted(b, c).calls)
  {
    hide CallsSound, SlotsSound, InSlots, UsedExactly, ParkedExactly, StoppingExactly, LateExactly, LinesTrue, NoneBeside, ClosedEmpty, Numbered, Lasting, Minus;
    ThatCall(b.pending, b.calls, b.next, c);
    var k := b.calls[c].(started := true, stage := Running);
    PutCall(b.pending, b.calls, b.next, c, k);
    SlotKept(b.holders, b.calls, c, k);
    UsesNothing(b.calls, b.warm, b.places, c, k);
    LastingCall(b.calls, c, k);
    LateCall(b.late, b.calls, b.places, c, k);
    Lines(b, c, k);
  }

  // ----- Steps of an admitted call -----

  /** Takes the agent's parked process, if any. */
  function Took(b: Books, c: nat): Books
    requires c in b.calls
  {
    var k := b.calls[c];
    if k.agent in b.warm then
      var p := b.warm[k.agent].conn;
      b.(calls := b.calls[c := k.(stage := Using(Some(p), false))], warm := Minus(b.warm, k.agent), places := b.places[p := InUse(c)])
    else b.(calls := b.calls[c := k.(stage := Using(None, false))])
  }

  lemma TookSound(b: Books, c: nat)
    requires Sound(b) && c in b.calls && b.calls[c].stage.Running?
    ensures Sound(Took(b, c)) && Lasting(b.calls, Took(b, c).calls) && Settled(b.places, Took(b, c).places)
  {
    hide CallsSound, SlotsSound, InSlots, UsedExactly, ParkedExactly, StoppingExactly, LateExactly, LinesTrue, NoneBeside, ClosedEmpty, Numbered, Lasting, Minus;
    hide Settled;
    ThatCall(b.pending, b.calls, b.next, c);
    var a := b.calls[c].agent;
    var k := b.calls[c].(stage := Using(if a in b.warm then Some(b.warm[a].conn) else None, false));
    PutCall(b.pending, b.calls, b.next, c, k);
    SlotKept(b.holders, b.calls, c, k);
    LastingCall(b.calls, c, k);
    LateCall(b.late, b.calls, b.places, c, k);
    Lines(b, c, k);
    if a in b.warm {
      TakeWarm(b.calls, b.warm, b.places, b.stopping, c, k);
      StaysNumbered(b.places, b.conns, b.warm[a].conn, InUse(c));
      LatePlace(b.late, b.calls[c := k], b.places, b.warm[a].conn, InUse(c));
      ClosedFewer(b.closed, b.warm, a);
    } else {
      TakeNone(b.calls, b.warm, b.places, c, k);
      Unmoved(b.places);
    }
  }

  lemma StaysNumbered(places: map<Conn, Place>, conns: nat, p: Conn, to: Place)
    requires Numbered(places, conns) && p in places && !places[p].Gone? && !places[p].Orphaned?
    ensures Numbered(places[p := to], conns) && Settled(places, places[p := to])
  {
  }

  /** The call's process turned out dead or failed: it is stopped in the background. */
  function Lost(b: Books, c: nat, p: Conn, stage: Stage): Books
    requires c in b.calls
  {
    b.(calls := b.calls[c := b.calls[c].(stage := stage)], stopping := b.stopping + {p}, places := b.places[p := Stopping])
  }

  lemma LostSound(b: Books, c: nat, p: Conn, stage: Stage)
    requires Sound(b) && c in b.calls && b.calls[c].stage.Using? && b.calls[c].stage.conn == Some(p) && (stage == Using(None, false) || stage == Listed(Failure))
    ensures Sound(Lost(b, c, p, stage)) && Lasting(b.calls, Lost(b, c, p, stage).calls) && Settled(b.places, Lost(b, c, p, stage).places)
  {
    hide CallsSound, SlotsSound, InSlots, UsedExactly, ParkedExactly, StoppingExactly, LateExactly, LinesTrue, NoneBeside, ClosedEmpty, Numbered, Lasting, Minus;
    hide Settled;
    ThatCall(b.pending, b.calls, b.next, c);
    var k := b.calls[c].(stage := stage);
    PutCall(b.pending, b.calls, b.next, c, k);
    SlotKept(b.holders, b.calls, c, k);
    LastingCall(b.calls, c, k);
    LateCall(b.late, b.calls, b.places, c, k);
    Lines(b, c, k);
    GiveBack(b.calls, b.warm, b.places, b.stopping, c, k);
    StaysNumbered(b.places, b.conns, p, Stopping);
    LatePlace(b.late, b.calls[c := k], b.places, p, Stopping);
  }

  /** Once the lister is closed the process of a full listing is stopped, too; the listing stands. */
  function ListedClosed(b: Books, c: nat, p: Conn, line: Line): Books
    requires c in b.calls
  {
    Lost(b, c, p, Listed(line)).(listed := b.listed[c := line])
  }

  lemma ListedClosedSound(b: Books, c: nat, p: Conn, line: Line)
    requires Sound(b) && c in b.calls && b.calls[c].stage.Using? && b.calls[c].stage.conn == Some(p)
    ensures var t := ListedClosed(b, c, p, line); Sound(t) && Lasting(b.calls, t.calls) && Settled(b.places, t.places)
  {
    hide CallsSound, SlotsSound, InSlots, UsedExactly, ParkedExactly, StoppingExactly, LateExactly, LinesTrue, NoneBeside, ClosedEmpty, Numbered, Lasting;
    hide Settled, Minus;
    ThatCall(b.pending, b.calls, b.next, c);
    var k := b.calls[c].(stage := Listed(line));
    PutCall(b.pending, b.calls, b.next, c, k);
    SlotKept(b.holders, b.calls, c, k);
    LastingCall(b.calls, c, k);
    LateCall(b.late, b.calls, b.places, c, k);
    LineSet(b.listed, b.calls, c, k);
    GiveBack(b.calls, b.warm, b.places, b.stopping, c, k);
    StaysNumbered(b.places, b.conns, p, Stopping);
    LatePlace(b.late, b.calls[c := k], b.places, p, Stopping);
  }

  lemma LineSet(listed: map<nat, Line>, calls: map<nat, Call>, c: nat, k: Call)
    requires LinesTrue(listed, calls) && c in calls && k.stage.Listed?
    ensures LinesTrue(listed[c := k.stage.line], calls[c := k])
  {
    forall d | d in calls && d != c ensures LineTrue(listed[c := k.stage.line], d, calls[d]) { assert LineTrue(listed, d, calls[d]); }
  }

  function StartedProcess(b: Books, c: nat): Books
    requires c in b.calls
  {
    var p := Conn(b.conns);
    b.(calls := b.calls[c := b.calls[c].(stage := Using(Some(p), false))], conns := b.conns + 1, places := b.places[p := InUse(c)])
  }

  /**
  The listing succeeded, and only then is the context looked at: when it ended meanwhile, the call fails and forgets
  its process, which goes on running.
  */
  function Judged(b: Books, c: nat, p: Conn, ended: bool): Books
    requires c in b.calls
  {
    var k := b.calls[c];
    if ended then
      b.(calls := b.calls[c := k.(stage := Listed(Failure))], places := b.places[p := Orphaned(c)], late := b.late[c := p])
    else b.(calls := b.calls[c := k.(stage := Using(Some(p), true))])
  }

  lemma JudgedSound(b: Books, c: nat, p: Conn, ended: bool)
    requires Sound(b) && c in b.calls && b.calls[c].stage == Using(Some(p), false)
    ensures Sound(Judged(b, c, p, ended)) && Lasting(b.calls, Judged(b, c, p, ended).calls) && Settled(b.places, Judged(b, c, p, ended).places)
  {
    hide CallsSound, SlotsSound, InSlots, UsedExactly, ParkedExactly, StoppingExactly, LateExactly, LinesTrue, NoneBeside, ClosedEmpty, Numbered, Lasting, Minus;
    hide Settled;
    ThatCall(b.pending, b.calls, b.next, c);
    var k := b.calls[c].(stage := if ended then Listed(Failure) else Using(Some(p), true));
    PutCall(b.pending, b.calls, b.next, c, k);
    SlotKept(b.holders, b.calls, c, k);
    LastingCall(b.calls, c, k);
    if ended {
      LeaveRunning(b.calls, b.warm, b.places, b.stopping, b.late, c, k);
      Lines(b, c, k);
      StaysNumbered(b.places, b.conns, p, Orphaned(c));
    } else {
      SameUse(b.calls, b.warm, b.places, c, k);
      LateCall(b.late, b.calls, b.places, c, k);
      Lines(b, c, k);
      Unmoved(b.places);
    }
  }

  lemma StartedSound(b: Books, c: nat)
    requires Sound(b) && c in b.calls && b.calls[c].stage == Using(None, false)
    ensures Conn(b.conns) !in b.places && Sound(StartedProcess(b, c))
    ensures Lasting(b.calls, StartedProcess(b, c).calls) && Settled(b.places, StartedProcess(b, c).places)
  {
    hide CallsSound, SlotsSound, InSlots, UsedExactly, ParkedExactly, StoppingExactly, LateExactly, LinesTrue, NoneBeside, ClosedEmpty, Numbered, Lasting, Minus;
    hide Settled;
    ThatCall(b.pending, b.calls, b.next, c);
    NewConn(b.places, b.conns);
    var p := Conn(b.conns);
    var k := b.calls[c].(stage := Using(Some(p), false));
    PutCall(b.pending, b.calls, b.next, c, k);
    SlotKept(b.holders, b.calls, c, k);
    LastingCall(b.calls, c, k);
    LateCall(b.late, b.calls, b.places, c, k);
    Lines(b, c, k);
    StartProcess(b.calls, b.warm, b.places, b.stopping, c, k, p);
    Moved(b.places, b.conns, p, InUse(c));
    LatePlace(b.late, b.calls[c := k], b.places, p, InUse(c));
  }

  lemma NewConn(places: map<Conn, Place>, conns: nat)
    requires Numbered(places, conns)
    ensures Conn(conns) !in places
  {
  }

  lemma NoProcessSound(b: Books, c: nat)
    requires Sound(b) && c in b.calls && b.calls[c].stage == Using(None, false)
    ensures var k := b.calls[c].(stage := Listed(Failure)); Sound(Moves(b, c, k)) && Lasting(b.calls, b.calls[c := k])
  {
    hide CallsSound, SlotsSound, InSlots, UsedExactly, ParkedExactly, StoppingExactly, LateExactly, LinesTrue, NoneBeside, ClosedEmpty, Numbered, Lasting, Minus;
    ThatCall(b.pending, b.calls, b.next, c);
    var k := b.calls[c].(stage := Listed(Failure));
    PutCall(b.pending, b.calls, b.next, c, k);
    SlotKept(b.holders, b.calls, c, k);
    UsesNothing(b.calls, b.warm, b.places, c, k);
    LastingCall(b.calls, c, k);
    LateCall(b.late, b.calls, b.places, c, k);
    Lines(b, c, k);
  }

  /** The call's process is parked for the agent's next listing. */
  function Kept(b: Books, c: nat, p: Conn, line: Line, at: int): Books
    requires c in b.calls
  {
    var k := b.calls[c];
    b.(calls := b.calls[c := k.(stage := Listed(line))], warm := b.warm[k.agent := Warm(p, at)], places := b.places[p := Parked(k.agent)],
       listed := b.listed[c := line])
  }

  /** Parking never overwrites a parked process. */
  lemma KeptSound(b: Books, c: nat, p: Conn, line: Line, at: int)
    requires Sound(b) && c in b.calls && b.calls[c].stage == Using(Some(p), true) && !b.closed
    ensures b.calls[c].agent !in b.warm
    ensures Sound(Kept(b, c, p, line, at)) && Lasting(b.calls, Kept(b, c, p, line, at).calls) && Settled(b.places, Kept(b, c, p, line, at).places)
  {
    hide CallsSound, SlotsSound, InSlots, UsedExactly, ParkedExactly, StoppingExactly, LateExactly, LinesTrue, NoneBeside, ClosedEmpty, Numbered, Lasting, Minus;
    hide Settled;
    ThatCall(b.pending, b.calls, b.next, c);
    var k := b.calls[c].(stage := Listed(line));
    PutCall(b.pending, b.calls, b.next, c, k);
    SlotKept(b.holders, b.calls, c, k);
    LastingCall(b.calls, c, k);
    LateCall(b.late, b.calls, b.places, c, k);
    LineSet(b.listed, b.calls, c, k);
    OnlyUser(b.pending, b.calls, b.next, c);
    ParkBack(b.calls, b.warm, b.places, b.stopping, c, k, at);
    StaysNumbered(b.places, b.conns, p, Parked(k.agent));
    LatePlace(b.late, b.calls[c := k], b.places, p, Parked(k.agent));
    StillOpen(b.warm[k.agent := Warm(p, at)]);
  }

  lemma StillOpen(warm: map<AgentID, Warm>)
    ensures ClosedEmpty(false, warm)
  {
  }

  /** The call is done: its line is set, and it is no longer its agent's call. */
  function Completed(b: Books, c: nat, line: Line): Books
    requires c in b.calls
  {
    var k := b.calls[c];
    b.(calls := b.calls[c := k.(stage := Done(line))], pending := if Current(b.pending, c, k) then Minus(b.pending, k.agent) else b.pending)
  }

  lemma CompletedSound(b: Books, c: nat, line: Line)
    requires Sound(b) && c in b.calls && b.calls[c].stage == Finishing(line)
    ensures Sound(Completed(b, c, line)) && Lasting(b.calls, Completed(b, c, line).calls)
  {
    hide CallsSound, SlotsSound, InSlots, UsedExactly, ParkedExactly, StoppingExactly, LateExactly, LinesTrue, NoneBeside, ClosedEmpty, Numbered, Lasting, Minus;
    ThatCall(b.pending, b.calls, b.next, c);
    var k := b.calls[c].(stage := Done(line));
    if Current(b.pending, c, b.calls[c]) {
      NoLonger(b.pending, c, k);
      Forget(b.pending, b.calls, b.next, c, k);
    } else {
      PutCall(b.pending, b.calls, b.next, c, k);
    }
    SlotKept(b.holders, b.calls, c, k);
    UsesNothing(b.calls, b.warm, b.places, c, k);
    LastingCall(b.calls, c, k);
    LateCall(b.late, b.calls, b.places, c, k);
    Lines(b, c, k);
  }

  // ----- Steps beside the calls -----

  function Evicted(b: Books, a: AgentID): Books
    requires a in b.warm
  {
    var p := b.warm[a].conn;
    b.(warm := Minus(b.warm, a), stopping := b.stopping + {p}, places := b.places[p := Stopping])
  }

  lemma EvictedSound(b: Books, a: AgentID)
    requires Sound(b) && a in b.warm
    ensures Sound(Evicted(b, a)) && Settled(b.places, Evicted(b, a).places)
  {
    hide CallsSound, SlotsSound, InSlots, UsedExactly, ParkedExactly, StoppingExactly, LateExactly, LinesTrue, NoneBeside, ClosedEmpty, Numbered, Lasting, Minus;
    hide Settled;
    Evict(b.calls, b.warm, b.places, b.stopping, a);
    StaysNumbered(b.places, b.conns, b.warm[a].conn, Stopping);
    LatePlace(b.late, b.calls, b.places, b.warm[a].conn, Stopping);
    ClosedFewer(b.closed, b.warm, a);
  }

  lemma StoppedSound(b: Books, p: Conn)
    requires Sound(b) && p in b.stopping
    ensures p in b.places && Settled(b.places, b.places[p := Gone])
    ensures Sound(b.(stopping := b.stopping - {p}, places := b.places[p := Gone]))
  {
    hide CallsSound, SlotsSound, InSlots, UsedExactly, ParkedExactly, StoppingExactly, LateExactly, LinesTrue, NoneBeside, ClosedEmpty, Numbered, Lasting, Minus;
    hide Settled;
    StopEnds(b.calls, b.warm, b.places, b.stopping, p);
    StaysNumbered(b.places, b.conns, p, Gone);
    LatePlace(b.late, b.calls, b.places, p, Gone);
  }

  /** Every outstanding call is cancelled. */
  function AllCancelled(pending: map<AgentID, nat>, calls: map<nat, Call>): map<nat, Call> {
    map c | c in calls :: if Current(pending, c, calls[c]) then calls[c].(cancelled := true) else calls[c]
  }

  lemma CancelCalls(pending: map<AgentID, nat>, calls: map<nat, Call>, next: nat)
    requires CallsSound(pending, calls, next)
    ensures CallsSound(pending, AllCancelled(pending, calls), next) && Lasting(calls, AllCancelled(pending, calls))
  {
    forall c | c in calls ensures CallSound(pending, c, AllCancelled(pending, calls)[c]) { assert CallSound(pending, c, calls[c]); }
  }

  lemma CancelOthers(pending: map<AgentID, nat>, calls: map<nat, Call>, holders: set<nat>, warm: map<AgentID, Warm>, places: map<Conn, Place>)
    requires SlotsSound(holders, calls) && UsedExactly(calls, places) && NoneBeside(calls, warm)
    ensures SlotsSound(holders, AllCancelled(pending, calls)) && UsedExactly(AllCancelled(pending, calls), places)
    ensures NoneBeside(AllCancelled(pending, calls), warm)
  {
  }

  lemma LinesCancelled(listed: map<nat, Line>, pending: map<AgentID, nat>, calls: map<nat, Call>)
    requires LinesTrue(listed, calls)
    ensures LinesTrue(listed, AllCancelled(pending, calls))
  {
    forall c | c in calls ensures LineTrue(listed, c, AllCancelled(pending, calls)[c]) { assert LineTrue(listed, c, calls[c]); }
  }

  lemma LateCancelled(late: map<nat, Conn>, pending: map<AgentID, nat>, calls: map<nat, Call>, places: map<Conn, Place>)
    requires LateExactly(late, calls, places)
    ensures LateExactly(late, AllCancelled(pending, calls), places)
  {
  }

  lemma CancelledSound(b: Books)
    requires Sound(b) && b.warm == map[]
    ensures Sound(b.(closed := true, calls := AllCancelled(b.pending, b.calls))) && Lasting(b.calls, AllCancelled(b.pending, b.calls))
  {
    hide CallsSound, SlotsSound, InSlots, UsedExactly, ParkedExactly, StoppingExactly, LateExactly, LinesTrue, NoneBeside, ClosedEmpty, Numbered, Lasting, Minus;
    hide AllCancelled;
    CancelCalls(b.pending, b.calls, b.next);
    CancelOthers(b.pending, b.calls, b.holders, b.warm, b.places);
    LateCancelled(b.late, b.pending, b.calls, b.places);
    LinesCancelled(b.listed, b.pending, b.calls);
    NothingParked();
  }

  /** The parked processes of gone are taken away to be stopped. */
  ghost function Without(b: Books, gone: set<AgentID>): Books
    requires gone <= b.warm.Keys
  {
    var out := set a | a in gone :: b.warm[a].conn;
    b.(warm := b.warm - gone, stopping := b.stopping + out, places := map p | p in b.places :: if p in out then Stopping else b.places[p])
  }

  lemma WithoutNone(b: Books)
    ensures Without(b, {}) == b
  {
    assert b.places == map p | p in b.places :: b.places[p];
  }

  lemma WithoutNext(b: Books, gone: set<AgentID>, a: AgentID)
    requires ParkedExactly(b.warm, b.places) && gone <= b.warm.Keys && a in b.warm.Keys - gone
    ensures Evicted(Without(b, gone), a) == Without(b, gone + {a})
  {
    var was, now := Without(b, gone), Without(b, gone + {a});
    assert Minus(was.warm, a) == now.warm;
    assert now.stopping == was.stopping + {b.warm[a].conn};
    assert now.places == was.places[b.warm[a].conn := Stopping];
  }

  lemma ParkedOf(b: Books)
    requires Sound(b)
    ensures ParkedExactly(b.warm, b.places)
  {
    hide CallsSound, SlotsSound, InSlots, UsedExactly, StoppingExactly, LateExactly, LinesTrue, NoneBeside, ClosedEmpty, Numbered;
  }

  /** Every outstanding call is cancelled and every parked process taken away. */
  ghost function Closing(b: Books): Books {
    Without(b, b.warm.Keys).(closed := true, calls := AllCancelled(b.pending, b.calls))
  }

  lemma NothingParked()
    ensures ClosedEmpty(true, map[])
  {
  }

  /**
  When Close returns it saw every call done and every stop through. Every process is gone then, or was left running by
  a late call; so all are gone if and only if no successful listing found its context ended.
  */
  lemma CloseReturned(b: Books)
    requires Sound(b) && b.closed && b.stopping == {} && forall c | c in b.calls :: b.calls[c].stage.Done?
    ensures b.pending == map[] && b.slots == 0 && b.warm == map[]
    ensures forall p | p in b.places :: b.places[p].Gone? || (b.places[p].Orphaned? && b.places[p].call in b.late)
    ensures (forall p | p in b.places :: b.places[p].Gone?) <==> b.late == map[]
  {
    if c :| c in b.late { assert b.late[c] in b.places && b.places[b.late[c]].Orphaned?; }
    forall a ensures a !in b.pending {
      if a in b.pending { PendingCall(b.pending, b.calls, b.next, a); }
    }
    assert b.holders == {};
  }

  /** What a done call answers is the line its own full listing got, or a failure if it had none. */
  lemma DoneLine(b: Books, c: nat)
    requires Sound(b) && c in b.calls && b.calls[c].stage.Done?
    ensures b.calls[c].stage.line == if c in b.listed then b.listed[c] else Failure
  {
    hide CallsSound, SlotsSound, UsedExactly, ParkedExactly, StoppingExactly, LateExactly, NoneBeside, ClosedEmpty, Numbered;
    assert LineTrue(b.listed, c, b.calls[c]);
  }

  // ----- What the methods need to know -----

  lemma SameCalls(calls: map<nat, Call>)
    ensures Lasting(calls, calls)
  {
  }

  lemma FreshCall(b: Books)
    requires Sound(b)
    ensures b.next !in b.calls
  {
    hide SlotsSound, InSlots, UsedExactly, ParkedExactly, StoppingExactly, LateExactly, LinesTrue, NoneBeside, ClosedEmpty, Numbered;
  }

  lemma CallOf(b: Books, c: nat)
    requires Sound(b) && c in b.calls
    ensures b.calls[c].waiters >= 0
  {
    hide SlotsSound, InSlots, UsedExactly, ParkedExactly, StoppingExactly, LateExactly, LinesTrue, NoneBeside, ClosedEmpty, Numbered;
    ThatCall(b.pending, b.calls, b.next, c);
  }

  lemma PendingIn(b: Books, a: AgentID)
    requires Sound(b) && a in b.pending
    ensures b.pending[a] in b.calls && b.calls[b.pending[a]].agent == a && b.calls[b.pending[a]].waiters >= 0
  {
    hide SlotsSound, InSlots, UsedExactly, ParkedExactly, StoppingExactly, LateExactly, LinesTrue, NoneBeside, ClosedEmpty, Numbered;
    PendingCall(b.pending, b.calls, b.next, a);
  }

  lemma PendingCancelled(b: Books)
    requires Sound(b)
    ensures forall a | a in b.pending ::
      b.pending[a] in AllCancelled(b.pending, b.calls) && AllCancelled(b.pending, b.calls)[b.pending[a]].cancelled
  {
    hide SlotsSound, InSlots, UsedExactly, ParkedExactly, StoppingExactly, LateExactly, LinesTrue, NoneBeside, ClosedEmpty, Numbered;
    forall a | a in b.pending ensures b.pending[a] in b.calls {
      PendingCall(b.pending, b.calls, b.next, a);
    }
  }

  lemma MinusKeys<K, V>(m: map<K, V>, k: K)
    ensures Minus(m, k).Keys == m.Keys - {k}
  {
  }

  /** calls with every outstanding one cancelled but those of left. */
  function Cancelling(pending: map<AgentID, nat>, calls: map<nat, Call>, left: set<AgentID>): map<nat, Call> {
    map c | c in calls :: if Current(pending, c, calls[c]) && calls[c].agent !in left then calls[c].(cancelled := true) else calls[c]
  }

  lemma CancellingEnds(pending: map<AgentID, nat>, calls: map<nat, Call>)
    ensures Cancelling(pending, calls, pending.Keys) == calls
    ensures Cancelling(pending, calls, {}) == AllCancelled(pending, calls)
  {
  }

  lemma CancellingNext(pending: map<AgentID, nat>, calls: map<nat, Call>, left: set<AgentID>, a: AgentID)
    requires a in left && a in pending && pending[a] in calls && calls[pending[a]].agent == a
    ensures var c := pending[a]; var now := Cancelling(pending, calls, left);
      c in now && Cancelling(pending, calls, left - {a}) == now[c := now[c].(cancelled := true)]
  {
  }

  datatype Entered = Refused | FromCache(line: Line) | Waits(call: nat)

  class Lister {
    var closed: bool
    var pending: map<AgentID, nat>
    var calls: map<nat, Call>
    var next: nat
    var slots: int
    var cached: map<AgentID, Cached>
    var warm: map<AgentID, Warm>
    var conns: nat
    ghost var holders: set<nat>
    ghost var stopping: set<Conn>
    ghost var places: map<Conn, Place>
    ghost var late: map<nat, Conn>
    // What each call's full listing was.
    ghost var listed: map<nat, Line>

    ghost function Of(): Books
      reads this
    {
      Books(closed, pending, calls, next, slots, holders, warm, conns, stopping, places, late, listed)
    }

    ghost predicate Valid()
      reads this
    {
      Sound(Of())
    }

    constructor ()
      ensures Valid() && cached == map[] && Of() == Books(false, map[], map[], 0, 0, {}, map[], 0, {}, map[], map[], map[])
    {
      closed, pending, calls, next, slots := false, map[], map[], 0, 0;
      cached, warm, conns, holders, stopping, places, late, listed := map[], map[], 0, {}, {}, map[], map[], map[];
    }

    /** A requester is answered from the cache, or joins the agent's one call. */
    method Enter(a: AgentID, now: int) returns (entered: Entered)
      requires Valid()
      modifies this`pending, this`calls, this`next
      ensures Valid() && Lasting(old(calls), calls)
      ensures entered.Refused? <==> closed
      ensures entered.FromCache? ==> a in cached && entered.line == cached[a].line
      ensures !entered.Waits? ==> Of() == old(Of())
      ensures entered.FromCache? <==> !closed && a in cached && now - cached[a].at < CACHE_TTL
      ensures entered.Waits? ==> a in pending && pending[a] == entered.call && entered.call in calls
      ensures entered.Waits? && a in old(pending) ==> entered.call in old(calls) && Of() == Joined(old(Of()), entered.call)
      ensures entered.Waits? && a in old(pending) ==>
        calls == old(calls)[entered.call := old(calls)[entered.call].(waiters := old(calls)[entered.call].waiters + 1)] && pending == old(pending)
      ensures entered.Waits? && a !in old(pending) ==> entered.call !in old(calls) && Of() == Begun(old(Of()), a)
      ensures entered.Waits? && a !in old(pending) ==>
        calls == old(calls)[entered.call := Call(a, 1, false, false, Waiting)] && pending == old(pending)[a := entered.call]
    {
      hide Sound, Lasting;
      SameCalls(calls);
      if closed {
        return Refused;
      }
      if a in cached && now - cached[a].at < CACHE_TTL {
        return FromCache(cached[a].line);
      }
      if a !in pending {
        BegunSound(Of(), a);
        FreshCall(Of());
        calls := calls[next := Call(a, 1, false, false, Waiting)];
        pending := pending[a := next];
        next := next + 1;
        return Waits(next - 1);
      }
      JoinedSound(Of(), a);
      PendingIn(Of(), a);
      var c := pending[a];
      calls := calls[c := calls[c].(waiters := calls[c].waiters + 1)];
      return Waits(c);
    }

    /** A requester leaves, answered or not. */
    method Release(c: nat)
      requires Valid() && c in calls && calls[c].waiters > 0
      modifies this`pending, this`calls
      ensures Valid() && Lasting(old(calls), calls) && Of() == Released(old(Of()), c)
      ensures var k := old(calls)[c]; var last := k.waiters == 1 && !k.started;
        && calls == old(calls)[c := k.(waiters := k.waiters - 1, cancelled := k.cancelled || last)]
        && (forall a :: a in pending <==> a in old(pending) && !(last && a == k.agent && old(pending)[a] == c))
    {
      hide Sound, Lasting, Minus;
      ReleasedSound(Of(), c);
      var k := calls[c].(waiters := calls[c].waiters - 1);
      if k.waiters == 0 && !k.started {
        k := k.(cancelled := true);
        if k.agent in pending && pending[k.agent] == c {
          MinusKeys(pending, k.agent);
          pending := Minus(pending, k.agent);
        }
      }
      calls := calls[c := k];
    }

    method AcquireSlot(c: nat)
      requires Valid() && c in calls && calls[c].stage.Waiting? && slots < MAX_CONCURRENT_AGENTS
      modifies this`calls, this`slots, this`holders
      ensures Valid() && Lasting(old(calls), calls) && Of() == Held(old(Of()), c)
      ensures calls == old(calls)[c := old(calls)[c].(stage := Holding)] && slots == old(slots) + 1
    {
      hide Sound, Lasting;
      HeldSound(Of(), c);
      calls := calls[c := calls[c].(stage := Holding)];
      slots, holders := slots + 1, holders + {c};
    }

    /** A cancelled call stops waiting for a slot. */
    method GiveUp(c: nat)
      requires Valid() && c in calls && calls[c].stage.Waiting? && calls[c].cancelled
      modifies this`calls
      ensures Valid() && Lasting(old(calls), calls) && Of() == Moves(old(Of()), c, old(calls)[c].(stage := Finishing(Failure)))
    {
      hide Sound, Lasting;
      GivenUpSound(Of(), c);
      calls := calls[c := calls[c].(stage := Finishing(Failure))];
    }

    /** A call with a slot starts, unless it was cancelled, nobody waits for it, or the lister is closed. */
    method Admit(c: nat) returns (admitted: bool)
      requires Valid() && c in calls && calls[c].stage.Holding?
      modifies this`calls, this`slots, this`holders
      ensures Valid() && Lasting(old(calls), calls)
      ensures admitted <==> !old(calls)[c].cancelled && !closed && old(calls)[c].waiters != 0
      ensures Of() == if admitted then Admitted(old(Of()), c) else Freed(old(Of()), c, Failure)
      ensures calls == old(calls)[c := if admitted then old(calls)[c].(started := true, stage := Running)
                                       else old(calls)[c].(stage := Finishing(Failure))]
      ensures slots == if admitted then old(slots) else old(slots) - 1
    {
      hide Sound, Lasting;
      CallOf(Of(), c);
      if calls[c].cancelled || closed || calls[c].waiters == 0 {
        FreedSound(Of(), c, Failure);
        calls := calls[c := calls[c].(stage := Finishing(Failure))];
        slots, holders := slots - 1, holders - {c};
        return false;
      }
      AdmittedSound(Of(), c);
      calls := calls[c := calls[c].(started := true, stage := Running)];
      return true;
    }

    /** The call's goroutine takes the agent's parked process. */
    method Take(c: nat) returns (p: Option<Conn>)
      requires Valid() && c in calls && calls[c].stage.Running?
      modifies this`calls, this`warm, this`places
      ensures Valid() && Lasting(old(calls), calls) && Settled(old(places), places) && Of() == Took(old(Of()), c)
      ensures p == if calls[c].agent in old(warm) then Some(old(warm)[calls[c].agent].conn) else None
      ensures calls == old(calls)[c := old(calls)[c].(stage := Using(p, false))]
      ensures warm.Keys == old(warm).Keys - {calls[c].agent}
    {
      hide Sound, Lasting, Settled, Minus;
      TookSound(Of(), c);
      var k := calls[c];
      if k.agent in warm {
        p := Some(warm[k.agent].conn);
        places := places[p.value := InUse(c)];
        MinusKeys(warm, k.agent);
        warm := Minus(warm, k.agent);
      } else {
        p := None;
      }
      calls := calls[c := k.(stage := Using(p, false))];
    }

    /** The process a call has is dead, does not initialize or fails to list: it is stopped in the background. */
    method Discard(c: nat, p: Conn, failed: bool)
      requires Valid() && c in calls && calls[c].stage == Using(Some(p), false)
      modifies this`calls, this`stopping, this`places
      ensures Valid() && Lasting(old(calls), calls) && Settled(old(places), places)
      ensures Of() == Lost(old(Of()), c, p, if failed then Listed(Failure) else Using(None, false))
      ensures calls == old(calls)[c := old(calls)[c].(stage := if failed then Listed(Failure) else Using(None, false))]
      ensures stopping == old(stopping) + {p}
    {
      hide Sound, Lasting, Settled;
      LostSound(Of(), c, p, if failed then Listed(Failure) else Using(None, false));
      calls := calls[c := calls[c].(stage := if failed then Listed(Failure) else Using(None, false))];
      stopping, places := stopping + {p}, places[p := Stopping];
    }

    method Start(c: nat) returns (p: Conn)
      requires Valid() && c in calls && calls[c].stage == Using(None, false)
      modifies this`calls, this`conns, this`places
      ensures Valid() && Lasting(old(calls), calls) && Settled(old(places), places)
      ensures p == Conn(old(conns)) && p !in old(places) && Of() == StartedProcess(old(Of()), c)
      ensures calls == old(calls)[c := old(calls)[c].(stage := Using(Some(p), false))] && p in places && places[p] == InUse(c)
    {
      hide Sound, Lasting, Settled;
      StartedSound(Of(), c);
      p := Conn(conns);
      conns := conns + 1;
      places := places[p := InUse(c)];
      calls := calls[c := calls[c].(stage := Using(Some(p), false))];
    }

    /** No process could be started. */
    method StartFailed(c: nat)
      requires Valid() && c in calls && calls[c].stage == Using(None, false)
      modifies this`calls
      ensures Valid() && Lasting(old(calls), calls) && Of() == Moves(old(Of()), c, old(calls)[c].(stage := Listed(Failure)))
    {
      hide Sound, Lasting;
      NoProcessSound(Of(), c);
      calls := calls[c := calls[c].(stage := Listed(Failure))];
    }

    /** After a full listing the call looks whether its own timeout, or Close, ended its context meanwhile. */
    method Judge(c: nat, p: Conn, timedOut: bool) returns (passed: bool)
      requires Valid() && c in calls && calls[c].stage == Using(Some(p), false)
      modifies this`calls, this`places, this`late
      ensures Valid() && Lasting(old(calls), calls) && Settled(old(places), places)
      ensures passed <==> !old(calls)[c].cancelled && !timedOut
      ensures Of() == Judged(old(Of()), c, p, !passed)
      ensures calls == old(calls)[c := old(calls)[c].(stage := if passed then Using(Some(p), true) else Listed(Failure))]
      ensures !passed ==> p in places && places[p] == Orphaned(c)
    {
      hide Sound, Lasting, Settled;
      passed := !calls[c].cancelled && !timedOut;
      JudgedSound(Of(), c, p, !passed);
      if passed {
        calls := calls[c := calls[c].(stage := Using(Some(p), true))];
      } else {
        calls := calls[c := calls[c].(stage := Listed(Failure))];
        places, late := places[p := Orphaned(c)], late[c := p];
      }
    }

    /** After a full listing the process is parked, over none parked already; once closed it is stopped instead. */
    method KeepWarm(c: nat, p: Conn, line: Line, now: int)
      requires Valid() && c in calls && calls[c].stage == Using(Some(p), true)
      modifies this`calls, this`warm, this`stopping, this`places, this`listed
      ensures Valid() && Lasting(old(calls), calls) && Settled(old(places), places)
      ensures !closed ==> calls[c].agent !in old(warm)
      ensures Of() == if closed then ListedClosed(old(Of()), c, p, line) else Kept(old(Of()), c, p, line, now)
      ensures listed == old(listed)[c := line] && calls == old(calls)[c := old(calls)[c].(stage := Listed(line))]
      ensures closed ==> stopping == old(stopping) + {p} && warm == old(warm)
      ensures !closed ==> stopping == old(stopping) && warm == old(warm)[calls[c].agent := Warm(p, now)]
    {
      hide Sound, Lasting, Settled;
      var k := calls[c];
      if closed {
        ListedClosedSound(Of(), c, p, line);
        stopping, places := stopping + {p}, places[p := Stopping];
      } else {
        KeptSound(Of(), c, p, line, now);
        warm := warm[k.agent := Warm(p, now)];
        places := places[p := Parked(k.agent)];
      }
      calls := calls[c := k.(stage := Listed(line))];
      listed := listed[c := line];
    }

    method FreeSlot(c: nat, line: Line)
      requires Valid() && c in calls && calls[c].stage == Listed(line)
      modifies this`calls, this`slots, this`holders
      ensures Valid() && Lasting(old(calls), calls) && Of() == Freed(old(Of()), c, line)
      ensures calls == old(calls)[c := old(calls)[c].(stage := Finishing(line))]
      ensures slots == old(slots) - 1
    {
      hide Sound, Lasting;
      FreedSound(Of(), c, line);
      calls := calls[c := calls[c].(stage := Finishing(line))];
      slots, holders := slots - 1, holders - {c};
    }

    /** Sets the call's line and closes it, once. Only a call nobody took back, of an open lister, is cached. */
    method Finish(c: nat, line: Line, now: int)
      requires Valid() && c in calls && calls[c].stage == Finishing(line)
      modifies this`calls, this`pending, this`cached
      ensures Valid() && Lasting(old(calls), calls) && !old(calls)[c].stage.Done? && Of() == Completed(old(Of()), c, line)
      ensures calls == old(calls)[c := old(calls)[c].(stage := Done(line))]
      ensures cached == if Current(old(pending), c, old(calls)[c]) && !closed && !old(calls)[c].cancelled
                        then old(cached)[old(calls)[c].agent := Cached(line, now)] else old(cached)
    {
      hide Sound, Lasting, Minus;
      CompletedSound(Of(), c, line);
      var k := calls[c];
      if k.agent in pending && pending[k.agent] == c {
        pending := Minus(pending, k.agent);
        if !closed && !k.cancelled {
          cached := cached[k.agent := Cached(line, now)];
        }
      }
      calls := calls[c := k.(stage := Done(line))];
    }

    /** The timer of a parked process. It may fire after the process was taken, and then does nothing. */
    method Expire(a: AgentID, p: Conn)
      requires Valid()
      modifies this`warm, this`stopping, this`places
      ensures Valid() && Settled(old(places), places)
      ensures Of() == if a in old(warm) && old(warm)[a].conn == p then Evicted(old(Of()), a) else old(Of())
      ensures a in old(warm) && old(warm)[a].conn == p ==> warm.Keys == old(warm).Keys - {a} && stopping == old(stopping) + {p}
    {
      hide Sound, Settled, Minus;
      Unmoved(places);
      if a in warm && warm[a].conn == p {
        EvictedSound(Of(), a);
        MinusKeys(warm, a);
        warm := Minus(warm, a);
        stopping, places := stopping + {p}, places[p := Stopping];
      }
    }

    /** Under memory pressure the parked process unused for longest is stopped. */
    method Relieve() returns (a: Option<AgentID>)
      requires Valid() && !closed
      modifies this`warm, this`stopping, this`places
      ensures Valid() && Settled(old(places), places)
      ensures a.None? <==> old(warm) == map[]
      ensures a.None? ==> Of() == old(Of())
      ensures a.Some? ==>
        && a.value in old(warm) && Of() == Evicted(old(Of()), a.value)
        && warm.Keys == old(warm).Keys - {a.value} && stopping == old(stopping) + {old(warm)[a.value].conn}
        && forall i | i in old(warm) :: old(warm)[a.value].lastUsed <= old(warm)[i].lastUsed
    {
      hide Sound, Settled, Minus;
      a := None;
      Unmoved(places);
      var left := warm.Keys;
      while left != {}
        invariant left <= warm.Keys
        invariant a.None? ==> left == warm.Keys
        invariant a.Some? ==> a.value in warm && forall i | i in warm.Keys - left :: warm[a.value].lastUsed <= warm[i].lastUsed
        modifies {}
        decreases left
      {
        var i :| i in left;
        left := left - {i};
        if a.None? || warm[i].lastUsed < warm[a.value].lastUsed {
          a := Some(i);
        }
      }
      if a.Some? {
        EvictedSound(Of(), a.value);
        var p := warm[a.value].conn;
        MinusKeys(warm, a.value);
        warm := Minus(warm, a.value);
        stopping, places := stopping + {p}, places[p := Stopping];
      }
    }

    /** A background stop is through. */
    method Stopped(p: Conn)
      requires Valid() && p in stopping
      modifies this`stopping, this`places
      ensures Valid() && Settled(old(places), places) && stopping == old(stopping) - {p} && places == old(places)[p := Gone]
    {
      hide Sound, Settled;
      StoppedSound(Of(), p);
      stopping, places := stopping - {p}, places[p := Gone];
    }

    /** Close cancels every outstanding call and stops every parked process. */
    method BeginClose()
      requires Valid()
      modifies this`closed, this`calls, this`warm, this`stopping, this`places
      ensures Valid() && Lasting(old(calls), calls) && closed && warm == map[] && Of() == Closing(old(Of()))
      ensures forall a | a in pending :: pending[a] in calls && calls[pending[a]].cancelled
    {
      hide Sound, Lasting, Minus, AllCancelled;
      StopParked();
      CancelledSound(Of());
      PendingCancelled(Of());
      CancelPending();
      closed := true;
    }

    method StopParked()
      requires Valid()
      modifies this`warm, this`stopping, this`places
      ensures Valid() && warm == map[] && Of() == Without(old(Of()), old(warm).Keys)
    {
      hide Sound, Settled, Minus, Without, ParkedExactly, Evicted;
      ghost var b, gone: set<AgentID> := Of(), {};
      WithoutNone(b);
      while warm.Keys != {}
        invariant gone <= b.warm.Keys && warm.Keys == b.warm.Keys - gone
        invariant Valid() && Of() == Without(b, gone)
        decreases warm.Keys
      {
        var a :| a in warm.Keys;
        EvictedSound(Of(), a);
        ParkedOf(b);
        WithoutNext(b, gone, a);
        StopOne(a);
        gone := gone + {a};
      }
      assert gone == b.warm.Keys;
      assert warm == map[];
    }

    method StopOne(a: AgentID)
      requires a in warm
      modifies this`warm, this`stopping, this`places
      ensures Of() == Evicted(old(Of()), a) && warm.Keys == old(warm).Keys - {a}
    {
      hide Minus;
      MinusKeys(warm, a);
      var p := warm[a].conn;
      warm := Minus(warm, a);
      stopping, places := stopping + {p}, places[p := Stopping];
    }

    method CancelPending()
      requires Valid()
      modifies this`calls
      ensures calls == AllCancelled(pending, old(calls))
    {
      hide Sound, Cancelling, AllCancelled;
      ghost var b, was := Of(), calls;
      var left := pending.Keys;
      CancellingEnds(pending, was);
      while left != {}
        invariant left <= pending.Keys && calls == Cancelling(pending, was, left)
        decreases left
      {
        var a :| a in left;
        PendingIn(b, a);
        CancellingNext(pending, was, left, a);
        left := left - {a};
        calls := calls[pending[a] := calls[pending[a]].(cancelled := true)];
      }
    }
  }

  /** A lister whose one call, of agent a, is at stage, with these processes. */
  ghost function OneCall(a: AgentID, started: bool, stage: Stage, conns: nat, places: map<Conn, Place>): Books {
    var k := Call(a, 1, started, false, stage);
    Books(false, map[a := 0], map[0 := k], 1, if stage.Waiting? then 0 else 1, if stage.Waiting? then {} else {0}, map[], conns, {}, places, map[],
          map[])
  }

  /** A call of its own for an agent, up to its admission. */
  method AdmittedOne(a: AgentID, now: int) returns (l: Lister)
    ensures fresh(l) && l.Valid() && l.Of() == OneCall(a, true, Running, 0, map[])
  {
    hide Sound, Lasting, Settled;
    l := new Lister();
    var entered := l.Enter(a, now);
    assert l.Of() == OneCall(a, false, Waiting, 0, map[]);
    l.AcquireSlot(0);
    assert l.Of() == OneCall(a, false, Holding, 0, map[]);
    var admitted := l.Admit(0);
  }

  /** And up to its last page. */
  method UpToLastPage(a: AgentID, now: int) returns (l: Lister, p: Conn)
    ensures fresh(l) && l.Valid() && l.Of() == OneCall(a, true, Using(Some(p), false), 1, map[p := InUse(0)])
  {
    hide Sound, Lasting, Settled;
    l := AdmittedOne(a, now);
    var none := l.Take(0);
    assert l.Of() == OneCall(a, true, Using(None, false), 0, map[]);
    p := l.Start(0);
  }

  lemma ClosingOne(a: AgentID, stage: Stage, conns: nat, places: map<Conn, Place>)
    ensures var b := OneCall(a, true, stage, conns, places); Closing(b) == b.(closed := true, calls := map[0 := Call(a, 1, true, true, stage)])
  {
    WithoutNone(OneCall(a, true, stage, conns, places));
    assert OneCall(a, true, stage, conns, places).warm.Keys == {};
  }

  /** Close comes between an agent's last page and the look at the context: it returns with the process running. */
  method ClosedAfterLastPage(a: AgentID, now: int) returns (l: Lister, p: Conn)
    ensures l.Valid() && l.closed && l.stopping == {} && forall c | c in l.calls :: l.calls[c].stage.Done?
    ensures p in l.places && l.places[p].Orphaned?
  {
    hide Sound, Lasting, Settled, Closing;
    l, p := UpToLastPage(a, now);
    ClosingOne(a, Using(Some(p), false), 1, map[p := InUse(0)]);
    l.BeginClose();
    FailLate(l, p, now);
  }

  method FailLate(l: Lister, p: Conn, now: int)
    requires l.Valid() && 0 in l.calls && l.calls[0].stage == Using(Some(p), false) && l.calls[0].cancelled
    modifies l
    ensures l.Valid() && l.closed == old(l.closed) && l.stopping == old(l.stopping) && l.calls.Keys == old(l.calls).Keys
    ensures l.calls[0].stage.Done? && p in l.places && l.places[p].Orphaned?
  {
    hide Sound, Lasting, Settled;
    var passed := l.Judge(0, p, false);
    l.FreeSlot(0, Failure);
    l.Finish(0, Failure, now);
  }
}
