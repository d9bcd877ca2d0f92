/**
internal/runtime/spare.go: pre-booted agent processes. Each method is one critical section or one completion of a
background goroutine; they may come in any order.
*/
module Spares {
  import opened Names
  import opened Sequences

  datatype AgentID = AgentID(name: string)

  /** The n-th process started. */
  datatype Proc = Proc(n: nat)

  /** What identifies how a process was launched. */
  datatype LaunchKey = LaunchKey(text: string)

  datatype Launch = Launch(commandPath: string, workingDir: string, args: seq<string>)

  // ----- Launch keys -----

  const NUL := "\0"

  function Joined(parts: seq<string>): string
    requires parts != []
  {
    if |parts| == 1 then parts[0] else parts[0] + NUL + Joined(parts[1..])
  }

  function SpareKey(l: Launch): LaunchKey {
    LaunchKey(Joined([l.commandPath, l.workingDir] + l.args))
  }

  predicate WithoutNul(parts: seq<string>) {
    forall part | part in parts :: '\0' !in part
  }

  lemma NulAt(a: string, b: string, x: string, y: string)
    requires a + NUL + x == b + NUL + y && '\0' !in a && '\0' !in b
    ensures a == b && x == y
  {
    var s := a + NUL + x;
    assert forall i | 0 <= i < |a| :: s[i] == a[i];
    assert forall i | 0 <= i < |b| :: s[i] == b[i];
    assert s[|a|] == s[|b|] == '\0';
    assert a == s[..|a|] && b == s[..|b|] && x == s[|a| + 1..] && y == s[|b| + 1..];
  }

  lemma {:induction false} JoinedNames(a: seq<string>, b: seq<string>)
    requires a != [] && b != [] && WithoutNul(a) && WithoutNul(b) && Joined(a) == Joined(b)
    ensures a == b
    decreases a
  {
    assert a[0] in a && b[0] in b;
    if |a| > 1 { HasNul(a); }
    if |b| > 1 { HasNul(b); }
    assert |a| > 1 <==> |b| > 1;
    if |a| > 1 {
      NulAt(a[0], b[0], Joined(a[1..]), Joined(b[1..]));
      assert (forall part | part in a[1..] :: part in a) && (forall part | part in b[1..] :: part in b);
      JoinedNames(a[1..], b[1..]);
      assert a == [a[0]] + a[1..] && b == [b[0]] + b[1..];
    }
  }

  lemma HasNul(parts: seq<string>)
    requires |parts| > 1
    ensures '\0' in Joined(parts)
  {
    assert Joined(parts)[|parts[0]|] == '\0';
  }

  /** Equal keys mean equal launches, as no path or argument of a process holds a NUL. */
  lemma SpareKeyNames(a: Launch, b: Launch)
    requires WithoutNul([a.commandPath, a.workingDir] + a.args) && WithoutNul([b.commandPath, b.workingDir] + b.args)
    requires SpareKey(a) == SpareKey(b)
    ensures a == b
  {
    var x, y := [a.commandPath, a.workingDir] + a.args, [b.commandPath, b.workingDir] + b.args;
    JoinedNames(x, y);
    assert x[0] == a.commandPath && x[1] == a.workingDir && x[2..] == a.args;
    assert y[0] == b.commandPath && y[1] == b.workingDir && y[2..] == b.args;
  }

  // ----- Where every spare process is -----

  /** serial tells spares apart; proc is None while the process is being started. */
  datatype Spare = Spare(serial: nat, proc: Option<Proc>, key: LaunchKey)

  datatype Claim = Claim(id: nat, proc: Proc, key: LaunchKey)

  /** The only places of a process: parked for its agent, in a claim, being discarded, handed out or gone. */
  datatype Place = Parked(agent: AgentID, serial: nat) | InClaim(id: nat) | Discarding | Closing | HandedOut | Gone

  ghost predicate ParkedExactly(spares: map<AgentID, Spare>, places: map<Proc, Place>) {
    && (forall a | a in spares && spares[a].proc.Some? ::
          spares[a].proc.value in places && places[spares[a].proc.value] == Parked(a, spares[a].serial))
    && (forall p | p in places && places[p].Parked? ::
          places[p].agent in spares && spares[places[p].agent].proc == Some(p) && spares[places[p].agent].serial == places[p].serial)
  }

  ghost predicate ClaimedExactly(claims: map<nat, Claim>, places: map<Proc, Place>, claimed: nat) {
    && (forall c | c in claims :: c < claimed && claims[c].id == c && claims[c].proc in places && places[claims[c].proc] == InClaim(c))
    && (forall p | p in places && places[p].InClaim? :: places[p].id in claims && claims[places[p].id].proc == p)
  }

  ghost predicate DiscardedExactly(discarding: set<Proc>, closing: set<Proc>, places: map<Proc, Place>) {
    && (forall p :: p in discarding <==> p in places && places[p].Discarding?)
    && (forall p :: p in closing <==> p in places && places[p].Closing?)
  }

  /** A spare without a process is one that is being started, for its agent. */
  ghost predicate Starting(spares: map<AgentID, Spare>, spawning: map<nat, AgentID>, serials: nat, closed: bool) {
    && (forall a | a in spares :: spares[a].serial < serials)
    && (forall a | a in spares && spares[a].proc.None? :: spares[a].serial in spawning && spawning[spares[a].serial] == a)
    && (forall n | n in spawning :: n < serials)
    && (forall a | a in spares && spares[a].proc.Some? :: spares[a].serial !in spawning)
    && (!closed ==> forall n | n in spawning :: spawning[n] in spares && spares[spawning[n]].serial == n)
  }

  /** What happened to a process for good does not happen again, and nothing else does. */
  ghost predicate Settled(was: map<Proc, Place>, now: map<Proc, Place>) {
    forall p | p in was :: p in now && (was[p].HandedOut? || was[p].Gone? ==> now[p] == was[p])
  }

  /** How many background goroutines have work left. */
  ghost function Work(spawning: map<nat, AgentID>, claims: map<nat, Claim>, discarding: set<Proc>): int {
    |spawning| + |claims| + |discarding|
  }

  /** With spares off, or after Close, there are none; Close alone takes them away. */
  predicate Quiet(on: bool, closed: bool, spares: map<AgentID, Spare>, closing: set<Proc>) {
    (!on || closed ==> spares == map[]) && (closing != {} ==> closed)
  }

  predicate Numbered(places: map<Proc, Place>, procs: nat) {
    forall p | p in places :: p.n < procs
  }

  /** Everything the supervisor and its goroutines know about spares. */
  datatype Books = Books(on: bool, closed: bool, spares: map<AgentID, Spare>, sparesWG: int, serials: nat, procs: nat, claimed: nat,
                         spawning: map<nat, AgentID>, claims: map<nat, Claim>, discarding: set<Proc>, closing: set<Proc>,
                         places: map<Proc, Place>)

  ghost predicate Sound(b: Books) {
    && Quiet(b.on, b.closed, b.spares, b.closing)
    && ParkedExactly(b.spares, b.places)
    && ClaimedExactly(b.claims, b.places, b.claimed)
    && DiscardedExactly(b.discarding, b.closing, b.places)
    && Starting(b.spares, b.spawning, b.serials, b.closed)
    && Numbered(b.places, b.procs)
    && b.sparesWG == Work(b.spawning, b.claims, b.discarding)
  }

  lemma Parts(b: Books)
    requires Sound(b)
    ensures Quiet(b.on, b.closed, b.spares, b.closing) && ParkedExactly(b.spares, b.places)
    ensures ClaimedExactly(b.claims, b.places, b.claimed) && DiscardedExactly(b.discarding, b.closing, b.places)
    ensures Starting(b.spares, b.spawning, b.serials, b.closed) && Numbered(b.places, b.procs)
    ensures b.sparesWG == Work(b.spawning, b.claims, b.discarding)
  {
    hide ParkedExactly, ClaimedExactly, DiscardedExactly, Starting, Numbered, Work, Quiet, Minus;
  }

  lemma Whole(b: Books)
    requires Quiet(b.on, b.closed, b.spares, b.closing) && ParkedExactly(b.spares, b.places)
    requires ClaimedExactly(b.claims, b.places, b.claimed) && DiscardedExactly(b.discarding, b.closing, b.places)
    requires Starting(b.spares, b.spawning, b.serials, b.closed) && Numbered(b.places, b.procs)
    requires b.sparesWG == Work(b.spawning, b.claims, b.discarding)
    ensures Sound(b)
  {
    hide ParkedExactly, ClaimedExactly, DiscardedExactly, Starting, Numbered, Work, Quiet, Minus;
  }

  /** The books once agent's parked process went into a claim. */
  function Taken(b: Books, agent: AgentID): Books
    requires agent in b.spares && b.spares[agent].proc.Some?
  {
    var sp := b.spares[agent];
    b.(spares := Minus(b.spares, agent), sparesWG := b.sparesWG + 1, claimed := b.claimed + 1,
       claims := b.claims[b.claimed := Claim(b.claimed, sp.proc.value, sp.key)], places := b.places[sp.proc.value := InClaim(b.claimed)])
  }

  lemma TakenSound(b: Books, agent: AgentID)
    requires Sound(b) && agent in b.spares && b.spares[agent].proc.Some?
    ensures Sound(Taken(b, agent)) && Settled(b.places, Taken(b, agent).places)
  {
    hide Sound, ParkedExactly, ClaimedExactly, DiscardedExactly, Starting, Settled, Numbered, Work, Quiet, Minus;
    Parts(b);
    var sp := b.spares[agent];
    var c := Claim(b.claimed, sp.proc.value, sp.key);
    Unpark(b.spares, b.spawning, b.places, b.serials, b.closed, agent, InClaim(b.claimed));
    ToClaim(b.claims, b.places, b.claimed, c);
    NotDiscarded(b.discarding, b.closing, b.places, c.proc, InClaim(b.claimed));
    Moves(b.places, b.procs, c.proc, InClaim(b.claimed));
    QuietFewer(b.on, b.closed, b.spares, b.closing, agent);
    CountedClaim(b.spawning, b.claims, b.discarding, c);
    Whole(Taken(b, agent));
  }

  /** The books once a claim ended, its process handed out or on its way to be discarded. */
  function Finished(b: Books, c: Claim, handed: bool): Books {
    if handed then b.(claims := Minus(b.claims, c.id), sparesWG := b.sparesWG - 1, places := b.places[c.proc := HandedOut])
    else b.(claims := Minus(b.claims, c.id), discarding := b.discarding + {c.proc}, places := b.places[c.proc := Discarding])
  }

  lemma FinishedSound(b: Books, c: Claim, handed: bool)
    requires Sound(b) && c.id in b.claims && b.claims[c.id] == c
    ensures Sound(Finished(b, c, handed)) && Settled(b.places, Finished(b, c, handed).places)
  {
    hide ParkedExactly, ClaimedExactly, DiscardedExactly, Starting, Settled, Numbered, Work, Quiet, Minus;
    var to := if handed then HandedOut else Discarding;
    FromClaim(b.claims, b.places, b.claimed, c.id, to);
    StillParked(b.spares, b.places, c.proc, to);
    Moves(b.places, b.procs, c.proc, to);
    if handed { NotDiscarded(b.discarding, b.closing, b.places, c.proc, to); } else { ToDiscard(b.discarding, b.closing, b.places, c.proc); }
    ToDiscard(b.discarding, b.closing, b.places, c.proc);
    CountedUnclaim(b.spawning, b.claims, b.discarding, c.id, c.proc);
  }

  lemma DiscardedSound(b: Books, p: Proc)
    requires Sound(b) && p in b.discarding
    ensures p in b.places && Settled(b.places, b.places[p := Gone])
    ensures Sound(b.(discarding := b.discarding - {p}, sparesWG := b.sparesWG - 1, places := b.places[p := Gone]))
  {
    hide ParkedExactly, ClaimedExactly, DiscardedExactly, Starting, Settled, Numbered, Work, Quiet, Minus;
    EndDiscarding(b.discarding, b.closing, b.places, p);
    Moves(b.places, b.procs, p, Gone);
    StillParked(b.spares, b.places, p, Gone);
    StillClaimed(b.claims, b.places, b.claimed, p, Gone);
    CountedDiscarded(b.spawning, b.claims, b.discarding, p);
  }

  lemma RefilledSound(b: Books, agent: AgentID)
    requires Sound(b) && b.on && !b.closed && agent !in b.spares
    ensures Sound(b.(spares := b.spares[agent := Spare(b.serials, None, LaunchKey(""))], spawning := b.spawning[b.serials := agent],
                     serials := b.serials + 1, sparesWG := b.sparesWG + 1))
  {
    hide ParkedExactly, ClaimedExactly, DiscardedExactly, Starting, Numbered, Work, Quiet, Minus;
    var sp := Spare(b.serials, None, LaunchKey(""));
    StartingMore(b.spares, b.spawning, b.serials, agent, sp);
    ParkNone(b.spares, b.places, agent, sp);
    QuietMore(b.spares, b.closing, agent, sp);
    CountedSpawn(b.spawning, b.claims, b.discarding, b.serials, agent);
  }

  /** Whether a spare being started is still the one its agent waits for. */
  predicate StillWanted(b: Books, agent: AgentID, serial: nat) {
    agent in b.spares && b.spares[agent].serial == serial
  }

  /** The books once a started spare was parked. */
  function Ready(b: Books, agent: AgentID, serial: nat, key: LaunchKey): Books {
    b.(spawning := Minus(b.spawning, serial), procs := b.procs + 1, sparesWG := b.sparesWG - 1,
       spares := b.spares[agent := Spare(serial, Some(Proc(b.procs)), key)], places := b.places[Proc(b.procs) := Parked(agent, serial)])
  }

  /** The books without a spare that was being started, and without its agent's spare if that is it. */
  function Left(b: Books, agent: AgentID, serial: nat): Books {
    b.(spawning := Minus(b.spawning, serial), spares := if StillWanted(b, agent, serial) then Minus(b.spares, agent) else b.spares)
  }

  /** The books once starting a spare came to nothing; a process that was started is on its way to be discarded. */
  function Aborted(b: Books, agent: AgentID, serial: nat, started: bool): Books {
    var l := Left(b, agent, serial);
    if !started then l.(sparesWG := l.sparesWG - 1)
    else l.(procs := l.procs + 1, discarding := l.discarding + {Proc(l.procs)}, places := l.places[Proc(l.procs) := Discarding])
  }

  lemma ReadySound(b: Books, agent: AgentID, serial: nat, key: LaunchKey)
    requires Sound(b) && serial in b.spawning && b.spawning[serial] == agent && !b.closed
    ensures StillWanted(b, agent, serial) && Proc(b.procs) !in b.places
    ensures Sound(Ready(b, agent, serial, key)) && Settled(b.places, Ready(b, agent, serial, key).places)
  {
    hide ParkedExactly, ClaimedExactly, DiscardedExactly, Starting, Settled, Numbered, Work, Quiet, Minus;
    var p := Proc(b.procs);
    Started(b.spares, b.spawning, b.serials, b.closed, agent, serial, p, key);
    NewProc(b.places, b.procs);
    Park(b.spares, b.places, agent, p, key);
    PlaceParked(b.claims, b.claimed, b.discarding, b.closing, b.places, b.procs, agent, serial);
    QuietChange(b.on, b.closed, b.spares, b.closing, agent, Spare(serial, Some(p), key));
    CountedSpawned(b.spawning, b.claims, b.discarding, serial, p);
  }

  lemma AbortedSound(b: Books, agent: AgentID, serial: nat, started: bool)
    requires Sound(b) && serial in b.spawning && b.spawning[serial] == agent
    ensures Sound(Aborted(b, agent, serial, started)) && Settled(b.places, Aborted(b, agent, serial, started).places)
  {
    hide ParkedExactly, ClaimedExactly, DiscardedExactly, Starting, Settled, Numbered, Work, Quiet, Minus;
    var p := Proc(b.procs);
    Started(b.spares, b.spawning, b.serials, b.closed, agent, serial, p, LaunchKey(""));
    NewProc(b.places, b.procs);
    NewPlace(b.claims, b.claimed, b.discarding, b.closing, b.places, b.procs, p);
    CountedSpawned(b.spawning, b.claims, b.discarding, serial, p);
    Stays(b.places);
    if StillWanted(b, agent, serial) {
      NotParked(b.spares, b.places, agent);
      StillParkedNew(Minus(b.spares, agent), b.places, p);
      QuietFewer(b.on, b.closed, b.spares, b.closing, agent);
    } else {
      StillParkedNew(b.spares, b.places, p);
    }
  }

  /** The books once agent's idle spare, with process p, was taken away. */
  function Expired(b: Books, agent: AgentID, p: Proc): Books {
    b.(spares := Minus(b.spares, agent), sparesWG := b.sparesWG + 1, discarding := b.discarding + {p}, places := b.places[p := Discarding])
  }

  lemma ExpiredSound(b: Books, agent: AgentID, p: Proc)
    requires Sound(b) && agent in b.spares && b.spares[agent].proc == Some(p)
    ensures Sound(Expired(b, agent, p)) && Settled(b.places, Expired(b, agent, p).places)
  {
    hide Sound, ParkedExactly, ClaimedExactly, DiscardedExactly, Starting, Settled, Numbered, Work, Quiet, Minus;
    Parts(b);
    Unpark(b.spares, b.spawning, b.places, b.serials, b.closed, agent, Discarding);
    Moves(b.places, b.procs, p, Discarding);
    StillClaimed(b.claims, b.places, b.claimed, p, Discarding);
    ToDiscard(b.discarding, b.closing, b.places, p);
    CountedDiscard(b.spawning, b.claims, b.discarding, p);
    QuietFewer(b.on, b.closed, b.spares, b.closing, agent);
    Whole(Expired(b, agent, p));
  }

  lemma IdleHasProc(b: Books, agent: AgentID)
    requires Sound(b) && agent in b.spares && b.spares[agent].serial !in b.spawning
    ensures b.spares[agent].proc.Some?
  {
    hide Sound, ParkedExactly, ClaimedExactly, DiscardedExactly, Starting, Settled, Numbered, Work, Quiet, Minus;
    Parts(b);
    HasProc(b.spares, b.spawning, b.serials, b.closed, agent);
  }

  function Shut(b: Books): Books {
    b.(closed := true, on := false, spares := map[], closing := b.closing + ParkedProcs(b.places), places := TakenAway(b.places))
  }

  lemma ShutSound(b: Books)
    requires Sound(b)
    ensures Sound(Shut(b)) && Settled(b.places, Shut(b).places)
  {
    hide ParkedExactly, ClaimedExactly, DiscardedExactly, Starting, Settled, Numbered, Work, Quiet, Minus, ParkedProcs, TakenAway;
    QuietAll(b.closing + ParkedProcs(b.places));
    TakeAll(b.spares, b.spawning, b.serials, b.closed, b.claims, b.claimed, b.discarding, b.closing, b.places, b.procs);
  }

  lemma CloseDiscardedSound(b: Books, p: Proc)
    requires Sound(b) && p in b.closing
    ensures p in b.places && Settled(b.places, b.places[p := Gone])
    ensures Sound(b.(closing := b.closing - {p}, places := b.places[p := Gone]))
  {
    hide ParkedExactly, ClaimedExactly, DiscardedExactly, Starting, Settled, Numbered, Work, Quiet, Minus;
    EndClosing(b.discarding, b.closing, b.places, p);
    QuietClosing(b.on, b.closed, b.spares, b.closing, p);
    Moves(b.places, b.procs, p, Gone);
    StillParked(b.spares, b.places, p, Gone);
    StillClaimed(b.claims, b.places, b.claimed, p, Gone);
  }

  /**
   * Close returns once it discarded all it took and the wait group is at zero. By then no spare is parked,
   * starting, in a claim or being discarded: every process was handed out or is gone.
   */
  lemma CloseReturned(b: Books)
    requires Sound(b) && b.closed && b.closing == {} && b.sparesWG == 0
    ensures b.spares == map[] && b.spawning == map[] && b.claims == map[] && b.discarding == {}
    ensures forall p | p in b.places :: b.places[p].HandedOut? || b.places[p].Gone?
  {
  }

  /** Until Close, no agent ever has more than one spare, parked or being started. */
  lemma OneEach(b: Books, m: nat, n: nat)
    requires Sound(b) && !b.closed && m in b.spawning && n in b.spawning && b.spawning[m] == b.spawning[n]
    ensures m == n && b.spawning[n] in b.spares && b.spares[b.spawning[n]].proc.None?
  {
    hide ParkedExactly, ClaimedExactly, DiscardedExactly, Settled, Numbered, Work, Quiet, Minus;
  }

  class Supervisor {
    // on is whether spares were enabled and not taken away by Close.
    var on: bool
    var closed: bool
    var spares: map<AgentID, Spare>
    var sparesWG: int
    var serials: nat
    var procs: nat
    var claimed: nat
    // The background goroutines: those starting a spare, claims past their critical section, discards, Close's own.
    ghost var spawning: map<nat, AgentID>
    ghost var claims: map<nat, Claim>
    ghost var discarding: set<Proc>
    ghost var closing: set<Proc>
    // Where every process ever started is.
    ghost var places: map<Proc, Place>

    ghost function Of(): Books
      reads this
    {
      Books(on, closed, spares, sparesWG, serials, procs, claimed, spawning, claims, discarding, closing, places)
    }

    ghost predicate Valid()
      reads this
    {
      Sound(Of())
    }

    constructor ()
      ensures Valid() && !on && !closed && places == map[]
    {
      on, closed, spares, sparesWG, serials, procs, claimed := false, false, map[], 0, 0, 0, 0;
      spawning, claims, discarding, closing, places := map[], map[], {}, {}, map[];
    }

    method EnableSpares()
      requires Valid()
      modifies this`on
      ensures Valid() && on
    {
      hide ParkedExactly, ClaimedExactly, DiscardedExactly, Starting, Numbered, Work;
      on := true;
    }

    /** Takes an agent's spare; nobody else can take it any more. */
    method TakeSpare(agent: AgentID) returns (claim: Option<Claim>)
      requires Valid()
      modifies this`spares, this`sparesWG, this`claimed, this`claims, this`places
      ensures Valid()
      ensures claim.Some? <==> agent in old(spares) && old(spares)[agent].proc.Some?
      ensures claim.None? ==> Of() == old(Of())
      ensures claim.Some? ==>
        && Of() == Taken(old(Of()), agent) && Settled(old(places), places)
        && claim.value == Claim(old(claimed), old(spares)[agent].proc.value, old(spares)[agent].key)
        && spares.Keys == old(spares).Keys - {agent} && places == old(places)[claim.value.proc := InClaim(claim.value.id)]
    {
      hide Sound, Settled, Minus;
      if agent !in spares || spares[agent].proc.None? {
        return None;
      }
      TakenSound(Of(), agent);
      MinusKeys(spares, agent);
      var sp := spares[agent];
      spares := Minus(spares, agent);
      sparesWG := sparesWG + 1;
      claim := Some(Claim(claimed, sp.proc.value, sp.key));
      claims := claims[claimed := claim.value];
      places := places[sp.proc.value := InClaim(claimed)];
      claimed := claimed + 1;
    }

    /** Hands the claimed process over if it is alive and was launched just as wanted; else it is discarded. */
    method FinishClaim(claim: Claim, dead: bool, wanted: LaunchKey) returns (proc: Option<Proc>)
      requires Valid() && claim.id in claims && claims[claim.id] == claim
      modifies this`sparesWG, this`claims, this`discarding, this`places
      ensures Valid() && Settled(old(places), places)
      ensures proc == if !dead && claim.key == wanted then Some(claim.proc) else None
      ensures Of() == Finished(old(Of()), claim, proc.Some?)
      ensures places == old(places)[claim.proc := if proc.Some? then HandedOut else Discarding]
      ensures discarding == if proc.Some? then old(discarding) else old(discarding) + {claim.proc}
    {
      hide Sound, Settled, Minus;
      var handed := !dead && claim.key == wanted;
      FinishedSound(Of(), claim, handed);
      claims := Minus(claims, claim.id);
      if handed {
        sparesWG := sparesWG - 1;
        places := places[claim.proc := HandedOut];
        return Some(claim.proc);
      }
      discarding := discarding + {claim.proc};
      places := places[claim.proc := Discarding];
      return None;
    }

    /** A background discard is through. */
    method DiscardDone(p: Proc)
      requires Valid() && p in discarding
      modifies this`sparesWG, this`discarding, this`places
      ensures Valid() && Settled(old(places), places) && places == old(places)[p := Gone]
    {
      hide Sound, Settled, Minus;
      DiscardedSound(Of(), p);
      discarding := discarding - {p};
      sparesWG := sparesWG - 1;
      places := places[p := Gone];
    }

    /** Starts an agent's next spare, unless spares are off, there is one already, or the supervisor is closed. */
    method RefillSpare(agent: AgentID) returns (serial: Option<nat>)
      requires Valid()
      modifies this`spares, this`sparesWG, this`serials, this`spawning
      ensures Valid()
      ensures serial.Some? <==> on && !closed && agent !in old(spares)
      ensures serial.Some? ==> spawning == old(spawning)[serial.value := agent] && serial.value == old(serials)
      ensures serial.Some? ==> spares == old(spares)[agent := Spare(serial.value, None, LaunchKey(""))]
      ensures serial.None? ==> Of() == old(Of())
    {
      hide Sound;
      if !on || closed || agent in spares {
        return None;
      }
      RefilledSound(Of(), agent);
      serial := Some(serials);
      spares := spares[agent := Spare(serials, None, LaunchKey(""))];
      spawning := spawning[serials := agent];
      serials := serials + 1;
      sparesWG := sparesWG + 1;
    }

    /** The process of a spare was started, or failed to. It is parked unless its spare is gone or all are to stop. */
    method SpawnDone(agent: AgentID, serial: nat, started: bool, key: LaunchKey) returns (proc: Option<Proc>)
      requires Valid() && serial in spawning && spawning[serial] == agent
      modifies this`spares, this`sparesWG, this`procs, this`spawning, this`discarding, this`places
      ensures Valid() && Settled(old(places), places)
      ensures Of() == if started && !closed then Ready(old(Of()), agent, serial, key) else Aborted(old(Of()), agent, serial, started)
      ensures proc == if started then Some(Proc(old(procs))) else None
      ensures started && !closed ==>
        && spares == old(spares)[agent := Spare(serial, proc, key)] && places == old(places)[proc.value := Parked(agent, serial)]
      ensures started && closed ==> places == old(places)[proc.value := Discarding] && proc.value in discarding
      ensures !started ==> places == old(places) && (agent in spares ==> spares[agent].serial != serial)
    {
      hide Sound, Settled, Minus;
      MinusKeys(spares, agent);
      if !closed { ReadySound(Of(), agent, serial, key); }
      if !started || closed || agent !in spares || spares[agent].serial != serial {
        proc := Abort(agent, serial, started);
        return;
      }
      proc := ParkProcess(agent, serial, key);
    }

    method Abort(agent: AgentID, serial: nat, started: bool) returns (proc: Option<Proc>)
      requires Valid() && serial in spawning && spawning[serial] == agent
      modifies this`spares, this`sparesWG, this`procs, this`spawning, this`discarding, this`places
      ensures Valid() && Settled(old(places), places) && Of() == Aborted(old(Of()), agent, serial, started)
      ensures proc == if started then Some(Proc(old(procs))) else None
    {
      hide Sound, Settled, Minus, Left;
      AbortedSound(Of(), agent, serial, started);
      Leave(agent, serial);
      if !started {
        sparesWG := sparesWG - 1;
        return None;
      }
      var p := Proc(procs);
      procs := procs + 1;
      discarding := discarding + {p};
      places := places[p := Discarding];
      return Some(p);
    }

    method Leave(agent: AgentID, serial: nat)
      modifies this`spares, this`spawning
      ensures Of() == Left(old(Of()), agent, serial)
    {
      hide Minus;
      spawning := Minus(spawning, serial);
      if agent in spares && spares[agent].serial == serial {
        spares := Minus(spares, agent);
      }
    }

    method ParkProcess(agent: AgentID, serial: nat, key: LaunchKey) returns (proc: Option<Proc>)
      requires Valid() && serial in spawning && spawning[serial] == agent && !closed
      modifies this`spares, this`sparesWG, this`procs, this`spawning, this`places
      ensures Valid() && Settled(old(places), places) && Of() == Ready(old(Of()), agent, serial, key)
      ensures proc == Some(Proc(old(procs)))
    {
      hide Sound, Settled, Minus;
      ReadySound(Of(), agent, serial, key);
      var p := Proc(procs);
      procs := procs + 1;
      spawning := Minus(spawning, serial);
      spares := spares[agent := Spare(serial, Some(p), key)];
      places := places[p := Parked(agent, serial)];
      sparesWG := sparesWG - 1;
      return Some(p);
    }

    /** The idle timer of a spare that was parked. It may fire after the spare was taken, and then does nothing. */
    method IdleFired(agent: AgentID, serial: nat)
      requires Valid() && serial !in spawning
      modifies this`spares, this`sparesWG, this`discarding, this`places
      ensures Valid()
      ensures !StillWanted(old(Of()), agent, serial) ==> Of() == old(Of())
      ensures StillWanted(old(Of()), agent, serial) ==>
        && old(spares)[agent].proc.Some? && Of() == Expired(old(Of()), agent, old(spares)[agent].proc.value)
        && spares.Keys == old(spares).Keys - {agent} && discarding == old(discarding) + {old(spares)[agent].proc.value}
        && Settled(old(places), places)
    {
      hide Sound, Settled, Minus;
      if agent !in spares || spares[agent].serial != serial {
        return;
      }
      IdleHasProc(Of(), agent);
      var p := spares[agent].proc.value;
      MinusKeys(spares, agent);
      ExpiredSound(Of(), agent, p);
      spares := Minus(spares, agent);
      sparesWG := sparesWG + 1;
      discarding := discarding + {p};
      places := places[p := Discarding];
    }

    /** Close takes every spare away and keeps new ones from starting. */
    method BeginClose()
      requires Valid()
      modifies this`closed, this`on, this`spares, this`closing, this`places
      ensures Valid() && Settled(old(places), places) && closed && spares == map[] && Of() == Shut(old(Of()))
    {
      hide Sound, Settled, ParkedProcs, TakenAway;
      ShutSound(Of());
      closing := closing + ParkedProcs(places);
      places := TakenAway(places);
      closed, on, spares := true, false, map[];
    }

    /** Close discards one of the processes it took. */
    method CloseDiscard(p: Proc)
      requires Valid() && p in closing
      modifies this`closing, this`places
      ensures Valid() && Settled(old(places), places) && closing == old(closing) - {p} && places == old(places)[p := Gone]
    {
      hide Sound, Settled, Minus;
      CloseDiscardedSound(Of(), p);
      closing := closing - {p};
      places := places[p := Gone];
    }
  }

  /** Taking a parked process away from its agent. */
  lemma Unpark(spares: map<AgentID, Spare>, spawning: map<nat, AgentID>, places: map<Proc, Place>, serials: nat, closed: bool,
               agent: AgentID, to: Place)
    requires ParkedExactly(spares, places) && Starting(spares, spawning, serials, closed)
    requires agent in spares && spares[agent].proc.Some? && !to.Parked?
    ensures var p := spares[agent].proc.value;
      && p in places && places[p] == Parked(agent, spares[agent].serial)
      && ParkedExactly(Minus(spares, agent), places[p := to]) && Starting(Minus(spares, agent), spawning, serials, closed)
  {
  }

  lemma ToClaim(claims: map<nat, Claim>, places: map<Proc, Place>, claimed: nat, c: Claim)
    requires ClaimedExactly(claims, places, claimed) && c.id == claimed && c.proc in places && !places[c.proc].InClaim?
    ensures ClaimedExactly(claims[claimed := c], places[c.proc := InClaim(claimed)], claimed + 1)
    ensures claimed !in claims
  {
  }

  lemma NotDiscarded(discarding: set<Proc>, closing: set<Proc>, places: map<Proc, Place>, p: Proc, to: Place)
    requires DiscardedExactly(discarding, closing, places)
    requires !(p in places && (places[p].Discarding? || places[p].Closing?)) && !to.Discarding? && !to.Closing?
    ensures DiscardedExactly(discarding, closing, places[p := to])
  {
  }

  lemma FromClaim(claims: map<nat, Claim>, places: map<Proc, Place>, claimed: nat, id: nat, to: Place)
    requires ClaimedExactly(claims, places, claimed) && id in claims && !to.InClaim?
    ensures var p := claims[id].proc;
      && p in places && places[p] == InClaim(id)
      && ClaimedExactly(Minus(claims, id), places[p := to], claimed)
  {
  }

  lemma StillParked(spares: map<AgentID, Spare>, places: map<Proc, Place>, p: Proc, to: Place)
    requires ParkedExactly(spares, places) && p in places && !places[p].Parked? && !to.Parked?
    ensures ParkedExactly(spares, places[p := to])
  {
  }

  lemma StillClaimed(claims: map<nat, Claim>, places: map<Proc, Place>, claimed: nat, p: Proc, to: Place)
    requires ClaimedExactly(claims, places, claimed) && p in places && !places[p].InClaim? && !to.InClaim?
    ensures ClaimedExactly(claims, places[p := to], claimed)
  {
  }

  lemma ToDiscard(discarding: set<Proc>, closing: set<Proc>, places: map<Proc, Place>, p: Proc)
    requires DiscardedExactly(discarding, closing, places) && p in places && !places[p].Discarding? && !places[p].Closing?
    ensures p !in discarding && DiscardedExactly(discarding + {p}, closing, places[p := Discarding])
  {
  }

  lemma StartingMore(spares: map<AgentID, Spare>, spawning: map<nat, AgentID>, serials: nat, agent: AgentID, sp: Spare)
    requires Starting(spares, spawning, serials, false) && agent !in spares && sp.serial == serials && sp.proc.None?
    ensures Starting(spares[agent := sp], spawning[serials := agent], serials + 1, false)
    ensures serials !in spawning
  {
  }

  lemma NotParked(spares: map<AgentID, Spare>, places: map<Proc, Place>, agent: AgentID)
    requires ParkedExactly(spares, places) && agent in spares && spares[agent].proc.None?
    ensures ParkedExactly(Minus(spares, agent), places)
  {
  }

  lemma Park(spares: map<AgentID, Spare>, places: map<Proc, Place>, agent: AgentID, p: Proc, key: LaunchKey)
    requires ParkedExactly(spares, places) && agent in spares && spares[agent].proc.None? && p !in places
    ensures ParkedExactly(spares[agent := Spare(spares[agent].serial, Some(p), key)], places[p := Parked(agent, spares[agent].serial)])
  {
  }

  lemma NewPlace(claims: map<nat, Claim>, claimed: nat, discarding: set<Proc>, closing: set<Proc>, places: map<Proc, Place>,
                 procs: nat, p: Proc)
    requires p !in places && p == Proc(procs) && Numbered(places, procs)
    requires ClaimedExactly(claims, places, claimed) && DiscardedExactly(discarding, closing, places)
    ensures ClaimedExactly(claims, places[p := Discarding], claimed)
    ensures p !in discarding && DiscardedExactly(discarding + {p}, closing, places[p := Discarding])
    ensures Numbered(places[p := Discarding], procs + 1) && Settled(places, places[p := Discarding])
  {
  }

  lemma PlaceParked(claims: map<nat, Claim>, claimed: nat, discarding: set<Proc>, closing: set<Proc>, places: map<Proc, Place>,
                    procs: nat, agent: AgentID, serial: nat)
    requires Proc(procs) !in places && Numbered(places, procs)
    requires ClaimedExactly(claims, places, claimed) && DiscardedExactly(discarding, closing, places)
    ensures var more := places[Proc(procs) := Parked(agent, serial)];
      && ClaimedExactly(claims, more, claimed) && DiscardedExactly(discarding, closing, more)
      && Numbered(more, procs + 1) && Settled(places, more)
  {
  }

  lemma StillParkedNew(spares: map<AgentID, Spare>, places: map<Proc, Place>, p: Proc)
    requires ParkedExactly(spares, places) && p !in places
    ensures ParkedExactly(spares, places[p := Discarding])
  {
  }

  lemma MinusKeys(spares: map<AgentID, Spare>, agent: AgentID)
    ensures Minus(spares, agent).Keys == spares.Keys - {agent}
  {
  }

  function ParkedProcs(places: map<Proc, Place>): set<Proc> {
    set p | p in places && places[p].Parked?
  }

  function TakenAway(places: map<Proc, Place>): map<Proc, Place> {
    map p | p in places :: if places[p].Parked? then Closing else places[p]
  }

  lemma TakeAll(spares: map<AgentID, Spare>, spawning: map<nat, AgentID>, serials: nat, closed: bool, claims: map<nat, Claim>,
                claimed: nat, discarding: set<Proc>, closing: set<Proc>, places: map<Proc, Place>, procs: nat)
    requires ParkedExactly(spares, places) && ClaimedExactly(claims, places, claimed) && DiscardedExactly(discarding, closing, places)
    requires Starting(spares, spawning, serials, closed) && Numbered(places, procs)
    ensures ParkedExactly(map[], TakenAway(places)) && ClaimedExactly(claims, TakenAway(places), claimed)
    ensures DiscardedExactly(discarding, closing + ParkedProcs(places), TakenAway(places))
    ensures Starting(map[], spawning, serials, true) && Numbered(TakenAway(places), procs) && Settled(places, TakenAway(places))
  {
  }

  lemma Stays(places: map<Proc, Place>)
    ensures Settled(places, places)
  {
  }

  /** A process that was neither handed out nor discarded yet may move. */
  lemma Moves(places: map<Proc, Place>, procs: nat, p: Proc, to: Place)
    requires Numbered(places, procs) && p in places && !places[p].HandedOut? && !places[p].Gone?
    ensures Numbered(places[p := to], procs) && Settled(places, places[p := to])
  {
  }

  lemma NewProc(places: map<Proc, Place>, procs: nat)
    requires Numbered(places, procs)
    ensures Proc(procs) !in places
  {
  }

  lemma EndDiscarding(discarding: set<Proc>, closing: set<Proc>, places: map<Proc, Place>, p: Proc)
    requires DiscardedExactly(discarding, closing, places) && p in discarding
    ensures p in places && places[p] == Discarding && DiscardedExactly(discarding - {p}, closing, places[p := Gone])
  {
  }

  lemma EndClosing(discarding: set<Proc>, closing: set<Proc>, places: map<Proc, Place>, p: Proc)
    requires DiscardedExactly(discarding, closing, places) && p in closing
    ensures p in places && places[p] == Closing && DiscardedExactly(discarding, closing - {p}, places[p := Gone])
  {
  }

  lemma QuietFewer(on: bool, closed: bool, spares: map<AgentID, Spare>, closing: set<Proc>, agent: AgentID)
    requires Quiet(on, closed, spares, closing)
    ensures Quiet(on, closed, Minus(spares, agent), closing)
  {
  }

  lemma QuietClosing(on: bool, closed: bool, spares: map<AgentID, Spare>, closing: set<Proc>, p: Proc)
    requires Quiet(on, closed, spares, closing)
    ensures Quiet(on, closed, spares, closing - {p})
  {
  }

  lemma QuietMore(spares: map<AgentID, Spare>, closing: set<Proc>, agent: AgentID, sp: Spare)
    requires Quiet(true, false, spares, closing)
    ensures Quiet(true, false, spares[agent := sp], closing)
  {
  }

  lemma QuietChange(on: bool, closed: bool, spares: map<AgentID, Spare>, closing: set<Proc>, agent: AgentID, sp: Spare)
    requires Quiet(on, closed, spares, closing) && agent in spares
    ensures Quiet(on, closed, spares[agent := sp], closing)
  {
  }

  lemma QuietAll(closing: set<Proc>)
    ensures Quiet(false, true, map[], closing)
  {
  }

  lemma ParkNone(spares: map<AgentID, Spare>, places: map<Proc, Place>, agent: AgentID, sp: Spare)
    requires ParkedExactly(spares, places) && agent !in spares && sp.proc.None?
    ensures ParkedExactly(spares[agent := sp], places)
  {
  }

  lemma HasProc(spares: map<AgentID, Spare>, spawning: map<nat, AgentID>, serials: nat, closed: bool, agent: AgentID)
    requires Starting(spares, spawning, serials, closed) && agent in spares && spares[agent].serial !in spawning
    ensures spares[agent].proc.Some?
  {
  }

  /** While the supervisor is open a spare being started is still its agent's. */
  lemma Started(spares: map<AgentID, Spare>, spawning: map<nat, AgentID>, serials: nat, closed: bool, agent: AgentID, serial: nat,
                p: Proc, key: LaunchKey)
    requires Starting(spares, spawning, serials, closed) && serial in spawning && spawning[serial] == agent
    ensures !closed ==> agent in spares && spares[agent].serial == serial
    ensures agent in spares && spares[agent].serial == serial ==>
      && spares[agent].proc.None?
      && Starting(Minus(spares, agent), Minus(spawning, serial), serials, closed)
      && Starting(spares[agent := Spare(serial, Some(p), key)], Minus(spawning, serial), serials, closed)
    ensures !(agent in spares && spares[agent].serial == serial) ==> Starting(spares, Minus(spawning, serial), serials, closed)
  {
  }

  // ----- The wait group -----

  lemma CountedClaim(spawning: map<nat, AgentID>, claims: map<nat, Claim>, discarding: set<Proc>, c: Claim)
    requires c.id !in claims
    ensures Work(spawning, claims[c.id := c], discarding) == Work(spawning, claims, discarding) + 1
  {
  }

  lemma CountedUnclaim(spawning: map<nat, AgentID>, claims: map<nat, Claim>, discarding: set<Proc>, id: nat, p: Proc)
    requires id in claims
    ensures Work(spawning, Minus(claims, id), discarding) == Work(spawning, claims, discarding) - 1
    ensures p !in discarding ==> Work(spawning, Minus(claims, id), discarding + {p}) == Work(spawning, claims, discarding)
  {
    assert Minus(claims, id).Keys == claims.Keys - {id};
  }

  lemma CountedDiscard(spawning: map<nat, AgentID>, claims: map<nat, Claim>, discarding: set<Proc>, p: Proc)
    requires p !in discarding
    ensures Work(spawning, claims, discarding + {p}) == Work(spawning, claims, discarding) + 1
  {
  }

  lemma CountedDiscarded(spawning: map<nat, AgentID>, claims: map<nat, Claim>, discarding: set<Proc>, p: Proc)
    requires p in discarding
    ensures Work(spawning, claims, discarding - {p}) == Work(spawning, claims, discarding) - 1
  {
  }

  lemma CountedSpawn(spawning: map<nat, AgentID>, claims: map<nat, Claim>, discarding: set<Proc>, n: nat, agent: AgentID)
    requires n !in spawning
    ensures Work(spawning[n := agent], claims, discarding) == Work(spawning, claims, discarding) + 1
  {
  }

  lemma CountedSpawned(spawning: map<nat, AgentID>, claims: map<nat, Claim>, discarding: set<Proc>, n: nat, p: Proc)
    requires n in spawning
    ensures Work(Minus(spawning, n), claims, discarding) == Work(spawning, claims, discarding) - 1
    ensures p !in discarding ==> Work(Minus(spawning, n), claims, discarding + {p}) == Work(spawning, claims, discarding)
  {
    assert Minus(spawning, n).Keys == spawning.Keys - {n};
  }
}
