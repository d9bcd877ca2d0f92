/** internal/session/request_ids.go: the translation of client request ids, and the agent's own open requests. */
module RequestIds {
  import opened Names
  import opened Sequences

  const MAX_PENDING_AGENT_REQUESTS := 64

  datatype Kind = Prompt | Load | Plain

  /** A client request on its way to the agent. session is what a prompt drives or a load restores. */
  datatype PendingRequest = PendingRequest(gen: nat, clientID: string, owner: Key, kind: Kind, session: SessionID, startedAt: int)

  function PromptSession(p: PendingRequest): SessionID {
    if p.kind.Prompt? then p.session else NO_SESSION
  }

  /** How a forwarded request ended. */
  datatype Fate = Replied | Discarded | Taken

  datatype Attention = NoAttention | Permission | Elicitation

  /**
   * A request the agent sent. deliveredGen is the connection generation it was last written to, 0 for none;
   * serial tells apart requests that reuse a key, and is this model's own.
   */
  datatype AgentRequest = AgentRequest(key: Key, serial: nat, frame: string, session: SessionID, deliveredGen: nat,
                                       attention: Attention, attentionSession: SessionID)

  /** A frame on its way to the client. */
  datatype ClientFrame =
    | Response(id: string, line: string)
    | CatchUpReply(id: string, epoch: string, headSeq: int, gap: bool)
    | TurnEnded(session: SessionID)
    | AgentCall(serial: nat, line: string)
    | Live(session: SessionID, line: string)
    | Replayed(session: SessionID, line: string)
    | Restored(session: SessionID, line: string)
    | TurnResult(session: SessionID, result: string)
    | Other(line: string)

  // ----- The agent's open requests, on values -----

  function Named(key: Key): AgentRequest -> bool {
    (r: AgentRequest) => r.key == key
  }

  function Unnamed(key: Key): AgentRequest -> bool {
    (r: AgentRequest) => r.key != key
  }

  predicate DistinctKeys(reqs: seq<AgentRequest>) {
    forall i, j | 0 <= i < j < |reqs| :: reqs[i].key != reqs[j].key
  }

  /** A session's requests that connection gen has not been sent. */
  function Owed(gen: nat, session: SessionID): AgentRequest -> bool {
    (r: AgentRequest) => r.session == session && r.deliveredGen != gen
  }

  function MarkSent(reqs: seq<AgentRequest>, gen: nat, session: SessionID): (marked: seq<AgentRequest>)
    ensures |marked| == |reqs|
    ensures forall i | 0 <= i < |reqs| ::
      marked[i] == if Owed(gen, session)(reqs[i]) then reqs[i].(deliveredGen := gen) else reqs[i]
  {
    Map(reqs, (r: AgentRequest) => if Owed(gen, session)(r) then r.(deliveredGen := gen) else r)
  }

  function Outside(session: SessionID): AgentRequest -> bool {
    (r: AgentRequest) => r.session != session && r.attentionSession != session
  }

  /** Tracking a request forgets an older one with its key, and the oldest of all past the cap. */
  function Track(reqs: seq<AgentRequest>, req: AgentRequest): seq<AgentRequest> {
    var others := Keep(reqs, Unnamed(req.key));
    (if |others| >= MAX_PENDING_AGENT_REQUESTS then others[1..] else others) + [req]
  }

  function FrameOf(r: AgentRequest): ClientFrame {
    AgentCall(r.serial, r.frame)
  }

  /** What a reply that restores session still owes connection gen, oldest first. */
  function Redelivered(reqs: seq<AgentRequest>, gen: nat, session: SessionID): seq<ClientFrame> {
    Map(Keep(reqs, Owed(gen, session)), FrameOf)
  }

  lemma {:induction false} KeepDistinct(reqs: seq<AgentRequest>, p: AgentRequest -> bool)
    requires DistinctKeys(reqs)
    ensures DistinctKeys(Keep(reqs, p))
  {
    if reqs != [] {
      assert reqs == [reqs[0]] + reqs[1..];
      KeepDistinct(reqs[1..], p);
      var rest := Keep(reqs[1..], p);
      forall r | r in rest ensures r.key != reqs[0].key { KeepIn(reqs[1..], p, r); }
    }
  }

  lemma {:induction false} KeepKeys(reqs: seq<AgentRequest>, key: Key)
    ensures forall r | r in Keep(reqs, Unnamed(key)) :: r.key != key && r in reqs
  {
    forall r | r in Keep(reqs, Unnamed(key)) ensures r.key != key && r in reqs { KeepIn(reqs, Unnamed(key), r); }
  }

  /** Tracking keeps the list within its cap and its keys distinct. */
  lemma TrackOpen(reqs: seq<AgentRequest>, req: AgentRequest)
    requires Open(reqs)
    ensures Open(Track(reqs, req))
  {
    hide Keep;
    KeepDistinct(reqs, Unnamed(req.key));
    KeepKeys(reqs, req.key);
  }

  /** The newest is the one just tracked; before it is what was open under other keys, without the oldest if that was 64. */
  lemma TrackMeans(reqs: seq<AgentRequest>, req: AgentRequest)
    ensures var tracked := Track(reqs, req); var others := Keep(reqs, Unnamed(req.key));
      && tracked[|tracked| - 1] == req
      && tracked[..|tracked| - 1] == (if |others| < 64 then others else others[1..])
      && forall r :: r in others <==> r in reqs && r.key != req.key
  {
    hide Keep;
    UnnamedKept(reqs, req.key);
  }

  lemma MarkSentOpen(reqs: seq<AgentRequest>, gen: nat, session: SessionID)
    requires Open(reqs)
    ensures Open(MarkSent(reqs, gen, session))
  {
  }

  // ----- Deliveries -----

  ghost predicate SerialsDistinct(reqs: seq<AgentRequest>, tracked: nat) {
    && (forall i, j | 0 <= i < j < |reqs| :: reqs[i].serial != reqs[j].serial)
    && (forall i | 0 <= i < |reqs| :: reqs[i].serial < tracked)
  }

  /** Every delivery of r is on record, the last one in its deliveredGen. */
  ghost predicate OnRecord(r: AgentRequest, deliveries: set<(nat, nat)>) {
    && (forall g :: (r.serial, g) in deliveries ==> g <= r.deliveredGen)
    && (r.deliveredGen > 0 ==> (r.serial, r.deliveredGen) in deliveries)
  }

  /** Serials name tracked requests, and deliveries says which connections each was put on. */
  ghost predicate DeliveriesKnown(reqs: seq<AgentRequest>, deliveries: set<(nat, nat)>, tracked: nat) {
    && SerialsDistinct(reqs, tracked)
    && (forall d | d in deliveries :: d.0 < tracked)
    && (forall i | 0 <= i < |reqs| :: OnRecord(reqs[i], deliveries))
  }

  ghost function Deliver(reqs: seq<AgentRequest>, gen: nat, session: SessionID): set<(nat, nat)> {
    set i | 0 <= i < |reqs| && Owed(gen, session)(reqs[i]) :: (reqs[i].serial, gen)
  }

  lemma DeliverOnce(reqs: seq<AgentRequest>, deliveries: set<(nat, nat)>, tracked: nat, gen: nat, session: SessionID)
    requires DeliveriesKnown(reqs, deliveries, tracked)
    requires forall i | 0 <= i < |reqs| :: reqs[i].deliveredGen <= gen
    ensures Deliver(reqs, gen, session) !! deliveries
  {
    forall d | d in Deliver(reqs, gen, session) ensures d !in deliveries {
      var i :| 0 <= i < |reqs| && Owed(gen, session)(reqs[i]) && d == (reqs[i].serial, gen);
      assert OnRecord(reqs[i], deliveries);
    }
  }

  lemma DeliverRecord(reqs: seq<AgentRequest>, deliveries: set<(nat, nat)>, tracked: nat, gen: nat, session: SessionID, k: nat)
    requires DeliveriesKnown(reqs, deliveries, tracked) && k < |reqs| && gen > 0 && reqs[k].deliveredGen <= gen
    ensures OnRecord(MarkSent(reqs, gen, session)[k], deliveries + Deliver(reqs, gen, session))
  {
    var marked, more := MarkSent(reqs, gen, session)[k], Deliver(reqs, gen, session);
    assert OnRecord(reqs[k], deliveries);
    if Owed(gen, session)(reqs[k]) {
      assert (reqs[k].serial, gen) in more;
    } else {
      forall g ensures (marked.serial, g) !in more {
        if (marked.serial, g) in more {
          var i :| 0 <= i < |reqs| && Owed(gen, session)(reqs[i]) && marked.serial == reqs[i].serial;
        }
      }
    }
  }

  /** No request goes to one connection twice, and afterwards the connection is owed nothing of the session's. */
  lemma RedeliverOnce(reqs: seq<AgentRequest>, deliveries: set<(nat, nat)>, tracked: nat, gen: nat, session: SessionID)
    requires DeliveriesKnown(reqs, deliveries, tracked) && gen > 0
    requires forall i | 0 <= i < |reqs| :: reqs[i].deliveredGen <= gen
    ensures Deliver(reqs, gen, session) !! deliveries
    ensures DeliveriesKnown(MarkSent(reqs, gen, session), deliveries + Deliver(reqs, gen, session), tracked)
    ensures forall i | 0 <= i < |reqs| && reqs[i].session == session :: MarkSent(reqs, gen, session)[i].deliveredGen == gen
  {
    hide Deliver, OnRecord;
    DeliverOnce(reqs, deliveries, tracked, gen, session);
    forall k | 0 <= k < |reqs| ensures OnRecord(MarkSent(reqs, gen, session)[k], deliveries + Deliver(reqs, gen, session)) {
      DeliverRecord(reqs, deliveries, tracked, gen, session, k);
    }
    forall d | d in Deliver(reqs, gen, session) ensures d.0 < tracked { DeliverBelow(reqs, tracked, gen, session, d); }
  }

  lemma DeliverBelow(reqs: seq<AgentRequest>, tracked: nat, gen: nat, session: SessionID, d: (nat, nat))
    requires SerialsDistinct(reqs, tracked) && d in Deliver(reqs, gen, session)
    ensures d.0 < tracked
  {
  }

  lemma {:induction false} KeepSerials(reqs: seq<AgentRequest>, p: AgentRequest -> bool, tracked: nat)
    requires SerialsDistinct(reqs, tracked)
    ensures SerialsDistinct(Keep(reqs, p), tracked)
  {
    if reqs != [] {
      var rest := Keep(reqs[1..], p);
      KeepSerials(reqs[1..], p, tracked);
      forall r | r in rest ensures r.serial != reqs[0].serial { KeepIn(reqs[1..], p, r); }
      assert Keep(reqs, p) == (if p(reqs[0]) then [reqs[0]] else []) + rest;
    }
  }

  lemma KeepDeliveries(reqs: seq<AgentRequest>, p: AgentRequest -> bool, deliveries: set<(nat, nat)>, tracked: nat)
    requires DeliveriesKnown(reqs, deliveries, tracked)
    ensures DeliveriesKnown(Keep(reqs, p), deliveries, tracked)
  {
    hide OnRecord, SerialsDistinct, Keep;
    KeepSerials(reqs, p, tracked);
    var kept := Keep(reqs, p);
    forall i | 0 <= i < |kept| ensures OnRecord(kept[i], deliveries) {
      KeepIn(reqs, p, kept[i]);
      var j :| 0 <= j < |reqs| && reqs[j] == kept[i];
    }
  }

  // ----- The books: what was forwarded, what is pending, what ended -----

  ghost predicate Numbered(next: nat, issued: map<Key, PendingRequest>) {
    forall id :: id in issued <==> exists n :: 1 <= n <= next && id == AgentKey(n)
  }

  /** A forwarded request is pending or has ended, never both. */
  ghost predicate Conserved(pending: map<Key, PendingRequest>, issued: map<Key, PendingRequest>, fates: map<Key, Fate>) {
    && issued.Keys == pending.Keys + fates.Keys
    && pending.Keys !! fates.Keys
    && (forall id | id in pending :: pending[id] == issued[id])
  }

  ghost predicate Owned(issued: map<Key, PendingRequest>) {
    forall id | id in issued :: issued[id].owner == OwnerKey(issued[id].gen, issued[id].clientID)
  }

  /** Every owner entry points at a live request of that owner. */
  ghost predicate OwnersLive(pending: map<Key, PendingRequest>, byOwner: map<Key, Key>) {
    forall k | k in byOwner :: byOwner[k] in pending && pending[byOwner[k]].owner == k
  }

  ghost predicate Open(reqs: seq<AgentRequest>) {
    |reqs| <= MAX_PENDING_AGENT_REQUESTS && DistinctKeys(reqs)
  }

  lemma NextIsFresh(next: nat, issued: map<Key, PendingRequest>)
    requires Numbered(next, issued)
    ensures AgentKey(next + 1) !in issued
  {
    if AgentKey(next + 1) in issued {
      var n :| 1 <= n <= next && AgentKey(next + 1) == AgentKey(n);
      AgentKeyNames(n, next + 1);
    }
  }

  lemma IssueNumbered(next: nat, issued: map<Key, PendingRequest>, origin: PendingRequest)
    requires Numbered(next, issued)
    ensures Numbered(next + 1, issued[AgentKey(next + 1) := origin])
  {
    hide AgentKey;
    var more := issued[AgentKey(next + 1) := origin];
    forall id ensures id in more <==> exists n :: 1 <= n <= next + 1 && id == AgentKey(n) {
      if id in issued { var n :| 1 <= n <= next && id == AgentKey(n); }
    }
  }

  lemma Issue(pending: map<Key, PendingRequest>, byOwner: map<Key, Key>, issued: map<Key, PendingRequest>, fates: map<Key, Fate>,
              id: Key, origin: PendingRequest)
    requires Conserved(pending, issued, fates) && Owned(issued) && OwnersLive(pending, byOwner) && id !in issued
    requires origin.owner == OwnerKey(origin.gen, origin.clientID)
    ensures Conserved(pending[id := origin], issued[id := origin], fates) && Owned(issued[id := origin])
    ensures OwnersLive(pending[id := origin], byOwner[origin.owner := id])
  {
    hide OwnerKey;
  }

  /** ids are the prompts of p, each once, and prompts are what p held under them. */
  ghost predicate AllPrompts(p: map<Key, PendingRequest>, prompts: seq<PendingRequest>, ids: seq<Key>) {
    && (forall i, j | 0 <= i < j < |ids| :: ids[i] != ids[j])
    && (forall id :: id in ids <==> id in p && PromptSession(p[id]) != NO_SESSION)
    && |prompts| == |ids|
    && forall i | 0 <= i < |ids| :: prompts[i] == p[ids[i]]
  }

  function Without(p: map<Key, PendingRequest>, ids: seq<Key>): map<Key, PendingRequest> {
    map id | id in p && id !in ids :: p[id]
  }

  function TakenAll(fates: map<Key, Fate>, ids: seq<Key>): map<Key, Fate> {
    fates + map id | id in ids :: Taken
  }

  lemma WithoutNext(p: map<Key, PendingRequest>, ids: seq<Key>, id: Key)
    ensures Without(p, ids) - {id} == Without(p, ids + [id])
  {
    assert forall x :: x in ids + [id] <==> x in ids || x == id;
  }

  lemma TakenNext(fates: map<Key, Fate>, ids: seq<Key>, id: Key)
    ensures TakenAll(fates, ids)[id := Taken] == TakenAll(fates, ids + [id])
  {
    assert forall x :: x in ids + [id] <==> x in ids || x == id;
  }

  /** The loop over the pending requests: those of p already seen are either taken or no prompts. */
  ghost predicate Taking(p: map<Key, PendingRequest>, left: set<Key>, prompts: seq<PendingRequest>, ids: seq<Key>) {
    && (forall id | id in left :: id in p && id !in ids)
    && AllPrompts(map id | id in p && id !in left :: p[id], prompts, ids)
  }

  lemma TakingStarts(p: map<Key, PendingRequest>, fates: map<Key, Fate>)
    ensures Taking(p, p.Keys, [], []) && Without(p, []) == p && TakenAll(fates, []) == fates
  {
  }

  lemma TakingNext(p: map<Key, PendingRequest>, left: set<Key>, prompts: seq<PendingRequest>, ids: seq<Key>, id: Key)
    requires Taking(p, left, prompts, ids) && id in left
    ensures PromptSession(p[id]) == NO_SESSION ==> Taking(p, left - {id}, prompts, ids)
    ensures PromptSession(p[id]) != NO_SESSION ==> Taking(p, left - {id}, prompts + [p[id]], ids + [id])
  {
    assert forall x :: x in ids + [id] <==> x in ids || x == id;
  }

  lemma TakingDone(p: map<Key, PendingRequest>, prompts: seq<PendingRequest>, ids: seq<Key>)
    requires Taking(p, {}, prompts, ids)
    ensures AllPrompts(p, prompts, ids)
  {
    assert (map id | id in p && id !in {} :: p[id]) == p;
  }

  class RequestIDs {
    var next: nat
    var pending: map<Key, PendingRequest>
    var byOwner: map<Key, Key>
    var agentReqs: seq<AgentRequest>

    // Every request ever forwarded, and how each that is no longer pending ended.
    ghost var issued: map<Key, PendingRequest>
    ghost var fates: map<Key, Fate>
    // How many agent requests were ever tracked, and which connections each was put on.
    var tracked: nat
    ghost var deliveries: set<(nat, nat)>

    ghost predicate Valid()
      reads this
    {
      && Numbered(next, issued)
      && Conserved(pending, issued, fates)
      && Owned(issued)
      && OwnersLive(pending, byOwner)
      && Open(agentReqs)
      && DeliveriesKnown(agentReqs, deliveries, tracked)
    }

    constructor ()
      ensures Valid() && next == 0 && issued == map[] && agentReqs == [] && deliveries == {}
    {
      next, pending, byOwner, agentReqs := 0, map[], map[], [];
      issued, fates, tracked, deliveries := map[], map[], 0, {};
    }

    /** Gives a client request an id no earlier request ever had. */
    method Outbound(gen: nat, clientID: string, kind: Kind, session: SessionID, now: int) returns (agentID: Key)
      requires Valid()
      modifies this`next, this`pending, this`byOwner, this`issued
      ensures Valid()
      ensures agentID == AgentKey(next) && next == old(next) + 1 && agentID !in old(issued)
      ensures pending == old(pending)[agentID := PendingRequest(gen, clientID, OwnerKey(gen, clientID), kind, session, now)]
      ensures issued == old(issued)[agentID := pending[agentID]]
      ensures byOwner == old(byOwner)[OwnerKey(gen, clientID) := agentID]
    {
      hide AgentKey, OwnerKey, Numbered, Conserved, Owned, OwnersLive, Open, DeliveriesKnown;
      var origin := PendingRequest(gen, clientID, OwnerKey(gen, clientID), kind, session, now);
      NextIsFresh(next, issued);
      IssueNumbered(next, issued, origin);
      Issue(pending, byOwner, issued, fates, AgentKey(next + 1), origin);
      next := next + 1;
      agentID := AgentKey(next);
      pending := pending[agentID := origin];
      byOwner := byOwner[origin.owner := agentID];
      issued := issued[agentID := origin];
    }

    /**
     * Points a $/cancel_request at the request it names. What it finds is a live request of this very
     * connection that the client gave this very id.
     */
    method RetargetCancel(gen: nat, requestID: string) returns (target: Option<Key>)
      requires Valid()
      ensures target.Some? ==> target.value in pending
      ensures target.Some? ==> pending[target.value].gen == gen && pending[target.value].clientID == requestID
      ensures target.None? <==> OwnerKey(gen, requestID) !in byOwner
    {
      target := None;
      if OwnerKey(gen, requestID) in byOwner {
        var agentID := byOwner[OwnerKey(gen, requestID)];
        OwnerKeyNames(gen, pending[agentID].gen, requestID, pending[agentID].clientID);
        target := Some(agentID);
      }
    }

    /** Ends a pending request, once. */
    method Consume(id: Key, ghost fate: Fate)
      requires Valid() && id in pending
      modifies this`pending, this`byOwner, this`fates
      ensures Valid()
      ensures id !in old(fates) && fates == old(fates)[id := fate]
      ensures pending == old(pending) - {id} && byOwner == old(byOwner) - {old(pending)[id].owner}
    {
      hide Numbered, Owned, Open;
      byOwner := byOwner - {pending[id].owner};
      pending := pending - {id};
      fates := fates[id := fate];
    }

    /** A request that never reached the agent is forgotten; anything else is left alone. */
    method Discard(id: Key)
      requires Valid()
      modifies this`pending, this`byOwner, this`fates
      ensures Valid()
      ensures pending == old(pending) - {id}
      ensures fates == if id in old(pending) then old(fates)[id := Discarded] else old(fates)
      ensures id !in old(pending) ==> byOwner == old(byOwner)
    {
      hide Numbered, Conserved, Owned, OwnersLive, Open;
      if id in pending {
        Consume(id, Discarded);
      }
    }

    /**
     * Takes every pending prompt and nothing else. ids names them, each once, so each one's outcome is
     * recorded exactly once.
     */
    method TakePrompts() returns (prompts: seq<PendingRequest>, ghost ids: seq<Key>)
      requires Valid()
      modifies this`pending, this`byOwner, this`fates
      ensures Valid()
      ensures AllPrompts(old(pending), prompts, ids)
      ensures pending == Without(old(pending), ids)
      ensures fates == TakenAll(old(fates), ids)
    {
      hide Numbered, Conserved, Owned, OwnersLive, Open, AllPrompts, TakenAll;
      prompts, ids := [], [];
      var left := pending.Keys;
      TakingStarts(pending, fates);
      while left != {}
        invariant Valid() && Taking(old(pending), left, prompts, ids)
        invariant pending == Without(old(pending), ids)
        invariant fates == TakenAll(old(fates), ids)
        decreases left
      {
        var id :| id in left;
        assert id in pending && pending[id] == old(pending)[id];
        TakingNext(old(pending), left, prompts, ids, id);
        left := left - {id};
        if PromptSession(pending[id]) != NO_SESSION {
          WithoutNext(old(pending), ids, id);
          TakenNext(old(fates), ids, id);
          prompts := prompts + [pending[id]];
          ids := ids + [id];
          Consume(id, Taken);
        }
      }
      TakingDone(old(pending), prompts, ids);
    }

    lemma PendingIssued()
      requires Valid()
      ensures forall id | id in pending :: id in issued && pending[id] == issued[id]
    {
      hide Numbered, Owned, OwnersLive, Open, DeliveriesKnown;
    }

    lemma Serials()
      requires Valid()
      ensures SerialsDistinct(agentReqs, tracked)
    {
      hide Numbered, Conserved, Owned, OwnersLive, Open, OnRecord;
    }

    /** The translated request a reply answers, without consuming it. */
    method Peek(id: Option<Key>) returns (origin: Option<PendingRequest>)
      ensures origin == if id.Some? && id.value in pending then Some(pending[id.value]) else None
    {
      origin := if id.Some? && id.value in pending then Some(pending[id.value]) else None;
    }

    /** The chat an elicitation belongs to: its own session, or that of the pending prompt it names. */
    function Asked(session: SessionID, requestID: Option<Key>): SessionID
      reads this`pending
    {
      if session == NO_SESSION && requestID.Some? && requestID.value in pending then PromptSession(pending[requestID.value]) else session
    }

    /** Which chat an agent request waits on a human for, if any. */
    function AttentionFor(ask: Attention, session: SessionID, requestID: Option<Key>): (Attention, SessionID)
      reads this`pending
    {
      match ask
      case NoAttention => (NoAttention, NO_SESSION)
      case Permission => (Permission, session)
      case Elicitation =>
        var chat := if session == NO_SESSION && requestID.Some? && requestID.value in pending
                    then PromptSession(pending[requestID.value]) else session;
        (if chat == NO_SESSION then NoAttention else Elicitation, chat)
    }

    lemma AttentionMeans(ask: Attention, session: SessionID, requestID: Option<Key>)
      ensures AttentionFor(ask, session, requestID)
        == (if ask.Elicitation? && Asked(session, requestID) == NO_SESSION then NoAttention else ask,
            match ask case NoAttention => NO_SESSION case Permission => session case Elicitation => Asked(session, requestID))
    {
    }

    /** Remembers an agent request, just written to connection deliveredGen or to none. */
    method TrackAgentRequest(key: Key, frame: string, session: SessionID, ask: Attention, requestID: Option<Key>, deliveredGen: nat)
      requires Valid()
      modifies this`agentReqs, this`tracked, this`deliveries
      ensures Valid() && tracked == old(tracked) + 1
      ensures var (attention, chat) := AttentionFor(ask, session, requestID);
        agentReqs == Track(old(agentReqs), AgentRequest(key, old(tracked), frame, session, deliveredGen, attention, chat))
      ensures |agentReqs| > 0 && agentReqs[|agentReqs| - 1] == AgentRequest(key, old(tracked), frame, session, deliveredGen,
        if ask.Elicitation? && Asked(session, requestID) == NO_SESSION then NoAttention else ask,
        match ask case NoAttention => NO_SESSION case Permission => session case Elicitation => Asked(session, requestID))
      ensures (forall g :: (old(tracked), g) !in old(deliveries))
      ensures deliveries == old(deliveries) + if deliveredGen > 0 then {(old(tracked), deliveredGen)} else {}
    {
      hide Numbered, Conserved, Owned, OwnersLive, DeliveriesKnown, Keep, AttentionFor, Asked;
      AttentionMeans(ask, session, requestID);
      var (attention, chat) := AttentionFor(ask, session, requestID);
      var req := AgentRequest(key, tracked, frame, session, deliveredGen, attention, chat);
      TrackOpen(agentReqs, req);
      TrackDelivery(agentReqs, req, deliveries, tracked);
      TrackForgets(agentReqs, req);
      var _ := DropAgentRequest(key);
      if |agentReqs| >= MAX_PENDING_AGENT_REQUESTS {
        agentReqs := agentReqs[1..];
      }
      agentReqs := agentReqs + [req];
      deliveries := deliveries + if deliveredGen > 0 then {(tracked, deliveredGen)} else {};
      tracked := tracked + 1;
    }

    /** Forgets the request with key; keys are distinct, so there is at most one. */
    method DropAgentRequest(key: Key) returns (found: bool)
      requires DistinctKeys(agentReqs)
      modifies this`agentReqs
      ensures agentReqs == Keep(old(agentReqs), Unnamed(key))
      ensures found <==> exists r :: r in old(agentReqs) && r.key == key
    {
      hide Keep;
      found := false;
      var i := 0;
      while i < |agentReqs|
        invariant 0 <= i <= |agentReqs| && agentReqs == old(agentReqs)
        invariant forall j | 0 <= j < i :: agentReqs[j].key != key
      {
        if agentReqs[i].key == key {
          CutOne(agentReqs, i, key);
          assert agentReqs[i] in old(agentReqs);
          agentReqs := agentReqs[..i] + agentReqs[i + 1..];
          return true;
        }
        i := i + 1;
      }
      KeepAll(agentReqs, Unnamed(key));
    }

    /** The client answered the agent's request. */
    method AnswerAgentRequest(key: Key)
      requires Valid()
      modifies this`agentReqs
      ensures Valid() && agentReqs == Keep(old(agentReqs), Unnamed(key))
      ensures forall r :: r in agentReqs <==> r in old(agentReqs) && r.key != key
    {
      hide Numbered, Conserved, Owned, OwnersLive, DeliveriesKnown, Keep;
      UnnamedKept(agentReqs, key);
      KeepDistinct(agentReqs, Unnamed(key));
      KeepDeliveries(agentReqs, Unnamed(key), deliveries, tracked);
      KeepKeys(agentReqs, key);
      var _ := DropAgentRequest(key);
    }

    method DropSessionAgentRequests(session: SessionID)
      requires Valid()
      modifies this`agentReqs
      ensures Valid() && agentReqs == Keep(old(agentReqs), Outside(session))
      ensures forall r :: r in agentReqs <==> r in old(agentReqs) && r.session != session && r.attentionSession != session
    {
      hide Numbered, Conserved, Owned, OwnersLive, DeliveriesKnown, Keep;
      OutsideKept(agentReqs, session);
      var kept, i := [], 0;
      KeepDistinct(agentReqs, Outside(session));
      KeepDeliveries(agentReqs, Outside(session), deliveries, tracked);
      KeepEmpty(Outside(session));
      assert agentReqs[..0] == [];
      while i < |agentReqs|
        invariant agentReqs == old(agentReqs) && 0 <= i <= |agentReqs| && kept == Keep(agentReqs[..i], Outside(session))
      {
        KeepNext(agentReqs, i, Outside(session));
        if agentReqs[i].session != session && agentReqs[i].attentionSession != session {
          kept := kept + [agentReqs[i]];
        }
        i := i + 1;
      }
      assert agentReqs[..|agentReqs|] == agentReqs;
      agentReqs := kept;
    }

    /**
     * Appends every unanswered request of session that connection gen has not been sent, oldest first, and
     * marks it sent. gen is the current connection: nothing was delivered to a later one.
     */
    method Redeliver(gen: nat, session: SessionID, frames: seq<ClientFrame>) returns (out: seq<ClientFrame>)
      requires Valid() && gen > 0
      requires forall i | 0 <= i < |agentReqs| :: agentReqs[i].deliveredGen <= gen
      modifies this`agentReqs, this`deliveries
      ensures Valid()
      ensures out == frames + Redelivered(old(agentReqs), gen, session)
      ensures agentReqs == MarkSent(old(agentReqs), gen, session)
      ensures |agentReqs| == |old(agentReqs)| && forall i | 0 <= i < |agentReqs| ::
        agentReqs[i] == if old(agentReqs)[i].session == session then old(agentReqs)[i].(deliveredGen := gen) else old(agentReqs)[i]
      ensures forall f :: f in out[|frames|..] <==>
        exists r :: r in old(agentReqs) && r.session == session && r.deliveredGen != gen && f == AgentCall(r.serial, r.frame)
      ensures Deliver(old(agentReqs), gen, session) !! old(deliveries)
      ensures deliveries == old(deliveries) + Deliver(old(agentReqs), gen, session)
    {
      hide Numbered, Conserved, Owned, OwnersLive, DeliveriesKnown, Keep, Map, Open;
      MarkSentOpen(agentReqs, gen, session);
      RedeliveredAre(agentReqs, gen, session);
      RedeliverOnce(agentReqs, deliveries, tracked, gen, session);
      ghost var reqs := agentReqs;
      out := frames;
      var i := 0;
      assert reqs[..0] == [];
      RedeliveredNone(gen, session);
      while i < |agentReqs|
        invariant 0 <= i <= |agentReqs| == |reqs| && deliveries == old(deliveries)
        invariant forall j | 0 <= j < i :: agentReqs[j] == MarkSent(reqs, gen, session)[j]
        invariant forall j | i <= j < |reqs| :: agentReqs[j] == reqs[j]
        invariant out == frames + Redelivered(reqs[..i], gen, session)
      {
        RedeliveredNext(reqs, i, gen, session);
        if agentReqs[i].session == session && agentReqs[i].deliveredGen != gen {
          out := out + [FrameOf(agentReqs[i])];
          agentReqs := agentReqs[i := agentReqs[i].(deliveredGen := gen)];
        }
        i := i + 1;
      }
      assert reqs[..|reqs|] == reqs;
      assert agentReqs == MarkSent(reqs, gen, session);
      deliveries := deliveries + Deliver(reqs, gen, session);
    }

    /**
     * Routes an agent frame that may answer a translated request. The connection that asked gets its own id
     * back; for an earlier connection the reply is withheld, and a prompt's becomes a turn_ended notice.
     */
    method Reply(currentGen: nat, id: Option<Key>, frames: seq<ClientFrame>) returns (out: seq<ClientFrame>)
      requires Valid()
      modifies this`pending, this`byOwner, this`fates, this`agentReqs
      ensures Valid()
      ensures !Answers(old(pending), id, frames) ==>
        && out == frames && pending == old(pending) && fates == old(fates) && agentReqs == old(agentReqs)
      ensures Answers(old(pending), id, frames) ==>
        && id.value !in old(fates) && fates == old(fates)[id.value := Replied]
        && pending == old(pending) - {id.value}
        && agentReqs == AfterTurn(old(agentReqs), PromptSession(old(pending)[id.value]))
        && out == Routed(old(pending)[id.value], currentGen, frames)
      ensures Answers(old(pending), id, frames) && old(pending)[id.value].gen != currentGen ==>
        out == if old(pending)[id.value].kind.Prompt? && old(pending)[id.value].session != NO_SESSION
               then [TurnEnded(old(pending)[id.value].session)] else []
      ensures Answers(old(pending), id, frames) && old(pending)[id.value].gen == currentGen ==>
        var last := |frames| - 1;
        && |out| == |frames| && out[..last] == frames[..last]
        && out[last] == if frames[last].Response? then Response(old(pending)[id.value].clientID, frames[last].line) else frames[last]
      ensures Answers(old(pending), id, frames) && old(pending)[id.value].kind.Prompt? && old(pending)[id.value].session != NO_SESSION ==>
        forall r :: r in agentReqs <==>
          r in old(agentReqs) && r.session != old(pending)[id.value].session && r.attentionSession != old(pending)[id.value].session
      ensures Answers(old(pending), id, frames) && (!old(pending)[id.value].kind.Prompt? || old(pending)[id.value].session == NO_SESSION) ==>
        agentReqs == old(agentReqs)
    {
      hide Numbered, Conserved, Owned, OwnersLive, DeliveriesKnown, Keep;
      if id.None? || frames == [] || id.value !in pending {
        return frames;
      }
      var origin := pending[id.value];
      Consume(id.value, Replied);
      if PromptSession(origin) != NO_SESSION {
        OutsideKept(agentReqs, PromptSession(origin));
        DropSessionAgentRequests(PromptSession(origin));
      }
      if origin.gen != currentGen {
        out := if PromptSession(origin) == NO_SESSION then [] else [TurnEnded(PromptSession(origin))];
      } else {
        out := frames[|frames| - 1 := Readdressed(frames[|frames| - 1], origin.clientID)];
      }
    }

    /** When the latest prompt of session still awaiting its reply arrived. */
    method PromptStartedAt(session: SessionID) returns (startedAt: Option<int>)
      ensures startedAt.None? <==> forall id | id in pending :: PromptSession(pending[id]) != session
      ensures startedAt.Some? ==> exists id :: id in pending && PromptSession(pending[id]) == session && pending[id].startedAt == startedAt.value
      ensures startedAt.Some? ==> forall id | id in pending && PromptSession(pending[id]) == session :: pending[id].startedAt <= startedAt.value
    {
      startedAt := None;
      var left := pending.Keys;
      while left != {}
        invariant left <= pending.Keys
        invariant startedAt.None? <==> forall id | id in pending - left :: PromptSession(pending[id]) != session
        invariant startedAt.Some? ==> exists id :: id in pending && PromptSession(pending[id]) == session && pending[id].startedAt == startedAt.value
        invariant startedAt.Some? ==> forall id | id in pending - left && PromptSession(pending[id]) == session :: pending[id].startedAt <= startedAt.value
        decreases left
      {
        var id :| id in left;
        left := left - {id};
        if PromptSession(pending[id]) == session && (startedAt.None? || startedAt.value < pending[id].startedAt) {
          startedAt := Some(pending[id].startedAt);
        }
      }
    }

    /**
     * Every session with a prompt awaiting its reply, once: when the latest of its prompts arrived, and which
     * kinds of human input the agent waits for there.
     */
    method LiveTurns() returns (out: seq<LiveTurn>)
      ensures forall i, j | 0 <= i < j < |out| :: out[i].session != out[j].session
      ensures forall session :: Lists(out, session) <==> Prompted(pending, session)
      ensures forall t | t in out :: Latest(pending, t.session, t.startedAt) && t.attention == Kinds(agentReqs, t.session)
    {
      hide Kinds, Latest;
      var startedAt: map<SessionID, int> := map[];
      var order: seq<SessionID> := [];
      var left := pending.Keys;
      LiveStarts(pending);
      while left != {}
        invariant left <= pending.Keys && Tallied(Seen(pending, left), startedAt, order)
        decreases left
      {
        var id :| id in left;
        var session := PromptSession(pending[id]);
        LiveNext(pending, left, id, startedAt, order);
        left := left - {id};
        if session != NO_SESSION {
          if session !in startedAt {
            order := order + [session];
            startedAt := startedAt[session := pending[id].startedAt];
          } else if startedAt[session] < pending[id].startedAt {
            startedAt := startedAt[session := pending[id].startedAt];
          }
        }
      }
      assert Seen(pending, left) == pending;
      out := [];
      var i := 0;
      while i < |order|
        invariant 0 <= i <= |order| && |out| == i
        invariant forall j | 0 <= j < i :: order[j] in startedAt && out[j] == LiveTurn(order[j], startedAt[order[j]], Kinds(agentReqs, order[j]))
      {
        assert order[i] in startedAt;
        var kinds := SortedKinds(order[i]);
        out := out + [LiveTurn(order[i], startedAt[order[i]], kinds)];
        i := i + 1;
      }
      LiveEnds(pending, startedAt, order, out);
    }

    /** The kinds of input a session's agent requests wait for, each once and in order. */
    method SortedKinds(session: SessionID) returns (kinds: seq<Attention>)
      ensures kinds == Kinds(agentReqs, session)
    {
      var permission, elicitation := false, false;
      for i := 0 to |agentReqs|
        invariant permission <==> exists j :: 0 <= j < i && WaitsFor(agentReqs[j], session, Permission)
        invariant elicitation <==> exists j :: 0 <= j < i && WaitsFor(agentReqs[j], session, Elicitation)
      {
        if agentReqs[i].attentionSession == session {
          permission := permission || agentReqs[i].attention == Permission;
          elicitation := elicitation || agentReqs[i].attention == Elicitation;
        }
      }
      kinds := (if elicitation then [Elicitation] else []) + (if permission then [Permission] else []);
    }
  }

  datatype LiveTurn = LiveTurn(session: SessionID, startedAt: int, attention: seq<Attention>)

  predicate WaitsFor(r: AgentRequest, session: SessionID, kind: Attention) {
    r.attentionSession == session && r.attention == kind
  }

  function Kinds(reqs: seq<AgentRequest>, session: SessionID): seq<Attention> {
    (if exists j :: 0 <= j < |reqs| && WaitsFor(reqs[j], session, Elicitation) then [Elicitation] else [])
    + (if exists j :: 0 <= j < |reqs| && WaitsFor(reqs[j], session, Permission) then [Permission] else [])
  }

  predicate Lists(out: seq<LiveTurn>, session: SessionID) {
    exists t :: t in out && t.session == session
  }

  predicate Prompted(pending: map<Key, PendingRequest>, session: SessionID) {
    session != NO_SESSION && exists id :: id in pending && PromptSession(pending[id]) == session
  }

  /** at is when the latest of session's prompts arrived. */
  ghost predicate Latest(pending: map<Key, PendingRequest>, session: SessionID, at: int) {
    && (exists id :: id in pending && PromptSession(pending[id]) == session && pending[id].startedAt == at)
    && (forall id | id in pending && PromptSession(pending[id]) == session :: pending[id].startedAt <= at)
  }

  lemma PromptedMeans(pending: map<Key, PendingRequest>, session: SessionID)
    ensures Prompted(pending, session) <==>
      session != NO_SESSION && exists id :: id in pending && pending[id].kind.Prompt? && pending[id].session == session
  {
    forall id | id in pending && session != NO_SESSION
      ensures PromptSession(pending[id]) == session <==> pending[id].kind.Prompt? && pending[id].session == session {
    }
  }

  lemma WaitsMeans(reqs: seq<AgentRequest>, session: SessionID, kind: Attention)
    ensures (exists j :: 0 <= j < |reqs| && WaitsFor(reqs[j], session, kind))
      <==> exists r :: r in reqs && r.attentionSession == session && r.attention == kind
  {
    if j :| 0 <= j < |reqs| && WaitsFor(reqs[j], session, kind) { assert reqs[j] in reqs; }
  }

  /** A listed turn is of a prompted session: its latest prompt, and the kinds of input its agent's requests wait for, sorted. */
  lemma LiveMeans(pending: map<Key, PendingRequest>, reqs: seq<AgentRequest>, t: LiveTurn)
    requires Prompted(pending, t.session) && Latest(pending, t.session, t.startedAt) && t.attention == Kinds(reqs, t.session)
    ensures t.session != NO_SESSION
    ensures exists id :: id in pending && pending[id].kind.Prompt? && pending[id].session == t.session && pending[id].startedAt == t.startedAt
    ensures forall id | id in pending && pending[id].kind.Prompt? && pending[id].session == t.session :: pending[id].startedAt <= t.startedAt
    ensures Permission in t.attention <==> exists r :: r in reqs && r.attentionSession == t.session && r.attention == Permission
    ensures Elicitation in t.attention <==> exists r :: r in reqs && r.attentionSession == t.session && r.attention == Elicitation
    ensures t.attention == [] || t.attention == [Permission] || t.attention == [Elicitation] || t.attention == [Elicitation, Permission]
  {
    WaitsMeans(reqs, t.session, Permission);
    WaitsMeans(reqs, t.session, Elicitation);
    hide WaitsFor;
    forall id | id in pending ensures PromptSession(pending[id]) == t.session <==> pending[id].kind.Prompt? && pending[id].session == t.session {
    }
  }

  function Seen(pending: map<Key, PendingRequest>, left: set<Key>): map<Key, PendingRequest> {
    map id | id in pending && id !in left :: pending[id]
  }

  ghost predicate Tallied(pending: map<Key, PendingRequest>, startedAt: map<SessionID, int>, order: seq<SessionID>) {
    && (forall i, j | 0 <= i < j < |order| :: order[i] != order[j])
    && (forall session :: session in order <==> session in startedAt)
    && (forall session :: session in startedAt <==> Prompted(pending, session))
    && (forall session | session in startedAt :: Latest(pending, session, startedAt[session]))
  }

  lemma LiveStarts(pending: map<Key, PendingRequest>)
    ensures Tallied(Seen(pending, pending.Keys), map[], [])
  {
  }

  lemma LiveOther(seen: map<Key, PendingRequest>, id: Key, p: PendingRequest, startedAt: map<SessionID, int>, order: seq<SessionID>)
    requires id !in seen && Tallied(seen, startedAt, order) && PromptSession(p) == NO_SESSION
    ensures Tallied(seen[id := p], startedAt, order)
  {
    hide Latest, Prompted;
    forall session ensures Prompted(seen[id := p], session) <==> Prompted(seen, session) { PromptedMore(seen, id, p, session); }
    forall session | session in startedAt ensures session != NO_SESSION && Latest(seen[id := p], session, startedAt[session]) {
      PromptedSome(seen, session);
      LatestMore(seen, id, p, session, startedAt[session]);
    }
  }

  lemma PromptedSome(pending: map<Key, PendingRequest>, session: SessionID)
    requires Prompted(pending, session)
    ensures session != NO_SESSION
  {
  }

  lemma LiveFirst(seen: map<Key, PendingRequest>, id: Key, p: PendingRequest, startedAt: map<SessionID, int>, order: seq<SessionID>)
    requires id !in seen && Tallied(seen, startedAt, order) && PromptSession(p) != NO_SESSION && PromptSession(p) !in startedAt
    ensures Tallied(seen[id := p], startedAt[PromptSession(p) := p.startedAt], order + [PromptSession(p)])
  {
    hide Latest, Prompted;
    var more, session := startedAt[PromptSession(p) := p.startedAt], PromptSession(p);
    forall s ensures Prompted(seen[id := p], s) <==> Prompted(seen, s) || s == session { PromptedMore(seen, id, p, s); }
    forall s | s in startedAt ensures Latest(seen[id := p], s, startedAt[s]) { LatestMore(seen, id, p, s, startedAt[s]); }
    LatestNew(seen, id, p);
    NextInOrder(order, session);
  }

  lemma LiveAgain(seen: map<Key, PendingRequest>, id: Key, p: PendingRequest, startedAt: map<SessionID, int>, order: seq<SessionID>)
    requires id !in seen && Tallied(seen, startedAt, order) && PromptSession(p) in startedAt
    ensures var session := PromptSession(p);
      Tallied(seen[id := p], startedAt[session := if startedAt[session] < p.startedAt then p.startedAt else startedAt[session]], order)
  {
    hide Latest, Prompted;
    forall s ensures Prompted(seen[id := p], s) <==> Prompted(seen, s) {
      PromptedMore(seen, id, p, s);
      if s == PromptSession(p) { PromptedSome(seen, s); }
    }
    forall s | s in startedAt
      ensures Latest(seen[id := p], s, if s == PromptSession(p) && startedAt[s] < p.startedAt then p.startedAt else startedAt[s]) {
      LatestMore(seen, id, p, s, startedAt[s]);
    }
  }

  /** One more pending request, seen in any order. */
  lemma LiveNext(pending: map<Key, PendingRequest>, left: set<Key>, id: Key, startedAt: map<SessionID, int>, order: seq<SessionID>)
    requires id in left && left <= pending.Keys && Tallied(Seen(pending, left), startedAt, order)
    ensures var p := pending[id]; var session := PromptSession(p); var more := Seen(pending, left - {id});
      && (session == NO_SESSION ==> Tallied(more, startedAt, order))
      && (session != NO_SESSION && session !in startedAt ==> Tallied(more, startedAt[session := p.startedAt], order + [session]))
      && (session != NO_SESSION && session in startedAt ==>
            Tallied(more, startedAt[session := if startedAt[session] < p.startedAt then p.startedAt else startedAt[session]], order))
  {
    var seen, p := Seen(pending, left), pending[id];
    assert Seen(pending, left - {id}) == seen[id := p] && id !in seen;
    hide Seen, Tallied;
    if PromptSession(p) == NO_SESSION {
      LiveOther(seen, id, p, startedAt, order);
    } else if PromptSession(p) !in startedAt {
      LiveFirst(seen, id, p, startedAt, order);
    } else {
      LiveAgain(seen, id, p, startedAt, order);
    }
  }

  lemma NextInOrder(order: seq<SessionID>, session: SessionID)
    ensures forall s :: s in order + [session] <==> s in order || s == session
    ensures session !in order && (forall i, j | 0 <= i < j < |order| :: order[i] != order[j]) ==>
      forall i, j | 0 <= i < j < |order + [session]| :: (order + [session])[i] != (order + [session])[j]
  {
  }

  lemma PromptedMore(seen: map<Key, PendingRequest>, id: Key, p: PendingRequest, session: SessionID)
    requires id !in seen
    ensures Prompted(seen[id := p], session) <==> Prompted(seen, session) || (session == PromptSession(p) && session != NO_SESSION)
  {
    var more := seen[id := p];
    if Prompted(seen, session) {
      var i :| i in seen && PromptSession(seen[i]) == session;
      assert i in more && more[i] == seen[i];
    }
    if session == PromptSession(p) { assert id in more && more[id] == p; }
  }

  lemma LatestMore(seen: map<Key, PendingRequest>, id: Key, p: PendingRequest, session: SessionID, at: int)
    requires id !in seen && Latest(seen, session, at)
    ensures Latest(seen[id := p], session, if session == PromptSession(p) && at < p.startedAt then p.startedAt else at)
  {
    var more := seen[id := p];
    var i :| i in seen && PromptSession(seen[i]) == session && seen[i].startedAt == at;
    assert i in more && more[i] == seen[i] && id in more && more[id] == p;
  }

  lemma LatestNew(seen: map<Key, PendingRequest>, id: Key, p: PendingRequest)
    requires id !in seen && !Prompted(seen, PromptSession(p)) && PromptSession(p) != NO_SESSION
    ensures Latest(seen[id := p], PromptSession(p), p.startedAt)
  {
    var more := seen[id := p];
    assert id in more && more[id] == p;
  }

  lemma LiveEnds(pending: map<Key, PendingRequest>, startedAt: map<SessionID, int>, order: seq<SessionID>, out: seq<LiveTurn>)
    requires Tallied(pending, startedAt, order) && |out| == |order|
    requires forall j | 0 <= j < |order| :: order[j] in startedAt && out[j].session == order[j] && out[j].startedAt == startedAt[order[j]]
    ensures forall session :: Lists(out, session) <==> Prompted(pending, session)
    ensures forall t | t in out :: Latest(pending, t.session, t.startedAt)
  {
    hide Latest;
    forall session ensures Lists(out, session) <==> session in startedAt {
      if session in startedAt {
        var j :| 0 <= j < |order| && order[j] == session;
        assert out[j] in out;
      }
    }
  }

  /** frames answer the forwarded request id. */
  predicate Answers(pending: map<Key, PendingRequest>, id: Option<Key>, frames: seq<ClientFrame>) {
    id.Some? && frames != [] && id.value in pending
  }

  function AfterTurn(reqs: seq<AgentRequest>, session: SessionID): seq<AgentRequest> {
    if session == NO_SESSION then reqs else Keep(reqs, Outside(session))
  }

  lemma UnnamedKept(reqs: seq<AgentRequest>, key: Key)
    ensures forall r :: r in Keep(reqs, Unnamed(key)) <==> r in reqs && r.key != key
  {
    hide Keep;
    forall r ensures r in Keep(reqs, Unnamed(key)) <==> r in reqs && r.key != key { KeepIn(reqs, Unnamed(key), r); }
  }

  lemma OutsideKept(reqs: seq<AgentRequest>, session: SessionID)
    ensures forall r :: r in Keep(reqs, Outside(session)) <==> r in reqs && r.session != session && r.attentionSession != session
  {
    hide Keep;
    forall r ensures r in Keep(reqs, Outside(session)) <==> r in reqs && r.session != session && r.attentionSession != session {
      KeepIn(reqs, Outside(session), r);
    }
  }

  /** A response under the id its client gave the request. */
  function Readdressed(f: ClientFrame, clientID: string): ClientFrame {
    if f.Response? then Response(clientID, f.line) else f
  }

  function Routed(origin: PendingRequest, currentGen: nat, frames: seq<ClientFrame>): seq<ClientFrame>
    requires frames != []
  {
    if origin.gen == currentGen then frames[|frames| - 1 := Readdressed(frames[|frames| - 1], origin.clientID)]
    else if PromptSession(origin) == NO_SESSION then []
    else [TurnEnded(PromptSession(origin))]
  }

  lemma KeepEmpty(p: AgentRequest -> bool)
    ensures Keep([], p) == []
  {
  }

  lemma CutOne(reqs: seq<AgentRequest>, i: nat, key: Key)
    requires i < |reqs| && reqs[i].key == key && DistinctKeys(reqs)
    ensures Keep(reqs, Unnamed(key)) == reqs[..i] + reqs[i + 1..]
  {
    KeepCut(reqs, i, Unnamed(key));
  }

  /** What is redelivered: the session's requests the connection was not sent, and no other. */
  lemma RedeliveredAre(reqs: seq<AgentRequest>, gen: nat, session: SessionID)
    ensures forall f :: f in Redelivered(reqs, gen, session) <==>
      exists r :: r in reqs && r.session == session && r.deliveredGen != gen && f == AgentCall(r.serial, r.frame)
  {
    hide Keep;
    var owed, frames := Keep(reqs, Owed(gen, session)), Redelivered(reqs, gen, session);
    forall f ensures f in frames <==> exists r :: r in reqs && r.session == session && r.deliveredGen != gen && f == AgentCall(r.serial, r.frame) {
      if f in frames {
        var i :| 0 <= i < |frames| && frames[i] == f;
        KeepIn(reqs, Owed(gen, session), owed[i]);
      }
      if r :| r in reqs && r.session == session && r.deliveredGen != gen && f == AgentCall(r.serial, r.frame) {
        KeepIn(reqs, Owed(gen, session), r);
        var i :| 0 <= i < |owed| && owed[i] == r;
        assert frames[i] == f;
      }
    }
  }

  lemma RedeliveredNone(gen: nat, session: SessionID)
    ensures Redelivered([], gen, session) == []
  {
  }

  lemma RedeliveredNext(reqs: seq<AgentRequest>, i: nat, gen: nat, session: SessionID)
    requires i < |reqs|
    ensures Redelivered(reqs[..i + 1], gen, session)
         == Redelivered(reqs[..i], gen, session) + if Owed(gen, session)(reqs[i]) then [FrameOf(reqs[i])] else []
  {
    hide Keep;
    KeepNext(reqs, i, Owed(gen, session));
    MapConcat(Keep(reqs[..i], Owed(gen, session)), if Owed(gen, session)(reqs[i]) then [reqs[i]] else [], FrameOf);
  }

  lemma TrackDelivery(reqs: seq<AgentRequest>, req: AgentRequest, deliveries: set<(nat, nat)>, tracked: nat)
    requires DeliveriesKnown(reqs, deliveries, tracked) && req.serial == tracked
    ensures forall g :: (tracked, g) !in deliveries
    ensures DeliveriesKnown(Track(reqs, req), deliveries + if req.deliveredGen > 0 then {(tracked, req.deliveredGen)} else {}, tracked + 1)
  {
    hide Keep;
    KeepDeliveries(reqs, Unnamed(req.key), deliveries, tracked);
    var others := Keep(reqs, Unnamed(req.key));
    var more := deliveries + if req.deliveredGen > 0 then {(tracked, req.deliveredGen)} else {};
    forall i | 0 <= i < |others| ensures OnRecord(others[i], more) {
      assert OnRecord(others[i], deliveries);
    }
    assert OnRecord(req, more);
  }

  lemma TrackForgets(reqs: seq<AgentRequest>, req: AgentRequest)
    ensures Track(reqs, req) != [] && Track(reqs, req)[|Track(reqs, req)| - 1] == req
  {
  }
}
