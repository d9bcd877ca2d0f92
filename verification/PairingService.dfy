/** internal/pairing/service.go: the service itself, its challenges and the calls that change its credentials. */
module PairingService {
  import opened Names
  import opened Sequences
  import opened Pairing

  /** How long a challenge can be completed, and how long a finished one can still be asked about, in seconds. */
  const CHALLENGE_TTL := 120
  const CHALLENGE_HISTORY_TTL := 600

  datatype ChallengeID = ChallengeID(n: nat)

  datatype Code = Code(digits: string)

  datatype ChallengeState = Active | Completed | Cancelled | Lapsed

  datatype Challenge = Challenge(code: Code, expiresAt: int, state: ChallengeState, device: Option<DeviceID>, changedAt: int)

  datatype Started = Open(id: ChallengeID, challenge: Challenge) | NotArmed

  /** When no other window is configured, a local approval arms the gateway for two minutes. */
  const DEFAULT_ARM_TTL := 120

  /** What decides whether a challenge may be opened: approvals given on the host, and the pairings that use them up. */
  datatype Arming = Approved(at: int) | Opened(id: ChallengeID, at: int) | Settled(id: ChallengeID)

  /** At time now, after log, an approval is recent enough and was not used up. */
  ghost predicate ApprovedSince(log: seq<Arming>, now: int, armTTL: int) {
    exists k :: 0 <= k < |log| && log[k].Approved? && now <= log[k].at + armTTL && forall m | k < m < |log| :: !log[m].Settled?
  }

  /** Every challenge was opened while an approval was recent enough and not used up; the gateway stays armed as long as one is. */
  ghost predicate Armed(log: seq<Arming>, armedUntil: Option<int>, armTTL: int) {
    && (forall j | 0 <= j < |log| && log[j].Opened? :: ApprovedSince(log[..j], log[j].at, armTTL))
    && (armedUntil.Some? ==> ApprovedSince(log, armedUntil.value, armTTL))
  }

  ghost predicate OnLog(challenges: map<ChallengeID, Challenge>, log: seq<Arming>) {
    forall id | id in challenges :: exists j :: 0 <= j < |log| && log[j].Opened? && log[j].id == id
  }

  lemma ApprovedStill(log: seq<Arming>, e: Arming, now: int, armTTL: int)
    requires ApprovedSince(log, now, armTTL) && !e.Settled?
    ensures ApprovedSince(log + [e], now, armTTL)
  {
    var k :| 0 <= k < |log| && log[k].Approved? && now <= log[k].at + armTTL && forall m | k < m < |log| :: !log[m].Settled?;
    assert (log + [e])[k] == log[k];
  }

  lemma ApprovedSooner(log: seq<Arming>, now: int, later: int, armTTL: int)
    requires ApprovedSince(log, later, armTTL) && now <= later
    ensures ApprovedSince(log, now, armTTL)
  {
  }

  lemma LogGrows(log: seq<Arming>, e: Arming, armTTL: int)
    requires Armed(log, None, armTTL) && (e.Opened? ==> ApprovedSince(log, e.at, armTTL))
    ensures Armed(log + [e], None, armTTL)
  {
    hide ApprovedSince;
    var more := log + [e];
    forall j | 0 <= j < |more| && more[j].Opened? ensures ApprovedSince(more[..j], more[j].at, armTTL) {
      if j < |log| { assert more[..j] == log[..j] && more[j] == log[j]; } else { assert more[..j] == log; }
    }
  }

  lemma LogApproves(log: seq<Arming>, armedUntil: Option<int>, now: int, armTTL: int)
    requires Armed(log, armedUntil, armTTL)
    ensures Armed(log + [Approved(now)], Some(now + armTTL), armTTL)
  {
    LogGrows(log, Approved(now), armTTL);
    assert (log + [Approved(now)])[|log|] == Approved(now);
  }

  lemma LogOpens(log: seq<Arming>, armedUntil: Option<int>, id: ChallengeID, now: int, armTTL: int)
    requires Armed(log, armedUntil, armTTL) && armedUntil.Some? && now <= armedUntil.value
    ensures Armed(log + [Opened(id, now)], armedUntil, armTTL)
  {
    ApprovedSooner(log, now, armedUntil.value, armTTL);
    LogGrows(log, Opened(id, now), armTTL);
    ApprovedStill(log, Opened(id, now), armedUntil.value, armTTL);
  }

  lemma OpensOnLog(challenges: map<ChallengeID, Challenge>, log: seq<Arming>, id: ChallengeID, c: Challenge, at: int)
    requires OnLog(challenges, log)
    ensures OnLog(challenges[id := c], log + [Opened(id, at)])
  {
    StaysOnLog(challenges, log, Opened(id, at));
    assert (log + [Opened(id, at)])[|log|] == Opened(id, at);
  }

  lemma StaysOnLog(challenges: map<ChallengeID, Challenge>, log: seq<Arming>, e: Arming)
    requires OnLog(challenges, log)
    ensures OnLog(challenges, log + [e])
  {
    forall id | id in challenges ensures exists j :: 0 <= j < |log + [e]| && (log + [e])[j].Opened? && (log + [e])[j].id == id {
      var j :| 0 <= j < |log| && log[j].Opened? && log[j].id == id;
      assert (log + [e])[j] == log[j];
    }
  }

  lemma FewerOnLog(challenges: map<ChallengeID, Challenge>, fewer: map<ChallengeID, Challenge>, log: seq<Arming>)
    requires OnLog(challenges, log) && fewer.Keys <= challenges.Keys
    ensures OnLog(fewer, log)
  {
    forall id | id in fewer ensures id in challenges { assert id in fewer.Keys; }
  }

  datatype Paired = Paired(device: DeviceID, credential: Credential) | NoDeviceName | NotFound | TooLate | WrongCode

  /** At most one challenge is active, and activeID names it. */
  ghost predicate OneActive(challenges: map<ChallengeID, Challenge>, activeID: Option<ChallengeID>) {
    forall id :: id in challenges && challenges[id].state.Active? <==> activeID == Some(id)
  }

  /** paid says which credential each completed challenge yielded; challenges are numbered from the first. */
  ghost predicate PaidOnce(challenges: map<ChallengeID, Challenge>, paid: map<ChallengeID, DeviceID>, drawn: nat, devices: nat) {
    && (forall id | id in challenges :: id.n < drawn)
    && (forall id | id in paid :: id.n < drawn && paid[id].n < devices)
    && (forall id | id in paid && id in challenges :: challenges[id].state.Completed?)
    && (forall i, j | i in paid && j in paid && i != j :: paid[i] != paid[j])
  }

  function Lapse(c: Challenge): Challenge {
    c.(state := Lapsed, changedAt := c.expiresAt)
  }

  /** What pruning makes of one challenge. */
  function Pruned(c: Challenge, now: int): Option<Challenge> {
    if c.state.Active? then Some(if now > c.expiresAt then Lapse(c) else c)
    else if now - c.changedAt > CHALLENGE_HISTORY_TTL then None
    else Some(c)
  }

  function PruneChallenges(challenges: map<ChallengeID, Challenge>, now: int): map<ChallengeID, Challenge> {
    map id | id in challenges && Pruned(challenges[id], now).Some? :: Pruned(challenges[id], now).value
  }

  /** The challenge activeID names, unless it is not active any more. */
  function StillActive(challenges: map<ChallengeID, Challenge>, activeID: Option<ChallengeID>): Option<ChallengeID> {
    if activeID.Some? && activeID.value in challenges && challenges[activeID.value].state.Active? then activeID else None
  }

  lemma DropDrop(s: State, gone: set<DeviceID>, d: DeviceID, stuck: set<DeviceID>)
    ensures Drop(Drop(s, gone, stuck), {d}, stuck) == Drop(s, gone + {d}, stuck)
  {
  }

  lemma DropNone(s: State, stuck: set<DeviceID>)
    ensures Drop(s, {}, stuck) == s
  {
  }

  /** Deleting one device's index entry and retired hashes is dropping the device. */
  lemma DropOne(s: State, d: DeviceID, stuck: set<DeviceID>)
    requires Inv(s) && d in s.credentials
    ensures s.credentials[d].tokenHash.Some?
    ensures var h := s.credentials[d].tokenHash.value;
      && h in s.byTokenHash && s.byTokenHash[h] == d
      && Drop(s, {d}, stuck).byTokenHash == s.byTokenHash - {h}
      && Drop(s, {d}, stuck).credentials == s.credentials - {d}
      && Drop(s, {d}, stuck).saved == if d in stuck then s.saved else s.saved - {d}
  {
    hide RowsOwned, InStep, RetiredApart, Owned;
    assert CredentialOwned(s.issued, d, s.credentials[d]);
  }

  class Service {
    const cfg: Config
    const armTTL: int
    var credentials: map<DeviceID, Credential>
    var byTokenHash: map<Hash, DeviceID>
    var retired: map<Hash, RetiredToken>
    var saved: map<DeviceID, PairingRecord>
    var issued: seq<DeviceID>
    var devices: nat
    var challenges: map<ChallengeID, Challenge>
    var activeID: Option<ChallengeID>
    var armedUntil: Option<int>
    var drawn: nat
    ghost var paid: map<ChallengeID, DeviceID>
    ghost var log: seq<Arming>

    ghost function Of(): State
      reads this
    {
      State(credentials, byTokenHash, retired, saved, issued, devices)
    }

    ghost predicate Valid()
      reads this
    {
      && Inv(Of()) && OneActive(challenges, activeID) && PaidOnce(challenges, paid, drawn, devices)
      && Armed(log, armedUntil, armTTL) && OnLog(challenges, log)
    }

    /** No challenge without a local approval: each was opened within its window, before a pairing used it up. */
    lemma OpenedUnderApproval(id: ChallengeID)
      requires Valid() && id in challenges
      ensures exists k, j :: 0 <= k < j < |log| && log[k].Approved? && log[j].Opened? && log[j].id == id
                             && log[j].at <= log[k].at + armTTL && forall m | k < m < j :: !log[m].Settled?
    {
      hide Inv, OneActive, PaidOnce;
      var j :| 0 <= j < |log| && log[j].Opened? && log[j].id == id;
      assert ApprovedSince(log[..j], log[j].at, armTTL);
      var before, at := log[..j], log[j].at;
      var k :| 0 <= k < |before| && before[k].Approved? && at <= before[k].at + armTTL && forall m | k < m < |before| :: !before[m].Settled?;
      assert log[k] == before[k] && forall m | k < m < j :: log[m] == before[m];
    }

    // ----- Deleting -----

    method DeleteCredential(d: DeviceID, stuck: set<DeviceID>)
      requires Inv(Of()) && d in credentials
      modifies this`credentials, this`byTokenHash, this`retired, this`saved
      ensures Of() == Drop(old(Of()), {d}, stuck) && Inv(Of())
    {
      hide Inv, Drop;
      DropInv(Of(), {d}, stuck);
      DropOne(Of(), d, stuck);
      DropRetired(Of(), d, stuck);
      var h := credentials[d].tokenHash;
      if h.Some? && h.value in byTokenHash && byTokenHash[h.value] == d {
        byTokenHash := byTokenHash - {h.value};
      }
      credentials := credentials - {d};
      var left := retired.Keys;
      ghost var was := retired;
      while left != {}
        invariant left <= was.Keys && retired == RetiredBut(was, d, left)
        modifies this`retired
        decreases left
      {
        var hash :| hash in left;
        RetiredNext(was, d, left, hash);
        left := left - {hash};
        if retired[hash].device == d {
          retired := retired - {hash};
        }
      }
      if d !in stuck {
        saved := saved - {d};
      }
    }

    method PruneRetiredTokens(now: int)
      modifies this`retired
      ensures retired == PruneRetired(old(retired), now)
    {
      var left := retired.Keys;
      ghost var was := retired;
      while left != {}
        invariant left <= was.Keys
        invariant retired == map h | h in was && (h in left || now <= was[h].until) :: was[h]
        decreases left
      {
        var hash :| hash in left;
        left := left - {hash};
        if now > retired[hash].until {
          retired := retired - {hash};
        }
      }
    }

    /** Every credential past its grace goes; in which order does not matter. */
    method PruneExpiredCredentials(now: int, stuck: set<DeviceID>)
      requires Inv(Of())
      modifies this`credentials, this`byTokenHash, this`retired, this`saved
      ensures Of() == Prune(old(Of()), cfg, now, stuck) && Inv(Of())
    {
      hide Inv, Drop, PruneRetired;
      ghost var s := Of();
      ghost var gone: set<DeviceID> := {};
      var left := credentials.Keys;
      DropNone(s, stuck);
      PruneInv(s, cfg, now, stuck);
      while left != {}
        invariant Inv(Of()) && Of() == Drop(s, gone, stuck) && left <= s.credentials.Keys
        invariant gone == set d | d in s.credentials && d !in left && ShouldReap(s.credentials[d].expiresAt, cfg, now)
        decreases left
      {
        var d :| d in left;
        left := left - {d};
        DropKeeps(s, gone, stuck, d);
        if ShouldReap(credentials[d].expiresAt, cfg, now) {
          DeleteCredential(d, stuck);
          DropDrop(s, gone, d, stuck);
          gone := gone + {d};
        }
      }
      assert gone == Reaped(s, cfg, now);
      PruneRetiredTokens(now);
    }

    // ----- Tokens -----

    /** The device a token rotated away recently belonged to; a caller still has to prove it holds its key. */
    function RetiredDevice(token: Token, now: int): (d: Option<DeviceID>)
      reads this
      ensures d == Pairing.RetiredDevice(Of(), Hash(token), now)
    {
      var h := Hash(token);
      if h !in retired || now > retired[h].until || retired[h].device !in credentials then None else Some(retired[h].device)
    }

    /** A scan for a credential from before tokens were hashed. There is none. */
    method ScanUnhashed(token: Token) returns (found: Option<DeviceID>)
      requires Inv(Of())
      ensures found == None
    {
      hide Inv;
      var left := credentials.Keys;
      while left != {}
        invariant left <= credentials.Keys
        decreases left
      {
        var d :| d in left;
        left := left - {d};
        DropOne(Of(), d, {});
        var c := credentials[d];
        if c.tokenHash == None && c.token == Some(token) {
          return Some(d);
        }
      }
      return None;
    }

    method ValidateCredential(token: Option<Token>, now: int, stuck: set<DeviceID>) returns (answer: Answer)
      requires Valid()
      modifies this`credentials, this`byTokenHash, this`retired, this`saved
      ensures Valid()
      ensures token.None? ==> answer == Refused(Missing) && Of() == old(Of())
      ensures token.Some? ==> (Of(), answer) == Validate(old(Of()), cfg, token.value, now, stuck)
    {
      hide Inv, Drop, Prune, ShouldReap, OneActive, PaidOnce;
      if token.None? {
        return Refused(Missing);
      }
      ValidateInv(Of(), cfg, token.value, now, stuck);
      IndexPaired(Of(), Hash(token.value));
      if Hash(token.value) in byTokenHash {
        var d := byTokenHash[Hash(token.value)];
        var c := credentials[d];
        if now > c.expiresAt {
          if cfg.gracePeriod <= 0 {
            DeleteCredential(d, stuck);
            return Refused(Expired);
          }
          credentials := credentials[d := c.(expiredAt := Some(now))];
          return Refused(Expired);
        }
        return Granted(d, c);
      }
      var legacy := ScanUnhashed(token.value);
      assert legacy.None?;
      PruneExpiredCredentials(now, stuck);
      return Refused(Invalid);
    }

    method LookupCredentialByToken(token: Option<Token>, now: int) returns (answer: Answer)
      requires Valid()
      ensures answer == if token.None? then Refused(Missing) else Lookup(Of(), token.value, now)
    {
      hide Inv, OneActive, PaidOnce;
      if token.None? {
        return Refused(Missing);
      }
      if Hash(token.value) in byTokenHash && byTokenHash[Hash(token.value)] in credentials {
        var d := byTokenHash[Hash(token.value)];
        return Granted(d, credentials[d]);
      }
      var legacy := ScanUnhashed(token.value);
      assert legacy.None?;
      var d := RetiredDevice(token.value, now);
      if d.Some? {
        return Granted(d.value, credentials[d.value]);
      }
      return Refused(Invalid);
    }

    method RevokeDevice(d: DeviceID, stuck: set<DeviceID>) returns (known: bool)
      requires Valid()
      modifies this`credentials, this`byTokenHash, this`retired, this`saved
      ensures Valid() && known == (d in old(credentials)) && Of() == Revoke(old(Of()), d, stuck) && d !in credentials
    {
      hide Inv, OneActive, PaidOnce;
      if d !in credentials {
        return false;
      }
      DeleteCredential(d, stuck);
      return true;
    }

    /**
     * Exchanges a live token, or one rotated away recently, for a live one. The new token is saved before it
     * becomes visible.
     */
    method RefreshCredential(token: Option<Token>, now: int, saves: bool, stuck: set<DeviceID>) returns (answer: Answer)
      requires Valid()
      modifies this`credentials, this`byTokenHash, this`retired, this`saved, this`issued
      ensures Valid()
      ensures token.None? ==> answer == Refused(Missing) && Of() == old(Of())
      ensures token.Some? ==>
        (Of(), answer) == Refresh(old(Of()), cfg, token.value, now, if saves then Completes else SaveFails, stuck)
    {
      hide Inv, Drop, Prune, Rotate, OneActive, PaidOnce;
      if token.None? {
        return Refused(Missing);
      }
      var h := Hash(token.value);
      RefreshInv(Of(), cfg, token.value, now, if saves then Completes else SaveFails, stuck);
      IndexPaired(Of(), h);
      var presented: Option<(Hash, int)>, id: Option<DeviceID> := None, None;
      if h in byTokenHash {
        id := Some(byTokenHash[h]);
      } else {
        id := ScanUnhashed(token.value);
      }
      if id.None? {
        var retiredID := RetiredDevice(token.value, now);
        if retiredID.Some? {
          presented := Some((h, retired[h].until));
          var current := credentials[retiredID.value];
          if current.token.Some? && now < current.expiresAt {
            return Granted(retiredID.value, current);
          }
          id := retiredID;
        }
      }
      if id.None? {
        PruneExpiredCredentials(now, stuck);
        return Refused(Invalid);
      }
      answer := RotateCredential(id.value, presented, now, saves, stuck);
    }

    method RotateCredential(d: DeviceID, presented: Option<(Hash, int)>, now: int, saves: bool, stuck: set<DeviceID>) returns (answer: Answer)
      requires Inv(Of()) && d in credentials
      modifies this`credentials, this`byTokenHash, this`retired, this`saved, this`issued
      ensures (Of(), answer) == Rotate(old(Of()), cfg, d, presented, now, if saves then Completes else SaveFails, stuck)
    {
      hide Inv, Drop, PruneRetired;
      var c := credentials[d];
      if now > c.expiresAt {
        if cfg.gracePeriod <= 0 {
          DeleteCredential(d, stuck);
          return Refused(Expired);
        }
        if now - c.expiresAt > cfg.gracePeriod {
          DeleteCredential(d, stuck);
          return Refused(GraceExpired);
        }
      }
      DropOne(Of(), d, stuck);
      FresherUnknown(Of());
      var newToken := Token(|issued|);
      issued := issued + [d];
      var newHash, expiresAt := Hash(newToken), now + cfg.tokenTTL;
      if !saves {
        return Refused(SaveFailed);
      }
      saved := saved[d := PairingRecord(Hashed(newHash), expiresAt,
        if presented.Some? then presented
        else if c.tokenHash.Some? then Some((c.tokenHash.value, now + ROTATION_OVERLAP)) else None)];
      credentials := credentials[d := Credential(Some(newHash), Some(newToken), expiresAt, None)];
      if c.tokenHash.Some? && c.tokenHash != Some(newHash) {
        byTokenHash := byTokenHash - {c.tokenHash.value};
        retired := retired[c.tokenHash.value := RetiredToken(d, now + ROTATION_OVERLAP)];
      }
      PruneRetiredTokens(now);
      byTokenHash := byTokenHash[newHash := d];
      answer := Granted(d, credentials[d]);
    }

    // ----- Challenges -----

    method ExpireChallenge(id: ChallengeID)
      requires id in challenges && challenges[id].state.Active?
      requires OneActive(challenges, activeID) && PaidOnce(challenges, paid, drawn, devices)
      modifies this`challenges, this`activeID
      ensures OneActive(challenges, activeID) && PaidOnce(challenges, paid, drawn, devices)
      ensures challenges == old(challenges)[id := Lapse(old(challenges[id]))]
    {
      challenges := challenges[id := Lapse(challenges[id])];
      if activeID == Some(id) {
        activeID := None;
      }
    }

    /** Lapsed challenges are marked, finished ones forgotten after a while, expired credentials deleted. */
    method PruneExpired(now: int, stuck: set<DeviceID>)
      requires Valid()
      modifies this`challenges, this`activeID, this`credentials, this`byTokenHash, this`retired, this`saved
      ensures Valid() && Of() == Prune(old(Of()), cfg, now, stuck)
      ensures challenges == PruneChallenges(old(challenges), now) && activeID == StillActive(challenges, old(activeID))
      ensures forall id :: id in challenges <==>
        id in old(challenges) && (old(challenges)[id].state.Active? || now - old(challenges)[id].changedAt <= 600)
      ensures forall id | id in challenges ::
        var c := old(challenges)[id];
        challenges[id] == if c.state.Active? && now > c.expiresAt then c.(state := Lapsed, changedAt := c.expiresAt) else c
    {
      hide Inv, Prune, OneActive, PaidOnce, Armed, OnLog;
      ghost var was := challenges;
      var left := challenges.Keys;
      while left != {}
        invariant left <= was.Keys && OneActive(challenges, activeID) && PaidOnce(challenges, paid, drawn, devices)
        invariant challenges == Pruning(was, left, now)
        modifies this`challenges, this`activeID
        decreases left
      {
        var id :| id in left;
        PruningNext(was, left, id, now);
        left := left - {id};
        var c := challenges[id];
        if c.state.Active? {
          if now > c.expiresAt {
            ExpireChallenge(id);
          }
        } else if now - c.changedAt > CHALLENGE_HISTORY_TTL {
          ForgetChallenge(challenges, activeID, paid, drawn, devices, id);
          challenges := challenges - {id};
        }
      }
      assert challenges == PruneChallenges(was, now);
      ActiveAfter(was, old(activeID), now, activeID);
      FewerOnLog(was, challenges, log);
      PruneExpiredCredentials(now, stuck);
    }

    /** The active challenge, or a new one while the gateway is armed. */
    method StartPairing(now: int, code: Code, stuck: set<DeviceID>) returns (started: Started)
      requires Valid()
      modifies this`challenges, this`activeID, this`armedUntil, this`drawn, this`log, this`credentials, this`byTokenHash, this`retired, this`saved
      ensures Valid() && Of() == Prune(old(Of()), cfg, now, stuck)
      ensures started.NotArmed? ==> armedUntil == None
      ensures started.Open? ==> armedUntil == old(armedUntil)
      ensures started.NotArmed? <==>
        && (old(armedUntil).None? || now > old(armedUntil).value)
        && forall id | id in old(challenges) && old(challenges)[id].state.Active? :: now > old(challenges)[id].expiresAt
      ensures log == if started.Open? && started.id.n >= old(drawn) then old(log) + [Opened(started.id, now)] else old(log)
      ensures drawn == if started.Open? && started.id.n >= old(drawn) then old(drawn) + 1 else old(drawn)
      ensures started.Open? ==> activeID == Some(started.id) && started.id in challenges && challenges[started.id] == started.challenge
      ensures started.Open? ==> now <= started.challenge.expiresAt
      ensures started.NotArmed? ==> activeID == None && (old(armedUntil).None? || now > old(armedUntil).value)
      ensures started.Open? && started.id !in old(challenges) ==>
        && started.id.n == old(drawn) && started.challenge == Challenge(code, now + CHALLENGE_TTL, Active, None, now)
        && old(armedUntil).Some? && now <= old(armedUntil).value
    {
      hide Inv, Prune, OneActive, PaidOnce, Armed, OnLog;
      PruneExpired(now, stuck);
      OpenBefore(old(challenges), activeID, now, drawn, challenges, paid, devices);
      ActiveKnown(old(challenges), activeID, now, drawn, challenges, paid, devices);
      if activeID.Some? {
        return Open(activeID.value, challenges[activeID.value]);
      }
      if armedUntil.None? || now > armedUntil.value {
        Disarmed(log, armedUntil, armTTL);
        armedUntil := None;
        return NotArmed;
      }
      var id := ChallengeID(drawn);
      OpenOne(challenges, paid, drawn, devices, Challenge(code, now + CHALLENGE_TTL, Active, None, now));
      LogOpens(log, armedUntil, id, now, armTTL);
      OpensOnLog(challenges, log, id, Challenge(code, now + CHALLENGE_TTL, Active, None, now), now);
      log := log + [Opened(id, now)];
      drawn := drawn + 1;
      activeID := Some(id);
      challenges := challenges[id := Challenge(code, now + CHALLENGE_TTL, Active, None, now)];
      started := Open(id, challenges[id]);
    }

    /** The first half of a local approval. */
    method Arm(now: int)
      requires Valid()
      modifies this`armedUntil, this`log
      ensures Valid() && armedUntil == Some(now + armTTL) && log == old(log) + [Approved(now)]
    {
      hide Inv, OneActive, PaidOnce, Armed, OnLog;
      LogApproves(log, armedUntil, now, armTTL);
      StaysOnLog(challenges, log, Approved(now));
      armedUntil := Some(now + armTTL);
      log := log + [Approved(now)];
    }

    /** An approval that no other call comes in the midst of; the clock is read again for its second half. */
    method StartPairingWithLocalApproval(now: int, later: int, code: Code, stuck: set<DeviceID>) returns (started: Started)
      requires Valid() && now <= later
      modifies this`challenges, this`activeID, this`armedUntil, this`drawn, this`log, this`credentials, this`byTokenHash, this`retired, this`saved
      ensures Valid() && Of() == Prune(old(Of()), cfg, later, stuck)
      ensures later <= now + armTTL ==> started.Open?
      ensures started.Open? ==>
        && armedUntil == Some(now + armTTL) && activeID == Some(started.id)
        && started.id in challenges && challenges[started.id] == started.challenge && later <= started.challenge.expiresAt
    {
      hide Inv, Prune, OneActive, PaidOnce, Armed, OnLog;
      Arm(now);
      started := StartPairing(later, code, stuck);
    }

    /** Cancels the challenge challengeID names, or the active one; the others stay as pruning leaves them. */
    method CancelChallenge(challengeID: Option<ChallengeID>, now: int, stuck: set<DeviceID>) returns (cancelled: Option<Challenge>)
      requires Valid()
      modifies this`challenges, this`activeID, this`credentials, this`byTokenHash, this`retired, this`saved
      ensures Valid() && Of() == Prune(old(Of()), cfg, now, stuck)
      ensures var pruned := PruneChallenges(old(challenges), now);
        var active := StillActive(pruned, old(activeID));
        var id := if challengeID.None? then active else challengeID;
        if id.None? || id.value !in pruned then cancelled == None && challenges == pruned && activeID == active
        else if pruned[id.value].state.Active? then
          && cancelled == Some(pruned[id.value].(state := Cancelled, changedAt := now))
          && challenges == pruned[id.value := cancelled.value] && activeID == None
        else cancelled == Some(pruned[id.value]) && challenges == pruned && activeID == active
    {
      hide Inv, Prune, OneActive, PaidOnce, Armed, OnLog;
      PruneExpired(now, stuck);
      var id := if challengeID.None? then activeID else challengeID;
      if id.None? || id.value !in challenges {
        return None;
      }
      if challenges[id.value].state.Active? {
        Withdraw(challenges, activeID, paid, drawn, devices, id.value, challenges[id.value].(state := Cancelled, changedAt := now));
        FewerOnLog(challenges, challenges[id.value := challenges[id.value].(state := Cancelled, changedAt := now)], log);
        challenges := challenges[id.value := challenges[id.value].(state := Cancelled, changedAt := now)];
        if activeID == id {
          activeID := None;
        }
      }
      cancelled := Some(challenges[id.value]);
    }

    /** The active challenge that challengeID, or no id, names, unless it has lapsed. */
    function Named(challengeID: Option<ChallengeID>, now: int): (id: Option<ChallengeID>)
      reads this`challenges, this`activeID
      ensures id.Some? ==> id.value in challenges
    {
      var id := if challengeID.None? then activeID else challengeID;
      if id.Some? && id.value in challenges && challenges[id.value].state.Active? && now <= challenges[id.value].expiresAt then id else None
    }

    /** The challenge that challengeID, or no id, names is past its time but not yet marked so. */
    predicate Overdue(challengeID: Option<ChallengeID>, now: int)
      reads this`challenges, this`activeID
    {
      var id := if challengeID.None? then activeID else challengeID;
      id.Some? && id.value in challenges && challenges[id.value].state.Active? && now > challenges[id.value].expiresAt
    }

    predicate WasLapsed(challengeID: Option<ChallengeID>)
      reads this`challenges, this`activeID
    {
      var id := if challengeID.None? then activeID else challengeID;
      id.Some? && id.value in challenges && challenges[id.value].state.Lapsed?
    }

    /** The challenges once one that is overdue is marked. */
    function Marked(challengeID: Option<ChallengeID>, now: int): map<ChallengeID, Challenge>
      reads this`challenges, this`activeID
    {
      var id := if challengeID.None? then activeID else challengeID;
      if Overdue(challengeID, now) then challenges[id.value := Lapse(challenges[id.value])] else challenges
    }

    lemma MarkedKeys(challengeID: Option<ChallengeID>, now: int)
      ensures Marked(challengeID, now).Keys == challenges.Keys
    {
    }

    /** Why no challenge is named: it came too late, or there is none of that name to complete. */
    function Unnamed(challengeID: Option<ChallengeID>, now: int): Paired
      reads this`challenges, this`activeID
    {
      if Overdue(challengeID, now) || WasLapsed(challengeID) then TooLate else NotFound
    }

    /** The challenge that a completion with challengeID and code settles, if any. */
    function Settles(challengeID: Option<ChallengeID>, code: Code, now: int): Option<ChallengeID>
      reads this`challenges, this`activeID
    {
      var id := Named(challengeID, now);
      if id.Some? && code == challenges[id.value].code then id else None
    }

    /** failure says why no challenge is named. */
    method ResolveChallenge(challengeID: Option<ChallengeID>, now: int) returns (found: Option<ChallengeID>, failure: Paired)
      requires OneActive(challenges, activeID) && PaidOnce(challenges, paid, drawn, devices)
      modifies this`challenges, this`activeID
      ensures OneActive(challenges, activeID) && PaidOnce(challenges, paid, drawn, devices)
      ensures found == old(Named(challengeID, now))
      ensures found.Some? ==> found.value in challenges && challenges[found.value].state.Active?
      ensures found.None? ==> failure == old(Unnamed(challengeID, now))
      ensures challenges == old(Marked(challengeID, now))
      ensures activeID == if old(Overdue(challengeID, now)) then None else old(activeID)
    {
      hide PaidOnce;
      failure := NotFound;
      var id := if challengeID.None? then activeID else challengeID;
      if id.None? || id.value !in challenges {
        return None, NotFound;
      }
      var c := challenges[id.value];
      if !c.state.Active? {
        return None, if c.state.Lapsed? then TooLate else NotFound;
      }
      if now > c.expiresAt {
        ExpireChallenge(id.value);
        return None, TooLate;
      }
      found := id;
    }

    /**
     * Settles the challenge with its code, once, for a new credential: exactly when it is active, has not
     * lapsed and the code is right. A credential whose row is not saved works until the next restart.
     */
    method CompletePairing(challengeID: Option<ChallengeID>, code: Code, deviceName: string, now: int, saves: bool, stuck: set<DeviceID>)
      returns (paired: Paired)
      requires Valid()
      modifies this
      ensures Valid()
      ensures var settled := old(Settles(challengeID, code, now));
        && (paired.Paired? <==> deviceName != "" && settled.Some?)
        && (paired.Paired? ==>
              && (Of(), Granted(paired.device, paired.credential)) == Complete(old(Of()), cfg, now, saves, stuck)
              && settled.value !in old(paid) && paid == old(paid)[settled.value := paired.device]
              && activeID == None && armedUntil == None && log == old(log) + [Settled(settled.value)])
      ensures var id := if challengeID.None? then old(activeID) else challengeID;
        paired.Paired? <==>
          && deviceName != "" && id.Some? && id.value in old(challenges) && old(challenges)[id.value].state.Active?
          && now <= old(challenges)[id.value].expiresAt && code == old(challenges)[id.value].code
      ensures !paired.Paired? ==> log == old(log)
      ensures deviceName == "" ==> paired == NoDeviceName
      ensures deviceName != "" && old(Named(challengeID, now)).None? ==> paired == old(Unnamed(challengeID, now))
      ensures deviceName != "" && old(Named(challengeID, now)).Some? && !paired.Paired? ==> paired == WrongCode
      ensures challenges == if deviceName == "" then old(challenges)
                            else if paired.Paired? then
                              var id := old(Settles(challengeID, code, now)).value;
                              old(challenges)[id := old(challenges)[id].(state := Completed, changedAt := now, device := Some(paired.device))]
                            else old(Marked(challengeID, now))
      ensures !paired.Paired? ==>
        Of() == (if deviceName == "" then old(Of()) else Prune(old(Of()), cfg, now, stuck)) && paid == old(paid) && armedUntil == old(armedUntil)
    {
      hide Inv, Prune, Pair, OneActive, PaidOnce, Overdue, WasLapsed, Armed, OnLog;
      if deviceName == "" {
        return NoDeviceName;
      }
      CompleteInv(Of(), cfg, now, saves, stuck);
      PruneInv(Of(), cfg, now, stuck);
      PruneExpiredCredentials(now, stuck);
      var id;
      MarkedKeys(challengeID, now);
      id, paired := ResolveChallenge(challengeID, now);
      FewerOnLog(old(challenges), challenges, log);
      if id.None? {
        return;
      }
      var c := challenges[id.value];
      if code != c.code {
        return WrongCode;
      }
      paired := PayOut(id.value, now, saves);
      FewerOnLog(old(challenges), challenges, log);
      Disarmed(log, old(armedUntil), armTTL);
      LogGrows(log, Settled(id.value), armTTL);
      StaysOnLog(challenges, log, Settled(id.value));
      log := log + [Settled(id.value)];
    }

    /** Completes the active challenge id with a new credential. */
    method PayOut(id: ChallengeID, now: int, saves: bool) returns (paired: Paired)
      requires OneActive(challenges, activeID) && PaidOnce(challenges, paid, drawn, devices)
      requires id in challenges && challenges[id].state.Active?
      modifies this`credentials, this`byTokenHash, this`saved, this`issued, this`devices, this`challenges, this`activeID, this`armedUntil, this`paid
      ensures OneActive(challenges, activeID) && PaidOnce(challenges, paid, drawn, devices)
      ensures paired.Paired? && (Of(), Granted(paired.device, paired.credential)) == Pair(old(Of()), cfg, now, saves)
      ensures id !in old(paid) && paid == old(paid)[id := paired.device] && activeID == None && armedUntil == None
      ensures challenges == old(challenges)[id := old(challenges)[id].(state := Completed, changedAt := now, device := Some(paired.device))]
    {
      hide Pair, OneActive, PaidOnce;
      var settled := challenges[id].(state := Completed, changedAt := now, device := Some(DeviceID(devices)));
      Settle(challenges, activeID, paid, drawn, devices, id, settled);
      paired := Issue(now, saves);
      challenges := challenges[id := settled];
      paid := paid[id := paired.device];
      if activeID == Some(id) {
        activeID := None;
      }
      armedUntil := None;
    }

    method Issue(now: int, saves: bool) returns (paired: Paired)
      modifies this`credentials, this`byTokenHash, this`saved, this`issued, this`devices
      ensures paired.Paired? && paired.device == DeviceID(old(devices)) && devices == old(devices) + 1
      ensures (Of(), Granted(paired.device, paired.credential)) == Pair(old(Of()), cfg, now, saves)
    {
      var d, token := DeviceID(devices), Token(|issued|);
      devices, issued := devices + 1, issued + [d];
      var credential := Credential(Some(Hash(token)), Some(token), now + cfg.tokenTTL, None);
      credentials := credentials[d := credential];
      byTokenHash := byTokenHash[Hash(token) := d];
      if saves {
        saved := saved[d := PairingRecord(Hashed(Hash(token)), credential.expiresAt, None)];
      }
      paired := Paired(d, credential);
    }

    // ----- Restarting -----

    /** A restarted service: the store's rows and nothing else. No challenge outlives the restart. */
    constructor (cfg: Config, armTTL: int, saved: map<DeviceID, PairingRecord>, issued: seq<DeviceID>, devices: nat, drawn: nat,
                 ghost paid: map<ChallengeID, DeviceID>, now: int, stuck: set<DeviceID>, unsaved: set<DeviceID>)
      requires RowsOwned(saved, issued, devices) && PaidOnce(map[], paid, drawn, devices)
      ensures Valid() && this.cfg == cfg && challenges == map[] && armedUntil == None && this.paid == paid && log == []
      ensures this.armTTL == if armTTL <= 0 then DEFAULT_ARM_TTL else armTTL
      ensures Of() == Load(State(map[], map[], map[], saved, issued, devices), cfg, now, stuck, unsaved)
    {
      hide Inv, Load, RowsOwned;
      this.cfg, this.saved, this.issued, this.devices, this.drawn, this.paid := cfg, saved, issued, devices, drawn, paid;
      credentials, byTokenHash, retired := map[], map[], map[];
      challenges, activeID, armedUntil, log := map[], None, None, [];
      this.armTTL := if armTTL <= 0 then DEFAULT_ARM_TTL else armTTL;
      new;
      LoadPersistedCredentials(now, stuck, unsaved);
    }

    method LoadPersistedCredentials(now: int, stuck: set<DeviceID>, unsaved: set<DeviceID>)
      requires credentials == map[] && byTokenHash == map[] && retired == map[] && RowsOwned(saved, issued, devices)
      modifies this`credentials, this`byTokenHash, this`retired, this`saved
      ensures Of() == Load(old(Of()), cfg, now, stuck, unsaved) && Inv(Of())
    {
      hide RowsOwned, Loading, Load, Inv;
      ghost var s := Of();
      LoadingEnds(s, cfg, now, stuck, unsaved);
      LoadInv(s, cfg, now, stuck, unsaved);
      var left := saved.Keys;
      while left != {}
        invariant left <= s.saved.Keys && Of() == Loading(s, left, cfg, now, stuck, unsaved)
        decreases left
      {
        var d :| d in left;
        LoadingNext(s, left, d, cfg, now, stuck, unsaved);
        left := left - {d};
        LoadRow(d, now, stuck, unsaved);
      }
    }

    method LoadRow(d: DeviceID, now: int, stuck: set<DeviceID>, unsaved: set<DeviceID>)
      requires d in saved
      modifies this`credentials, this`byTokenHash, this`retired, this`saved
      ensures Of() == LoadOne(old(Of()), d, cfg, now, stuck, unsaved)
    {
      var record := saved[d];
      if ShouldReap(record.expiresAt, cfg, now) {
        if d !in stuck {
          saved := saved - {d};
        }
        return;
      }
      credentials := credentials[d := LoadedCredential(record, cfg, now)];
      byTokenHash := byTokenHash[StoredHash(record.token) := d];
      if record.retired.Some? && now < record.retired.value.1 {
        retired := retired[record.retired.value.0 := RetiredToken(d, record.retired.value.1)];
      }
      if record.token.Plain? && d !in unsaved {
        saved := saved[d := record.(token := Hashed(StoredHash(record.token)))];
      }
    }
  }

  /** Loading one row: it is deleted, or becomes a credential. */
  function LoadOne(s: State, d: DeviceID, cfg: Config, now: int, stuck: set<DeviceID>, unsaved: set<DeviceID>): State
    requires d in s.saved
  {
    var r := s.saved[d];
    if !Survives(r, cfg, now) then if d in stuck then s else s.(saved := s.saved - {d})
    else
      s.(credentials := s.credentials[d := LoadedCredential(r, cfg, now)],
         byTokenHash := s.byTokenHash[StoredHash(r.token) := d],
         retired := if r.retired.Some? && now < r.retired.value.1
                    then s.retired[r.retired.value.0 := RetiredToken(d, r.retired.value.1)] else s.retired,
         saved := s.saved[d := Upgraded(d, r, unsaved)])
  }

  /** s with all rows loaded but those of left. */
  ghost function Loading(s: State, left: set<DeviceID>, cfg: Config, now: int, stuck: set<DeviceID>, unsaved: set<DeviceID>): State
    requires RowsOwned(s.saved, s.issued, s.devices)
  {
    var done := SurvivingRows(s.saved - left, cfg, now);
    s.(credentials := LoadedCredentials(done, cfg, now),
       byTokenHash := LoadedIndex(done, s.issued, s.devices),
       retired := LoadedRetired(done, now, s.issued, s.devices),
       saved := map d | d in s.saved && (d in left || Survives(s.saved[d], cfg, now) || d in stuck) ::
                  if d !in left && Survives(s.saved[d], cfg, now) then Upgraded(d, s.saved[d], unsaved) else s.saved[d])
  }

  lemma LoadingEnds(s: State, cfg: Config, now: int, stuck: set<DeviceID>, unsaved: set<DeviceID>)
    requires RowsOwned(s.saved, s.issued, s.devices) && s.credentials == map[] && s.byTokenHash == map[] && s.retired == map[]
    ensures Loading(s, s.saved.Keys, cfg, now, stuck, unsaved) == s
    ensures Loading(s, {}, cfg, now, stuck, unsaved) == Load(s, cfg, now, stuck, unsaved)
  {
    hide ShouldReap, LoadedIndex, LoadedRetired, LoadedCredential, RowsOwned;
    SurvivingOwned(s, s.saved.Keys, cfg, now);
    assert s.saved - s.saved.Keys == map[] && s.saved - {} == s.saved;
    assert SurvivingRows(map[], cfg, now) == map[];
    LoadedNone(now, s.issued, s.devices);
  }

  lemma DoneNext(s: State, left: set<DeviceID>, d: DeviceID, cfg: Config, now: int)
    requires d in left && left <= s.saved.Keys
    ensures var done, more := SurvivingRows(s.saved - left, cfg, now), SurvivingRows(s.saved - (left - {d}), cfg, now);
      more == (if Survives(s.saved[d], cfg, now) then done[d := s.saved[d]] else done) && d !in done
  {
    hide ShouldReap;
  }

  lemma LoadedNone(now: int, issued: seq<DeviceID>, devices: nat)
    requires RowsOwned(map[], issued, devices)
    ensures LoadedIndex(map[], issued, devices) == map[] && LoadedRetired(map[], now, issued, devices) == map[]
  {
  }

  lemma IndexIs(rows: map<DeviceID, PairingRecord>, issued: seq<DeviceID>, devices: nat, h: Hash)
    requires RowsOwned(rows, issued, devices)
    ensures h in LoadedIndex(rows, issued, devices) <==> exists d :: d in rows && StoredHash(rows[d].token) == h
    ensures h in LoadedIndex(rows, issued, devices) ==> var d := LoadedIndex(rows, issued, devices)[h];
      d in rows && StoredHash(rows[d].token) == h && forall e | e in rows && StoredHash(rows[e].token) == h :: e == d
  {
  }

  lemma RetiredIs(rows: map<DeviceID, PairingRecord>, now: int, issued: seq<DeviceID>, devices: nat, h: Hash)
    requires RowsOwned(rows, issued, devices)
    ensures h in LoadedRetired(rows, now, issued, devices) <==> exists d :: d in rows && Retires(rows[d], now, h)
    ensures h in LoadedRetired(rows, now, issued, devices) ==> var t := LoadedRetired(rows, now, issued, devices)[h];
      && t.device in rows && Retires(rows[t.device], now, h) && t.until == rows[t.device].retired.value.1
      && forall e | e in rows && Retires(rows[e], now, h) :: e == t.device
  {
  }

  predicate Retires(r: PairingRecord, now: int, h: Hash) {
    r.retired.Some? && now < r.retired.value.1 && r.retired.value.0 == h
  }

  lemma IndexNext(rows: map<DeviceID, PairingRecord>, d: DeviceID, r: PairingRecord, now: int, issued: seq<DeviceID>, devices: nat)
    requires RowsOwned(rows[d := r], issued, devices) && RowsOwned(rows, issued, devices) && d !in rows
    ensures LoadedIndex(rows[d := r], issued, devices) == LoadedIndex(rows, issued, devices)[StoredHash(r.token) := d]
    ensures LoadedRetired(rows[d := r], now, issued, devices)
      == if r.retired.Some? && now < r.retired.value.1
         then LoadedRetired(rows, now, issued, devices)[r.retired.value.0 := RetiredToken(d, r.retired.value.1)]
         else LoadedRetired(rows, now, issued, devices)
  {
    hide LoadedIndex, LoadedRetired, RowsOwned, StoredHash;
    var more := rows[d := r];
    forall h ensures h in LoadedIndex(more, issued, devices) <==> h in LoadedIndex(rows, issued, devices) || h == StoredHash(r.token)
      ensures h in LoadedIndex(more, issued, devices) ==>
        LoadedIndex(more, issued, devices)[h] == if h == StoredHash(r.token) then d else LoadedIndex(rows, issued, devices)[h] {
      IndexIs(rows, issued, devices, h);
      IndexIs(more, issued, devices, h);
      assert forall e | e in rows :: e in more && more[e] == rows[e];
      assert d in more && more[d] == r;
    }
    RetiredNextRow(rows, d, r, now, issued, devices);
  }

  lemma RetiredNextRow(rows: map<DeviceID, PairingRecord>, d: DeviceID, r: PairingRecord, now: int, issued: seq<DeviceID>, devices: nat)
    requires RowsOwned(rows[d := r], issued, devices) && RowsOwned(rows, issued, devices) && d !in rows
    ensures LoadedRetired(rows[d := r], now, issued, devices)
      == if r.retired.Some? && now < r.retired.value.1
         then LoadedRetired(rows, now, issued, devices)[r.retired.value.0 := RetiredToken(d, r.retired.value.1)]
         else LoadedRetired(rows, now, issued, devices)
  {
    hide LoadedRetired, RowsOwned;
    var more := rows[d := r];
    var was, becomes := LoadedRetired(rows, now, issued, devices), LoadedRetired(more, now, issued, devices);
    assert forall e | e in rows :: e in more && more[e] == rows[e];
    assert d in more && more[d] == r;
    forall h ensures h in becomes <==> h in was || Retires(r, now, h)
      ensures h in becomes ==> becomes[h] == if Retires(r, now, h) then RetiredToken(d, r.retired.value.1) else was[h] {
      RetiredIs(rows, now, issued, devices, h);
      RetiredIs(more, now, issued, devices, h);
    }
  }

  lemma SurvivingOwned(s: State, left: set<DeviceID>, cfg: Config, now: int)
    requires RowsOwned(s.saved, s.issued, s.devices)
    ensures RowsOwned(SurvivingRows(s.saved - left, cfg, now), s.issued, s.devices)
  {
    hide ShouldReap;
  }

  lemma LoadingNext(s: State, left: set<DeviceID>, d: DeviceID, cfg: Config, now: int, stuck: set<DeviceID>, unsaved: set<DeviceID>)
    requires RowsOwned(s.saved, s.issued, s.devices) && d in left && left <= s.saved.Keys
    ensures d in Loading(s, left, cfg, now, stuck, unsaved).saved
    ensures Loading(s, left - {d}, cfg, now, stuck, unsaved) == LoadOne(Loading(s, left, cfg, now, stuck, unsaved), d, cfg, now, stuck, unsaved)
  {
    hide ShouldReap, RowsOwned, SurvivingRows, LoadedIndex, LoadedRetired, LoadedCredential;
    DoneNext(s, left, d, cfg, now);
    SurvivingOwned(s, left, cfg, now);
    SurvivingOwned(s, left - {d}, cfg, now);
    if Survives(s.saved[d], cfg, now) {
      IndexNext(SurvivingRows(s.saved - left, cfg, now), d, s.saved[d], now, s.issued, s.devices);
    }
  }

  /** challenges with all but those of left pruned. */
  function Pruning(challenges: map<ChallengeID, Challenge>, left: set<ChallengeID>, now: int): map<ChallengeID, Challenge> {
    map id | id in challenges && (id in left || Pruned(challenges[id], now).Some?) ::
      if id in left then challenges[id] else Pruned(challenges[id], now).value
  }

  lemma PruningNext(challenges: map<ChallengeID, Challenge>, left: set<ChallengeID>, id: ChallengeID, now: int)
    requires id in left && left <= challenges.Keys
    ensures id in Pruning(challenges, left, now) && Pruning(challenges, left, now)[id] == challenges[id]
    ensures Pruning(challenges, left - {id}, now)
      == match Pruned(challenges[id], now)
         case None => Pruning(challenges, left, now) - {id}
         case Some(c) => Pruning(challenges, left, now)[id := c]
  {
  }

  lemma Disarmed(log: seq<Arming>, armedUntil: Option<int>, armTTL: int)
    requires Armed(log, armedUntil, armTTL)
    ensures Armed(log, None, armTTL)
  {
  }

  /** Pruning leaves an active challenge exactly if one is within its time. */
  lemma OpenBefore(was: map<ChallengeID, Challenge>, activeID: Option<ChallengeID>, now: int, drawn: nat, pruned: map<ChallengeID, Challenge>,
                   paid: map<ChallengeID, DeviceID>, devices: nat)
    requires OneActive(pruned, activeID) && pruned == PruneChallenges(was, now) && PaidOnce(pruned, paid, drawn, devices)
    ensures activeID.None? <==> forall id | id in was && was[id].state.Active? :: now > was[id].expiresAt
    ensures activeID.Some? ==> activeID.value.n < drawn
  {
    forall id | id in was && was[id].state.Active? && now <= was[id].expiresAt ensures activeID == Some(id) {
      assert id in pruned && pruned[id].state.Active?;
    }
  }

  lemma ActiveAfter(was: map<ChallengeID, Challenge>, active: Option<ChallengeID>, now: int, left: Option<ChallengeID>)
    requires OneActive(was, active) && OneActive(PruneChallenges(was, now), left)
    ensures left == StillActive(PruneChallenges(was, now), active)
  {
    if left.Some? { assert left.value in was && was[left.value].state.Active?; }
  }

  lemma ActiveKnown(was: map<ChallengeID, Challenge>, activeID: Option<ChallengeID>, now: int, drawn: nat, pruned: map<ChallengeID, Challenge>,
                    paid: map<ChallengeID, DeviceID>, devices: nat)
    requires OneActive(pruned, activeID) && pruned == PruneChallenges(was, now) && PaidOnce(pruned, paid, drawn, devices)
    ensures activeID.Some? ==> activeID.value in pruned && pruned[activeID.value].state.Active? && now <= pruned[activeID.value].expiresAt
    ensures activeID.Some? ==> activeID.value in was
    ensures ChallengeID(drawn) !in pruned
  {
  }

  lemma OpenOne(challenges: map<ChallengeID, Challenge>, paid: map<ChallengeID, DeviceID>, drawn: nat, devices: nat, c: Challenge)
    requires OneActive(challenges, None) && PaidOnce(challenges, paid, drawn, devices) && c.state.Active?
    ensures OneActive(challenges[ChallengeID(drawn) := c], Some(ChallengeID(drawn)))
    ensures PaidOnce(challenges[ChallengeID(drawn) := c], paid, drawn + 1, devices)
  {
  }

  lemma Withdraw(challenges: map<ChallengeID, Challenge>, activeID: Option<ChallengeID>, paid: map<ChallengeID, DeviceID>, drawn: nat,
                 devices: nat, id: ChallengeID, c: Challenge)
    requires OneActive(challenges, activeID) && PaidOnce(challenges, paid, drawn, devices)
    requires id in challenges && challenges[id].state.Active? && !c.state.Active?
    ensures activeID == Some(id) && id !in paid && OneActive(challenges[id := c], None) && PaidOnce(challenges[id := c], paid, drawn, devices)
  {
  }

  /** The completed challenge is the active one, and was never completed before. */
  lemma Settle(challenges: map<ChallengeID, Challenge>, activeID: Option<ChallengeID>, paid: map<ChallengeID, DeviceID>, drawn: nat,
               devices: nat, id: ChallengeID, c: Challenge)
    requires OneActive(challenges, activeID) && PaidOnce(challenges, paid, drawn, devices)
    requires id in challenges && challenges[id].state.Active? && c.state.Completed?
    ensures activeID == Some(id) && id !in paid && OneActive(challenges[id := c], None)
    ensures PaidOnce(challenges[id := c], paid[id := DeviceID(devices)], drawn, devices + 1)
  {
  }

  lemma ForgetChallenge(challenges: map<ChallengeID, Challenge>, activeID: Option<ChallengeID>, paid: map<ChallengeID, DeviceID>,
                        drawn: nat, devices: nat, id: ChallengeID)
    requires OneActive(challenges, activeID) && PaidOnce(challenges, paid, drawn, devices)
    requires id in challenges && !challenges[id].state.Active?
    ensures OneActive(challenges - {id}, activeID) && PaidOnce(challenges - {id}, paid, drawn, devices)
  {
  }

  lemma IndexPaired(s: State, h: Hash)
    requires Inv(s)
    ensures h in s.byTokenHash ==> s.byTokenHash[h] in s.credentials
  {
    hide RowsOwned, InStep, RetiredApart, CredentialsOwned;
  }

  function RetiredBut(retired: map<Hash, RetiredToken>, d: DeviceID, left: set<Hash>): map<Hash, RetiredToken> {
    map h | h in retired && (h in left || retired[h].device != d) :: retired[h]
  }

  lemma RetiredNext(retired: map<Hash, RetiredToken>, d: DeviceID, left: set<Hash>, h: Hash)
    requires h in left && left <= retired.Keys
    ensures h in RetiredBut(retired, d, left) && RetiredBut(retired, d, left)[h] == retired[h]
    ensures RetiredBut(retired, d, left - {h})
      == if retired[h].device == d then RetiredBut(retired, d, left) - {h} else RetiredBut(retired, d, left)
  {
  }

  lemma DropRetired(s: State, d: DeviceID, stuck: set<DeviceID>)
    ensures Drop(s, {d}, stuck) == s.(credentials := Drop(s, {d}, stuck).credentials, byTokenHash := Drop(s, {d}, stuck).byTokenHash,
                                      retired := RetiredBut(s.retired, d, {}), saved := Drop(s, {d}, stuck).saved)
    ensures RetiredBut(s.retired, d, s.retired.Keys) == s.retired
  {
  }

  lemma DropKeeps(s: State, gone: set<DeviceID>, stuck: set<DeviceID>, d: DeviceID)
    requires d in s.credentials && d !in gone
    ensures d in Drop(s, gone, stuck).credentials && Drop(s, gone, stuck).credentials[d] == s.credentials[d]
  {
  }
}
