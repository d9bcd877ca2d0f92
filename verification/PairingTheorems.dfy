/** What the credential protocol guarantees over whole runs, lost responses, failed saves, crashes and restarts included. */
module PairingTheorems {
  import opened Names
  import opened Pairing

  // ----- The index -----

  /** The credential whose live hash is that of token, found by looking at every one of them. */
  ghost predicate Scanned(s: State, token: Token, d: DeviceID) {
    d in s.credentials && s.credentials[d].tokenHash == Some(Hash(token))
  }

  /** Going by the index validates exactly what a scan of all credentials would. */
  lemma ValidatesLikeScan(s: State, cfg: Config, token: Token, now: int, stuck: set<DeviceID>, d: DeviceID)
    requires Inv(s)
    ensures Validate(s, cfg, token, now, stuck).1.Granted? && Validate(s, cfg, token, now, stuck).1.device == d
      <==> Scanned(s, token, d) && now <= s.credentials[d].expiresAt
  {
    hide RowsOwned, InStep, RetiredApart, CredentialsOwned, Prune, Drop;
  }

  /** No credential is left without a hash, so the scan for unhashed ones never matches. */
  lemma LegacyScanNeverMatches(s: State, d: DeviceID)
    requires Inv(s) && d in s.credentials
    ensures s.credentials[d].tokenHash.Some?
  {
    hide RowsOwned, InStep, RetiredApart, Indexed;
    assert CredentialOwned(s.issued, d, s.credentials[d]);
  }

  /** A token rotated away authorizes nothing, however long it stays exchangeable. */
  lemma RetiredNeverValidates(s: State, cfg: Config, token: Token, now: int, stuck: set<DeviceID>)
    requires Inv(s) && Hash(token) in s.retired
    ensures Validate(s, cfg, token, now, stuck).1 == Refused(Invalid)
  {
    hide RowsOwned, InStep, CredentialsOwned, Prune, Drop, Indexed;
  }

  // ----- Restarts -----

  /** One restart makes paired exactly what the store has within its grace. */
  lemma SurvivesExactly(s: State, cfg: Config, now: int, stuck: set<DeviceID>, unsaved: set<DeviceID>, d: DeviceID)
    requires RowsOwned(s.saved, s.issued, s.devices)
    ensures var t := Load(s, cfg, now, stuck, unsaved);
      && t.devices == s.devices
      && (d in t.credentials <==> d in s.saved && Survives(s.saved[d], cfg, now))
      && (d in t.saved ==> d in s.saved) && (d in t.saved && d !in t.credentials ==> t.saved[d] == s.saved[d])
  {
    hide RowsOwned;
  }

  // ----- Grace -----

  /**
  A refresh that saves is granted if and only if the credential's grace is not over: it yields a new token for the full
  lifetime, and the old one stays exchangeable for 48 hours. Otherwise the device is deleted.
  */
  lemma RefreshGrantedExactly(s: State, cfg: Config, d: DeviceID, token: Token, now: int, stuck: set<DeviceID>)
    requires Inv(s) && d in s.credentials && s.credentials[d].tokenHash == Some(Hash(token))
    ensures var (t, answer) := Refresh(s, cfg, token, now, Completes, stuck);
      && (answer.Granted? <==> now <= s.credentials[d].expiresAt + if cfg.gracePeriod > 0 then cfg.gracePeriod else 0)
      && (answer.Granted? ==>
            && answer.device == d && d in t.credentials && answer.credential == t.credentials[d]
            && answer.credential.token == Some(Token(|s.issued|)) && answer.credential.expiresAt == now + cfg.tokenTTL
            && Hash(token) in t.retired && t.retired[Hash(token)] == RetiredToken(d, now + 172800))
      && (answer.Refused? ==>
            answer.failure == (if cfg.gracePeriod > 0 then GraceExpired else Expired) && t.credentials == s.credentials - {d})
  {
    hide RowsOwned, InStep, RetiredApart;
    assert Hash(token) in s.byTokenHash && s.byTokenHash[Hash(token)] == d;
    assert CredentialOwned(s.issued, d, s.credentials[d]);
    FreshToken(s.issued, Hash(token), d);
  }

  /** A refresh with a retired token is granted, for the device's current or a new token, until its deadline and within grace. */
  lemma RetiredGrantedExactly(s: State, cfg: Config, token: Token, now: int, stuck: set<DeviceID>)
    requires Inv(s) && Hash(token) in s.retired
    ensures var r, answer := s.retired[Hash(token)], Refresh(s, cfg, token, now, Completes, stuck).1;
      && r.device in s.credentials
      && (answer.Granted? <==>
            now <= r.until && now <= s.credentials[r.device].expiresAt + if cfg.gracePeriod > 0 then cfg.gracePeriod else 0)
      && (answer.Granted? ==> answer.device == r.device)
      && (now > r.until ==> answer == Refused(Invalid))
  {
    hide RowsOwned, InStep, CredentialsOwned, Indexed, Prune, Commit, Row;
    assert Hash(token) !in s.byTokenHash;
  }

  /** A token is looked up as its device's while it is live, and until its deadline once it is retired. */
  lemma LookedUpExactly(s: State, token: Token, now: int, d: DeviceID)
    requires Inv(s)
    ensures Lookup(s, token, now).Granted? && Lookup(s, token, now).device == d <==>
      || (d in s.credentials && s.credentials[d].tokenHash == Some(Hash(token)))
      || (Hash(token) in s.retired && s.retired[Hash(token)].device == d && now <= s.retired[Hash(token)].until)
    ensures Lookup(s, token, now).Granted? ==>
      Lookup(s, token, now).device in s.credentials && Lookup(s, token, now).credential == s.credentials[Lookup(s, token, now).device]
  {
    hide RowsOwned, InStep, CredentialsOwned;
  }

  /** Pruning keeps a device exactly until its grace is over. */
  lemma PruneKeepsExactly(s: State, cfg: Config, now: int, stuck: set<DeviceID>, d: DeviceID)
    ensures d in Prune(s, cfg, now, stuck).credentials <==>
      d in s.credentials && now <= s.credentials[d].expiresAt + if cfg.gracePeriod > 0 then cfg.gracePeriod else 0
    ensures d in Prune(s, cfg, now, stuck).credentials ==> Prune(s, cfg, now, stuck).credentials[d] == s.credentials[d]
  {
  }

  /** So does a restart, from the device's row; it also hashes a token that was stored plainly, unless saving that fails. */
  lemma LoadKeepsExactly(s: State, cfg: Config, now: int, stuck: set<DeviceID>, unsaved: set<DeviceID>, d: DeviceID)
    requires RowsOwned(s.saved, s.issued, s.devices)
    ensures var t := Load(s, cfg, now, stuck, unsaved);
      && (d in t.credentials <==>
            d in s.saved && now <= s.saved[d].expiresAt + if cfg.gracePeriod > 0 then cfg.gracePeriod else 0)
      && (d in t.credentials ==>
            && t.credentials[d].expiresAt == s.saved[d].expiresAt
            && t.credentials[d].tokenHash == Some(match s.saved[d].token case Hashed(h) => h case Plain(token) => Hash(token))
            && d in t.saved && t.saved[d].expiresAt == s.saved[d].expiresAt && t.saved[d].retired == s.saved[d].retired
            && t.saved[d].token == (if d in unsaved then s.saved[d].token else Hashed(t.credentials[d].tokenHash.value)))
      && (d in s.saved && d !in t.credentials ==> (d in t.saved <==> d in stuck))
  {
    hide RowsOwned;
  }

  /** Validation deletes an expired credential only if there is no grace. */
  lemma ValidateKeepsExactly(s: State, cfg: Config, d: DeviceID, token: Token, now: int, stuck: set<DeviceID>)
    requires Inv(s) && d in s.credentials && s.credentials[d].tokenHash == Some(Hash(token))
    ensures var (t, answer) := Validate(s, cfg, token, now, stuck);
      && (answer.Granted? <==> now <= s.credentials[d].expiresAt)
      && (answer.Refused? ==> answer.failure == Expired)
      && (d in t.credentials <==> now <= s.credentials[d].expiresAt || cfg.gracePeriod > 0)
      && (d in t.credentials ==> t.credentials[d].expiresAt == s.credentials[d].expiresAt && t.credentials[d].tokenHash == Some(Hash(token)))
  {
    hide RowsOwned, InStep, RetiredApart;
    assert Hash(token) in s.byTokenHash && s.byTokenHash[Hash(token)] == d;
  }

  // ----- Runs -----

  /** One call, or a restart. A refresh that crashes is followed by a restart up seconds later. */
  datatype Op =
    | Refreshing(token: Token, ending: Ending, stuck: set<DeviceID>, unsaved: set<DeviceID>, up: nat)
    | Validating(token: Token, stuck: set<DeviceID>)
    | Revoking(device: DeviceID, stuck: set<DeviceID>)
    | Pruning(stuck: set<DeviceID>)
    | Completing(saves: bool, stuck: set<DeviceID>)
    | Restarting(stuck: set<DeviceID>, unsaved: set<DeviceID>)

  predicate Crash(op: Op) {
    op.Refreshing? && op.ending.Crashes?
  }

  function EndsAt(op: Op, at: int): int {
    if Crash(op) then at + op.up else at
  }

  ghost function Step(s: State, cfg: Config, op: Op, at: int): (t: State)
    requires Inv(s)
    ensures Inv(t)
  {
    hide Inv, RowsOwned, Refresh, Validate, Drop, Prune, Complete, Load;
    InvRows(s);
    match op
    case Refreshing(token, ending, stuck, unsaved, up) =>
      RefreshInv(s, cfg, token, at, ending, stuck);
      var t := Refresh(s, cfg, token, at, ending, stuck).0;
      if ending.Crashes? then LoadInv(t, cfg, at + up, stuck, unsaved); Load(t, cfg, at + up, stuck, unsaved) else t
    case Validating(token, stuck) =>
      ValidateInv(s, cfg, token, at, stuck);
      Validate(s, cfg, token, at, stuck).0
    case Revoking(d, stuck) =>
      DropInv(s, {d}, stuck);
      Revoke(s, d, stuck)
    case Pruning(stuck) =>
      PruneInv(s, cfg, at, stuck);
      Prune(s, cfg, at, stuck)
    case Completing(saves, stuck) =>
      CompleteInv(s, cfg, at, saves, stuck);
      Complete(s, cfg, at, saves, stuck).0
    case Restarting(stuck, unsaved) =>
      LoadInv(s, cfg, at, stuck, unsaved);
      Load(s, cfg, at, stuck, unsaved)
  }

  // ----- A client whose responses get lost -----

  /** The last token a device received. deadline is when it stops being exchangeable, None while it is live. */
  datatype Client = Client(device: DeviceID, token: Token, deadline: Option<int>)

  ghost predicate RowHolds(saved: map<DeviceID, PairingRecord>, c: Client, now: int) {
    && c.device in saved
    && (c.deadline.None? <==> StoredHash(saved[c.device].token) == Hash(c.token))
    && (c.deadline.Some? && now < c.deadline.value ==> saved[c.device].retired == Some((Hash(c.token), c.deadline.value)))
  }

  /** At now the client's token is live, or rotated away with the deadline it always had; the store says the same. */
  ghost predicate Holds(s: State, c: Client, now: int) {
    && c.device in s.credentials
    && Owned(s.issued, Hash(c.token), c.device)
    && RowHolds(s.saved, c, now)
    && (c.deadline.Some? && now < c.deadline.value ==>
          Hash(c.token) in s.retired && s.retired[Hash(c.token)] == RetiredToken(c.device, c.deadline.value))
  }

  /** What the client holds after a call, whose answer reaches it or not. */
  function ClientAfter(s: State, cfg: Config, c: Client, op: Op, at: int, delivered: bool): Client {
    if !op.Refreshing? || op.token != c.token then c
    else
      var (t, answer) := Refresh(s, cfg, op.token, at, op.ending, op.stuck);
      if delivered && !Crash(op) && answer.Granted? && answer.credential.token.Some? then Client(c.device, answer.credential.token.value, None)
      else if c.deadline.None? && c.device in t.saved && StoredHash(t.saved[c.device].token) != Hash(c.token) then
        c.(deadline := Some(at + ROTATION_OVERLAP))
      else c
  }

  /** The device is not revoked, its grace does not run out, and only the client presents its tokens: the last it received. */
  ghost predicate Undisturbed(s: State, cfg: Config, c: Client, op: Op, at: int)
    requires Inv(s)
  {
    && (op.Revoking? ==> op.device != c.device)
    && (c.device in s.credentials ==> !ShouldReap(s.credentials[c.device].expiresAt, cfg, at))
    && (Crash(op) ==> var t := Refresh(s, cfg, op.token, at, op.ending, op.stuck).0;
          c.device in t.saved ==> !ShouldReap(t.saved[c.device].expiresAt, cfg, EndsAt(op, at)))
    && (op.Refreshing? && Owned(s.issued, Hash(op.token), c.device) ==> op.token == c.token)
  }

  lemma HoldsLater(s: State, c: Client, now: int, later: int)
    requires Holds(s, c, now) && now <= later
    ensures Holds(s, c, later)
  {
  }

  lemma DropHolds(s: State, c: Client, now: int, gone: set<DeviceID>, stuck: set<DeviceID>)
    requires Holds(s, c, now) && c.device !in gone
    ensures Holds(Drop(s, gone, stuck), c, now)
  {
  }

  lemma PruneHolds(s: State, cfg: Config, c: Client, now: int, stuck: set<DeviceID>)
    requires Holds(s, c, now) && !ShouldReap(s.credentials[c.device].expiresAt, cfg, now)
    ensures Holds(Prune(s, cfg, now, stuck), c, now)
  {
    hide ShouldReap;
    DropHolds(s, c, now, Reaped(s, cfg, now), stuck);
  }

  lemma LoadHolds(s: State, cfg: Config, c: Client, now: int, stuck: set<DeviceID>, unsaved: set<DeviceID>)
    requires RowsOwned(s.saved, s.issued, s.devices) && RowHolds(s.saved, c, now) && Owned(s.issued, Hash(c.token), c.device)
    requires !ShouldReap(s.saved[c.device].expiresAt, cfg, now)
    ensures Holds(Load(s, cfg, now, stuck, unsaved), c, now)
  {
    hide ShouldReap, RowsOwned;
    var rows := SurvivingRows(s.saved, cfg, now);
    assert c.device in rows;
    LoadRows(s, cfg, now, stuck, unsaved);
    LoadedIn(rows, now, s.issued, s.devices, c.device);
  }

  lemma LoadedIn(rows: map<DeviceID, PairingRecord>, now: int, issued: seq<DeviceID>, devices: nat, d: DeviceID)
    requires RowsOwned(rows, issued, devices) && d in rows
    ensures rows[d].retired.Some? && now < rows[d].retired.value.1 ==>
      var h := rows[d].retired.value.0;
      h in LoadedRetired(rows, now, issued, devices) && LoadedRetired(rows, now, issued, devices)[h] == RetiredToken(d, rows[d].retired.value.1)
  {
  }

  // ----- Rotations -----

  /** The client once its token was rotated away: for the first time, or again. */
  function Overtaken(c: Client, now: int): Client {
    if c.deadline.None? then c.(deadline := Some(now + ROTATION_OVERLAP)) else c
  }

  function Presented(c: Client, until: int): Option<(Hash, int)> {
    if c.deadline.None? then None else Some((Hash(c.token), until))
  }

  lemma RotatedRow(s: State, cfg: Config, c: Client, until: int, now: int)
    requires Inv(s) && Holds(s, c, now) && (c.deadline.Some? && now < c.deadline.value ==> until == c.deadline.value)
    ensures var fresher := Token(|s.issued|);
      var saved := s.saved[c.device := Row(s.credentials[c.device], fresher, cfg, Presented(c, until), now)];
      RowHolds(saved, Overtaken(c, now), now) && RowHolds(saved, Client(c.device, fresher, None), now)
  {
    hide Indexed, CredentialsOwned, RetiredApart, RowsOwned;
    FreshToken(s.issued, Hash(c.token), c.device);
  }

  lemma RotatedMemory(s: State, cfg: Config, c: Client, now: int, saved: map<DeviceID, PairingRecord>, issued: seq<DeviceID>)
    requires Inv(s) && Holds(s, c, now) && issued == s.issued + [c.device]
    requires RowHolds(saved, Overtaken(c, now), now) && RowHolds(saved, Client(c.device, Token(|s.issued|), None), now)
    ensures var t := Commit(s.(saved := saved, issued := issued), c.device, Token(|s.issued|), now + cfg.tokenTTL, now);
      Holds(t, Overtaken(c, now), now) && Holds(t, Client(c.device, Token(|s.issued|), None), now)
  {
    hide RowsOwned;
    FreshToken(s.issued, Hash(c.token), c.device);
    assert CredentialOwned(s.issued, c.device, s.credentials[c.device]);
    FreshToken(s.issued, s.credentials[c.device].tokenHash.value, c.device);
  }

  lemma DrawnHolds(s: State, c: Client, now: int, d: DeviceID)
    requires Holds(s, c, now)
    ensures Holds(s.(issued := s.issued + [d]), c, now)
  {
    hide RowHolds;
  }

  /** The client's own rotation, however it ends. */
  lemma RotateHolds(s: State, cfg: Config, c: Client, until: int, now: int, ending: Ending, stuck: set<DeviceID>)
    requires Inv(s) && Holds(s, c, now) && !ShouldReap(s.credentials[c.device].expiresAt, cfg, now)
    requires c.deadline.Some? && now < c.deadline.value ==> until == c.deadline.value
    ensures var (t, answer) := Rotate(s, cfg, c.device, Presented(c, until), now, ending, stuck);
      && Owned(t.issued, Hash(c.token), c.device)
      && (ending.SaveFails? ==> Holds(t, c, now) && answer.Refused?)
      && (!ending.SaveFails? ==> RowHolds(t.saved, Overtaken(c, now), now))
      && (ending.Completes? ==> Holds(t, Overtaken(c, now), now))
      && (ending.Completes? ==> Holds(t, Client(c.device, Token(|s.issued|), None), now))
      && (ending.Completes? ==> answer.Granted? && answer.device == c.device && answer.credential.token == Some(Token(|s.issued|)))
  {
    hide Inv, RowHolds, Row, Presented, Overtaken, ShouldReap;
    var fresher := Token(|s.issued|);
    var saved := s.saved[c.device := Row(s.credentials[c.device], fresher, cfg, Presented(c, until), now)];
    DrawnHolds(s, c, now, c.device);
    RotatedRow(s, cfg, c, until, now);
    RotatedMemory(s, cfg, c, now, saved, s.issued + [c.device]);
  }

  lemma CommitOther(s: State, c: Client, d: DeviceID, fresher: Token, expiresAt: int, now: int)
    requires Holds(s, c, now) && d in s.credentials && d != c.device && s.credentials[d].tokenHash != Some(Hash(c.token))
    ensures Holds(Commit(s, d, fresher, expiresAt, now), c, now)
  {
    hide RowHolds;
  }

  lemma OthersHash(s: State, c: Client, now: int, d: DeviceID)
    requires Inv(s) && Holds(s, c, now) && d in s.credentials && d != c.device
    ensures s.credentials[d].tokenHash != Some(Hash(c.token))
  {
    hide RowsOwned, Indexed, RetiredApart, InStep, RowHolds;
    assert CredentialOwned(s.issued, d, s.credentials[d]);
  }

  lemma SavedOther(s: State, c: Client, now: int, d: DeviceID, row: PairingRecord)
    requires Holds(s, c, now) && d != c.device
    ensures Holds(s.(saved := s.saved[d := row]), c, now)
  {
  }

  /** Another device's rotation. */
  lemma RotateOther(s: State, cfg: Config, c: Client, d: DeviceID, presented: Option<(Hash, int)>, now: int, ending: Ending, stuck: set<DeviceID>)
    requires Inv(s) && Holds(s, c, now) && d in s.credentials && d != c.device
    ensures Holds(Rotate(s, cfg, d, presented, now, ending, stuck).0, c, now)
  {
    DropHolds(s, c, now, {d}, stuck);
    OthersHash(s, c, now, d);
    DrawnHolds(s, c, now, d);
    hide Inv, Holds, Row, ShouldReap, Commit, Drop;
    var drawn := s.(issued := s.issued + [d]);
    var row := Row(s.credentials[d], Token(|s.issued|), cfg, presented, now);
    SavedOther(drawn, c, now, d, row);
    CommitOther(drawn.(saved := s.saved[d := row]), c, d, Token(|s.issued|), now + cfg.tokenTTL, now);
  }

  // ----- One step -----

  lemma LiveToken(s: State, c: Client, now: int)
    requires Inv(s) && Holds(s, c, now)
    ensures var h := Hash(c.token);
      && (c.deadline.None? <==> h in s.byTokenHash)
      && (h in s.byTokenHash ==> s.byTokenHash[h] == c.device)
      && (h in s.retired ==> s.retired[h].device == c.device)
      && (c.deadline.Some? && now < c.deadline.value ==> RetiredDevice(s, h, now) == Some(c.device) && s.retired[h].until == c.deadline.value)
  {
    hide RowsOwned;
    var h := Hash(c.token);
    if h in s.byTokenHash {
      assert CredentialOwned(s.issued, s.byTokenHash[h], s.credentials[s.byTokenHash[h]]);
    }
  }

  lemma CurrentHolds(s: State, c: Client, now: int)
    requires Inv(s) && Holds(s, c, now) && s.credentials[c.device].token.Some?
    ensures Holds(s, Client(c.device, s.credentials[c.device].token.value, None), now)
  {
    hide RowsOwned, Indexed, RetiredApart;
    assert CredentialOwned(s.issued, c.device, s.credentials[c.device]);
  }

  /** The client's own refresh. */
  lemma OwnRefreshHolds(s: State, cfg: Config, c: Client, now: int, op: Op, delivered: bool)
    requires Inv(s) && Holds(s, c, now) && !ShouldReap(s.credentials[c.device].expiresAt, cfg, now)
    requires op.Refreshing? && op.token == c.token
    ensures var t := Refresh(s, cfg, op.token, now, op.ending, op.stuck).0;
      var after := ClientAfter(s, cfg, c, op, now, delivered);
      && Owned(t.issued, Hash(after.token), c.device)
      && RowHolds(t.saved, after, now)
      && (!op.ending.Crashes? ==> Holds(t, after, now))
  {
    hide Inv, ShouldReap, Prune, Rotate;
    var h := Hash(c.token);
    LiveToken(s, c, now);
    if c.deadline.None? {
      RotateHolds(s, cfg, c, 0, now, op.ending, op.stuck);
    } else if RetiredDevice(s, h, now).Some? {
      RotateHolds(s, cfg, c, s.retired[h].until, now, op.ending, op.stuck);
      if s.credentials[c.device].token.Some? { CurrentHolds(s, c, now); }
    } else {
      PruneHolds(s, cfg, c, now, op.stuck);
    }
  }

  /** A refresh with a token that is not the client's device's. */
  lemma OtherRefreshHolds(s: State, cfg: Config, c: Client, now: int, op: Op)
    requires Inv(s) && Holds(s, c, now) && !ShouldReap(s.credentials[c.device].expiresAt, cfg, now)
    requires op.Refreshing? && !Owned(s.issued, Hash(op.token), c.device)
    ensures Holds(Refresh(s, cfg, op.token, now, op.ending, op.stuck).0, c, now)
  {
    hide Holds, ShouldReap, Prune, Rotate, Owned, RowsOwned, InStep, Indexed;
    var h := Hash(op.token);
    if h in s.byTokenHash { IndexOwned(s, h); }
    if h in s.byTokenHash && s.byTokenHash[h] in s.credentials {
      RotateOther(s, cfg, c, s.byTokenHash[h], None, now, op.ending, op.stuck);
    } else if RetiredDevice(s, h, now).Some? {
      RotateOther(s, cfg, c, s.retired[h].device, Some((h, s.retired[h].until)), now, op.ending, op.stuck);
    } else {
      PruneHolds(s, cfg, c, now, op.stuck);
    }
  }

  lemma IndexOwned(s: State, h: Hash)
    requires Inv(s) && h in s.byTokenHash
    ensures Owned(s.issued, h, s.byTokenHash[h])
  {
    hide RowsOwned, InStep, Owned, RetiredApart;
    assert CredentialOwned(s.issued, s.byTokenHash[h], s.credentials[s.byTokenHash[h]]);
  }

  lemma SoftExpireHolds(s: State, c: Client, now: int, d: DeviceID)
    requires Holds(s, c, now) && d in s.credentials
    ensures Holds(s.(credentials := s.credentials[d := s.credentials[d].(expiredAt := Some(now))]), c, now)
  {
    hide RowHolds;
  }

  lemma ValidateHolds(s: State, cfg: Config, c: Client, now: int, token: Token, stuck: set<DeviceID>)
    requires Inv(s) && Holds(s, c, now) && !ShouldReap(s.credentials[c.device].expiresAt, cfg, now)
    ensures Holds(Validate(s, cfg, token, now, stuck).0, c, now)
  {
    hide Inv, Holds, Prune, Drop;
    PruneHolds(s, cfg, c, now, stuck);
    var h := Hash(token);
    if h in s.byTokenHash && s.byTokenHash[h] in s.credentials {
      SoftExpireHolds(s, c, now, s.byTokenHash[h]);
      if s.byTokenHash[h] != c.device { DropHolds(s, c, now, {s.byTokenHash[h]}, stuck); }
    }
  }

  lemma CompleteHolds(s: State, cfg: Config, c: Client, now: int, saves: bool, stuck: set<DeviceID>)
    requires Inv(s) && Holds(s, c, now) && !ShouldReap(s.credentials[c.device].expiresAt, cfg, now)
    ensures Holds(Complete(s, cfg, now, saves, stuck).0, c, now)
  {
    hide Inv, Prune, ShouldReap, Holds;
    var t := Prune(s, cfg, now, stuck);
    var d, token := DeviceID(s.devices), Token(|s.issued|);
    HasCredential(s, c, now);
    KnownDevice(s, c.device);
    PruneInv(s, cfg, now, stuck);
    PruneHolds(s, cfg, c, now, stuck);
    DrawnHolds(t, c, now, d);
    PairHolds(t.(issued := t.issued + [d]), c, now, d, Credential(Some(Hash(token)), Some(token), now + cfg.tokenTTL, None));
    SavedOther(PairedState(t.(issued := t.issued + [d]), d, Credential(Some(Hash(token)), Some(token), now + cfg.tokenTTL, None)),
               c, now, d, PairingRecord(Hashed(Hash(token)), now + cfg.tokenTTL, None));
  }

  lemma HasCredential(s: State, c: Client, now: int)
    requires Holds(s, c, now)
    ensures c.device in s.credentials
  {
    hide RowHolds;
  }

  function PairedState(s: State, d: DeviceID, paired: Credential): State
    requires paired.tokenHash.Some?
  {
    s.(credentials := s.credentials[d := paired], byTokenHash := s.byTokenHash[paired.tokenHash.value := d], devices := s.devices + 1)
  }

  lemma PairHolds(s: State, c: Client, now: int, d: DeviceID, paired: Credential)
    requires Holds(s, c, now) && d != c.device && paired.tokenHash.Some?
    ensures Holds(PairedState(s, d, paired), c, now)
  {
    hide RowHolds;
  }

  lemma KnownDevice(s: State, d: DeviceID)
    requires Inv(s) && d in s.credentials
    ensures d.n < s.devices
  {
    hide RowsOwned, InStep, Indexed, RetiredApart, CredentialOwned;
  }

  /** Every step keeps what the client relies on. */
  lemma StepHolds(s: State, cfg: Config, c: Client, now: int, op: Op, delivered: bool)
    requires Inv(s) && Holds(s, c, now) && Undisturbed(s, cfg, c, op, now)
    ensures Holds(Step(s, cfg, op, now), ClientAfter(s, cfg, c, op, now, delivered), EndsAt(op, now))
  {
    hide Inv, Holds, ShouldReap, Refresh, Validate, Drop, Prune, Complete, Load, RowsOwned;
    InvRows(s);
    HasCredential(s, c, now);
    match op
    case Refreshing(token, ending, stuck, unsaved, up) =>
      RefreshStep(s, cfg, c, now, op, delivered);
    case Validating(token, stuck) =>
      ValidateHolds(s, cfg, c, now, token, stuck);
    case Revoking(d, stuck) =>
      DropHolds(s, c, now, {d}, stuck);
    case Pruning(stuck) =>
      PruneHolds(s, cfg, c, now, stuck);
    case Completing(saves, stuck) =>
      CompleteHolds(s, cfg, c, now, saves, stuck);
    case Restarting(stuck, unsaved) =>
      RestartHolds(s, cfg, c, now, stuck, unsaved);
  }

  lemma RestartHolds(s: State, cfg: Config, c: Client, now: int, stuck: set<DeviceID>, unsaved: set<DeviceID>)
    requires Inv(s) && Holds(s, c, now) && !ShouldReap(s.credentials[c.device].expiresAt, cfg, now)
    ensures RowsOwned(s.saved, s.issued, s.devices) && Holds(Load(s, cfg, now, stuck, unsaved), c, now)
  {
    hide ShouldReap, Indexed, CredentialsOwned, RetiredApart, RowsOwned, Load;
    LoadHolds(s, cfg, c, now, stuck, unsaved);
  }

  lemma RowHoldsLater(saved: map<DeviceID, PairingRecord>, c: Client, now: int, later: int)
    requires RowHolds(saved, c, now) && now <= later
    ensures RowHolds(saved, c, later)
  {
  }

  lemma RefreshStep(s: State, cfg: Config, c: Client, now: int, op: Op, delivered: bool)
    requires Inv(s) && Holds(s, c, now) && op.Refreshing? && Undisturbed(s, cfg, c, op, now)
    ensures Holds(Step(s, cfg, op, now), ClientAfter(s, cfg, c, op, now, delivered), EndsAt(op, now))
  {
    hide Inv, ShouldReap, Refresh, RowsOwned, Load, RowHolds;
    var t := Refresh(s, cfg, op.token, now, op.ending, op.stuck).0;
    var after := ClientAfter(s, cfg, c, op, now, delivered);
    RefreshInv(s, cfg, op.token, now, op.ending, op.stuck);
    if op.token == c.token {
      OwnRefreshHolds(s, cfg, c, now, op, delivered);
    } else {
      OtherRefreshHolds(s, cfg, c, now, op);
    }
    if op.ending.Crashes? {
      RowHoldsLater(t.saved, after, now, EndsAt(op, now));
      HasRow(t.saved, after, now);
      LoadHolds(t, cfg, after, EndsAt(op, now), op.stuck, op.unsaved);
    }
  }

  lemma HasRow(saved: map<DeviceID, PairingRecord>, c: Client, now: int)
    requires RowHolds(saved, c, now)
    ensures c.device in saved
  {
  }

  // ----- Whole runs -----

  datatype Event = Event(op: Op, at: int, delivered: bool)

  ghost function Final(s: State, cfg: Config, events: seq<Event>): (t: State)
    requires Inv(s)
    ensures Inv(t)
    decreases events
  {
    hide Inv, Step;
    if events == [] then s else Final(Step(s, cfg, events[0].op, events[0].at), cfg, events[1..])
  }

  ghost function FinalClient(s: State, cfg: Config, c: Client, events: seq<Event>): Client
    requires Inv(s)
    decreases events
  {
    if events == [] then c
    else FinalClient(Step(s, cfg, events[0].op, events[0].at), cfg,
                     ClientAfter(s, cfg, c, events[0].op, events[0].at, events[0].delivered), events[1..])
  }

  function FinalClock(now: int, events: seq<Event>): int {
    if events == [] then now else EndsAt(events[|events| - 1].op, events[|events| - 1].at)
  }

  /** A run in which time does not go back and no step disturbs the client. */
  ghost predicate Calm(s: State, cfg: Config, c: Client, events: seq<Event>, now: int)
    requires Inv(s)
    decreases events
  {
    events == [] ||
    (var e := events[0];
     && now <= e.at
     && Undisturbed(s, cfg, c, e.op, e.at)
     && Calm(Step(s, cfg, e.op, e.at), cfg, ClientAfter(s, cfg, c, e.op, e.at, e.delivered), events[1..], EndsAt(e.op, e.at)))
  }

  /**
   * Whatever refreshes, lost responses, failed saves, crashes and restarts follow, the last token the client
   * received stays live, or keeps the very deadline its first rotation gave it, in memory and in the store.
   */
  lemma {:induction false} RunHolds(s: State, cfg: Config, c: Client, events: seq<Event>, now: int)
    requires Inv(s) && Holds(s, c, now) && Calm(s, cfg, c, events, now)
    ensures Holds(Final(s, cfg, events), FinalClient(s, cfg, c, events), FinalClock(now, events))
    decreases events
  {
    hide Inv, Holds, Step, ClientAfter, Undisturbed;
    if events != [] {
      var e := events[0];
      HoldsLater(s, c, now, e.at);
      StepHolds(s, cfg, c, e.at, e.op, e.delivered);
      RunHolds(Step(s, cfg, e.op, e.at), cfg, ClientAfter(s, cfg, c, e.op, e.at, e.delivered), events[1..], EndsAt(e.op, e.at));
    }
  }

  /** So the client can exchange it, strictly before that deadline, for a token that validates. */
  lemma Exchangeable(s: State, cfg: Config, c: Client, now: int, stuck: set<DeviceID>)
    requires Inv(s) && Holds(s, c, now) && cfg.tokenTTL > 0
    requires !ShouldReap(s.credentials[c.device].expiresAt, cfg, now)
    requires c.deadline.Some? ==> now < c.deadline.value
    ensures var (t, answer) := Refresh(s, cfg, c.token, now, Completes, stuck);
      && answer.Granted? && answer.device == c.device && answer.credential.token.Some? && Inv(t)
      && Validate(t, cfg, answer.credential.token.value, now, stuck) == (t, answer)
  {
    hide ShouldReap, Rotate, RowsOwned;
    var (t, answer) := Refresh(s, cfg, c.token, now, Completes, stuck);
    RefreshInv(s, cfg, c.token, now, Completes, stuck);
    LiveToken(s, c, now);
    if c.deadline.None? {
      Rotated(s, cfg, c, 0, now, stuck);
    } else if !(s.credentials[c.device].token.Some? && now < s.credentials[c.device].expiresAt) {
      Rotated(s, cfg, c, c.deadline.value, now, stuck);
    } else {
      CurrentHolds(s, c, now);
      LiveToken(s, Client(c.device, s.credentials[c.device].token.value, None), now);
    }
  }

  lemma Rotated(s: State, cfg: Config, c: Client, until: int, now: int, stuck: set<DeviceID>)
    requires Inv(s) && Holds(s, c, now) && !ShouldReap(s.credentials[c.device].expiresAt, cfg, now) && cfg.tokenTTL > 0
    ensures var (t, answer) := Rotate(s, cfg, c.device, Presented(c, until), now, Completes, stuck);
      && answer.Granted? && answer.device == c.device && answer.credential.token == Some(Token(|s.issued|))
      && Validate(t, cfg, Token(|s.issued|), now, stuck) == (t, answer)
  {
    hide Inv, ShouldReap, Row, Presented, Holds;
    HasCredential(s, c, now);
  }

  /** A device that was handed its first token, its row saved, is such a client. */
  lemma FirstToken(s: State, cfg: Config, now: int, stuck: set<DeviceID>)
    requires Inv(s)
    ensures var (t, answer) := Complete(s, cfg, now, true, stuck);
      answer.Granted? && answer.credential.token.Some? && Inv(t) && Holds(t, Client(answer.device, answer.credential.token.value, None), now)
  {
    CompleteInv(s, cfg, now, true, stuck);
    PruneInv(s, cfg, now, stuck);
    hide Inv, Prune;
  }

  // ----- Revoked devices -----

  predicate Restarts(op: Op) {
    op.Restarting? || Crash(op)
  }

  /** Time does not go back. */
  predicate Timed(events: seq<Event>, now: int)
    decreases events
  {
    events == [] || (now <= events[0].at && Timed(events[1..], EndsAt(events[0].op, events[0].at)))
  }

  /** At some moment of the run d is paired. */
  ghost predicate PairedIn(s: State, cfg: Config, events: seq<Event>, d: DeviceID)
    requires Inv(s)
    decreases events
  {
    d in s.credentials || (events != [] && PairedIn(Step(s, cfg, events[0].op, events[0].at), cfg, events[1..], d))
  }

  /** Being paired is being granted: some token is taken for d's. */
  lemma PairedIsGranted(s: State, d: DeviceID, now: int)
    requires Inv(s)
    ensures d in s.credentials <==> exists token :: Lookup(s, token, now).Granted? && Lookup(s, token, now).device == d
  {
    hide RowsOwned, InStep, RetiredApart;
    if d in s.credentials {
      assert CredentialOwned(s.issued, d, s.credentials[d]);
      var token := s.credentials[d].tokenHash.value.token;
      assert Hash(token) in s.byTokenHash && s.byTokenHash[Hash(token)] == d;
      assert Lookup(s, token, now).Granted? && Lookup(s, token, now).device == d;
    }
  }

  lemma RefreshUnpaired(s: State, cfg: Config, token: Token, now: int, ending: Ending, stuck: set<DeviceID>, d: DeviceID)
    requires Inv(s) && d !in s.credentials
    ensures var t := Refresh(s, cfg, token, now, ending, stuck).0;
      d !in t.credentials && t.devices == s.devices && (d in t.saved <==> d in s.saved) && (d in s.saved ==> t.saved[d] == s.saved[d])
  {
    hide RowsOwned, InStep, RetiredApart, CredentialsOwned, Row;
  }

  lemma ValidateUnpaired(s: State, cfg: Config, token: Token, now: int, stuck: set<DeviceID>, d: DeviceID)
    requires Inv(s) && d !in s.credentials
    ensures var t := Validate(s, cfg, token, now, stuck).0;
      d !in t.credentials && t.devices == s.devices && (d in t.saved <==> d in s.saved) && (d in s.saved ==> t.saved[d] == s.saved[d])
  {
    hide RowsOwned, InStep, RetiredApart, CredentialsOwned;
  }

  /** No call but a restart pairs a device again, or touches its row. */
  lemma StepUnpaired(s: State, cfg: Config, op: Op, now: int, d: DeviceID)
    requires Inv(s) && d !in s.credentials && d.n < s.devices && !Restarts(op)
    ensures var t := Step(s, cfg, op, now);
      d !in t.credentials && d.n < t.devices && (d in t.saved <==> d in s.saved) && (d in s.saved ==> t.saved[d] == s.saved[d])
  {
    hide Inv, Refresh, Validate, Load, Reaped;
    match op
    case Refreshing(token, ending, stuck, unsaved, up) => RefreshUnpaired(s, cfg, token, now, ending, stuck, d);
    case Validating(token, stuck) => ValidateUnpaired(s, cfg, token, now, stuck, d);
    case Revoking(e, stuck) =>
    case Pruning(stuck) => ReapedPaired(s, cfg, now);
    case Completing(saves, stuck) => ReapedPaired(s, cfg, now);
    case Restarting(stuck, unsaved) =>
  }

  lemma ReapedPaired(s: State, cfg: Config, now: int)
    ensures Reaped(s, cfg, now) <= s.credentials.Keys
  {
  }

  lemma RestartUnpaired(s: State, cfg: Config, op: Op, now: int, d: DeviceID)
    requires Inv(s) && d !in s.credentials && d.n < s.devices && Restarts(op)
    ensures var t := Step(s, cfg, op, now);
      && d.n < t.devices
      && (d in t.credentials <==> d in s.saved && Survives(s.saved[d], cfg, EndsAt(op, now)))
      && (d !in t.credentials && d in t.saved ==> d in s.saved && t.saved[d] == s.saved[d])
  {
    hide Inv, Refresh, Load, RowsOwned, Survives, Step;
    InvRows(s);
    StepRestarts(s, cfg, op, now);
    if op.Refreshing? {
      RefreshUnpaired(s, cfg, op.token, now, op.ending, op.stuck, d);
      RefreshInv(s, cfg, op.token, now, op.ending, op.stuck);
      SurvivesExactly(Refresh(s, cfg, op.token, now, op.ending, op.stuck).0, cfg, now + op.up, op.stuck, op.unsaved, d);
    } else {
      SurvivesExactly(s, cfg, now, op.stuck, op.unsaved, d);
    }
  }

  lemma StepRestarts(s: State, cfg: Config, op: Op, now: int)
    requires Inv(s) && Restarts(op) && RowsOwned(s.saved, s.issued, s.devices)
    ensures var t := if op.Restarting? then s else Refresh(s, cfg, op.token, now, op.ending, op.stuck).0;
      RowsOwned(t.saved, t.issued, t.devices) && Step(s, cfg, op, now) == Load(t, cfg, EndsAt(op, now), op.stuck, op.unsaved)
  {
    hide Inv, Refresh, Load, RowsOwned;
    if op.Refreshing? { RefreshInv(s, cfg, op.token, now, op.ending, op.stuck); }
  }

  lemma GraceEnds(r: PairingRecord, cfg: Config, now: int, later: int)
    requires now <= later && Survives(r, cfg, later)
    ensures Survives(r, cfg, now)
  {
  }

  /** The run restarts while r is within its grace. */
  ghost predicate RestartsWithin(events: seq<Event>, r: PairingRecord, cfg: Config) {
    exists e :: e in events && Restarts(e.op) && Survives(r, cfg, EndsAt(e.op, e.at))
  }

  lemma WithinLater(e: Event, rest: seq<Event>, r: PairingRecord, cfg: Config)
    ensures RestartsWithin([e] + rest, r, cfg) <==> (Restarts(e.op) && Survives(r, cfg, EndsAt(e.op, e.at))) || RestartsWithin(rest, r, cfg)
  {
    hide Survives, Restarts;
    assert e in [e] + rest && forall f | f in rest :: f in [e] + rest;
  }

  lemma {:induction false} TimedFrom(events: seq<Event>, now: int, e: Event)
    requires Timed(events, now) && e in events && forall f | f in events :: f.at <= EndsAt(f.op, f.at)
    ensures now <= EndsAt(e.op, e.at)
    decreases events
  {
    if e != events[0] { TimedFrom(events[1..], EndsAt(events[0].op, events[0].at), e); }
  }

  lemma TooLate(events: seq<Event>, now: int, r: PairingRecord, cfg: Config)
    requires Timed(events, now) && !Survives(r, cfg, now)
    ensures !RestartsWithin(events, r, cfg)
  {
    hide Survives, Timed;
    forall e | e in events ensures !Survives(r, cfg, EndsAt(e.op, e.at)) {
      TimedFrom(events, now, e);
      if Survives(r, cfg, EndsAt(e.op, e.at)) { GraceEnds(r, cfg, now, EndsAt(e.op, e.at)); }
    }
  }

  /** Over every run, an unpaired device is paired again if and only if a restart comes while its row is stored and within its grace. */
  lemma {:induction false} UnpairedReturnsExactly(s: State, cfg: Config, d: DeviceID, events: seq<Event>, now: int)
    requires Inv(s) && d !in s.credentials && d.n < s.devices && Timed(events, now)
    ensures PairedIn(s, cfg, events, d) <==> d in s.saved && RestartsWithin(events, s.saved[d], cfg)
    decreases events
  {
    hide Inv, Step, Survives, RestartsWithin;
    if events == [] {
      if d in s.saved { NoRestart(s.saved[d], cfg); }
    } else {
      var e, rest := events[0], events[1..];
      var t, after := Step(s, cfg, e.op, e.at), EndsAt(e.op, e.at);
      assert events == [e] + rest;
      if d in s.saved { WithinLater(e, rest, s.saved[d], cfg); }
      if !Restarts(e.op) {
        StepUnpaired(s, cfg, e.op, e.at, d);
        UnpairedReturnsExactly(t, cfg, d, rest, after);
      } else {
        RestartUnpaired(s, cfg, e.op, e.at, d);
        if d !in t.credentials {
          UnpairedReturnsExactly(t, cfg, d, rest, after);
          if d in s.saved { TooLate(rest, after, s.saved[d], cfg); }
        } else {
          assert PairedIn(t, cfg, rest, d);
        }
      }
    }
  }

  lemma NoRestart(r: PairingRecord, cfg: Config)
    ensures !RestartsWithin([], r, cfg)
  {
  }

  /** So a revoked device is paired again exactly when its row outlived the revocation and a restart finds it within its grace. */
  lemma RevokedReturnsExactly(s: State, cfg: Config, d: DeviceID, stuck: set<DeviceID>, events: seq<Event>, now: int)
    requires Inv(s) && d in s.credentials && Timed(events, now)
    ensures Inv(Revoke(s, d, stuck)) && d !in Revoke(s, d, stuck).credentials
    ensures PairedIn(Revoke(s, d, stuck), cfg, events, d) <==>
      d in Revoke(s, d, stuck).saved && RestartsWithin(events, s.saved[d], cfg)
  {
    DropInv(s, {d}, stuck);
    KnownDevice(s, d);
    hide Inv, RestartsWithin;
    UnpairedReturnsExactly(Revoke(s, d, stuck), cfg, d, events, now);
  }

  // ----- Pairings whose first save failed -----

  /** d is paired with the token and the expiry it got at first, and the store has no row of it. */
  ghost predicate Unsaved(s: State, d: DeviceID, token: Token, expiresAt: int) {
    && d in s.credentials && s.credentials[d].tokenHash == Some(Hash(token)) && s.credentials[d].expiresAt == expiresAt
    && d !in s.saved && d.n < s.devices && forall h | h in s.retired :: s.retired[h].device != d
  }

  /** Its token is refreshed within its grace, and that saves. */
  predicate SavesRow(e: Event, token: Token, expiresAt: int, cfg: Config) {
    e.op.Refreshing? && e.op.token == token && !e.op.ending.SaveFails? && !ShouldReap(expiresAt, cfg, e.at)
  }

  predicate Unpairs(op: Op, d: DeviceID) {
    Restarts(op) || (op.Revoking? && op.device == d)
  }

  ghost predicate SavesAt(events: seq<Event>, i: nat, d: DeviceID, token: Token, expiresAt: int, cfg: Config) {
    i < |events| && SavesRow(events[i], token, expiresAt, cfg) && forall j | 0 <= j < i :: !Unpairs(events[j].op, d)
  }

  /** The run saves its row before it restarts or d is revoked. */
  ghost predicate SavedFirst(events: seq<Event>, d: DeviceID, token: Token, expiresAt: int, cfg: Config) {
    exists i: nat :: SavesAt(events, i, d, token, expiresAt, cfg)
  }

  /** The rows once op was answered; a crash then restarts from them. */
  ghost function Written(s: State, cfg: Config, op: Op, at: int): map<DeviceID, PairingRecord>
    requires Inv(s)
  {
    if op.Refreshing? then Refresh(s, cfg, op.token, at, op.ending, op.stuck).0.saved else Step(s, cfg, op, at).saved
  }

  /** At some moment of the run the store has a row of d. */
  ghost predicate StoredIn(s: State, cfg: Config, events: seq<Event>, d: DeviceID)
    requires Inv(s)
    decreases events
  {
    || d in s.saved
    || (events != []
        && (d in Written(s, cfg, events[0].op, events[0].at)
            || StoredIn(Step(s, cfg, events[0].op, events[0].at), cfg, events[1..], d)))
  }

  lemma {:induction false} NeverStored(s: State, cfg: Config, d: DeviceID, events: seq<Event>)
    requires Inv(s) && d !in s.credentials && d !in s.saved && d.n < s.devices
    ensures !StoredIn(s, cfg, events, d)
    decreases events
  {
    hide Inv, Step, Refresh, Survives;
    if events != [] {
      var e := events[0];
      if Restarts(e.op) { RestartUnpaired(s, cfg, e.op, e.at, d); } else { StepUnpaired(s, cfg, e.op, e.at, d); }
      if e.op.Refreshing? { RefreshUnpaired(s, cfg, e.op.token, e.at, e.op.ending, e.op.stuck, d); }
      NeverStored(Step(s, cfg, e.op, e.at), cfg, d, events[1..]);
    }
  }

  /** The pairing is as it was, or was reaped. */
  ghost predicate StillUnsaved(t: State, cfg: Config, d: DeviceID, token: Token, expiresAt: int, at: int) {
    || Unsaved(t, d, token, expiresAt)
    || (d !in t.credentials && d !in t.saved && d.n < t.devices && ShouldReap(expiresAt, cfg, at))
  }

  lemma PruneUnsaved(s: State, cfg: Config, d: DeviceID, token: Token, expiresAt: int, at: int, stuck: set<DeviceID>)
    requires Unsaved(s, d, token, expiresAt)
    ensures StillUnsaved(Prune(s, cfg, at, stuck), cfg, d, token, expiresAt, at)
  {
    hide ShouldReap;
  }

  lemma RotateUnsaved(s: State, cfg: Config, e: DeviceID, presented: Option<(Hash, int)>, d: DeviceID, token: Token, expiresAt: int, at: int,
                      ending: Ending, stuck: set<DeviceID>)
    requires Inv(s) && Unsaved(s, d, token, expiresAt) && e in s.credentials
    requires e == d ==> ending.SaveFails? || ShouldReap(expiresAt, cfg, at)
    ensures StillUnsaved(Rotate(s, cfg, e, presented, at, ending, stuck).0, cfg, d, token, expiresAt, at)
  {
    hide ShouldReap, RowsOwned, Row, Indexed, RetiredApart, InStep, Owned;
    hide CredentialsOwned, CredentialOwned;
  }

  lemma IndexedAt(s: State, d: DeviceID, token: Token, expiresAt: int, h: Hash)
    requires Inv(s) && Unsaved(s, d, token, expiresAt)
    ensures Hash(token) in s.byTokenHash && s.byTokenHash[Hash(token)] == d
    ensures h in s.byTokenHash && s.byTokenHash[h] == d ==> h == Hash(token)
  {
    hide RowsOwned, InStep, RetiredApart, CredentialsOwned;
  }

  lemma RefreshUnsaved(s: State, cfg: Config, d: DeviceID, token: Token, expiresAt: int, e: Event)
    requires Inv(s) && Unsaved(s, d, token, expiresAt) && e.op.Refreshing?
    ensures var t := Refresh(s, cfg, e.op.token, e.at, e.op.ending, e.op.stuck).0;
      if SavesRow(e, token, expiresAt, cfg) then d in t.saved else StillUnsaved(t, cfg, d, token, expiresAt, e.at)
  {
    hide Inv, ShouldReap, Prune;
    var h := Hash(e.op.token);
    IndexedAt(s, d, token, expiresAt, h);
    if SavesRow(e, token, expiresAt, cfg) {
      RotatedSaved(s, cfg, d, e.at, e.op.ending, e.op.stuck);
    } else if h in s.byTokenHash && s.byTokenHash[h] in s.credentials {
      RotateUnsaved(s, cfg, s.byTokenHash[h], None, d, token, expiresAt, e.at, e.op.ending, e.op.stuck);
    } else if RetiredDevice(s, h, e.at).Some? {
      RotateUnsaved(s, cfg, s.retired[h].device, Some((h, s.retired[h].until)), d, token, expiresAt, e.at, e.op.ending, e.op.stuck);
    } else {
      PruneUnsaved(s, cfg, d, token, expiresAt, e.at, e.op.stuck);
    }
  }

  lemma RotatedSaved(s: State, cfg: Config, d: DeviceID, now: int, ending: Ending, stuck: set<DeviceID>)
    requires d in s.credentials && !ShouldReap(s.credentials[d].expiresAt, cfg, now) && !ending.SaveFails?
    ensures d in Rotate(s, cfg, d, None, now, ending, stuck).0.saved
  {
    hide ShouldReap, Row;
  }

  lemma ValidateUnsaved(s: State, cfg: Config, d: DeviceID, token: Token, expiresAt: int, at: int, presented: Token, stuck: set<DeviceID>)
    requires Inv(s) && Unsaved(s, d, token, expiresAt)
    ensures StillUnsaved(Validate(s, cfg, presented, at, stuck).0, cfg, d, token, expiresAt, at)
  {
    PruneUnsaved(s, cfg, d, token, expiresAt, at, stuck);
    hide RowsOwned, InStep, RetiredApart, CredentialsOwned, Prune, Indexed;
  }

  /** What keeps neither a row nor a restart away leaves the pairing unsaved. */
  lemma StepUnsaved(s: State, cfg: Config, d: DeviceID, token: Token, expiresAt: int, e: Event)
    requires Inv(s) && Unsaved(s, d, token, expiresAt) && !Unpairs(e.op, d) && !SavesRow(e, token, expiresAt, cfg)
    ensures StillUnsaved(Step(s, cfg, e.op, e.at), cfg, d, token, expiresAt, e.at)
  {
    hide Inv, ShouldReap, Refresh, Validate, Load, Prune;
    match e.op
    case Refreshing(presented, ending, stuck, unsaved, up) => RefreshUnsaved(s, cfg, d, token, expiresAt, e);
    case Validating(presented, stuck) => ValidateUnsaved(s, cfg, d, token, expiresAt, e.at, presented, stuck);
    case Revoking(other, stuck) =>
    case Pruning(stuck) => PruneUnsaved(s, cfg, d, token, expiresAt, e.at, stuck);
    case Completing(saves, stuck) =>
      PruneUnsaved(s, cfg, d, token, expiresAt, e.at, stuck);
      PruneInv(s, cfg, e.at, stuck);
    case Restarting(stuck, unsaved) =>
  }

  /** A restart, or its revocation, unpairs it with nothing stored. */
  lemma StepUnpairs(s: State, cfg: Config, d: DeviceID, token: Token, expiresAt: int, e: Event)
    requires Inv(s) && Unsaved(s, d, token, expiresAt) && Unpairs(e.op, d) && !SavesRow(e, token, expiresAt, cfg)
    ensures var t := Step(s, cfg, e.op, e.at); d !in t.credentials && d !in t.saved && d.n < t.devices
  {
    hide Inv, ShouldReap, Refresh, Load, RowsOwned, SavesRow;
    InvRows(s);
    if Restarts(e.op) {
      hide Step;
      StepRestarts(s, cfg, e.op, e.at);
      if e.op.Refreshing? {
        RefreshUnsaved(s, cfg, d, token, expiresAt, e);
        SurvivesExactly(Refresh(s, cfg, e.op.token, e.at, e.op.ending, e.op.stuck).0, cfg, EndsAt(e.op, e.at), e.op.stuck, e.op.unsaved, d);
      } else {
        SurvivesExactly(s, cfg, e.at, e.op.stuck, e.op.unsaved, d);
      }
    }
  }

  lemma SavedLater(e: Event, rest: seq<Event>, d: DeviceID, token: Token, expiresAt: int, cfg: Config)
    ensures SavedFirst([e] + rest, d, token, expiresAt, cfg) <==>
      SavesRow(e, token, expiresAt, cfg) || (!Unpairs(e.op, d) && SavedFirst(rest, d, token, expiresAt, cfg))
  {
    hide SavesRow, Unpairs, SavesAt;
    var events := [e] + rest;
    SavesFirstOf(events, d, token, expiresAt, cfg);
    if i: nat :| SavesAt(rest, i, d, token, expiresAt, cfg) { SavesNext(e, rest, i, d, token, expiresAt, cfg); }
    if i: nat :| i > 0 && SavesAt(events, i, d, token, expiresAt, cfg) { SavesNext(e, rest, i - 1, d, token, expiresAt, cfg); }
  }

  lemma SavesFirstOf(events: seq<Event>, d: DeviceID, token: Token, expiresAt: int, cfg: Config)
    requires events != []
    ensures SavesAt(events, 0, d, token, expiresAt, cfg) <==> SavesRow(events[0], token, expiresAt, cfg)
  {
  }

  lemma SavesNext(e: Event, rest: seq<Event>, i: nat, d: DeviceID, token: Token, expiresAt: int, cfg: Config)
    ensures SavesAt([e] + rest, i + 1, d, token, expiresAt, cfg) <==> !Unpairs(e.op, d) && SavesAt(rest, i, d, token, expiresAt, cfg)
  {
    hide SavesRow, Unpairs;
    var events := [e] + rest;
    assert events[0] == e && forall j | 0 < j < |events| :: events[j] == rest[j - 1];
    assert forall j | 0 <= j < |rest| :: rest[j] == events[j + 1];
  }

  lemma {:induction false} StartsAfter(events: seq<Event>, now: int, e: Event)
    requires Timed(events, now) && e in events
    ensures now <= e.at
    decreases events
  {
    if e != events[0] { StartsAfter(events[1..], EndsAt(events[0].op, events[0].at), e); }
  }

  lemma SavedTooLate(events: seq<Event>, d: DeviceID, token: Token, expiresAt: int, cfg: Config, now: int)
    requires Timed(events, now) && ShouldReap(expiresAt, cfg, now)
    ensures !SavedFirst(events, d, token, expiresAt, cfg)
  {
    hide Timed;
    forall e | e in events ensures !SavesRow(e, token, expiresAt, cfg) {
      if e.op.Refreshing? { StartsAfter(events, now, e); }
    }
  }

  /** Over every run, the store gets a row of the device if and only if a refresh of its token saves before a restart or its revocation. */
  lemma {:induction false} StoredExactly(s: State, cfg: Config, d: DeviceID, token: Token, expiresAt: int, events: seq<Event>, now: int)
    requires Inv(s) && Unsaved(s, d, token, expiresAt) && Timed(events, now)
    ensures StoredIn(s, cfg, events, d) <==> SavedFirst(events, d, token, expiresAt, cfg)
    decreases events
  {
    hide Inv, Step, Refresh, ShouldReap, SavesRow, Unpairs, SavedFirst;
    if events == [] {
      NothingSaved(d, token, expiresAt, cfg);
    } else {
      var e, rest := events[0], events[1..];
      var t := Step(s, cfg, e.op, e.at);
      assert events == [e] + rest;
      SavedLater(e, rest, d, token, expiresAt, cfg);
      if e.op.Refreshing? { RefreshUnsaved(s, cfg, d, token, expiresAt, e); }
      if SavesRow(e, token, expiresAt, cfg) {
        assert e.op.Refreshing? by { OnlyRefreshes(e, token, expiresAt, cfg); }
      } else if Unpairs(e.op, d) {
        StepUnpairs(s, cfg, d, token, expiresAt, e);
        NeverStored(t, cfg, d, rest);
      } else {
        StepUnsaved(s, cfg, d, token, expiresAt, e);
        if Unsaved(t, d, token, expiresAt) {
          StoredExactly(t, cfg, d, token, expiresAt, rest, EndsAt(e.op, e.at));
        } else {
          NeverStored(t, cfg, d, rest);
          ReapStays(expiresAt, cfg, e.at, EndsAt(e.op, e.at));
          SavedTooLate(rest, d, token, expiresAt, cfg, EndsAt(e.op, e.at));
        }
      }
    }
  }

  lemma NothingSaved(d: DeviceID, token: Token, expiresAt: int, cfg: Config)
    ensures !SavedFirst([], d, token, expiresAt, cfg)
  {
  }

  lemma OnlyRefreshes(e: Event, token: Token, expiresAt: int, cfg: Config)
    requires SavesRow(e, token, expiresAt, cfg)
    ensures e.op.Refreshing?
  {
  }

  lemma ReapStays(expiresAt: int, cfg: Config, now: int, later: int)
    requires ShouldReap(expiresAt, cfg, now) && now <= later
    ensures ShouldReap(expiresAt, cfg, later)
  {
  }

  lemma PairedUnsaved(s: State, cfg: Config, at: int, stuck: set<DeviceID>)
    requires Inv(s)
    ensures var (t, answer) := Complete(s, cfg, at, false, stuck);
      && answer.Granted? && answer.credential.token.Some? && Inv(t)
      && Unsaved(t, answer.device, answer.credential.token.value, at + cfg.tokenTTL)
  {
    CompleteInv(s, cfg, at, false, stuck);
    PruneInv(s, cfg, at, stuck);
    hide Prune, Owned;
    var t := Prune(s, cfg, at, stuck);
    assert DeviceID(t.devices) !in t.saved && DeviceID(t.devices) !in t.credentials;
  }

  /** A pairing whose save failed becomes durable exactly at the first refresh of its token that saves, if nothing unpairs it before. */
  lemma UnsavedUntilRefreshed(s: State, cfg: Config, at: int, stuck: set<DeviceID>, events: seq<Event>)
    requires Inv(s) && Timed(events, at)
    ensures var (t, answer) := Complete(s, cfg, at, false, stuck);
      && answer.Granted? && answer.credential.token.Some? && Inv(t)
      && (StoredIn(t, cfg, events, answer.device) <==>
            SavedFirst(events, answer.device, answer.credential.token.value, at + cfg.tokenTTL, cfg))
  {
    hide Inv, Complete, SavedFirst, StoredIn, Unsaved;
    PairedUnsaved(s, cfg, at, stuck);
    var (t, answer) := Complete(s, cfg, at, false, stuck);
    StoredExactly(t, cfg, answer.device, answer.credential.token.value, at + cfg.tokenTTL, events, at);
  }

  lemma RestartedUnstored(s: State, cfg: Config, d: DeviceID, e: Event)
    requires Inv(s) && d.n < s.devices && Restarts(e.op) && !StoredIn(s, cfg, [e], d)
    ensures var t := Step(s, cfg, e.op, e.at); d !in t.credentials && d !in t.saved && d.n < t.devices
  {
    hide Inv, Refresh, Load, RowsOwned, Step;
    InvRows(s);
    StepRestarts(s, cfg, e.op, e.at);
    if e.op.Refreshing? {
      SurvivesExactly(Refresh(s, cfg, e.op.token, e.at, e.op.ending, e.op.stuck).0, cfg, EndsAt(e.op, e.at), e.op.stuck, e.op.unsaved, d);
      DevicesGrow(s, cfg, e.op, e.at);
    } else {
      SurvivesExactly(s, cfg, e.at, e.op.stuck, e.op.unsaved, d);
    }
  }

  lemma DevicesGrow(s: State, cfg: Config, op: Op, at: int)
    requires Inv(s)
    ensures s.devices <= Step(s, cfg, op, at).devices
  {
    hide Inv, Refresh, Validate, Load, RowsOwned;
    InvRows(s);
    if Restarts(op) {
      hide Step, Survives;
      StepRestarts(s, cfg, op, at);
      if op.Refreshing? { SameDevices(s, cfg, op.token, at, op.ending, op.stuck); }
      var t := if op.Restarting? then s else Refresh(s, cfg, op.token, at, op.ending, op.stuck).0;
      SurvivesExactly(t, cfg, EndsAt(op, at), op.stuck, op.unsaved, DeviceID(0));
    } else if op.Refreshing? {
      SameDevices(s, cfg, op.token, at, op.ending, op.stuck);
    } else if op.Validating? {
      SameDevices(s, cfg, op.token, at, SaveFails, op.stuck);
    }
  }

  lemma SameDevices(s: State, cfg: Config, token: Token, now: int, ending: Ending, stuck: set<DeviceID>)
    ensures Refresh(s, cfg, token, now, ending, stuck).0.devices == s.devices
    ensures Validate(s, cfg, token, now, stuck).0.devices == s.devices
  {
    hide Row, ShouldReap, Reaped;
  }

  lemma {:induction false} UnstoredUntilRestart(s: State, cfg: Config, d: DeviceID, before: seq<Event>, e: Event)
    requires Inv(s) && d.n < s.devices && Restarts(e.op) && !StoredIn(s, cfg, before + [e], d)
    ensures var t := Final(s, cfg, before + [e]); d !in t.credentials && d !in t.saved && d.n < t.devices
    decreases before
  {
    hide Inv, Step, Written;
    var all := before + [e];
    if before == [] {
      assert all == [e] && all[1..] == [];
      RestartedUnstored(s, cfg, d, e);
    } else {
      assert all[0] == before[0] && all[1..] == before[1..] + [e];
      DevicesGrow(s, cfg, before[0].op, before[0].at);
      UnstoredUntilRestart(Step(s, cfg, before[0].op, before[0].at), cfg, d, before[1..], e);
    }
  }

  /** And if a restart comes before that, the device is never paired again. */
  lemma UnsavedPairingLost(s: State, cfg: Config, at: int, stuck: set<DeviceID>, before: seq<Event>, restart: Event, later: seq<Event>)
    requires Inv(s) && Timed(before + [restart], at) && Restarts(restart.op) && Timed(later, EndsAt(restart.op, restart.at))
    ensures var (t, answer) := Complete(s, cfg, at, false, stuck);
      && answer.Granted? && answer.credential.token.Some? && Inv(t)
      && (!SavedFirst(before + [restart], answer.device, answer.credential.token.value, at + cfg.tokenTTL, cfg) ==>
            !PairedIn(Final(t, cfg, before + [restart]), cfg, later, answer.device))
  {
    hide Inv, Complete, SavedFirst, StoredIn, Final, Unsaved, Survives, RestartsWithin, Restarts, Timed;
    var (t, answer) := Complete(s, cfg, at, false, stuck);
    UnsavedUntilRefreshed(s, cfg, at, stuck, before + [restart]);
    PairedUnsaved(s, cfg, at, stuck);
    UnsavedKnown(t, answer.device, answer.credential.token.value, at + cfg.tokenTTL);
    if !SavedFirst(before + [restart], answer.device, answer.credential.token.value, at + cfg.tokenTTL, cfg) {
      UnstoredUntilRestart(t, cfg, answer.device, before, restart);
      UnpairedReturnsExactly(Final(t, cfg, before + [restart]), cfg, answer.device, later, EndsAt(restart.op, restart.at));
    }
  }

  lemma UnsavedKnown(s: State, d: DeviceID, token: Token, expiresAt: int)
    requires Unsaved(s, d, token, expiresAt)
    ensures d.n < s.devices && d in s.credentials
  {
  }

  // ----- Two such runs -----

  const NOBODY := State(map[], map[], map[], map[], [], 0)

  function RestartAt(at: int): Event {
    Event(Restarting({}, {}), at, true)
  }

  /** The first device ever is told it is paired while its row could not be saved; a restart at once loses it. */
  lemma PairedInVain(cfg: Config, at: int)
    ensures Inv(NOBODY)
    ensures var (t, answer) := Complete(NOBODY, cfg, at, false, {});
      answer.Granted? && Inv(t) && answer.device in t.credentials && answer.device !in Final(t, cfg, [RestartAt(at)]).credentials
  {
    hide Complete, Final, Unsaved;
    var (t, answer) := Complete(NOBODY, cfg, at, false, {});
    PairedUnsaved(NOBODY, cfg, at, {});
    assert [] + [RestartAt(at)] == [RestartAt(at)];
    UnsavedPairingLost(NOBODY, cfg, at, {}, [], RestartAt(at), []);
    UnsavedKnown(t, answer.device, answer.credential.token.value, at + cfg.tokenTTL);
  }

  /** A device is paired and revoked, but its row cannot be deleted; a restart at once pairs it again. */
  lemma RevokedInVain(cfg: Config, at: int)
    requires cfg.tokenTTL >= 0
    ensures Inv(NOBODY)
    ensures var (t, answer) := Complete(NOBODY, cfg, at, true, {});
      var d := answer.device;
      && answer.Granted? && Inv(t) && d in t.credentials
      && Inv(Revoke(t, d, {d})) && d !in Revoke(t, d, {d}).credentials
      && PairedIn(Revoke(t, d, {d}), cfg, [RestartAt(at)], d)
  {
    hide Final, PairedIn;
    var (t, answer) := Complete(NOBODY, cfg, at, true, {});
    CompleteInv(NOBODY, cfg, at, true, {});
    assert RestartAt(at) in [RestartAt(at)];
    RevokedReturnsExactly(t, cfg, answer.device, {answer.device}, [RestartAt(at)], at);
  }
}
