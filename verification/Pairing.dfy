/**
internal/pairing/service.go: issued device credentials in memory and in the store, on values. Tokens are random,
so every one is new; hashing them is injective.
*/
module Pairing {
  import opened Names
  import opened Sequences

  /** How long a token a refresh rotated away stays exchangeable: 48 hours, in seconds. */
  const ROTATION_OVERLAP := 48 * 3600

  /** gracePeriod 0 deletes a credential as soon as it expires. */
  datatype Config = Config(tokenTTL: int, gracePeriod: int)

  datatype DeviceID = DeviceID(n: nat)

  /** The n-th random token. */
  datatype Token = Token(n: nat)

  datatype Hash = Hash(token: Token)

  /** tokenHash None is the empty hash of a record from before tokens were hashed; token None one not known any more. */
  datatype Credential = Credential(tokenHash: Option<Hash>, token: Option<Token>, expiresAt: int, expiredAt: Option<int>)

  datatype RetiredToken = RetiredToken(device: DeviceID, until: int)

  datatype StoredToken = Hashed(hash: Hash) | Plain(token: Token)

  /** A row of the store. retired is the one rotated-away hash it keeps, with its deadline. */
  datatype PairingRecord = PairingRecord(token: StoredToken, expiresAt: int, retired: Option<(Hash, int)>)

  /** What the service holds, what the store holds, and to which device each token was issued. */
  datatype State = State(
    credentials: map<DeviceID, Credential>,
    byTokenHash: map<Hash, DeviceID>,
    retired: map<Hash, RetiredToken>,
    saved: map<DeviceID, PairingRecord>,
    issued: seq<DeviceID>,
    devices: nat)

  datatype Failure = Missing | Invalid | Expired | GraceExpired | SaveFailed

  datatype Answer = Granted(device: DeviceID, credential: Credential) | Refused(failure: Failure)

  function StoredHash(t: StoredToken): Hash {
    match t case Hashed(h) => h case Plain(token) => Hash(token)
  }

  // ----- Deleting -----

  predicate ShouldReap(expiresAt: int, cfg: Config, now: int) {
    now > expiresAt && (cfg.gracePeriod <= 0 || now - expiresAt > cfg.gracePeriod)
  }

  /** s without devices gone. The store keeps the rows of stuck, whose deletion fails. */
  function Drop(s: State, gone: set<DeviceID>, stuck: set<DeviceID>): State {
    s.(credentials := s.credentials - gone,
       byTokenHash := map h | h in s.byTokenHash && s.byTokenHash[h] !in gone :: s.byTokenHash[h],
       retired := map h | h in s.retired && s.retired[h].device !in gone :: s.retired[h],
       saved := map d | d in s.saved && (d !in gone || d in stuck) :: s.saved[d])
  }

  function Reaped(s: State, cfg: Config, now: int): set<DeviceID> {
    set d | d in s.credentials && ShouldReap(s.credentials[d].expiresAt, cfg, now)
  }

  function PruneRetired(retired: map<Hash, RetiredToken>, now: int): map<Hash, RetiredToken> {
    map h | h in retired && now <= retired[h].until :: retired[h]
  }

  function Prune(s: State, cfg: Config, now: int, stuck: set<DeviceID>): State {
    var t := Drop(s, Reaped(s, cfg, now), stuck);
    t.(retired := PruneRetired(t.retired, now))
  }

  // ----- Validating and refreshing -----

  function Validate(s: State, cfg: Config, token: Token, now: int, stuck: set<DeviceID>): (State, Answer) {
    if Hash(token) in s.byTokenHash && s.byTokenHash[Hash(token)] in s.credentials then
      var d := s.byTokenHash[Hash(token)];
      var c := s.credentials[d];
      if now <= c.expiresAt then (s, Granted(d, c))
      else if cfg.gracePeriod <= 0 then (Drop(s, {d}, stuck), Refused(Expired))
      else (s.(credentials := s.credentials[d := c.(expiredAt := Some(now))]), Refused(Expired))
    else (Prune(s, cfg, now, stuck), Refused(Invalid))
  }

  /** The device a token rotated away recently belonged to. */
  function RetiredDevice(s: State, h: Hash, now: int): Option<DeviceID> {
    if h in s.retired && now <= s.retired[h].until && s.retired[h].device in s.credentials then Some(s.retired[h].device) else None
  }

  function Lookup(s: State, token: Token, now: int): Answer {
    var h := Hash(token);
    if h in s.byTokenHash && s.byTokenHash[h] in s.credentials then Granted(s.byTokenHash[h], s.credentials[s.byTokenHash[h]])
    else if RetiredDevice(s, h, now).Some? then
      Granted(RetiredDevice(s, h, now).value, s.credentials[RetiredDevice(s, h, now).value])
    else Refused(Invalid)
  }

  /** The row a rotation saves: what it retires is the token the client holds. */
  function Row(c: Credential, fresher: Token, cfg: Config, presented: Option<(Hash, int)>, now: int): PairingRecord {
    PairingRecord(Hashed(Hash(fresher)), now + cfg.tokenTTL,
                  if presented.Some? then presented
                  else if c.tokenHash.Some? then Some((c.tokenHash.value, now + ROTATION_OVERLAP)) else None)
  }

  /** The rotation once its row is saved. */
  function Commit(s: State, d: DeviceID, fresher: Token, expiresAt: int, now: int): State
    requires d in s.credentials
  {
    var c := s.credentials[d];
    var rotated := Credential(Some(Hash(fresher)), Some(fresher), expiresAt, None);
    if c.tokenHash.Some? && c.tokenHash != Some(Hash(fresher)) then
      s.(credentials := s.credentials[d := rotated],
         byTokenHash := (s.byTokenHash - {c.tokenHash.value})[Hash(fresher) := d],
         retired := PruneRetired(s.retired[c.tokenHash.value := RetiredToken(d, now + ROTATION_OVERLAP)], now))
    else
      s.(credentials := s.credentials[d := rotated], byTokenHash := s.byTokenHash[Hash(fresher) := d], retired := PruneRetired(s.retired, now))
  }

  /** How far a refresh got. A crash comes after the save and before anything else. */
  datatype Ending = SaveFails | Crashes | Completes

  function Rotate(s: State, cfg: Config, d: DeviceID, presented: Option<(Hash, int)>, now: int, ending: Ending, stuck: set<DeviceID>): (State, Answer)
    requires d in s.credentials
  {
    var c := s.credentials[d];
    if ShouldReap(c.expiresAt, cfg, now) then (Drop(s, {d}, stuck), Refused(if cfg.gracePeriod <= 0 then Expired else GraceExpired))
    else
      var fresher := Token(|s.issued|);
      var drawn := s.(issued := s.issued + [d]);
      if ending.SaveFails? then (drawn, Refused(SaveFailed))
      else
        var written := drawn.(saved := s.saved[d := Row(c, fresher, cfg, presented, now)]);
        if ending.Crashes? then (written, Refused(SaveFailed))
        else
          var t := Commit(written, d, fresher, now + cfg.tokenTTL, now);
          (t, Granted(d, t.credentials[d]))
  }

  function Refresh(s: State, cfg: Config, token: Token, now: int, ending: Ending, stuck: set<DeviceID>): (State, Answer) {
    var h := Hash(token);
    if h in s.byTokenHash && s.byTokenHash[h] in s.credentials then Rotate(s, cfg, s.byTokenHash[h], None, now, ending, stuck)
    else if RetiredDevice(s, h, now).Some? then
      var d := RetiredDevice(s, h, now).value;
      var current := s.credentials[d];
      if current.token.Some? && now < current.expiresAt then (s, Granted(d, current))
      else Rotate(s, cfg, d, Some((h, s.retired[h].until)), now, ending, stuck)
    else (Prune(s, cfg, now, stuck), Refused(Invalid))
  }

  // ----- Pairing a device, and restarting -----

  /** A new device with a new token. */
  function Pair(s: State, cfg: Config, now: int, saves: bool): (State, Answer) {
    var d, token := DeviceID(s.devices), Token(|s.issued|);
    var c := Credential(Some(Hash(token)), Some(token), now + cfg.tokenTTL, None);
    (s.(credentials := s.credentials[d := c], byTokenHash := s.byTokenHash[Hash(token) := d],
        saved := if saves then s.saved[d := PairingRecord(Hashed(Hash(token)), now + cfg.tokenTTL, None)] else s.saved,
        issued := s.issued + [d], devices := s.devices + 1),
     Granted(d, c))
  }

  function Complete(s: State, cfg: Config, now: int, saves: bool, stuck: set<DeviceID>): (State, Answer) {
    Pair(Prune(s, cfg, now, stuck), cfg, now, saves)
  }

  function Revoke(s: State, d: DeviceID, stuck: set<DeviceID>): State {
    if d in s.credentials then Drop(s, {d}, stuck) else s
  }

  predicate Survives(r: PairingRecord, cfg: Config, now: int) {
    !ShouldReap(r.expiresAt, cfg, now)
  }

  function LoadedCredential(r: PairingRecord, cfg: Config, now: int): Credential {
    Credential(Some(StoredHash(r.token)), None, r.expiresAt, if now > r.expiresAt && cfg.gracePeriod > 0 then Some(r.expiresAt) else None)
  }

  /** Rows keep what they say; a token not yet hashed is hashed, unless saving that fails. */
  function Upgraded(d: DeviceID, r: PairingRecord, unsaved: set<DeviceID>): PairingRecord {
    if r.token.Plain? && d !in unsaved then r.(token := Hashed(StoredHash(r.token))) else r
  }

  ghost predicate Owned(issued: seq<DeviceID>, h: Hash, d: DeviceID) {
    h.token.n < |issued| && issued[h.token.n] == d
  }

  /** Every row's hashes were issued to its device, and the retired one is not the live one. */
  ghost predicate RowOwned(issued: seq<DeviceID>, d: DeviceID, r: PairingRecord) {
    && Owned(issued, StoredHash(r.token), d)
    && (r.retired.Some? ==> Owned(issued, r.retired.value.0, d) && r.retired.value.0 != StoredHash(r.token))
  }

  ghost predicate RowsOwned(saved: map<DeviceID, PairingRecord>, issued: seq<DeviceID>, devices: nat) {
    forall d | d in saved :: d.n < devices && RowOwned(issued, d, saved[d])
  }

  function SurvivingRows(saved: map<DeviceID, PairingRecord>, cfg: Config, now: int): map<DeviceID, PairingRecord> {
    map d | d in saved && Survives(saved[d], cfg, now) :: saved[d]
  }

  function LoadedCredentials(rows: map<DeviceID, PairingRecord>, cfg: Config, now: int): map<DeviceID, Credential> {
    map d | d in rows :: LoadedCredential(rows[d], cfg, now)
  }

  ghost function LoadedIndex(rows: map<DeviceID, PairingRecord>, issued: seq<DeviceID>, devices: nat): map<Hash, DeviceID>
    requires RowsOwned(rows, issued, devices)
  {
    map d | d in rows :: StoredHash(rows[d].token) := d
  }

  ghost function LoadedRetired(rows: map<DeviceID, PairingRecord>, now: int, issued: seq<DeviceID>, devices: nat): map<Hash, RetiredToken>
    requires RowsOwned(rows, issued, devices)
  {
    map d | d in rows && rows[d].retired.Some? && now < rows[d].retired.value.1 ::
      rows[d].retired.value.0 := RetiredToken(d, rows[d].retired.value.1)
  }

  function LoadedRows(saved: map<DeviceID, PairingRecord>, cfg: Config, now: int, stuck: set<DeviceID>, unsaved: set<DeviceID>):
      map<DeviceID, PairingRecord> {
    map d | d in saved && (Survives(saved[d], cfg, now) || d in stuck) ::
      if Survives(saved[d], cfg, now) then Upgraded(d, saved[d], unsaved) else saved[d]
  }

  /** What a restart at now makes of the store: nothing else survives. */
  ghost function Load(s: State, cfg: Config, now: int, stuck: set<DeviceID>, unsaved: set<DeviceID>): State
    requires RowsOwned(s.saved, s.issued, s.devices)
  {
    var rows := SurvivingRows(s.saved, cfg, now);
    State(LoadedCredentials(rows, cfg, now), LoadedIndex(rows, s.issued, s.devices), LoadedRetired(rows, now, s.issued, s.devices),
          LoadedRows(s.saved, cfg, now, stuck, unsaved), s.issued, s.devices)
  }

  // ----- What every run keeps -----

  /** The index holds exactly the live hashes. */
  ghost predicate Indexed(credentials: map<DeviceID, Credential>, byTokenHash: map<Hash, DeviceID>) {
    forall h, d :: h in byTokenHash && byTokenHash[h] == d <==> d in credentials && credentials[d].tokenHash == Some(h)
  }

  ghost predicate CredentialOwned(issued: seq<DeviceID>, d: DeviceID, c: Credential) {
    && c.tokenHash.Some? && Owned(issued, c.tokenHash.value, d)
    && (c.token.Some? ==> c.tokenHash.value == Hash(c.token.value))
  }

  ghost predicate CredentialsOwned(credentials: map<DeviceID, Credential>, issued: seq<DeviceID>, devices: nat) {
    forall d | d in credentials :: d.n < devices && CredentialOwned(issued, d, credentials[d])
  }

  /** A retired hash is never live, and names the paired device it was issued to. */
  ghost predicate RetiredApart(retired: map<Hash, RetiredToken>, live: set<Hash>, paired: set<DeviceID>, issued: seq<DeviceID>) {
    forall h | h in retired :: h !in live && retired[h].device in paired && Owned(issued, h, retired[h].device)
  }

  /** A row of a paired device has its live hash and its expiry. */
  ghost predicate InStep(saved: map<DeviceID, PairingRecord>, credentials: map<DeviceID, Credential>) {
    forall d | d in saved && d in credentials ::
      credentials[d].tokenHash == Some(StoredHash(saved[d].token)) && credentials[d].expiresAt == saved[d].expiresAt
  }

  ghost predicate Inv(s: State) {
    && Indexed(s.credentials, s.byTokenHash)
    && CredentialsOwned(s.credentials, s.issued, s.devices)
    && RetiredApart(s.retired, s.byTokenHash.Keys, s.credentials.Keys, s.issued)
    && RowsOwned(s.saved, s.issued, s.devices)
    && InStep(s.saved, s.credentials)
  }

  // ----- One step -----

  lemma DropInv(s: State, gone: set<DeviceID>, stuck: set<DeviceID>)
    requires Inv(s)
    ensures Inv(Drop(s, gone, stuck))
  {
  }

  lemma PruneInv(s: State, cfg: Config, now: int, stuck: set<DeviceID>)
    requires Inv(s)
    ensures Inv(Prune(s, cfg, now, stuck))
    ensures Prune(s, cfg, now, stuck).issued == s.issued && Prune(s, cfg, now, stuck).devices == s.devices
  {
    DropInv(s, Reaped(s, cfg, now), stuck);
    hide Reaped, Indexed, CredentialsOwned, RowsOwned, InStep, Owned;
  }

  lemma OwnedStill(issued: seq<DeviceID>, more: DeviceID, h: Hash, d: DeviceID)
    requires Owned(issued, h, d)
    ensures Owned(issued + [more], h, d)
  {
  }

  lemma RowsStill(saved: map<DeviceID, PairingRecord>, issued: seq<DeviceID>, devices: nat, more: DeviceID)
    requires RowsOwned(saved, issued, devices)
    ensures RowsOwned(saved, issued + [more], devices)
  {
    hide Owned;
    forall d | d in saved ensures RowOwned(issued + [more], d, saved[d]) {
      OwnedStill(issued, more, StoredHash(saved[d].token), d);
      if saved[d].retired.Some? { OwnedStill(issued, more, saved[d].retired.value.0, d); }
    }
  }

  lemma CredentialsStill(credentials: map<DeviceID, Credential>, issued: seq<DeviceID>, devices: nat, more: DeviceID)
    requires CredentialsOwned(credentials, issued, devices)
    ensures CredentialsOwned(credentials, issued + [more], devices)
  {
    hide Owned;
    forall d | d in credentials ensures CredentialOwned(issued + [more], d, credentials[d]) {
      OwnedStill(issued, more, credentials[d].tokenHash.value, d);
    }
  }

  lemma RetiredStill(retired: map<Hash, RetiredToken>, live: set<Hash>, paired: set<DeviceID>, issued: seq<DeviceID>, more: DeviceID)
    requires RetiredApart(retired, live, paired, issued)
    ensures RetiredApart(retired, live, paired, issued + [more])
  {
    hide Owned;
    forall h | h in retired ensures Owned(issued + [more], h, retired[h].device) { OwnedStill(issued, more, h, retired[h].device); }
  }

  /** Drawing a token changes nothing, and the token is new. */
  lemma DrawInv(s: State, d: DeviceID)
    requires Inv(s)
    ensures Inv(s.(issued := s.issued + [d]))
    ensures Owned(s.issued + [d], Hash(Token(|s.issued|)), d)
    ensures Hash(Token(|s.issued|)) !in s.byTokenHash && Hash(Token(|s.issued|)) !in s.retired
  {
    FresherUnknown(s);
    hide Indexed, InStep;
    RowsStill(s.saved, s.issued, s.devices, d);
    CredentialsStill(s.credentials, s.issued, s.devices, d);
    RetiredStill(s.retired, s.byTokenHash.Keys, s.credentials.Keys, s.issued, d);
  }

  lemma FresherUnknown(s: State)
    requires Inv(s)
    ensures Hash(Token(|s.issued|)) !in s.byTokenHash && Hash(Token(|s.issued|)) !in s.retired
  {
    hide RowsOwned, InStep;
    forall h | h in s.byTokenHash ensures h.token.n < |s.issued| {
      assert CredentialOwned(s.issued, s.byTokenHash[h], s.credentials[s.byTokenHash[h]]);
    }
  }

  lemma ValidateInv(s: State, cfg: Config, token: Token, now: int, stuck: set<DeviceID>)
    requires Inv(s)
    ensures Inv(Validate(s, cfg, token, now, stuck).0)
  {
    PruneInv(s, cfg, now, stuck);
    var h := Hash(token);
    if h in s.byTokenHash && s.byTokenHash[h] in s.credentials {
      DropInv(s, {s.byTokenHash[h]}, stuck);
      hide Inv, Drop;
      SoftExpireInv(s, s.byTokenHash[h], now);
    }
  }

  lemma SoftExpireInv(s: State, d: DeviceID, now: int)
    requires Inv(s) && d in s.credentials
    ensures Inv(s.(credentials := s.credentials[d := s.credentials[d].(expiredAt := Some(now))]))
  {
    hide RowsOwned, Owned;
    var credentials := s.credentials[d := s.credentials[d].(expiredAt := Some(now))];
    assert credentials.Keys == s.credentials.Keys;
  }

  // ----- Rotating -----

  lemma CommitIndexed(s: State, d: DeviceID, fresher: Token, expiresAt: int, now: int)
    requires Indexed(s.credentials, s.byTokenHash) && d in s.credentials && s.credentials[d].tokenHash.Some? && Hash(fresher) !in s.byTokenHash
    ensures var t := Commit(s, d, fresher, expiresAt, now); Indexed(t.credentials, t.byTokenHash)
  {
  }

  lemma CommitOwned(s: State, d: DeviceID, fresher: Token, expiresAt: int, now: int)
    requires CredentialsOwned(s.credentials, s.issued, s.devices) && d in s.credentials && Owned(s.issued, Hash(fresher), d)
    ensures CredentialsOwned(Commit(s, d, fresher, expiresAt, now).credentials, s.issued, s.devices)
  {
    hide Owned;
  }

  lemma CommitRetired(s: State, d: DeviceID, fresher: Token, expiresAt: int, now: int)
    requires Indexed(s.credentials, s.byTokenHash) && d in s.credentials && CredentialOwned(s.issued, d, s.credentials[d])
    requires RetiredApart(s.retired, s.byTokenHash.Keys, s.credentials.Keys, s.issued)
    requires Hash(fresher) !in s.byTokenHash && Hash(fresher) !in s.retired
    ensures var t := Commit(s, d, fresher, expiresAt, now);
      RetiredApart(t.retired, t.byTokenHash.Keys, t.credentials.Keys, s.issued)
  {
    hide Owned;
    var replaced := s.credentials[d].tokenHash.value;
    assert replaced in s.byTokenHash && s.byTokenHash[replaced] == d;
  }

  lemma CommitKeeps(s: State, d: DeviceID, fresher: Token, expiresAt: int, now: int)
    requires d in s.credentials
    ensures var t := Commit(s, d, fresher, expiresAt, now);
      && t.saved == s.saved && t.issued == s.issued && t.devices == s.devices && d in t.credentials
      && t.credentials == s.credentials[d := Credential(Some(Hash(fresher)), Some(fresher), expiresAt, None)]
  {
  }

  lemma RowWritten(s: State, cfg: Config, d: DeviceID, fresher: Token, presented: Option<(Hash, int)>, now: int)
    requires RowsOwned(s.saved, s.issued, s.devices) && d.n < s.devices && d in s.credentials
    requires CredentialOwned(s.issued, d, s.credentials[d]) && Owned(s.issued, Hash(fresher), d)
    requires presented.Some? ==> Owned(s.issued, presented.value.0, d) && presented.value.0 != Hash(fresher)
    requires s.credentials[d].tokenHash != Some(Hash(fresher))
    ensures RowsOwned(s.saved[d := Row(s.credentials[d], fresher, cfg, presented, now)], s.issued, s.devices)
  {
    hide Owned;
  }

  lemma CommitStep(s: State, d: DeviceID, fresher: Token, row: PairingRecord)
    requires Inv(s) && d in s.credentials && Hash(fresher) !in s.byTokenHash && row.token == Hashed(Hash(fresher))
    ensures d.n < s.devices && CredentialOwned(s.issued, d, s.credentials[d]) && s.credentials[d].tokenHash != Some(Hash(fresher))
    ensures InStep(s.saved[d := row], s.credentials[d := Credential(Some(Hash(fresher)), Some(fresher), row.expiresAt, None)])
  {
    hide Owned, RowsOwned, RetiredApart;
  }

  /** A rotation that completes keeps memory and store in step. */
  lemma CommitInv(s: State, cfg: Config, d: DeviceID, fresher: Token, presented: Option<(Hash, int)>, now: int)
    requires Inv(s) && d in s.credentials && Owned(s.issued, Hash(fresher), d)
    requires Hash(fresher) !in s.byTokenHash && Hash(fresher) !in s.retired
    requires presented.Some? ==> Owned(s.issued, presented.value.0, d) && presented.value.0 != Hash(fresher)
    ensures var saved := s.saved[d := Row(s.credentials[d], fresher, cfg, presented, now)];
      RowsOwned(saved, s.issued, s.devices) && Inv(Commit(s.(saved := saved), d, fresher, now + cfg.tokenTTL, now))
  {
    hide Owned, CredentialOwned, Indexed, CredentialsOwned, RetiredApart, RowsOwned, InStep, Commit;
    var expiresAt := now + cfg.tokenTTL;
    var written := s.(saved := s.saved[d := Row(s.credentials[d], fresher, cfg, presented, now)]);
    CommitStep(s, d, fresher, Row(s.credentials[d], fresher, cfg, presented, now));
    RowWritten(s, cfg, d, fresher, presented, now);
    HasHash(s.issued, d, s.credentials[d]);
    CommitIndexed(written, d, fresher, expiresAt, now);
    CommitOwned(written, d, fresher, expiresAt, now);
    CommitRetired(written, d, fresher, expiresAt, now);
    CommitKeeps(written, d, fresher, expiresAt, now);
  }

  lemma HasHash(issued: seq<DeviceID>, d: DeviceID, c: Credential)
    requires CredentialOwned(issued, d, c)
    ensures c.tokenHash.Some?
  {
  }

  lemma InvRows(s: State)
    requires Inv(s)
    ensures RowsOwned(s.saved, s.issued, s.devices)
  {
    hide Indexed, CredentialsOwned, RetiredApart, RowsOwned, InStep;
  }

  /** However a rotation ends, the rows are sound; only a crash leaves memory behind them. */
  lemma RotateInv(s: State, cfg: Config, d: DeviceID, presented: Option<(Hash, int)>, now: int, ending: Ending, stuck: set<DeviceID>)
    requires Inv(s) && d in s.credentials
    requires presented.Some? ==> Owned(s.issued, presented.value.0, d)
    ensures var t := Rotate(s, cfg, d, presented, now, ending, stuck).0;
      RowsOwned(t.saved, t.issued, t.devices) && (!ending.Crashes? ==> Inv(t))
  {
    hide Inv, Owned, RowsOwned, Commit, Drop, Row, ShouldReap;
    var drawn := s.(issued := s.issued + [d]);
    DropInv(s, {d}, stuck);
    InvRows(Drop(s, {d}, stuck));
    DrawInv(s, d);
    InvRows(drawn);
    if presented.Some? { OwnedStill(s.issued, d, presented.value.0, d); FreshToken(s.issued, presented.value.0, d); }
    CommitInv(drawn, cfg, d, Token(|s.issued|), presented, now);
    if !ending.Crashes? { InvRows(Rotate(s, cfg, d, presented, now, ending, stuck).0); }
  }

  lemma FreshToken(issued: seq<DeviceID>, h: Hash, d: DeviceID)
    requires Owned(issued, h, d)
    ensures h != Hash(Token(|issued|))
  {
  }

  lemma RefreshInv(s: State, cfg: Config, token: Token, now: int, ending: Ending, stuck: set<DeviceID>)
    requires Inv(s)
    ensures var t := Refresh(s, cfg, token, now, ending, stuck).0;
      RowsOwned(t.saved, t.issued, t.devices) && (!ending.Crashes? ==> Inv(t))
  {
    hide Rotate, Prune, Indexed, CredentialsOwned, RowsOwned, InStep;
    PruneInv(s, cfg, now, stuck);
    var h := Hash(token);
    if h in s.byTokenHash && s.byTokenHash[h] in s.credentials {
      RotateInv(s, cfg, s.byTokenHash[h], None, now, ending, stuck);
    } else if RetiredDevice(s, h, now).Some? {
      RotateInv(s, cfg, s.retired[h].device, Some((h, s.retired[h].until)), now, ending, stuck);
    }
  }

  // ----- Pairing and restarting -----

  lemma CompleteInv(s: State, cfg: Config, now: int, saves: bool, stuck: set<DeviceID>)
    requires Inv(s)
    ensures Inv(Complete(s, cfg, now, saves, stuck).0)
  {
    hide Prune, Inv, Owned;
    var t := Prune(s, cfg, now, stuck);
    PruneInv(s, cfg, now, stuck);
    DrawInv(t, DeviceID(s.devices));
    PairInv(t.(issued := t.issued + [DeviceID(t.devices)]), Token(|t.issued|), now + cfg.tokenTTL, saves);
  }

  lemma PairInv(s: State, token: Token, expiresAt: int, saves: bool)
    requires Inv(s) && Owned(s.issued, Hash(token), DeviceID(s.devices))
    requires Hash(token) !in s.byTokenHash && Hash(token) !in s.retired
    ensures var d := DeviceID(s.devices);
      Inv(s.(credentials := s.credentials[d := Credential(Some(Hash(token)), Some(token), expiresAt, None)],
             byTokenHash := s.byTokenHash[Hash(token) := d],
             saved := if saves then s.saved[d := PairingRecord(Hashed(Hash(token)), expiresAt, None)] else s.saved,
             devices := s.devices + 1))
  {
    hide Owned;
    var d := DeviceID(s.devices);
    var credentials := s.credentials[d := Credential(Some(Hash(token)), Some(token), expiresAt, None)];
    assert d !in s.credentials && d !in s.saved;
    assert Indexed(credentials, s.byTokenHash[Hash(token) := d]);
    assert CredentialsOwned(credentials, s.issued, s.devices + 1);
  }

  lemma LoadIndexed(rows: map<DeviceID, PairingRecord>, cfg: Config, now: int, issued: seq<DeviceID>, devices: nat)
    requires RowsOwned(rows, issued, devices)
    ensures Indexed(LoadedCredentials(rows, cfg, now), LoadedIndex(rows, issued, devices))
    ensures CredentialsOwned(LoadedCredentials(rows, cfg, now), issued, devices)
  {
  }

  lemma LoadRetired(rows: map<DeviceID, PairingRecord>, now: int, issued: seq<DeviceID>, devices: nat)
    requires RowsOwned(rows, issued, devices)
    ensures RetiredApart(LoadedRetired(rows, now, issued, devices), LoadedIndex(rows, issued, devices).Keys, rows.Keys, issued)
  {
  }

  lemma LoadRows(s: State, cfg: Config, now: int, stuck: set<DeviceID>, unsaved: set<DeviceID>)
    requires RowsOwned(s.saved, s.issued, s.devices)
    ensures RowsOwned(SurvivingRows(s.saved, cfg, now), s.issued, s.devices)
    ensures RowsOwned(LoadedRows(s.saved, cfg, now, stuck, unsaved), s.issued, s.devices)
    ensures InStep(LoadedRows(s.saved, cfg, now, stuck, unsaved), LoadedCredentials(SurvivingRows(s.saved, cfg, now), cfg, now))
  {
    hide Owned, ShouldReap;
  }

  /** A restart finds sound rows and makes sound memory of them. */
  lemma LoadInv(s: State, cfg: Config, now: int, stuck: set<DeviceID>, unsaved: set<DeviceID>)
    requires RowsOwned(s.saved, s.issued, s.devices)
    ensures Inv(Load(s, cfg, now, stuck, unsaved))
  {
    hide RowsOwned, Indexed, CredentialsOwned, InStep, RetiredApart, LoadedIndex, LoadedRetired, SurvivingRows, LoadedRows;
    LoadRows(s, cfg, now, stuck, unsaved);
    var rows := SurvivingRows(s.saved, cfg, now);
    LoadIndexed(rows, cfg, now, s.issued, s.devices);
    LoadRetired(rows, now, s.issued, s.devices);
    assert LoadedCredentials(rows, cfg, now).Keys == rows.Keys;
  }
}
