/** internal/turns/store.go: the latest finished outcome of every chat, and the snapshot that merges running turns over it. */
module OutcomeStore {
  import opened Sequences

  const MAX_OUTCOMES := 4096

  datatype TurnState = Running | Succeeded | Failed | Cancelled | Unknown

  datatype TurnKey = TurnKey(agentID: string, gatewaySessionID: string, sessionID: string)

  /** One turn. Instants are numbers. */
  datatype Status = Status(agentID: string, sessionID: string, gatewaySessionID: string, runtimeID: string, state: TurnState,
                           attention: seq<string>, startedAt: int, changedAt: int, stopReason: string)

  function KeyOf(st: Status): TurnKey {
    TurnKey(st.agentID, st.gatewaySessionID, st.sessionID)
  }

  predicate DistinctTurns(turns: seq<Status>) {
    forall i, j | 0 <= i < j < |turns| :: KeyOf(turns[i]) != KeyOf(turns[j])
  }

  // ----- The orders -----

  /** cmp.Compare on strings. */
  function CompareText(a: string, b: string): int {
    if a == [] then (if b == [] then 0 else -1)
    else if b == [] then 1
    else if a[0] < b[0] then -1
    else if b[0] < a[0] then 1
    else CompareText(a[1..], b[1..])
  }

  function CompareInt(a: int, b: int): int {
    if a < b then -1 else if b < a then 1 else 0
  }

  /** cmp.Or: the first comparison that decides. */
  function Or(first: int, second: int): int {
    if first != 0 then first else second
  }

  function CompareKey(a: Status, b: Status): int {
    Or(CompareText(a.agentID, b.agentID), Or(CompareText(a.sessionID, b.sessionID), CompareText(a.gatewaySessionID, b.gatewaySessionID)))
  }

  function CompareAge(a: Status, b: Status): int {
    Or(CompareInt(a.changedAt, b.changedAt), CompareKey(a, b))
  }

  lemma {:induction false} TextOrder(a: string, b: string)
    ensures CompareText(a, b) == 0 <==> a == b
    ensures CompareText(b, a) == -CompareText(a, b)
  {
    if a != [] && b != [] {
      TextOrder(a[1..], b[1..]);
      assert a == [a[0]] + a[1..] && b == [b[0]] + b[1..];
    }
  }

  lemma {:induction false} TextChain(a: string, b: string, c: string)
    requires CompareText(a, b) <= 0 && CompareText(b, c) <= 0
    ensures CompareText(a, c) <= 0
    ensures CompareText(a, c) == 0 ==> CompareText(a, b) == 0 && CompareText(b, c) == 0
  {
    if a != [] && b != [] && c != [] && a[0] == b[0] == c[0] {
      TextChain(a[1..], b[1..], c[1..]);
    }
  }

  /** a comes before b in a dictionary: it ends first, or has the smaller character where they first differ. */
  predicate TextBefore(a: string, b: string) {
    exists k :: 0 <= k <= |a| && k < |b| && a[..k] == b[..k] && (k == |a| || a[k] < b[k])
  }

  lemma SamePrefix(a: string, b: string)
    ensures forall k | 0 < k <= |a| && k < |b| && a[..k] == b[..k] :: a[0] == b[0]
  {
    forall k | 0 < k <= |a| && k < |b| && a[..k] == b[..k] ensures a[0] == b[0] { assert a[..k][0] == b[..k][0]; }
  }

  lemma {:induction false} CompareMeans(a: string, b: string)
    ensures CompareText(a, b) < 0 <==> TextBefore(a, b)
  {
    if a == [] || b == [] || a[0] != b[0] {
      if CompareText(a, b) < 0 { assert a[..0] == b[..0]; }
      SamePrefix(a, b);
    } else {
      CompareMeans(a[1..], b[1..]);
      BeforeNext(a, b);
    }
  }

  lemma BeforeNext(a: string, b: string)
    requires a != [] && b != [] && a[0] == b[0]
    ensures TextBefore(a, b) <==> TextBefore(a[1..], b[1..])
  {
    if k :| 0 <= k <= |a| && k < |b| && a[..k] == b[..k] && (k == |a| || a[k] < b[k]) {
      if k > 0 { assert a[1..][..k - 1] == a[..k][1..] && b[1..][..k - 1] == b[..k][1..]; }
    }
    if k :| 0 <= k <= |a[1..]| && k < |b[1..]| && a[1..][..k] == b[1..][..k] && (k == |a[1..]| || a[1..][k] < b[1..][k]) {
      assert a[..k + 1] == [a[0]] + a[1..][..k] && b[..k + 1] == [b[0]] + b[1..][..k];
    }
  }

  /** The order of a snapshot: by agent id, then session id, then gateway session id, each as a dictionary has it. */
  lemma KeyMeans(a: Status, b: Status)
    ensures CompareKey(a, b) < 0 <==>
      || TextBefore(a.agentID, b.agentID)
      || (a.agentID == b.agentID && TextBefore(a.sessionID, b.sessionID))
      || (a.agentID == b.agentID && a.sessionID == b.sessionID && TextBefore(a.gatewaySessionID, b.gatewaySessionID))
  {
    hide CompareText, TextBefore;
    CompareMeans(a.agentID, b.agentID);
    CompareMeans(a.sessionID, b.sessionID);
    CompareMeans(a.gatewaySessionID, b.gatewaySessionID);
    TextOrder(a.agentID, b.agentID);
    TextOrder(a.sessionID, b.sessionID);
    TextOrder(a.gatewaySessionID, b.gatewaySessionID);
  }

  lemma KeyOrder(a: Status, b: Status)
    ensures CompareKey(a, b) == 0 <==> KeyOf(a) == KeyOf(b)
    ensures CompareKey(b, a) == -CompareKey(a, b)
  {
    hide CompareText;
    TextOrder(a.agentID, b.agentID);
    TextOrder(a.sessionID, b.sessionID);
    TextOrder(a.gatewaySessionID, b.gatewaySessionID);
  }

  lemma KeyChain(a: Status, b: Status, c: Status)
    requires CompareKey(a, b) <= 0 && CompareKey(b, c) <= 0
    ensures CompareKey(a, c) <= 0
    ensures CompareKey(a, c) == 0 ==> CompareKey(a, b) == 0 && CompareKey(b, c) == 0
  {
    hide CompareText;
    TextChain(a.agentID, b.agentID, c.agentID);
    if CompareText(a.agentID, c.agentID) == 0 {
      TextChain(a.sessionID, b.sessionID, c.sessionID);
      if CompareText(a.sessionID, c.sessionID) == 0 {
        TextChain(a.gatewaySessionID, b.gatewaySessionID, c.gatewaySessionID);
      }
    }
  }

  /** Age orders outcomes of different chats totally: no two are equally old. */
  lemma AgeOrder(a: Status, b: Status)
    ensures CompareAge(a, b) == 0 <==> a.changedAt == b.changedAt && KeyOf(a) == KeyOf(b)
    ensures CompareAge(b, a) == -CompareAge(a, b)
  {
    hide CompareKey;
    KeyOrder(a, b);
  }

  lemma AgeChain(a: Status, b: Status, c: Status)
    requires CompareAge(a, b) <= 0 && CompareAge(b, c) <= 0
    ensures CompareAge(a, c) <= 0
    ensures CompareAge(a, c) == 0 ==> CompareAge(a, b) == 0 && CompareAge(b, c) == 0
  {
    hide CompareKey;
    if a.changedAt == b.changedAt == c.changedAt { KeyChain(a, b, c); }
  }

  // ----- Recording -----

  function Finished(st: Status): Status {
    st.(attention := [])
  }

  predicate WellKeyed(outcomes: map<TurnKey, Status>) {
    forall k | k in outcomes :: KeyOf(outcomes[k]) == k
  }

  /** k's outcome changed longest ago. */
  predicate Oldest(outcomes: map<TurnKey, Status>, k: TurnKey) {
    k in outcomes && forall j | j in outcomes && j != k :: CompareAge(outcomes[k], outcomes[j]) < 0
  }

  lemma OldestUnique(outcomes: map<TurnKey, Status>, j: TurnKey, k: TurnKey)
    requires Oldest(outcomes, j) && Oldest(outcomes, k)
    ensures j == k
  {
    hide CompareAge;
    AgeOrder(outcomes[j], outcomes[k]);
  }

  lemma {:induction false} OldestExists(outcomes: map<TurnKey, Status>)
    requires outcomes != map[] && WellKeyed(outcomes)
    ensures exists k :: Oldest(outcomes, k)
    decreases outcomes.Keys
  {
    hide CompareAge, KeyOf;
    var k :| k in outcomes;
    var rest := outcomes - {k};
    if rest == map[] {
      forall j | j in outcomes ensures j == k { assert j == k || j in rest; }
      assert Oldest(outcomes, k);
    } else {
      OldestExists(rest);
      var j :| Oldest(rest, j);
      AgeOrder(outcomes[j], outcomes[k]);
      if CompareAge(outcomes[j], outcomes[k]) < 0 {
        forall i | i in outcomes && i != j ensures CompareAge(outcomes[j], outcomes[i]) < 0 { assert i == k || i in rest; }
        assert Oldest(outcomes, j);
      } else {
        forall i | i in outcomes && i != k ensures CompareAge(outcomes[k], outcomes[i]) < 0 {
          assert i in rest;
          if i != j { AgeChain(outcomes[k], outcomes[j], outcomes[i]); }
        }
        assert Oldest(outcomes, k);
      }
    }
  }

  ghost function OldestKey(outcomes: map<TurnKey, Status>): (k: TurnKey)
    requires outcomes != map[] && WellKeyed(outcomes)
    ensures Oldest(outcomes, k)
  {
    OldestExists(outcomes);
    var k :| Oldest(outcomes, k); k
  }

  /** The outcomes once st was recorded. */
  ghost function Recorded(outcomes: map<TurnKey, Status>, st: Status): (recorded: map<TurnKey, Status>)
    requires WellKeyed(outcomes)
    ensures WellKeyed(recorded)
  {
    var k := KeyOf(st);
    if k in outcomes then
      if st.startedAt < outcomes[k].startedAt then outcomes else outcomes[k := Finished(st)]
    else if |outcomes| >= MAX_OUTCOMES then (outcomes - {OldestKey(outcomes)})[k := Finished(st)]
    else outcomes[k := Finished(st)]
  }

  /** The outcomes after any sequence of finished turns. */
  ghost function Stored(log: seq<Status>): (outcomes: map<TurnKey, Status>)
    ensures WellKeyed(outcomes)
  {
    if log == [] then map[] else Recorded(Stored(log[..|log| - 1]), log[|log| - 1])
  }

  function Chats(log: seq<Status>): set<TurnKey> {
    set i | 0 <= i < |log| :: KeyOf(log[i])
  }

  /** log[i] started last of chat k's turns, and was recorded last of those that started with it. */
  predicate Latest(log: seq<Status>, k: TurnKey, i: int) {
    && 0 <= i < |log| && KeyOf(log[i]) == k
    && (forall j | 0 <= j < |log| && KeyOf(log[j]) == k :: log[j].startedAt <= log[i].startedAt)
    && (forall j | i < j < |log| && KeyOf(log[j]) == k :: log[j].startedAt < log[i].startedAt)
  }

  lemma ChatsNext(log: seq<Status>)
    requires log != []
    ensures Chats(log) == Chats(log[..|log| - 1]) + {KeyOf(log[|log| - 1])}
  {
    hide KeyOf;
    var before := log[..|log| - 1];
    forall k | k in Chats(before) ensures k in Chats(log) {
      var i :| 0 <= i < |before| && KeyOf(before[i]) == k;
      assert KeyOf(log[i]) == k;
    }
    forall k | k in Chats(log) ensures k in Chats(before) || k == KeyOf(log[|log| - 1]) {
      var i :| 0 <= i < |log| && KeyOf(log[i]) == k;
      if i < |before| { assert KeyOf(before[i]) == k; }
    }
  }

  lemma {:induction false} StoredChats(log: seq<Status>)
    requires |Chats(log)| <= MAX_OUTCOMES
    ensures Stored(log).Keys == Chats(log)
  {
    if log != [] {
      var before, st := log[..|log| - 1], log[|log| - 1];
      ChatsNext(log);
      Cardinal(Chats(before), Chats(log));
      StoredChats(before);
      hide Chats, KeyOf;
      assert |Stored(before)| == |Chats(before)|;
    }
  }

  lemma LatestNext(log: seq<Status>, k: TurnKey, i: int)
    requires log != [] && Latest(log[..|log| - 1], k, i)
    ensures var st := log[|log| - 1];
      Latest(log, k, if KeyOf(st) == k && st.startedAt >= log[i].startedAt then |log| - 1 else i)
  {
    hide KeyOf;
    var before := log[..|log| - 1];
    forall j | 0 <= j < |before| && KeyOf(log[j]) == k ensures log[j].startedAt <= log[i].startedAt { assert before[j] == log[j]; }
    forall j | i < j < |before| && KeyOf(log[j]) == k ensures log[j].startedAt < log[i].startedAt { assert before[j] == log[j]; }
  }

  lemma LatestFirst(log: seq<Status>, k: TurnKey)
    requires log != [] && KeyOf(log[|log| - 1]) == k && k !in Chats(log[..|log| - 1])
    ensures Latest(log, k, |log| - 1)
  {
    hide KeyOf;
    var before := log[..|log| - 1];
    forall j | 0 <= j < |before| ensures KeyOf(log[j]) != k { assert before[j] == log[j]; }
  }

  /**
   * While no more chats than the cap ever finished a turn, the store holds exactly the latest outcome of every
   * one of them, in whatever order the replies came.
   */
  lemma {:induction false} LatestWins(log: seq<Status>, k: TurnKey)
    requires |Chats(log)| <= MAX_OUTCOMES && k in Chats(log)
    ensures k in Stored(log)
    ensures exists i :: Latest(log, k, i) && Stored(log)[k] == Finished(log[i])
  {
    var before, st := log[..|log| - 1], log[|log| - 1];
    ChatsNext(log);
    Cardinal(Chats(before), Chats(log));
    StoredChats(before);
    StoredChats(log);
    if k in Chats(before) {
      LatestWins(before, k);
      var i :| Latest(before, k, i) && Stored(before)[k] == Finished(before[i]);
      LatestNext(log, k, i);
      hide Chats, KeyOf, Latest, Stored;
      StoredStep(log, k);
    } else {
      LatestFirst(log, k);
      hide Chats, KeyOf, Latest, Stored;
      StoredStep(log, k);
    }
  }

  /** In full: a chat's outcome is the turn that started last and, of those that started together, was recorded last. */
  lemma StoredTurn(log: seq<Status>, k: TurnKey)
    requires |Chats(log)| <= MAX_OUTCOMES && k in Chats(log)
    ensures k in Stored(log)
    ensures exists i ::
      && 0 <= i < |log| && KeyOf(log[i]) == k && Stored(log)[k] == log[i].(attention := [])
      && forall j | 0 <= j < |log| && KeyOf(log[j]) == k && j != i ::
           log[j].startedAt < log[i].startedAt || (log[j].startedAt == log[i].startedAt && j < i)
  {
    hide Stored, Chats, KeyOf;
    LatestWins(log, k);
    var i :| Latest(log, k, i) && Stored(log)[k] == Finished(log[i]);
    assert KeyOf(log[i]) == k;
  }

  /** Below the cap, recording st touches the outcome of its own chat only. */
  lemma StoredStep(log: seq<Status>, k: TurnKey)
    requires log != [] && k in Stored(log)
    requires KeyOf(log[|log| - 1]) in Stored(log[..|log| - 1]) || |Stored(log[..|log| - 1])| < MAX_OUTCOMES
    ensures var before, st := Stored(log[..|log| - 1]), log[|log| - 1];
      && (KeyOf(st) != k ==> k in before && Stored(log)[k] == before[k])
      && (KeyOf(st) == k && k in before && st.startedAt < before[k].startedAt ==> Stored(log)[k] == before[k])
      && (KeyOf(st) == k && !(k in before && st.startedAt < before[k].startedAt) ==> Stored(log)[k] == Finished(st))
  {
    hide KeyOf;
  }

  lemma LatestUnique(log: seq<Status>, k: TurnKey, i: int, j: int)
    requires Latest(log, k, i) && Latest(log, k, j)
    ensures i == j
  {
    hide KeyOf;
  }

  /** No chat started two turns at the same instant. */
  predicate NoTies(log: seq<Status>) {
    forall i, j | 0 <= i < |log| && 0 <= j < |log| && KeyOf(log[i]) == KeyOf(log[j]) && log[i].startedAt == log[j].startedAt ::
      log[i] == log[j]
  }

  predicate SameTurns(log: seq<Status>, other: seq<Status>) {
    (forall st | st in log :: st in other) && (forall st | st in other :: st in log)
  }

  /** The order of arrival does not matter. */
  lemma OrderIrrelevant(log: seq<Status>, other: seq<Status>)
    requires SameTurns(log, other) && NoTies(log) && |Chats(log)| <= MAX_OUTCOMES
    ensures Stored(log) == Stored(other)
  {
    hide Stored, Chats, KeyOf, NoTies, SameTurns;
    SameChats(log, other);
    StoredChats(log);
    StoredChats(other);
    forall k | k in Stored(log) ensures Stored(log)[k] == Stored(other)[k] {
      SameWinner(log, other, k);
    }
  }

  lemma SameWinner(log: seq<Status>, other: seq<Status>, k: TurnKey)
    requires SameTurns(log, other) && NoTies(log)
    requires |Chats(log)| <= MAX_OUTCOMES && Chats(log) == Chats(other) && k in Chats(log)
    ensures k in Stored(log) && k in Stored(other) && Stored(log)[k] == Stored(other)[k]
  {
    hide Stored, Chats, KeyOf, NoTies, SameTurns;
    LatestWins(log, k);
    LatestWins(other, k);
    var i :| Latest(log, k, i) && Stored(log)[k] == Finished(log[i]);
    var j :| Latest(other, k, j) && Stored(other)[k] == Finished(other[j]);
    SameLatest(log, other, k, i, j);
  }

  lemma SameChats(log: seq<Status>, other: seq<Status>)
    requires SameTurns(log, other)
    ensures Chats(log) == Chats(other)
  {
    hide KeyOf;
    forall i | 0 <= i < |log| ensures KeyOf(log[i]) in Chats(other) { assert log[i] in log; InChats(other, log[i]); }
    forall i | 0 <= i < |other| ensures KeyOf(other[i]) in Chats(log) { assert other[i] in other; InChats(log, other[i]); }
  }

  lemma InChats(log: seq<Status>, st: Status)
    requires st in log
    ensures KeyOf(st) in Chats(log)
  {
  }

  lemma SameLatest(log: seq<Status>, other: seq<Status>, k: TurnKey, i: int, j: int)
    requires SameTurns(log, other) && NoTies(log)
    requires Latest(log, k, i) && Latest(other, k, j)
    ensures log[i] == other[j]
  {
    hide KeyOf;
    assert log[i] in log && other[j] in other;
    var m :| 0 <= m < |other| && other[m] == log[i];
    var n :| 0 <= n < |log| && log[n] == other[j];
  }

  lemma StoredThen(log: seq<Status>, st: Status)
    ensures Stored(log + [st]) == Recorded(Stored(log), st)
  {
    assert (log + [st])[..|log|] == log;
  }

  lemma RecordedOver(outcomes: map<TurnKey, Status>, st: Status)
    requires WellKeyed(outcomes) && KeyOf(st) in outcomes
    ensures Recorded(outcomes, st) == if st.startedAt < outcomes[KeyOf(st)].startedAt then outcomes else outcomes[KeyOf(st) := Finished(st)]
  {
  }

  lemma RecordedBelow(outcomes: map<TurnKey, Status>, st: Status)
    requires WellKeyed(outcomes) && KeyOf(st) !in outcomes && |outcomes| < MAX_OUTCOMES
    ensures Recorded(outcomes, st) == outcomes[KeyOf(st) := Finished(st)]
  {
  }

  /** At the cap, a new chat replaces exactly the outcome that changed longest ago. */
  lemma EvictsOldest(outcomes: map<TurnKey, Status>, st: Status, gone: TurnKey)
    requires WellKeyed(outcomes) && KeyOf(st) !in outcomes && |outcomes| >= MAX_OUTCOMES && Oldest(outcomes, gone)
    ensures Recorded(outcomes, st) == (outcomes - {gone})[KeyOf(st) := Finished(st)]
  {
    hide Oldest;
    OldestUnique(outcomes, gone, OldestKey(outcomes));
  }

  /** That outcome changed no later than any other. */
  lemma EvictsEarliest(outcomes: map<TurnKey, Status>, gone: TurnKey)
    requires Oldest(outcomes, gone)
    ensures gone in outcomes && forall j | j in outcomes :: outcomes[gone].changedAt <= outcomes[j].changedAt
  {
    hide CompareKey;
    forall j | j in outcomes && j != gone ensures outcomes[gone].changedAt <= outcomes[j].changedAt {
      assert CompareAge(outcomes[gone], outcomes[j]) < 0;
    }
  }

  lemma RecordedCapped(outcomes: map<TurnKey, Status>, st: Status)
    requires WellKeyed(outcomes) && |outcomes| <= MAX_OUTCOMES
    ensures |Recorded(outcomes, st)| <= MAX_OUTCOMES
  {
    if KeyOf(st) !in outcomes && |outcomes| >= MAX_OUTCOMES {
      var gone := OldestKey(outcomes);
      assert Recorded(outcomes, st).Keys == outcomes.Keys - {gone} + {KeyOf(st)};
    }
  }

  // ----- The store -----

  /** The stored outcomes of chats without a running turn. */
  function Unhidden(outcomes: map<TurnKey, Status>, live: seq<Status>): map<TurnKey, Status> {
    map k | k in outcomes && k !in Chats(live) :: outcomes[k]
  }

  predicate Sorted(turns: seq<Status>) {
    forall i, j | 0 <= i < j < |turns| :: CompareKey(turns[i], turns[j]) <= 0
  }

  /** What a snapshot lists: every running turn, and each stored outcome that no running turn of its chat hides. */
  ghost predicate Lists(out: seq<Status>, live: seq<Status>, outcomes: map<TurnKey, Status>) {
    forall st :: st in out <==> st in live || (KeyOf(st) in Unhidden(outcomes, live) && Unhidden(outcomes, live)[KeyOf(st)] == st)
  }

  /** In full: an entry is listed if it is running, or stored for a chat in which nothing is running. */
  lemma ListsMeans(out: seq<Status>, live: seq<Status>, outcomes: map<TurnKey, Status>, st: Status)
    requires Lists(out, live, outcomes)
    ensures st in out <==>
      st in live || (KeyOf(st) in outcomes && outcomes[KeyOf(st)] == st && forall running | running in live :: KeyOf(running) != KeyOf(st))
  {
    hide KeyOf;
    if i :| 0 <= i < |live| && KeyOf(live[i]) == KeyOf(st) { assert live[i] in live && KeyOf(st) in Chats(live); }
    forall running | running in live ensures KeyOf(running) in Chats(live) { InChats(live, running); }
  }

  lemma SortedDistinct(turns: seq<Status>)
    requires Sorted(turns) && DistinctTurns(turns)
    ensures forall i, j | 0 <= i < j < |turns| :: CompareKey(turns[i], turns[j]) < 0
  {
    hide CompareKey, KeyOf;
    forall i, j | 0 <= i < j < |turns| ensures CompareKey(turns[i], turns[j]) < 0 { KeyOrder(turns[i], turns[j]); }
  }

  /** Sorted by distinct keys, a snapshot is the only one that lists what it lists. */
  lemma {:induction false} SnapshotUnique(a: seq<Status>, b: seq<Status>)
    requires Sorted(a) && DistinctTurns(a) && Sorted(b) && DistinctTurns(b) && SameTurns(a, b)
    ensures a == b
    decreases a
  {
    assert b != [] ==> b[0] in b;
    if a != [] {
      assert a[0] in b && b != [] && b[0] in a;
      FirstAgrees(a, b);
      assert a == [a[0]] + a[1..] && b == [b[0]] + b[1..];
      assert SameTurns(a[1..], b[1..]) by {
        forall st | st in a[1..] ensures st in b[1..] { assert st in a && st in b; Later(a, st); }
        forall st | st in b[1..] ensures st in a[1..] { assert st in b && st in a; Later(b, st); }
      }
      hide Sorted, DistinctTurns, SameTurns;
      Shorter(a);
      Shorter(b);
      SnapshotUnique(a[1..], b[1..]);
    }
  }

  lemma Shorter(a: seq<Status>)
    requires a != [] && Sorted(a) && DistinctTurns(a)
    ensures Sorted(a[1..]) && DistinctTurns(a[1..])
  {
    hide CompareKey, KeyOf;
  }

  lemma Later(a: seq<Status>, st: Status)
    requires a != [] && DistinctTurns(a) && st in a[1..]
    ensures st != a[0]
  {
    hide KeyOf;
    var i :| 0 <= i < |a[1..]| && a[1..][i] == st;
    assert a[i + 1] == st;
  }

  lemma FirstAgrees(a: seq<Status>, b: seq<Status>)
    requires a != [] && b != [] && Sorted(a) && Sorted(b) && DistinctTurns(a) && DistinctTurns(b)
    requires a[0] in b && b[0] in a
    ensures a[0] == b[0]
  {
    hide CompareKey, KeyOf;
    var i :| 0 <= i < |b| && b[i] == a[0];
    var j :| 0 <= j < |a| && a[j] == b[0];
    KeyOrder(a[0], b[0]);
    assert CompareKey(a[0], b[0]) <= 0 by { KeyOrder(a[0], a[0]); }
    assert CompareKey(b[0], a[0]) <= 0 by { KeyOrder(b[0], b[0]); }
  }

  // ----- Sorting the merged turns -----

  /** turns with st put after everything that does not come later. */
  function Insert(turns: seq<Status>, st: Status): (inserted: seq<Status>)
    ensures |inserted| == |turns| + 1
  {
    if turns == [] then [st]
    else if CompareKey(turns[|turns| - 1], st) <= 0 then turns + [st]
    else Insert(turns[..|turns| - 1], st) + [turns[|turns| - 1]]
  }

  lemma {:induction false} InsertKeeps(turns: seq<Status>, st: Status)
    ensures forall x :: x in Insert(turns, st) <==> x in turns || x == st
    decreases turns
  {
    if turns != [] && CompareKey(turns[|turns| - 1], st) > 0 {
      InsertKeeps(turns[..|turns| - 1], st);
      assert forall x :: x in turns <==> x in turns[..|turns| - 1] || x == turns[|turns| - 1];
    }
  }

  lemma {:induction false} InsertSorted(turns: seq<Status>, st: Status)
    requires Sorted(turns)
    ensures Sorted(Insert(turns, st))
    decreases turns
  {
    hide CompareKey;
    if turns != [] {
      var before, last := turns[..|turns| - 1], turns[|turns| - 1];
      if CompareKey(last, st) <= 0 {
        forall i | 0 <= i < |turns| ensures CompareKey(turns[i], st) <= 0 {
          if i < |before| { KeyChain(turns[i], last, st); }
        }
      } else {
        InsertSorted(before, st);
        InsertKeeps(before, st);
        KeyOrder(last, st);
        var rest := Insert(before, st);
        forall i | 0 <= i < |rest| ensures CompareKey(rest[i], last) <= 0 {
          assert rest[i] in rest;
          if rest[i] != st { var m :| 0 <= m < |before| && before[m] == rest[i]; }
        }
      }
    }
  }

  lemma {:induction false} InsertDistinct(turns: seq<Status>, st: Status)
    requires DistinctTurns(turns) && forall i | 0 <= i < |turns| :: KeyOf(turns[i]) != KeyOf(st)
    ensures DistinctTurns(Insert(turns, st))
    decreases turns
  {
    hide CompareKey, KeyOf;
    if turns != [] && CompareKey(turns[|turns| - 1], st) > 0 {
      var before, last := turns[..|turns| - 1], turns[|turns| - 1];
      InsertDistinct(before, st);
      InsertKeeps(before, st);
      var rest := Insert(before, st);
      forall i | 0 <= i < |rest| ensures KeyOf(rest[i]) != KeyOf(last) {
        assert rest[i] in rest;
        if rest[i] != st { var m :| 0 <= m < |before| && before[m] == rest[i]; }
      }
    }
  }

  class Store {
    var outcomes: map<TurnKey, Status>
    // Every finished turn ever recorded.
    ghost var log: seq<Status>

    ghost predicate Valid()
      reads this
    {
      outcomes == Stored(log) && |outcomes| <= MAX_OUTCOMES
    }

    constructor ()
      ensures Valid() && outcomes == map[] && log == []
    {
      outcomes, log := map[], [];
    }

    /** Keeps a finished turn unless its chat already has one that started later. */
    method Record(st: Status)
      requires Valid()
      modifies this
      ensures Valid() && log == old(log) + [st]
    {
      hide KeyOf, Recorded, Stored, OldestKey;
      StoredThen(log, st);
      RecordedCapped(outcomes, st);
      log := log + [st];
      var k := KeyOf(st);
      if k in outcomes {
        RecordedOver(outcomes, st);
        if st.startedAt < outcomes[k].startedAt {
          return;
        }
      } else if |outcomes| >= MAX_OUTCOMES {
        var oldest := OldestLocked();
        EvictsOldest(outcomes, st, oldest);
        outcomes := outcomes - {oldest};
      } else {
        RecordedBelow(outcomes, st);
      }
      outcomes := outcomes[k := Finished(st)];
    }

    /** The chat whose outcome changed longest ago; the scan's order does not matter. */
    method OldestLocked() returns (k: TurnKey)
      requires outcomes != map[] && WellKeyed(outcomes)
      ensures Oldest(outcomes, k)
    {
      hide CompareAge;
      var left := outcomes.Keys;
      k :| k in left;
      left := left - {k};
      while left != {}
        invariant left <= outcomes.Keys && k in outcomes.Keys - left
        invariant forall j | j in outcomes.Keys - left && j != k :: CompareAge(outcomes[k], outcomes[j]) < 0
        decreases left
      {
        var i :| i in left;
        left := left - {i};
        AgeOrder(outcomes[i], outcomes[k]);
        if CompareAge(outcomes[i], outcomes[k]) < 0 {
          forall j | j in outcomes.Keys - left && j != i ensures CompareAge(outcomes[i], outcomes[j]) < 0 {
            if j != k { AgeChain(outcomes[i], outcomes[k], outcomes[j]); }
          }
          k := i;
        }
      }
    }

    /**
     * Running turns over stored outcomes, in key order. Over distinct running turns the keys are distinct too,
     * so they are strictly ascending.
     */
    method Snapshot(live: seq<Status>) returns (out: seq<Status>)
      requires WellKeyed(outcomes)
      ensures Sorted(out) && Lists(out, live, outcomes)
      ensures DistinctTurns(live) ==> DistinctTurns(out)
    {
      hide CompareKey, KeyOf, Lists, Sorted, DistinctTurns, WellKeyed;
      out := [];
      var running: set<TurnKey> := {};
      var i := 0;
      MergeStarts(live);
      while i < |live|
        invariant 0 <= i <= |live| && running == Chats(live[..i]) && Merged(out, live[..i], map[])
      {
        MergeLive(out, live, i);
        running := running + {KeyOf(live[i])};
        out := Insert(out, live[i]);
        i := i + 1;
      }
      assert live[..i] == live;
      var left := outcomes.Keys;
      ghost var seen: map<TurnKey, Status> := map[];
      while left != {}
        invariant left <= outcomes.Keys && seen.Keys == outcomes.Keys - left && forall k | k in seen :: seen[k] == outcomes[k]
        invariant Merged(out, live, seen)
        decreases left
      {
        var k :| k in left;
        left := left - {k};
        MergeStored(out, live, seen, k, outcomes);
        if k !in running {
          out := Insert(out, outcomes[k]);
        }
        seen := seen[k := outcomes[k]];
      }
      assert seen == outcomes;
      hide Merged;
      MergedSnapshot(out, live, outcomes);
    }
  }

  /** out merges live over the stored outcomes seen so far. */
  ghost predicate Merged(out: seq<Status>, live: seq<Status>, seen: map<TurnKey, Status>) {
    Sorted(out) && Lists(out, live, seen) && (DistinctTurns(live) ==> DistinctTurns(out))
  }

  lemma MergedSnapshot(out: seq<Status>, live: seq<Status>, outcomes: map<TurnKey, Status>)
    requires Merged(out, live, outcomes)
    ensures Sorted(out) && Lists(out, live, outcomes) && (DistinctTurns(live) ==> DistinctTurns(out))
  {
  }

  lemma MergeStarts(live: seq<Status>)
    ensures Merged([], live[..0], map[]) && Chats(live[..0]) == {}
  {
  }

  lemma MergeLive(out: seq<Status>, live: seq<Status>, i: nat)
    requires i < |live| && Merged(out, live[..i], map[])
    ensures Merged(Insert(out, live[i]), live[..i + 1], map[])
    ensures Chats(live[..i + 1]) == Chats(live[..i]) + {KeyOf(live[i])}
  {
    hide CompareKey, KeyOf;
    var done, next := live[..i], live[..i + 1];
    assert next[..|next| - 1] == done && next == done + [live[i]];
    ChatsNext(next);
    InsertSorted(out, live[i]);
    InsertKeeps(out, live[i]);
    if DistinctTurns(next) {
      assert DistinctTurns(done);
      forall m | 0 <= m < |out| ensures KeyOf(out[m]) != KeyOf(live[i]) {
        assert out[m] in out && out[m] in done;
        var n :| 0 <= n < |done| && done[n] == out[m];
        assert next[n] == done[n] && next[i] == live[i];
      }
      InsertDistinct(out, live[i]);
    }
  }

  lemma MergeStored(out: seq<Status>, live: seq<Status>, seen: map<TurnKey, Status>, k: TurnKey, outcomes: map<TurnKey, Status>)
    requires Merged(out, live, seen) && k in outcomes && k !in seen && WellKeyed(outcomes)
    requires forall j | j in seen :: j in outcomes && seen[j] == outcomes[j]
    ensures Merged(if k in Chats(live) then out else Insert(out, outcomes[k]), live, seen[k := outcomes[k]])
  {
    hide CompareKey, KeyOf, Chats;
    if k !in Chats(live) {
      InsertSorted(out, outcomes[k]);
      InsertKeeps(out, outcomes[k]);
      if DistinctTurns(live) {
        forall m | 0 <= m < |out| ensures KeyOf(out[m]) != k { assert out[m] in out; if out[m] in live { InChats(live, out[m]); } }
        InsertDistinct(out, outcomes[k]);
      }
    }
  }

}
