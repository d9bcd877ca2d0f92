/** internal/turns/feed.go: a snapshot, then every change to it, for each subscriber. */
module TurnFeed {
  import opened Names
  import opened Sequences
  import opened OutcomeStore

  const MAX_SUBSCRIPTIONS := 256
  const MAX_STREAMS_PER_DEVICE := 4
  const MAX_QUEUED_CHANGES := 16

  datatype Change = Change(observedAt: int, upserts: seq<Status>, removed: seq<TurnKey>)

  predicate Nothing(change: Change) {
    change.upserts == [] && change.removed == []
  }

  // ----- What a client makes of it -----

  /** The entries by key; of several with one key the last. */
  function View(turns: seq<Status>): map<TurnKey, Status> {
    if turns == [] then map[] else View(turns[..|turns| - 1])[KeyOf(turns[|turns| - 1]) := turns[|turns| - 1]]
  }

  /** A client replaces the upserted entries and forgets the removed ones. */
  function Apply(view: map<TurnKey, Status>, change: Change): map<TurnKey, Status> {
    view + View(change.upserts) - set k | k in change.removed
  }

  function ApplyAll(view: map<TurnKey, Status>, changes: seq<Change>): map<TurnKey, Status> {
    if changes == [] then view else Apply(ApplyAll(view, changes[..|changes| - 1]), changes[|changes| - 1])
  }

  lemma ApplyAllThen(view: map<TurnKey, Status>, changes: seq<Change>, change: Change)
    ensures ApplyAll(view, changes + [change]) == Apply(ApplyAll(view, changes), change)
  {
    assert (changes + [change])[..|changes|] == changes;
  }

  lemma {:induction false} ViewKeys(turns: seq<Status>, k: TurnKey)
    ensures k in View(turns) <==> exists st :: st in turns && KeyOf(st) == k
    ensures k in View(turns) ==> View(turns)[k] in turns && KeyOf(View(turns)[k]) == k
  {
    hide KeyOf;
    if turns != [] {
      ViewKeys(turns[..|turns| - 1], k);
      assert forall st :: st in turns <==> st in turns[..|turns| - 1] || st == turns[|turns| - 1];
    }
  }

  lemma ViewDistinct(turns: seq<Status>, st: Status)
    requires DistinctTurns(turns) && st in turns
    ensures KeyOf(st) in View(turns) && View(turns)[KeyOf(st)] == st
  {
    hide KeyOf;
    ViewKeys(turns, KeyOf(st));
  }

  // ----- The difference of two samples -----

  /** st is new or differs from the previous entry of its key. */
  function ChangedFrom(previous: map<TurnKey, Status>): Status -> bool {
    (st: Status) => KeyOf(st) !in previous || previous[KeyOf(st)] != st
  }

  function GoneFrom(next: seq<Status>): Status -> bool {
    (st: Status) => KeyOf(st) !in Chats(next)
  }

  function Diff(last: seq<Status>, next: seq<Status>, observedAt: int): Change {
    Change(observedAt, Keep(next, ChangedFrom(View(last))), Map(Keep(last, GoneFrom(next)), KeyOf))
  }

  /** Every member counts, attention too. */
  function SameStatus(a: Status, b: Status): (same: bool)
    ensures same <==> a == b
  {
    && a.agentID == b.agentID && a.sessionID == b.sessionID
    && a.gatewaySessionID == b.gatewaySessionID && a.runtimeID == b.runtimeID
    && a.state == b.state && a.stopReason == b.stopReason
    && a.startedAt == b.startedAt && a.changedAt == b.changedAt
    && a.attention == b.attention
  }

  lemma RemovedKeys(last: seq<Status>, next: seq<Status>, k: TurnKey)
    ensures k in Map(Keep(last, GoneFrom(next)), KeyOf) <==> k in View(last) && k !in View(next)
  {
    hide KeyOf, Chats, Keep;
    var gone := Keep(last, GoneFrom(next));
    ViewKeys(last, k);
    ViewKeys(next, k);
    assert k in Chats(next) <==> k in View(next) by { ChatsView(next, k); }
    if k in Map(gone, KeyOf) {
      var i :| 0 <= i < |gone| && KeyOf(gone[i]) == k;
      KeepIn(last, GoneFrom(next), gone[i]);
    }
    if k in View(last) && k !in View(next) {
      KeepIn(last, GoneFrom(next), View(last)[k]);
      var i :| 0 <= i < |gone| && gone[i] == View(last)[k];
      assert Map(gone, KeyOf)[i] == k;
    }
  }

  lemma ChatsView(turns: seq<Status>, k: TurnKey)
    ensures k in Chats(turns) <==> k in View(turns)
  {
    hide KeyOf;
    ViewKeys(turns, k);
    if k in View(turns) {
      InChats(turns, View(turns)[k]);
    }
  }

  /** Of the kept entries with a key the last is the view's, if that one is kept. */
  lemma {:induction false} ViewKept(turns: seq<Status>, p: Status -> bool, k: TurnKey)
    requires k in View(turns) && p(View(turns)[k])
    ensures k in View(Keep(turns, p)) && View(Keep(turns, p))[k] == View(turns)[k]
    decreases turns
  {
    hide KeyOf;
    var before, st := turns[..|turns| - 1], turns[|turns| - 1];
    KeepNext(turns, |turns| - 1, p);
    assert turns[..|turns|] == turns;
    var kept := Keep(turns, p);
    assert p(st) ==> kept[..|kept| - 1] == Keep(before, p) && kept[|kept| - 1] == st;
    assert !p(st) ==> kept == Keep(before, p);
    if KeyOf(st) != k { ViewKept(before, p, k); }
  }

  /** What the client's entry for k becomes. */
  lemma DiffAt(last: seq<Status>, next: seq<Status>, at: int, k: TurnKey)
    ensures var now := Apply(View(last), Diff(last, next, at));
      && (k in now <==> k in View(next))
      && (k in now && !(k in View(last) && View(last)[k] == View(next)[k]) ==> now[k] == View(next)[k])
      && (k in now && k in View(last) && View(last)[k] == View(next)[k] ==>
            now[k] == View(next)[k] || (now[k] in next && KeyOf(now[k]) == k))
      && (k in now && k in View(last) && View(last)[k] == View(next)[k] ==>
            (now[k] == View(next)[k] <==> forall st | st in next && KeyOf(st) == k :: st == View(next)[k]))
  {
    hide KeyOf, Keep;
    var p := ChangedFrom(View(last));
    var upserts := Keep(next, p);
    RemovedKeys(last, next, k);
    ViewKeys(next, k);
    ViewKeys(upserts, k);
    if k in View(upserts) { KeepIn(next, p, View(upserts)[k]); }
    if k in View(next) {
      if k in View(last) && View(last)[k] == View(next)[k] {
        forall st | st in next && KeyOf(st) == k && st != View(next)[k] ensures k in View(upserts) { KeepIn(next, p, st); }
      } else {
        ViewKept(next, p, k);
      }
    }
  }

  /** No key that next leaves as it was in last is listed there with a second, different entry. */
  predicate Unambiguous(last: seq<Status>, next: seq<Status>) {
    forall st | st in next :: var k := KeyOf(st);
      k in View(last) && k in View(next) && View(last)[k] == View(next)[k] ==> st == View(next)[k]
  }

  /** When applying the difference to what a client had gives the new sample. */
  lemma DiffAppliesExactly(last: seq<Status>, next: seq<Status>, at: int)
    ensures Apply(View(last), Diff(last, next, at)) == View(next) <==> Unambiguous(last, next)
  {
    hide KeyOf, Diff, Apply;
    var now := Apply(View(last), Diff(last, next, at));
    forall st | st in next ensures KeyOf(st) in View(next) { ViewKeys(next, KeyOf(st)); }
    forall k ensures k in now <==> k in View(next) { DiffAt(last, next, at, k); }
    if now == View(next) {
      forall st | st in next ensures var k := KeyOf(st); k in View(last) && View(last)[k] == View(next)[k] ==> st == View(next)[k] {
        DiffAt(last, next, at, KeyOf(st));
      }
    }
    if Unambiguous(last, next) {
      forall k | k in now ensures now[k] == View(next)[k] { DiffAt(last, next, at, k); ViewKeys(next, k); }
    }
  }

  /** Samples list every key once, so the difference always applies. */
  lemma DiffApplies(last: seq<Status>, next: seq<Status>, at: int)
    requires DistinctTurns(next)
    ensures Apply(View(last), Diff(last, next, at)) == View(next)
  {
    hide KeyOf, Diff, Apply, DistinctTurns;
    forall st | st in next ensures KeyOf(st) in View(next) && View(next)[KeyOf(st)] == st { ViewDistinct(next, st); }
    DiffAppliesExactly(last, next, at);
  }

  /** A change carries nothing else: the entries the last sample did not have, in order, and the chats that are gone. */
  lemma DiffMinimal(last: seq<Status>, next: seq<Status>, at: int)
    requires DistinctTurns(last)
    ensures var change := Diff(last, next, at);
      && change.upserts == Keep(next, (st: Status) => st !in last)
      && (forall k :: k in change.removed <==>
            (exists st :: st in last && KeyOf(st) == k) && !(exists st :: st in next && KeyOf(st) == k))
  {
    hide KeyOf, View, DistinctTurns;
    forall st | st in next ensures ChangedFrom(View(last))(st) == (st !in last) {
      ViewKeys(last, KeyOf(st));
      if st in last { ViewDistinct(last, st); }
    }
    KeepAgree(next, ChangedFrom(View(last)), (st: Status) => st !in last);
    forall k ensures k in Diff(last, next, at).removed <==>
      (exists st :: st in last && KeyOf(st) == k) && !(exists st :: st in next && KeyOf(st) == k) {
      RemovedKeys(last, next, k);
      ViewKeys(last, k);
      ViewKeys(next, k);
    }
  }

  /** No snapshot lists a key twice; with such a list, a client would be left with the entry the sample supersedes. */
  lemma RepeatedKeyMisleads()
    ensures var done := Status("a", "s", "g", "r", Succeeded, [], 1, 2, "end_turn");
      var running := Status("a", "s", "g", "r", Running, [], 1, 1, "");
      Apply(View([done]), Diff([done], [running, done], 3)) != View([running, done])
  {
    var done := Status("a", "s", "g", "r", Succeeded, [], 1, 2, "end_turn");
    var running := Status("a", "s", "g", "r", Running, [], 1, 1, "");
    var last, next := [done], [running, done];
    assert next[..1] == [running] && last[..0] == [];
    assert View(last)[KeyOf(running)] == done == View(next)[KeyOf(running)];
    assert running in next && running != done;
    DiffAppliesExactly(last, next, 3);
  }

  /** The changes published by a run of samples after the first. */
  function Published(first: seq<Status>, samples: seq<seq<Status>>): seq<Change> {
    if samples == [] then []
    else
      var last := if |samples| == 1 then first else samples[|samples| - 2];
      Published(first, samples[..|samples| - 1]) + [Diff(last, samples[|samples| - 1], 0)]
  }

  /** One consolidated catch-up stands for every sample taken meanwhile. */
  lemma {:induction false} CatchUpComposes(first: seq<Status>, samples: seq<seq<Status>>)
    requires samples != [] && forall s | s in samples :: DistinctTurns(s)
    ensures ApplyAll(View(first), Published(first, samples)) == Apply(View(first), Diff(first, samples[|samples| - 1], 0))
    decreases samples
  {
    hide Diff, Apply, View, DistinctTurns;
    var before, next := samples[..|samples| - 1], samples[|samples| - 1];
    var last := if |samples| == 1 then first else samples[|samples| - 2];
    assert next in samples;
    DiffApplies(first, next, 0);
    DiffApplies(last, next, 0);
    ApplyAllThen(View(first), Published(first, before), Diff(last, next, 0));
    if |samples| > 1 {
      assert last in samples;
      CatchUpComposes(first, before);
      DiffApplies(first, last, 0);
    } else {
      assert Published(first, before) == [];
    }
  }

  // ----- Subscriptions -----

  datatype Device = Device(id: string)

  /** Why a subscription ended. Dismissed is the caller's own Close, whose Err is nil. */
  datatype Reason = Dismissed | SlowConsumer | Superseded | Stopped

  class Subscription {
    const device: Device
    var changes: seq<Change>
    var closed: bool
    var pending: bool
    var active: bool
    var base: seq<Status>
    var ended: Option<Reason>
    // The snapshot its caller was handed, every change ever queued, those its reader took, and its turn to ready.
    ghost const snapshot: seq<Status>
    // Whether taking that snapshot ended every other subscription, and the number of samples then.
    ghost const cleared: bool
    ghost const born: nat
    ghost var sent: seq<Change>
    ghost var received: seq<Change>
    ghost var readyAt: nat

    /**
     * A subscription that has not ended. Its snapshot and everything sent since amount to last; while it is
     * pending nothing was sent, and its base is that snapshot.
     */
    ghost predicate Live(last: seq<Status>)
      reads this
    {
      && !closed && ended.None? && pending != active && |changes| <= MAX_QUEUED_CHANGES
      && received + changes == sent
      && (pending ==> sent == [] && base == snapshot)
      && (active ==> ApplyAll(View(snapshot), sent) == View(last))
    }

    /** An ended subscription: what its reader took is a prefix of what was sent, and nothing is left to take. */
    ghost predicate Over()
      reads this
    {
      closed && ended.Some? && !pending && !active && base == [] && changes == [] && received <= sent
    }

    constructor (device: Device, turns: seq<Status>, ghost cleared: bool, ghost born: nat)
      ensures this.device == device && snapshot == turns && pending && !active && sent == []
      ensures this.cleared == cleared && this.born == born
      ensures forall last :: Live(last)
    {
      this.device, snapshot, this.cleared, this.born := device, turns, cleared, born;
      changes, closed, pending, active, base, ended := [], false, true, false, turns, None;
      sent, received, readyAt := [], [], 0;
    }

    /** Sending on a closed channel would panic, so the caller must know it is open. */
    method TrySend(change: Change) returns (sentIt: bool)
      requires !closed && received + changes == sent
      modifies this`changes, this`sent
      ensures sentIt <==> |old(changes)| < MAX_QUEUED_CHANGES
      ensures changes == if sentIt then old(changes) + [change] else old(changes)
      ensures sent == if sentIt then old(sent) + [change] else old(sent)
      ensures received + changes == sent
    {
      if |changes| >= MAX_QUEUED_CHANGES {
        return false;
      }
      changes, sent := changes + [change], sent + [change];
      assert received + changes == sent;
      return true;
    }

    /** Drops the backlog and closes the channel, which closing twice would panic. */
    method Shut(reason: Reason)
      requires !closed && received <= sent
      modifies this`changes, this`closed, this`pending, this`active, this`base, this`ended
      ensures Over() && ended == Some(reason)
    {
      pending, active, base := false, false, [];
      ended := Some(reason);
      while changes != []
        invariant !closed && !pending && !active && base == [] && ended == Some(reason) && received <= sent
        decreases |changes|
      {
        changes := changes[1..];
      }
      closed := true;
    }

    /** The catch-up finds room: nothing is sent to a pending subscription. */
    method Open(change: Change, ghost last: seq<Status>, ghost at: nat)
      requires Live(last) && pending && Apply(View(snapshot), change) == View(last)
      modifies this
      ensures Live(last) && active && readyAt == at && changes == sent == (if Nothing(change) then [] else [change])
    {
      hide Apply, View;
      if Nothing(change) { NothingApplies(View(snapshot), change); }
      ApplyNone(View(snapshot));
      ApplyAllThen(View(snapshot), sent, change);
      base, pending, active := [], false, true;
      readyAt := at;
      if |change.upserts| > 0 || |change.removed| > 0 {
        var sentIt := TrySend(change);
        assert sentIt;
      }
    }

    /** The reader takes the next change, at any time. */
    method Receive(ghost last: seq<Status>) returns (change: Option<Change>)
      requires Live(last) || Over()
      modifies this`changes, this`received
      ensures old(Live(last)) ==> Live(last)
      ensures old(Over()) ==> Over() && change == None
      ensures change.Some? ==> received == old(received) + [change.value] && [change.value] + changes == old(changes)
      ensures change.None? ==> unchanged(this)
    {
      hide ApplyAll, View;
      if changes == [] {
        return None;
      }
      change := Some(changes[0]);
      assert [changes[0]] + changes[1..] == changes;
      assert received + changes == received + [changes[0]] + changes[1..];
      received, changes := received + [changes[0]], changes[1..];
    }

    lemma OpensEmpty(last: seq<Status>)
      requires Live(last) && pending
      ensures base == snapshot && sent == changes == received == [] && !closed && !active
    {
    }

    lemma OpenWhileLive(last: seq<Status>)
      requires Live(last)
      ensures !closed && received <= sent
    {
    }

    lemma SameShown(last: seq<Status>, next: seq<Status>)
      requires Live(last) && View(last) == View(next)
      ensures Live(next)
    {
      hide ApplyAll, View;
    }

    /** A reader that has caught up shows exactly what the feed last published. */
    lemma CaughtUp(last: seq<Status>)
      requires Live(last) && active && changes == []
      ensures ApplyAll(View(snapshot), received) == View(last)
    {
      hide ApplyAll, View;
      assert received + [] == received;
    }
  }

  // ----- The streams of each device -----

  /** streams are device d's active subscriptions, in the order they readied. */
  ghost predicate StreamsOf(streams: seq<Subscription>, d: Device, subs: set<Subscription>)
    reads subs`active, subs`readyAt
  {
    && streams != []
    && (forall s | s in streams :: s in subs && s.active && s.device == d)
    && forall i, j | 0 <= i < j < |streams| :: streams[i].readyAt < streams[j].readyAt
  }

  /** byDevice lists exactly the active subscriptions. */
  ghost predicate Listed(byDevice: map<Device, seq<Subscription>>, subs: set<Subscription>, readied: nat)
    reads subs`active, subs`readyAt
  {
    && (forall d | d in byDevice :: StreamsOf(byDevice[d], d, subs))
    && (forall s | s in subs && s.active :: s.device in byDevice && s in byDevice[s.device] && s.readyAt < readied)
  }

  predicate Capped(byDevice: map<Device, seq<Subscription>>) {
    forall d | d in byDevice :: |byDevice[d]| <= MAX_STREAMS_PER_DEVICE
  }

  function Except(sub: Subscription): Subscription -> bool {
    (s: Subscription) => s != sub
  }

  function Unlist(byDevice: map<Device, seq<Subscription>>, d: Device, sub: Subscription): map<Device, seq<Subscription>> {
    var streams := Keep(At(byDevice, d, []), Except(sub));
    if streams == [] then byDevice - {d} else byDevice[d := streams]
  }

  /** A stream is listed once, so taking it out leaves the others, in order. */
  lemma CutStream(streams: seq<Subscription>, d: Device, subs: set<Subscription>, i: nat)
    requires StreamsOf(streams, d, subs) && i < |streams|
    ensures var sub := streams[i]; var rest := Keep(streams, Except(sub));
      && |rest| == |streams| - 1
      && (rest != [] ==> StreamsOf(rest, d, subs - {sub}))
      && (forall j | 0 <= j < |streams| && j != i :: streams[j] in rest)
  {
    hide Keep;
    var sub := streams[i];
    KeepCut(streams, i, Except(sub));
    forall j | 0 <= j < |streams| && j != i ensures streams[j] in streams[..i] + streams[i + 1..] {
      assert streams[j] == (streams[..i] + streams[i + 1..])[if j < i then j else j - 1];
    }
  }

  lemma UnlistListed(byDevice: map<Device, seq<Subscription>>, subs: set<Subscription>, readied: nat, sub: Subscription)
    requires Listed(byDevice, subs, readied) && sub in subs && sub.active
    ensures Listed(Unlist(byDevice, sub.device, sub), subs - {sub}, readied)
    ensures Capped(byDevice) ==> Capped(Unlist(byDevice, sub.device, sub))
  {
    hide Keep;
    var d, now := sub.device, Unlist(byDevice, sub.device, sub);
    assert StreamsOf(byDevice[d], d, subs);
    var i :| 0 <= i < |byDevice[d]| && byDevice[d][i] == sub;
    CutStream(byDevice[d], d, subs, i);
    forall e | e in now ensures StreamsOf(now[e], e, subs - {sub}) {
      if e != d { OtherStreams(byDevice[e], e, subs, sub); }
    }
    forall s | s in subs - {sub} && s.active ensures s.device in now && s in now[s.device] {
      if s.device == d { var j :| 0 <= j < |byDevice[d]| && byDevice[d][j] == s; }
    }
  }

  lemma OtherStreams(streams: seq<Subscription>, d: Device, subs: set<Subscription>, sub: Subscription)
    requires StreamsOf(streams, d, subs) && sub.device != d
    ensures StreamsOf(streams, d, subs - {sub})
  {
  }

  // ----- The loops of diffTurns -----

  lemma ViewNext(turns: seq<Status>, i: nat)
    requires i < |turns|
    ensures View(turns[..i + 1]) == View(turns[..i])[KeyOf(turns[i]) := turns[i]]
    ensures Chats(turns[..i + 1]) == Chats(turns[..i]) + {KeyOf(turns[i])}
  {
    hide KeyOf;
    assert turns[..i + 1][..i] == turns[..i];
    ChatsNext(turns[..i + 1]);
  }

  lemma RemovedNext(last: seq<Status>, i: nat, next: seq<Status>)
    requires i < |last|
    ensures Map(Keep(last[..i + 1], GoneFrom(next)), KeyOf)
         == Map(Keep(last[..i], GoneFrom(next)), KeyOf) + if GoneFrom(next)(last[i]) then [KeyOf(last[i])] else []
  {
    hide KeyOf, Keep, Chats;
    KeepNext(last, i, GoneFrom(next));
    MapConcat(Keep(last[..i], GoneFrom(next)), if GoneFrom(next)(last[i]) then [last[i]] else [], KeyOf);
  }

  method DiffTurns(last: seq<Status>, next: seq<Status>, observedAt: int) returns (change: Change)
    ensures change == Diff(last, next, observedAt)
  {
    hide KeyOf, View, Chats, Keep;
    var previous: map<TurnKey, Status> := map[];
    assert last[..0] == [] && next[..0] == [] && View(last[..0]) == map[] && Chats(next[..0]) == {} by { DiffStarts(last, next); }
    for i := 0 to |last|
      invariant previous == View(last[..i])
    {
      ViewNext(last, i);
      previous := previous[KeyOf(last[i]) := last[i]];
    }
    assert last[..|last|] == last && next[..|next|] == next;
    var present: set<TurnKey> := {};
    var upserts: seq<Status> := [];
    assert Keep(next[..0], ChangedFrom(previous)) == [] && Map(Keep(last[..0], GoneFrom(next)), KeyOf) == [] by { DiffStarts(last, next); }
    for i := 0 to |next|
      invariant present == Chats(next[..i]) && upserts == Keep(next[..i], ChangedFrom(previous))
    {
      ViewNext(next, i);
      KeepNext(next, i, ChangedFrom(previous));
      var k := KeyOf(next[i]);
      present := present + {k};
      if k !in previous || !SameStatus(previous[k], next[i]) {
        upserts := upserts + [next[i]];
      }
    }
    var removed: seq<TurnKey> := [];
    for i := 0 to |last|
      invariant removed == Map(Keep(last[..i], GoneFrom(next)), KeyOf)
    {
      RemovedNext(last, i, next);
      var k := KeyOf(last[i]);
      if k !in present {
        removed := removed + [k];
      }
    }
    change := Change(observedAt, upserts, removed);
  }

  lemma DiffStarts(last: seq<Status>, next: seq<Status>)
    ensures View(last[..0]) == map[] && Chats(next[..0]) == {}
    ensures Keep(next[..0], ChangedFrom(View(last))) == [] && Map(Keep(last[..0], GoneFrom(next)), KeyOf) == []
  {
  }

  datatype Subscribed = GaveUp | Busy | Accepted(sub: Subscription)

  /** Every method is one turn of the goroutine that runs the feed. */
  class Feed {
    var last: seq<Status>
    var lastObservedAt: int
    var subs: set<Subscription>
    var byDevice: map<Device, seq<Subscription>>
    var subscribers: int
    // Whether a poke has scheduled a sample.
    var window: bool
    var samples: nat
    // The sample last taken, forgotten or not.
    ghost var latest: seq<Status>
    // Every subscription ever made, and how many readied.
    ghost var known: set<Subscription>
    ghost var readied: nat

    /** Nothing but whether every subscription shows last depends on last. */
    ghost predicate Booked()
      reads this`subs, this`byDevice, this`subscribers, this`known, this`readied, subs`active, subs`readyAt
    {
      && subs <= known
      && |subs| <= MAX_SUBSCRIPTIONS
      && subscribers == |subs|
      && Listed(byDevice, subs, readied)
    }

    /** Since its own snapshot was forgotten no sample was taken. */
    ghost predicate Missing(s: Subscription)
      reads this`samples
    {
      s.cleared && s.born == samples
    }

    /** What a pending subscription would be caught up to: the sample last taken, unless that was its own and is forgotten. */
    ghost predicate Latest()
      reads this`subs, this`last, this`samples, this`latest, subs`pending
    {
      forall s | s in subs :: s.born <= samples && (s.pending ==> last == if Missing(s) then [] else latest)
    }

    ghost predicate Valid()
      reads this, subs, known
    {
      && Booked()
      && Capped(byDevice)
      && DistinctTurns(last)
      && Latest()
      && (forall s | s in subs :: s.Live(last))
      && (forall s | s in known - subs :: s.Over())
    }

    constructor ()
      ensures Valid() && known == {} && last == [] && subs == {} && byDevice == map[] && samples == 0
    {
      last, lastObservedAt, subs, byDevice, subscribers, window, samples := [], 0, {}, map[], 0, false, 0;
      known, readied, latest := {}, 0, [];
    }

    method Delist(sub: Subscription)
      modifies this`byDevice
      ensures byDevice == Unlist(old(byDevice), sub.device, sub)
    {
      hide Keep;
      ghost var was := byDevice;
      byDevice := byDevice[sub.device := Keep(At(byDevice, sub.device, []), Except(sub))];
      if byDevice[sub.device] == [] {
        byDevice := byDevice - {sub.device};
        assert byDevice == was - {sub.device};
      }
    }

    /** Ends a subscription, once. With the last one gone, what was last published is forgotten. */
    method End(sub: Subscription, reason: Reason)
      requires Booked() && (sub in subs ==> !sub.closed && sub.received <= sub.sent)
      modifies this`subs, this`byDevice, this`subscribers, this`last, this`lastObservedAt, sub
      ensures Booked()
      ensures sub !in old(subs) ==> unchanged(this) && unchanged(sub)
      ensures sub in old(subs) ==>
        && subs == old(subs) - {sub} && sub.Over() && sub.ended == Some(reason) && sub.sent == old(sub.sent)
        && last == (if subs == {} then [] else old(last))
        && byDevice == if old(sub.active) then Unlist(old(byDevice), sub.device, sub) else old(byDevice)
      ensures old(Capped(byDevice)) ==> Capped(byDevice)
    {
      hide Listed, Unlist, Capped;
      if sub !in subs {
        return;
      }
      if sub.active {
        UnlistListed(byDevice, subs, readied, sub);
      } else {
        DropPending(byDevice, subs, readied, sub);
      }
      subs := subs - {sub};
      subscribers := subscribers - 1;
      if sub.active {
        Delist(sub);
      }
      assert Listed(byDevice, subs, readied);
      sub.Shut(reason);
      if subs == {} {
        last, lastObservedAt := [], 0;
      }
    }

    /** Queues change to sub if it is active, or ends it if its queue is full. */
    method Offer(sub: Subscription, change: Change, ghost was: seq<Status>, ghost now: seq<Status>)
      requires Booked() && Capped(byDevice) && sub in subs && sub.Live(was) && Apply(View(was), change) == View(now)
      modifies this`subs, this`byDevice, this`subscribers, this`last, this`lastObservedAt, sub
      ensures Booked() && Capped(byDevice) && Offered(sub, change)
      ensures subs == if old(KeepsUp(sub)) then old(subs) else old(subs) - {sub}
      ensures if old(KeepsUp(sub)) then sub.Live(now) else sub.Over()
      ensures last == if subs == {} then [] else old(last)
    {
      hide Listed, Capped, Apply, ApplyAll, View;
      if !sub.active {
        return;
      }
      ApplyAllThen(View(sub.snapshot), sub.sent, change);
      var sent := sub.TrySend(change);
      if !sent {
        End(sub, SlowConsumer);
      }
    }

    /** Queues change to every active subscription; one whose queue is full ends instead. */
    method Publish(change: Change, ghost was: seq<Status>)
      requires subs <= known && Booked() && Capped(byDevice) && DistinctTurns(last)
      requires forall s | s in subs :: s.Live(was)
      requires forall s | s in known - subs :: s.Over()
      requires Apply(View(was), change) == View(last) && last == latest && forall s | s in subs :: s.born < samples
      modifies this`subs, this`byDevice, this`subscribers, this`last, this`lastObservedAt, subs
      ensures Valid() && subs <= old(subs)
      ensures forall s | s in old(subs) :: (s in subs <==> old(KeepsUp(s))) && Offered(s, change)
      ensures last == if subs == {} && old(subs) != {} then [] else old(last)
    {
      hide Listed, Capped, Apply, ApplyAll, View, Booked, Subscription.Live, Subscription.Over;
      ghost var target := last;
      var left := subs;
      while left != {}
        invariant left <= subs <= old(subs) <= known && Booked() && Capped(byDevice)
        invariant forall s | s in left :: s.Live(was) && unchanged(s)
        invariant forall s | s in subs - left :: s.Live(target)
        invariant forall s | s in known - subs :: s.Over()
        invariant forall s | s in old(subs) - left :: (s in subs <==> old(KeepsUp(s))) && Offered(s, change)
        invariant last == if subs == {} && old(subs) != {} then [] else target
        decreases left
      {
        var sub :| sub in left;
        left := left - {sub};
        Offer(sub, change, was, target);
      }
    }

    /**
     * Takes a sample, each of whose keys is listed once, and publishes what changed. A subscription that
     * cannot take the change ends; should it be the last one, the sample is forgotten again.
     */
    method Sample(turns: seq<Status>, observedAt: int)
      requires Valid() && DistinctTurns(turns)
      modifies this`subs, this`byDevice, this`subscribers, this`last, this`lastObservedAt, this`samples, this`latest, subs
      ensures Valid() && subs <= old(subs) && samples == old(samples) + 1 && latest == turns
      ensures last == if old(Cleared(turns, observedAt)) then [] else turns
      ensures old(Cleared(turns, observedAt)) ==> subs == {}
      ensures var change := Diff(old(last), turns, observedAt);
        if Nothing(change) then subs == old(subs) && forall s | s in subs :: unchanged(s)
        else forall s | s in old(subs) :: (s in subs <==> old(KeepsUp(s))) && Offered(s, change)
    {
      hide Booked, Capped, Apply, ApplyAll, View, Diff, DistinctTurns, Subscription.Live, Subscription.Over;
      var change := DiffTurns(last, turns, observedAt);
      ghost var was := last;
      DiffApplies(last, turns, observedAt);
      if Nothing(change) { NothingApplies(View(last), change); }
      last, lastObservedAt := turns, observedAt;
      samples, latest := samples + 1, turns;
      if change.upserts == [] && change.removed == [] {
        forall s | s in subs ensures s.Live(last) { s.SameShown(was, turns); }
        return;
      }
      BookedKnown();
      Publish(change, was);
    }

    ghost predicate Cleared(turns: seq<Status>, observedAt: int)
      reads this, subs
    {
      && subs != {}
      && !Nothing(Diff(last, turns, observedAt))
      && forall s | s in subs :: !KeepsUp(s)
    }

    lemma BookedKnown()
      requires Booked()
      ensures subs <= known && subscribers == |subs|
    {
    }

    lemma Counted()
      requires Valid()
      ensures subs <= known && subscribers == |subs|
    {
    }

    lemma BookedAfter(sub: Subscription)
      requires Booked() && sub !in subs && !sub.active && |subs| < MAX_SUBSCRIPTIONS
      ensures Listed(byDevice, subs + {sub}, readied) && |subs + {sub}| == |subs| + 1
    {
      forall d | d in byDevice ensures StreamsOf(byDevice[d], d, subs + {sub}) { assert StreamsOf(byDevice[d], d, subs); }
    }

    /**
     * A new subscription gets the sample as its snapshot. The feed still has that sample afterwards, unless
     * taking it ended every other subscription as too slow.
     */
    method Subscribe(cancelled: bool, device: Device, turns: seq<Status>, observedAt: int) returns (result: Subscribed)
      requires Valid() && DistinctTurns(turns)
      modifies this`subs, this`byDevice, this`subscribers, this`last, this`lastObservedAt, this`samples, this`latest, this`known, subs
      ensures Valid()
      ensures result.Accepted? <==> !cancelled && |old(subs)| < MAX_SUBSCRIPTIONS
      ensures !result.Accepted? ==> subs == old(subs) && last == old(last) && result == if cancelled then GaveUp else Busy
      ensures result.Accepted? ==>
        && fresh(result.sub) && result.sub.snapshot == turns && result.sub.pending && result.sub.device == device
        && result.sub in subs && known == old(known) + {result.sub} && subs <= old(subs) + {result.sub}
        && samples == old(samples) + 1 && latest == turns && result.sub.born == samples
        && result.sub.cleared == old(Cleared(turns, observedAt))
        && (result.sub.cleared ==> subs == {result.sub})
        && last == if result.sub.cleared then [] else turns
    {
      hide Booked, Valid, Diff, DistinctTurns, ApplyAll, View, Cleared, KeepsUp, Offered;
      ghost var cleared := Cleared(turns, observedAt);
      if cancelled {
        return GaveUp;
      }
      Counted();
      if |subs| >= MAX_SUBSCRIPTIONS {
        return Busy;
      }
      ghost var was := subs;
      Sample(turns, observedAt);
      assert |subs| < MAX_SUBSCRIPTIONS by { Cardinal(subs, was); }
      var sub := Add(device, turns, cleared);
      result := Accepted(sub);
    }

    method Add(device: Device, turns: seq<Status>, ghost cleared: bool) returns (sub: Subscription)
      requires Valid() && |subs| < MAX_SUBSCRIPTIONS && last == if cleared then [] else latest
      modifies this`subs, this`subscribers, this`known
      ensures Valid() && fresh(sub) && sub.snapshot == turns && sub.pending && sub.device == device
      ensures sub.cleared == cleared && sub.born == samples
      ensures known == old(known) + {sub} && subs == old(subs) + {sub}
    {
      hide Listed, Capped, DistinctTurns, ApplyAll, View, Subscription.Live, Subscription.Over;
      Counted();
      sub := new Subscription(device, turns, cleared, samples);
      BookedAfter(sub);
      subs, known := subs + {sub}, known + {sub};
      subscribers := subscribers + 1;
      assert Booked();
      assert Latest();
    }

    /**
     * Activates a pending subscription: one catch-up, for which its queue always has room, then the device's
     * limit. Only the device's oldest stream can end, and only if this is its fifth. The catch-up shows the reader
     * the sample last taken, unless its own snapshot is still missing: then it takes back all the reader was shown.
     */
    method Ready(sub: Subscription)
      requires Valid() && sub in known
      modifies this`subs, this`byDevice, this`subscribers, this`last, this`lastObservedAt, this`readied, subs
      ensures Valid()
      ensures !(sub in old(subs) && old(sub.pending)) ==> unchanged(this) && forall s | s in known :: unchanged(s)
      ensures sub in old(subs) && old(sub.pending) ==>
        var change := Diff(sub.snapshot, old(last), old(lastObservedAt));
        var streams := old(At(byDevice, sub.device, []));
        && last == old(last) && sub.active && sub.changes == sub.sent == (if Nothing(change) then [] else [change])
        && subs == (if |streams| == MAX_STREAMS_PER_DEVICE then old(subs) - {streams[0]} else old(subs))
        && (|streams| == MAX_STREAMS_PER_DEVICE ==> streams[0].ended == Some(Superseded))
        && sub.device in byDevice
        && byDevice[sub.device] == (if |streams| == MAX_STREAMS_PER_DEVICE then streams[1..] else streams) + [sub]
        && (forall s | s in subs && s != sub :: unchanged(s))
        && Apply(View(sub.snapshot), change) == (if old(Missing(sub)) then map[] else View(latest))
        && (Apply(View(sub.snapshot), change) == map[] <==> old(Missing(sub)) || latest == [])
    {
      hide Diff, Apply, ApplyAll, View, Subscription.Live, Subscription.Over, Booked, Capped, Unlist;
      if sub !in subs || !sub.pending {
        return;
      }
      sub.OpensEmpty(last);
      var change := DiffTurns(sub.base, last, lastObservedAt);
      DiffApplies(sub.base, last, lastObservedAt);
      NothingShown(latest);
      NothingShown([]);
      ghost var was := byDevice;
      Activate(sub, change);
      var streams := byDevice[sub.device];
      OldestStream(sub.device);
      Limit(was, byDevice, sub);
      if |streams| > MAX_STREAMS_PER_DEVICE {
        assert streams[|streams| - 1] == sub;
        streams[0].OpenWhileLive(last);
        End(streams[0], Superseded);
      }
    }

    lemma OldestStream(d: Device)
      requires Booked() && d in byDevice
      ensures var streams := byDevice[d];
        streams != [] && streams[0] in subs && streams[0].active && streams[0].device == d && forall j | 1 <= j < |streams| :: streams[j] != streams[0]
    {
      assert StreamsOf(byDevice[d], d, subs);
    }

    /** Makes sub active with its catch-up queued, ignoring the limit. */
    method Activate(sub: Subscription, change: Change)
      requires Booked() && sub in subs && sub.pending && sub.Live(last) && Apply(View(sub.snapshot), change) == View(last)
      modifies this`byDevice, this`readied, sub
      ensures Booked() && sub.Live(last) && sub.active && sub.changes == sub.sent == (if Nothing(change) then [] else [change])
      ensures byDevice == old(byDevice)[sub.device := old(At(byDevice, sub.device, [])) + [sub]]
    {
      hide Apply, View, Listed, Subscription.Live;
      sub.OpensEmpty(last);
      DropPending(byDevice, subs, readied, sub);
      sub.Open(change, last, readied);
      Enlist(byDevice, subs, readied, sub);
      byDevice := byDevice[sub.device := At(byDevice, sub.device, []) + [sub]];
      readied := readied + 1;
    }

    /** The stream's own Close: its slots are free at once. Closing again changes nothing. */
    method Close(sub: Subscription)
      requires Valid() && sub in known
      modifies this`subs, this`byDevice, this`subscribers, this`last, this`lastObservedAt, sub
      ensures Valid() && subs == old(subs) - {sub}
      ensures sub in old(subs) ==> sub.Over() && sub.ended == Some(Dismissed)
      ensures sub !in old(subs) ==> unchanged(this) && unchanged(sub)
    {
      hide Diff, ApplyAll, View, Subscription.Live, Subscription.Over, Booked, Capped, Unlist;
      if sub in subs { sub.OpenWhileLive(last); }
      End(sub, Dismissed);
    }

    /** Something may have changed: a sample is scheduled, unless nobody would read it. */
    method Poke()
      requires Valid()
      modifies this`last, this`lastObservedAt, this`window
      ensures Valid() && window == (old(window) || subs != {}) && last == if subs == {} then [] else old(last)
    {
      hide ApplyAll, View, Booked, Capped;
      if subs == {} {
        last, lastObservedAt := [], 0;
        return;
      }
      window := true;
    }

    /** The scheduled sample is due. */
    method Window(turns: seq<Status>, observedAt: int)
      requires Valid() && window && DistinctTurns(turns)
      modifies this`subs, this`byDevice, this`subscribers, this`last, this`lastObservedAt, this`samples, this`latest, this`window, subs
      ensures Valid() && !window && subs <= old(subs) && (subs != {} ==> last == turns)
    {
      hide ApplyAll, View, Booked, Capped, DistinctTurns, Diff;
      window := false;
      Sample(turns, observedAt);
    }

    /** A sample now and then, should a poke have been forgotten. */
    method Backstop(turns: seq<Status>, observedAt: int)
      requires Valid() && DistinctTurns(turns)
      modifies this`subs, this`byDevice, this`subscribers, this`last, this`lastObservedAt, this`samples, this`latest, subs
      ensures Valid() && subs <= old(subs) && (subs != {} ==> last == turns)
    {
      hide ApplyAll, View, Booked, Capped, DistinctTurns, Diff;
      if |subs| > 0 {
        Sample(turns, observedAt);
      }
    }

    /** The feed stops: every subscription that is left ends, and none stays open. */
    method Stop()
      requires Valid()
      modifies this`subs, this`byDevice, this`subscribers, this`last, this`lastObservedAt, subs
      ensures Valid() && subs == {} && byDevice == map[]
      ensures forall s | s in old(subs) :: s.ended == Some(Stopped)
    {
      hide Diff, ApplyAll, View, Subscription.Live, Subscription.Over, Booked, Capped, Unlist;
      while subs != {}
        invariant Valid() && subs <= old(subs)
        invariant forall s | s in old(subs) - subs :: s.ended == Some(Stopped)
        decreases subs
      {
        var sub :| sub in subs;
        sub.OpenWhileLive(last);
        End(sub, Stopped);
      }
      NoStreams();
    }

    /** The feed's limits, and what its books say about its subscriptions. */
    lemma Resources()
      requires Valid()
      ensures |subs| <= MAX_SUBSCRIPTIONS && subscribers == |subs|
      ensures forall s | s in subs :: !s.closed && |s.changes| <= MAX_QUEUED_CHANGES
      ensures forall s | s in subs :: s.active <==> s.device in byDevice && s in byDevice[s.device]
      ensures forall d | d in byDevice :: 0 < |byDevice[d]| <= MAX_STREAMS_PER_DEVICE
      ensures forall d, s | d in byDevice && s in byDevice[d] :: s in subs && s.device == d
      ensures forall d, i, j | d in byDevice && 0 <= i < j < |byDevice[d]| :: byDevice[d][i].readyAt < byDevice[d][j].readyAt
    {
      hide ApplyAll, View, DistinctTurns;
      forall d | d in byDevice ensures StreamsOf(byDevice[d], d, subs) { }
    }

    lemma NoStreams()
      requires Booked() && subs == {}
      ensures byDevice == map[]
    {
      if byDevice != map[] {
        var d :| d in byDevice;
        SomeStream(byDevice[d], d, subs);
      }
    }
  }

  // ----- A snapshot that is taken back -----

  lemma ChangedDiff(last: seq<Status>, next: seq<Status>, at: int)
    requires DistinctTurns(next) && View(last) != View(next)
    ensures !Nothing(Diff(last, next, at))
  {
    hide View, Apply, Diff, DistinctTurns;
    DiffApplies(last, next, at);
    if Nothing(Diff(last, next, at)) { NothingApplies(View(last), Diff(last, next, at)); }
  }

  lemma ListedOnce(x: Status)
    ensures DistinctTurns([x])
  {
  }

  lemma OneTurn(x: Status, y: Status)
    requires x != y
    ensures DistinctTurns([x]) && View([x]) != View([y])
  {
    ViewDistinct([x], x);
    ViewDistinct([y], y);
    assert View([x]).Keys == {KeyOf(x)};
  }

  lemma SameDiff(x: Status, at: int)
    ensures Nothing(Diff([x], [x], at))
  {
    ViewDistinct([x], x);
    ChatsView([x], KeyOf(x));
    assert forall st | st in [x] :: !ChangedFrom(View([x]))(st) && !GoneFrom([x])(st);
  }

  method FirstReader(f: Feed, device: Device, x: Status, at: int) returns (sub: Subscription)
    requires f.Valid() && f.subs == {} && f.byDevice == map[]
    modifies f
    ensures fresh(sub) && f.Valid() && f.last == [x] && f.subs == {sub} && sub.active && sub.changes == []
  {
    hide View, Apply, ApplyAll, Diff, DistinctTurns, Feed.Latest, Capped;
    assert DistinctTurns([x]) by { ListedOnce(x); }
    var subscribed := f.Subscribe(false, device, [x], at);
    sub := subscribed.sub;
    SameDiff(x, f.lastObservedAt);
    f.Ready(sub);
  }

  /** A reader that takes nothing while a turn changes from x to y and back, eight times. */
  method SixteenUnread(device: Device, x: Status, y: Status, at: int) returns (f: Feed, slow: Subscription)
    requires x != y
    ensures fresh(f) && fresh(slow) && f.Valid() && f.last == [x]
    ensures f.subs == {slow} && slow.active && |slow.changes| == MAX_QUEUED_CHANGES
  {
    hide View, Apply, ApplyAll, Diff, DistinctTurns, Feed.Booked, Feed.Latest, Capped;
    f := new Feed();
    OneTurn(x, y);
    OneTurn(y, x);
    slow := FirstReader(f, device, x, at);
    ChangedDiff([x], [y], at);
    ChangedDiff([y], [x], at);
    for i := 0 to 8
      invariant fresh(f) && fresh(slow) && f.Valid() && f.subs == {slow} && slow.active && |slow.changes| == 2 * i && f.last == [x]
    {
      f.Sample([y], at);
      f.Sample([x], at);
    }
  }

  lemma OnlyView(x: Status)
    ensures View([x]) == map[KeyOf(x) := x]
  {
    assert [x][..0] == [];
  }

  lemma ApplyOne(view: map<TurnKey, Status>, change: Change)
    ensures ApplyAll(view, if Nothing(change) then [] else [change]) == Apply(view, change)
  {
    hide Apply;
    ApplyNone(view);
    if Nothing(change) {
      NothingApplies(view, change);
    } else {
      assert [] + [change] == [change];
      ApplyAllThen(view, [], change);
    }
  }

  /** A device subscribes just as the sample changes, and the only other reader is too slow to be told. */
  method SubscribeLast(f: Feed, device: Device, turns: seq<Status>, at: int) returns (sub: Subscription)
    requires f.Valid() && DistinctTurns(turns) && f.Cleared(turns, at) && |f.subs| < MAX_SUBSCRIPTIONS
    modifies f, f.subs
    ensures fresh(sub) && f.Valid() && sub in f.known && f.subs == {sub} && sub.pending && f.Missing(sub) && sub.snapshot == turns
  {
    hide View, Apply, ApplyAll, Diff, DistinctTurns, Feed.Valid, Feed.Cleared, Feed.Booked, Feed.Latest, KeepsUp;
    var subscribed := f.Subscribe(false, device, turns, at);
    sub := subscribed.sub;
  }

  /** Its first message then takes back all of its snapshot. */
  method ForgottenSnapshot(device: Device, other: Device, x: Status, y: Status, at: int) returns (sub: Subscription)
    requires x != y
    ensures sub.active && sub.snapshot == [y] && View(sub.snapshot) == map[KeyOf(y) := y]
    ensures ApplyAll(View(sub.snapshot), sub.sent) == map[]
  {
    hide View, Apply, ApplyAll, Diff, DistinctTurns;
    var f, slow := SixteenUnread(device, x, y, at);
    OneTurn(y, x);
    ChangedDiff([x], [y], at);
    sub := SubscribeLast(f, other, [y], at);
    ghost var change := Diff([y], f.last, f.lastObservedAt);
    f.Ready(sub);
    ApplyOne(View([y]), change);
    assert View([y]) == map[KeyOf(y) := y] by { OnlyView(y); }
  }

  lemma SomeStream(streams: seq<Subscription>, d: Device, subs: set<Subscription>)
    requires StreamsOf(streams, d, subs)
    ensures subs != {}
  {
    assert streams[0] in subs;
  }

  lemma Limit(was: map<Device, seq<Subscription>>, now: map<Device, seq<Subscription>>, sub: Subscription)
    requires Capped(was) && now == was[sub.device := At(was, sub.device, []) + [sub]]
    ensures var streams := now[sub.device];
      && |streams| <= MAX_STREAMS_PER_DEVICE + 1
      && (|streams| <= MAX_STREAMS_PER_DEVICE ==> Capped(now))
      && (|streams| > MAX_STREAMS_PER_DEVICE && (forall j | 1 <= j < |streams| :: streams[j] != streams[0]) ==>
            var left := Unlist(now, sub.device, streams[0]);
            Capped(left) && sub.device in left && left[sub.device] == streams[1..])
  {
    hide Keep;
    var streams := now[sub.device];
    if |streams| > MAX_STREAMS_PER_DEVICE && forall j | 1 <= j < |streams| :: streams[j] != streams[0] {
      KeepCut(streams, 0, Except(streams[0]));
    }
  }

  lemma NothingShown(turns: seq<Status>)
    ensures View(turns) == map[] <==> turns == []
  {
    if turns != [] { assert KeyOf(turns[|turns| - 1]) in View(turns); }
  }

  lemma ApplyNone(view: map<TurnKey, Status>)
    ensures ApplyAll(view, []) == view
  {
  }

  lemma Enlist(byDevice: map<Device, seq<Subscription>>, subs: set<Subscription>, readied: nat, sub: Subscription)
    requires Listed(byDevice, subs - {sub}, readied) && sub in subs && sub.active && sub.readyAt == readied
    ensures Listed(byDevice[sub.device := At(byDevice, sub.device, []) + [sub]], subs, readied + 1)
  {
    var now := byDevice[sub.device := At(byDevice, sub.device, []) + [sub]];
    forall d | d in now ensures StreamsOf(now[d], d, subs) {
      if d in byDevice { assert StreamsOf(byDevice[d], d, subs - {sub}); }
    }
    forall s | s in subs && s.active ensures s.device in now && s in now[s.device] && s.readyAt < readied + 1 {
      if s != sub { assert s in subs - {sub}; }
    }
  }

  lemma NothingApplies(view: map<TurnKey, Status>, change: Change)
    requires Nothing(change)
    ensures Apply(view, change) == view
  {
  }

  /** A pending subscription takes no queue slot; an active one needs a free one. */
  ghost predicate KeepsUp(s: Subscription)
    reads s
  {
    !s.active || |s.changes| < MAX_QUEUED_CHANGES
  }

  /** What publishing change does to s. */
  twostate predicate Offered(s: Subscription, change: Change)
    reads s
  {
    && (!old(s.active) ==> unchanged(s))
    && (old(s.active) && old(KeepsUp(s)) ==> s.active && s.sent == old(s.sent) + [change] && s.changes == old(s.changes) + [change])
    && (!old(KeepsUp(s)) ==> s.ended == Some(SlowConsumer) && s.sent == old(s.sent))
  }

  lemma DropPending(byDevice: map<Device, seq<Subscription>>, subs: set<Subscription>, readied: nat, sub: Subscription)
    requires Listed(byDevice, subs, readied) && !sub.active
    ensures Listed(byDevice, subs - {sub}, readied)
  {
    forall d | d in byDevice ensures StreamsOf(byDevice[d], d, subs - {sub}) { assert StreamsOf(byDevice[d], d, subs); }
  }
}
