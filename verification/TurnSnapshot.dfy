/**
internal/session/lifecycle.go and session.go: the snapshot of every running turn, merged over the stored outcomes, and
the feed that samples it.
*/
module TurnSnapshot {
  import opened Names
  import opened RequestIds
  import opened Pump
  import opened TurnFeed
  import Turns = OutcomeStore

  /** Each pump belongs to the session it is registered under. */
  ghost predicate Registered(sessions: map<string, StdioPump>) {
    forall id | id in sessions :: sessions[id].origin.sessionID == id
  }

  /** live lists the running turns of the pumps of done, all of them and once each. */
  ghost predicate Collected(sessions: map<string, StdioPump>, done: set<string>, live: seq<Turns.Status>)
    requires done <= sessions.Keys
    reads set id | id in sessions :: sessions[id].reqIDs
  {
    && Turns.DistinctTurns(live)
    && (forall st | st in live :: st.gatewaySessionID in done && RunningOn(sessions[st.gatewaySessionID], st))
    && (forall id, session | id in done && Prompted(sessions[id].reqIDs.pending, session) :: RunsIn(live, id, session))
  }

  ghost predicate RunningOn(pump: StdioPump, st: Turns.Status)
    reads pump.reqIDs
  {
    RunningTurn(pump.origin, pump.reqIDs.pending, pump.reqIDs.agentReqs, st)
  }

  predicate RunsIn(live: seq<Turns.Status>, id: string, session: SessionID) {
    exists st :: st in live && st.gatewaySessionID == id && st.sessionID == session.name
  }

  /** Turns of another session differ in key from all turns collected so far. */
  lemma DistinctMore(live: seq<Turns.Status>, more: seq<Turns.Status>, id: string)
    requires Turns.DistinctTurns(live) && forall st | st in live :: st.gatewaySessionID != id
    requires forall st | st in more :: st.gatewaySessionID == id
    requires forall i, j | 0 <= i < j < |more| :: more[i].sessionID != more[j].sessionID
    ensures Turns.DistinctTurns(live + more)
  {
    var all := live + more;
    forall i, j | 0 <= i < j < |all| ensures Turns.KeyOf(all[i]) != Turns.KeyOf(all[j]) {
      if j >= |live| {
        assert more[j - |live|] in more && all[j] == more[j - |live|];
        if i < |live| { assert live[i] in live; } else { assert all[i] == more[i - |live|]; }
      }
    }
  }

  lemma NoneCollected(sessions: map<string, StdioPump>)
    ensures Collected(sessions, {}, [])
  {
  }

  lemma CollectNext(sessions: map<string, StdioPump>, done: set<string>, id: string, live: seq<Turns.Status>, more: seq<Turns.Status>)
    requires Registered(sessions) && done <= sessions.Keys && id in sessions && id !in done && Collected(sessions, done, live)
    requires forall i, j | 0 <= i < j < |more| :: more[i].sessionID != more[j].sessionID
    requires forall st | st in more :: RunningOn(sessions[id], st)
    requires forall session | Prompted(sessions[id].reqIDs.pending, session) :: InTurns(more, session)
    ensures Collected(sessions, done + {id}, live + more)
  {
    hide Prompted, Turns.KeyOf, Turns.DistinctTurns;
    forall st | st in more ensures st.gatewaySessionID == id { assert RunningOn(sessions[id], st); }
    DistinctMore(live, more, id);
    hide RunningOn, RunningTurn;
    var all := live + more;
    forall i, session | i in done + {id} && Prompted(sessions[i].reqIDs.pending, session) ensures RunsIn(all, i, session) {
      if i == id {
        assert InTurns(more, session);
        var st :| st in more && st.sessionID == session.name;
        assert st in all;
      } else {
        assert RunsIn(live, i, session);
        var st :| st in live && st.gatewaySessionID == i && st.sessionID == session.name;
        assert st in all;
      }
    }
  }

  lemma CollectedDistinct(sessions: map<string, StdioPump>, done: set<string>, live: seq<Turns.Status>)
    requires done <= sessions.Keys && Collected(sessions, done, live)
    ensures Turns.DistinctTurns(live)
  {
  }

  lemma StoreKeyed(store: Turns.Store)
    requires store.Valid()
    ensures Turns.WellKeyed(store.outcomes)
  {
  }

  class RuntimeSession {
    var sessions: map<string, StdioPump>
    const outcomes: Turns.Store
    const feed: Feed

    ghost predicate Valid()
      reads this, outcomes, feed, feed.subs, feed.known
    {
      Registered(sessions) && outcomes.Valid() && feed.Valid()
    }

    constructor (outcomes: Turns.Store)
      requires outcomes.Valid()
      ensures Valid() && sessions == map[] && fresh(feed)
    {
      this.outcomes, sessions := outcomes, map[];
      feed := new Feed();
    }

    /** A launched session's pump carries its id. */
    method Launch(id: string, pump: StdioPump)
      requires Valid() && pump.origin.sessionID == id
      modifies this`sessions
      ensures Valid() && sessions == old(sessions)[id := pump]
    {
      sessions := sessions[id := pump];
    }

    method Remove(id: string)
      requires Valid()
      modifies this`sessions
      ensures Valid() && sessions == old(sessions) - {id}
    {
      sessions := sessions - {id};
    }

    /** The running turns of every pump, merged over the outcomes; no chat is listed twice. */
    method TurnSnapshot() returns (turns: seq<Turns.Status>, ghost live: seq<Turns.Status>)
      requires Valid()
      ensures Turns.DistinctTurns(turns) && Turns.Sorted(turns)
      ensures Collected(sessions, sessions.Keys, live) && Turns.Lists(turns, live, outcomes.outcomes)
    {
      hide Turns.DistinctTurns, Turns.KeyOf, Turns.Sorted, Turns.Lists, Collected, Prompted, RunningTurn, Turns.WellKeyed, Turns.Stored;
      var all: seq<Turns.Status> := [];
      var left := sessions.Keys;
      ghost var done: set<string> := {};
      NoneCollected(sessions);
      while left != {}
        invariant left <= sessions.Keys && done == sessions.Keys - left && Collected(sessions, done, all)
        decreases left
      {
        var id :| id in left;
        var more := sessions[id].LiveTurns();
        CollectNext(sessions, done, id, all, more);
        left, done := left - {id}, done + {id};
        all := all + more;
      }
      assert done == sessions.Keys;
      CollectedDistinct(sessions, sessions.Keys, all);
      StoreKeyed(outcomes);
      turns := outcomes.Snapshot(all);
      live := all;
    }

    /** What the feed samples meets its terms at every time: here for its backstop. */
    method Sample(observedAt: int)
      requires Valid()
      modifies feed, feed.subs
      ensures Valid() && feed.subs <= old(feed.subs) && (feed.subs != {} ==> Turns.DistinctTurns(feed.last) && Turns.Sorted(feed.last))
    {
      hide Turns.DistinctTurns, Turns.KeyOf, Turns.Sorted, Turns.Lists, Collected, Feed.Valid;
      var turns, live := TurnSnapshot();
      feed.Backstop(turns, observedAt);
    }

    /** A subscriber's snapshot is the turns of that moment. */
    method Subscribe(cancelled: bool, device: Device, observedAt: int) returns (result: Subscribed, ghost live: seq<Turns.Status>)
      requires Valid()
      modifies feed, feed.subs
      ensures Valid() && Collected(sessions, sessions.Keys, live)
      ensures result.Accepted? ==>
        Turns.DistinctTurns(result.sub.snapshot) && Turns.Sorted(result.sub.snapshot) && Turns.Lists(result.sub.snapshot, live, outcomes.outcomes)
    {
      hide Turns.DistinctTurns, Turns.KeyOf, Turns.Sorted, Turns.Lists, Feed.Valid;
      var turns;
      turns, live := TurnSnapshot();
      result := feed.Subscribe(cancelled, device, turns, observedAt);
    }
  }
}
