/**
internal/session/pump.go, pipeline.go and catch_up.go: the pump between one agent process and whichever client
is attached. Every method is one step under clientMu.
*/
module Pump {
  import opened Names
  import opened Sequences
  import opened ReplayBuffer
  import opened CatchUp
  import opened CatchUpTheorems
  import opened Splice
  import opened RequestIds
  import opened ClientQueues
  import opened LoadRecovery
  import Turns = OutcomeStore

  // ----- What a connection was shown of a session -----

  function UpdatesOf(sid: SessionID): ClientFrame -> bool {
    (f: ClientFrame) => (f.Live? || f.Replayed?) && f.session == sid
  }

  function Text(f: ClientFrame): string {
    if f.Live? || f.Replayed? then f.line else ""
  }

  /** The update lines of sid among frames. */
  function Shown(frames: seq<ClientFrame>, sid: SessionID): seq<string> {
    Map(Keep(frames, UpdatesOf(sid)), Text)
  }

  /** A catch-up reply answered on this connection: where its replay starts, its cursor, and what was sent since. */
  datatype Spliced = Spliced(start: nat, after: int, sent: seq<HistoryFrame>)

  ghost predicate SpliceHolds(routed: seq<ClientFrame>, t: Traced, prompts: set<int>, sid: SessionID, sp: Spliced) {
    && sp.start <= |routed|
    && Shown(routed[sp.start..], sid) == Map(sp.sent, LineText)
    && Seamless(t, prompts, sp.after, sp.sent)
  }

  lemma ShownConcat(a: seq<ClientFrame>, b: seq<ClientFrame>, sid: SessionID)
    ensures Shown(a + b, sid) == Shown(a, sid) + Shown(b, sid)
  {
    KeepConcat(a, b, UpdatesOf(sid));
    MapConcat(Keep(a, UpdatesOf(sid)), Keep(b, UpdatesOf(sid)), Text);
  }

  predicate Silent(frames: seq<ClientFrame>, sid: SessionID) {
    forall f | f in frames :: !UpdatesOf(sid)(f)
  }

  lemma ShownSilent(frames: seq<ClientFrame>, sid: SessionID)
    requires Silent(frames, sid)
    ensures Shown(frames, sid) == []
  {
    KeepNone(frames, UpdatesOf(sid));
  }

  /** Frames that are no updates of sid leave its splice alone. */
  lemma SpliceSilent(routed: seq<ClientFrame>, more: seq<ClientFrame>, t: Traced, prompts: set<int>, sid: SessionID, sp: Spliced)
    requires SpliceHolds(routed, t, prompts, sid, sp) && Silent(more, sid)
    ensures SpliceHolds(routed + more, t, prompts, sid, sp)
  {
    hide Shown, Seamless;
    assert (routed + more)[sp.start..] == routed[sp.start..] + more;
    ShownConcat(routed[sp.start..], more, sid);
    ShownSilent(more, sid);
  }

  lemma SpliceLive(routed: seq<ClientFrame>, t: Traced, prompts: set<int>, sid: SessionID, sp: Spliced, op: Op)
    requires Inv(t) && Known(t, prompts) && op.Update? && SpliceHolds(routed, t, prompts, sid, sp)
    ensures SpliceHolds(routed + [Live(sid, op.line)], Step(t, op), prompts, sid, sp.(sent := sp.sent + [Recorded(t, op)]))
  {
    hide Seamless, Inv, Step, Known;
    SpliceUpdate(t, prompts, op, sp.after, sp.sent);
    assert (routed + [Live(sid, op.line)])[sp.start..] == routed[sp.start..] + [Live(sid, op.line)];
    ShownConcat(routed[sp.start..], [Live(sid, op.line)], sid);
    assert Shown([Live(sid, op.line)], sid) == [op.line];
    MapConcat(sp.sent, [Recorded(t, op)], LineText);
    assert Map([Recorded(t, op)], LineText) == [op.line];
  }

  function ReplayOf(sid: SessionID, lines: seq<string>): (frames: seq<ClientFrame>)
    ensures |frames| == |lines|
    ensures forall i | 0 <= i < |lines| :: frames[i] == Replayed(sid, lines[i])
  {
    Map(lines, (line: string) => Replayed(sid, line))
  }

  lemma {:induction false} ShownReplay(sid: SessionID, lines: seq<string>)
    ensures Shown(ReplayOf(sid, lines), sid) == lines
    decreases lines
  {
    var frames := ReplayOf(sid, lines);
    forall f | f in frames ensures UpdatesOf(sid)(f) { }
    KeepAll(frames, UpdatesOf(sid));
  }

  /** A gapless catch-up reply opens a splice. */
  lemma SpliceOpens(routed: seq<ClientFrame>, rest: seq<ClientFrame>, t: Traced, prompts: set<int>, sid: SessionID, after: int)
    requires Inv(t) && !Gap(t.s, after) && Silent(rest, sid)
    ensures SpliceHolds(routed + (ReplayOf(sid, Map(Missed(t.s, after), LineText)) + rest), t, prompts, sid,
                        Spliced(|routed|, after, Missed(t.s, after)))
  {
    hide Seamless, Inv, Missed, Gap, Shown;
    var replay := ReplayOf(sid, Map(Missed(t.s, after), LineText));
    SpliceStarts(t, prompts, after);
    assert (routed + (replay + rest))[|routed|..] == replay + rest;
    ShownConcat(replay, rest, sid);
    ShownReplay(sid, Map(Missed(t.s, after), LineText));
    ShownSilent(rest, sid);
  }

  // ----- All splices of one connection -----

  ghost predicate AllHold(routed: seq<ClientFrame>, ops: map<SessionID, seq<Op>>, splices: map<SessionID, Spliced>) {
    forall sid | sid in splices :: SpliceHolds(routed, Run(At(ops, sid, [])), Prompts(At(ops, sid, [])), sid, splices[sid])
  }

  function Add(ops: map<SessionID, seq<Op>>, sid: SessionID, op: Op): map<SessionID, seq<Op>> {
    ops[sid := At(ops, sid, []) + [op]]
  }

  /** The splices once frame f of sid was queued live. */
  function Extended(splices: map<SessionID, Spliced>, sid: SessionID, f: HistoryFrame): map<SessionID, Spliced> {
    if sid in splices then splices[sid := splices[sid].(sent := splices[sid].sent + [f])] else splices
  }

  predicate AllSilent(frames: seq<ClientFrame>) {
    forall f | f in frames :: !f.Live? && !f.Replayed?
  }

  lemma SilentHold(routed: seq<ClientFrame>, more: seq<ClientFrame>, ops: map<SessionID, seq<Op>>, splices: map<SessionID, Spliced>)
    requires AllHold(routed, ops, splices) && AllSilent(more)
    ensures AllHold(routed + more, ops, splices)
  {
    hide SpliceHolds, Prompts, Run;
    forall sid | sid in splices ensures SpliceHolds(routed + more, Run(At(ops, sid, [])), Prompts(At(ops, sid, [])), sid, splices[sid]) {
      SpliceSilent(routed, more, Run(At(ops, sid, [])), Prompts(At(ops, sid, [])), sid, splices[sid]);
    }
  }

  lemma LiveHold(routed: seq<ClientFrame>, ops: map<SessionID, seq<Op>>, splices: map<SessionID, Spliced>, sid: SessionID, op: Op)
    requires AllHold(routed, ops, splices) && op.Update?
    ensures AllHold(routed + [Live(sid, op.line)], Add(ops, sid, op), Extended(splices, sid, Recorded(Run(At(ops, sid, [])), op)))
  {
    hide SpliceHolds, Prompts, Run, Step, Recorded;
    RunInv(At(ops, sid, []));
    RunThen(At(ops, sid, []), op);
    PromptsThen(At(ops, sid, []), op);
    KnownRun(At(ops, sid, []));
    var more, now := Extended(splices, sid, Recorded(Run(At(ops, sid, [])), op)), Add(ops, sid, op);
    forall s | s in more ensures SpliceHolds(routed + [Live(sid, op.line)], Run(At(now, s, [])), Prompts(At(now, s, [])), s, more[s]) {
      if s == sid {
        SpliceLive(routed, Run(At(ops, sid, [])), Prompts(At(ops, sid, [])), sid, splices[sid], op);
      } else {
        SpliceSilent(routed, [Live(sid, op.line)], Run(At(ops, s, [])), Prompts(At(ops, s, [])), s, splices[s]);
      }
    }
  }

  lemma QuietHold(routed: seq<ClientFrame>, ops: map<SessionID, seq<Op>>, splices: map<SessionID, Spliced>, sid: SessionID, op: Op)
    requires AllHold(routed, ops, splices) && !op.Update?
    ensures AllHold(routed, Add(ops, sid, op), splices)
  {
    hide Run, Step, Shown, Seamless, Prompts, Known, Inv;
    RunInv(At(ops, sid, []));
    RunThen(At(ops, sid, []), op);
    PromptsThen(At(ops, sid, []), op);
    KnownRun(At(ops, sid, []));
    if sid in splices {
      var t, prompts, sp := Run(At(ops, sid, [])), Prompts(At(ops, sid, [])), splices[sid];
      if op.PromptBlock? { SpliceBlock(t, prompts, op, sp.after, sp.sent); } else { SpliceReject(t, prompts, op, sp.after, sp.sent); }
    }
  }

  lemma OpensHold(routed: seq<ClientFrame>, rest: seq<ClientFrame>, ops: map<SessionID, seq<Op>>, splices: map<SessionID, Spliced>,
                  sid: SessionID, after: int)
    requires AllHold(routed, ops, splices) && AllSilent(rest)
    requires !Gap(Run(At(ops, sid, [])).s, after)
    ensures var missed := Missed(Run(At(ops, sid, [])).s, after);
      AllHold(routed + (ReplayOf(sid, Map(missed, LineText)) + rest), ops, splices[sid := Spliced(|routed|, after, missed)])
  {
    hide SpliceHolds, Prompts, Run, Gap, Missed;
    RunInv(At(ops, sid, []));
    var t := Run(At(ops, sid, []));
    var more := ReplayOf(sid, Map(Missed(t.s, after), LineText)) + rest;
    SpliceOpens(routed, rest, t, Prompts(At(ops, sid, [])), sid, after);
    forall s | s in splices && s != sid ensures SpliceHolds(routed + more, Run(At(ops, s, [])), Prompts(At(ops, s, [])), s, splices[s]) {
      SpliceSilent(routed, more, Run(At(ops, s, [])), Prompts(At(ops, s, [])), s, splices[s]);
    }
  }

  /** A reply that restores a session, the last of out: a missed turn's result goes just before it, what is owed after. */
  function RestoreFrames(out: seq<ClientFrame>, missed: Option<ClientFrame>, owed: seq<ClientFrame>): seq<ClientFrame> {
    if out == [] then owed
    else out[..|out| - 1] + (if missed.Some? then [missed.value] else []) + [out[|out| - 1]] + owed
  }

  function ResultOf(results: map<SessionID, string>, session: SessionID): Option<ClientFrame> {
    if session in results then Some(TurnResult(session, results[session])) else None
  }

  /** What a catch-up reply puts on the connection. */
  function CatchUpFrames(t: Traced, sid: SessionID, after: int, reply: ClientFrame, missed: Option<ClientFrame>,
                         owed: seq<ClientFrame>): seq<ClientFrame>
    requires reply.CatchUpReply?
  {
    if reply.gap then [reply] else ReplayOf(sid, Map(Missed(t.s, after), LineText)) + RestoreFrames([reply], missed, owed)
  }

  lemma RestoreSilent(out: seq<ClientFrame>, missed: Option<ClientFrame>, owed: seq<ClientFrame>)
    requires AllSilent(out) && AllSilent(owed) && (missed.Some? ==> missed.value.TurnResult?)
    ensures AllSilent(RestoreFrames(out, missed, owed))
  {
  }

  lemma RedeliveredSilent(reqs: seq<AgentRequest>, gen: nat, session: SessionID)
    ensures AllSilent(Redelivered(reqs, gen, session))
  {
    hide Keep;
    forall f | f in Redelivered(reqs, gen, session) ensures f.AgentCall? { }
  }

  lemma RestoreReplay(replay: seq<ClientFrame>, reply: ClientFrame, missed: Option<ClientFrame>, owed: seq<ClientFrame>)
    ensures RestoreFrames(replay + [reply], missed, owed) == replay + RestoreFrames([reply], missed, owed)
  {
    var middle := if missed.Some? then [missed.value] else [];
    var out := replay + [reply];
    assert out[..|out| - 1] == replay && out[|out| - 1] == reply;
    assert [reply][..0] == [];
    assert [] + middle + [reply] + owed == middle + [reply] + owed;
    assert replay + middle + [reply] + owed == replay + (middle + [reply] + owed);
  }

  lemma RestoreNothing(missed: Option<ClientFrame>, owed: seq<ClientFrame>)
    ensures RestoreFrames([], missed, owed) == owed
  {
  }

  /** A kept result comes just before the reply that restores its session, what the agent waits for after it. */
  lemma RestoreSays(results: map<SessionID, string>, session: SessionID, out: seq<ClientFrame>, owed: seq<ClientFrame>)
    ensures RestoreFrames(out, ResultOf(results, session), owed) ==
      if out == [] then owed
      else out[..|out| - 1] + (if session in results then [TurnResult(session, results[session])] else []) + [out[|out| - 1]] + owed
  {
  }

  lemma RestoreOne(results: map<SessionID, string>, session: SessionID, reply: ClientFrame, owed: seq<ClientFrame>)
    ensures RestoreFrames([reply], ResultOf(results, session), owed)
      == (if session in results then [TurnResult(session, results[session])] else []) + [reply] + owed
  {
    RestoreSays(results, session, [reply], owed);
    assert [reply][..0] == [];
    var middle := if session in results then [TurnResult(session, results[session])] else [];
    assert [] + middle == middle;
  }

  lemma RestoreInserts(out: seq<ClientFrame>, missed: Option<ClientFrame>, owed: seq<ClientFrame>)
    requires out != []
    ensures var r, frames := |out| - 1, out + owed;
      RestoreFrames(out, missed, owed) == if missed.Some? then frames[..r] + [missed.value] + frames[r..] else frames
  {
    var r, frames := |out| - 1, out + owed;
    assert frames[..r] == out[..r];
    assert frames[r..] == [out[r]] + owed;
    assert out == out[..r] + [out[r]];
  }

  // ----- The agent's requests on one connection -----

  function IsCall(): ClientFrame -> bool {
    (f: ClientFrame) => f.AgentCall?
  }

  function SerialOf(f: ClientFrame): nat {
    if f.AgentCall? then f.serial else 0
  }

  /** The agent requests among frames, by serial. */
  function CallsIn(frames: seq<ClientFrame>): seq<nat> {
    Map(Keep(frames, IsCall()), SerialOf)
  }

  predicate NoCalls(frames: seq<ClientFrame>) {
    forall f | f in frames :: !f.AgentCall?
  }

  /** calls holds each request delivered to connection gen exactly once, but those it was sent before it was bound. */
  ghost predicate CallsRecorded(calls: seq<nat>, deliveries: set<(nat, nat)>, gen: nat, earlier: set<nat>) {
    && (forall i, j | 0 <= i < j < |calls| :: calls[i] != calls[j])
    && (forall n :: n in calls <==> (n, gen) in deliveries && n !in earlier)
    && (forall n | n in earlier :: (n, gen) in deliveries)
  }

  lemma CallsConcat(a: seq<ClientFrame>, b: seq<ClientFrame>)
    ensures CallsIn(a + b) == CallsIn(a) + CallsIn(b)
  {
    KeepConcat(a, b, IsCall());
    MapConcat(Keep(a, IsCall()), Keep(b, IsCall()), SerialOf);
  }

  lemma CallsNone(frames: seq<ClientFrame>)
    requires NoCalls(frames)
    ensures CallsIn(frames) == []
  {
    KeepNone(frames, IsCall());
  }

  lemma CallsQuiet(routed: seq<ClientFrame>, more: seq<ClientFrame>)
    requires NoCalls(more)
    ensures CallsIn(routed + more) == CallsIn(routed)
  {
    CallsConcat(routed, more);
    CallsNone(more);
    assert CallsIn(routed) + [] == CallsIn(routed);
  }

  function Serials(reqs: seq<AgentRequest>): seq<nat> {
    Map(reqs, (r: AgentRequest) => r.serial)
  }

  /** What is redelivered are the requests newly on record for the connection, each once. */
  lemma CallsRedelivered(reqs: seq<AgentRequest>, tracked: nat, gen: nat, session: SessionID)
    requires SerialsDistinct(reqs, tracked)
    ensures var calls := CallsIn(Redelivered(reqs, gen, session));
      && (forall i, j | 0 <= i < j < |calls| :: calls[i] != calls[j])
      && forall n :: n in calls <==> (n, gen) in Deliver(reqs, gen, session)
  {
    hide Keep;
    var owed := Keep(reqs, Owed(gen, session));
    KeepSerials(reqs, Owed(gen, session), tracked);
    forall f | f in Redelivered(reqs, gen, session) ensures IsCall()(f) { }
    KeepAll(Redelivered(reqs, gen, session), IsCall());
    var calls := CallsIn(Redelivered(reqs, gen, session));
    assert |calls| == |owed| && forall i | 0 <= i < |owed| :: calls[i] == owed[i].serial;
    forall n ensures n in calls <==> (n, gen) in Deliver(reqs, gen, session) {
      if n in calls {
        var i :| 0 <= i < |calls| && calls[i] == n;
        KeepIn(reqs, Owed(gen, session), owed[i]);
      }
      if (n, gen) in Deliver(reqs, gen, session) {
        var k :| 0 <= k < |reqs| && Owed(gen, session)(reqs[k]) && reqs[k].serial == n;
        KeepIn(reqs, Owed(gen, session), reqs[k]);
        var i :| 0 <= i < |owed| && owed[i] == reqs[k];
        assert calls[i] == n;
      }
    }
  }

  lemma CallsRestored(out: seq<ClientFrame>, missed: Option<ClientFrame>, owed: seq<ClientFrame>)
    requires NoCalls(out) && (missed.Some? ==> missed.value.TurnResult?)
    ensures CallsIn(RestoreFrames(out, missed, owed)) == CallsIn(owed)
  {
    if out != [] {
      var head := out[..|out| - 1] + (if missed.Some? then [missed.value] else []) + [out[|out| - 1]];
      assert NoCalls(head);
      CallsConcat(head, owed);
      CallsNone(head);
      assert RestoreFrames(out, missed, owed) == head + owed && [] + CallsIn(owed) == CallsIn(owed);
    }
  }

  /** Newly delivered requests, put on the connection together with their record. */
  lemma CallsGrow(routed: seq<ClientFrame>, frames: seq<ClientFrame>, deliveries: set<(nat, nat)>, more: set<(nat, nat)>, gen: nat,
                  earlier: set<nat>)
    requires CallsRecorded(CallsIn(routed), deliveries, gen, earlier) && more !! deliveries
    requires var calls := CallsIn(frames);
      && (forall i, j | 0 <= i < j < |calls| :: calls[i] != calls[j])
      && forall n :: n in calls <==> (n, gen) in more
    ensures CallsRecorded(CallsIn(routed + frames), deliveries + more, gen, earlier)
  {
    hide CallsIn;
    CallsConcat(routed, frames);
    var was, calls := CallsIn(routed), CallsIn(frames);
    forall i, j | 0 <= i < |was| && 0 <= j < |calls| ensures was[i] != calls[j] { assert was[i] in was && calls[j] in calls; }
    assert forall n :: n in was + calls <==> n in was || n in calls;
  }

  /** A restoring reply and what it redelivers, once the deliveries are on record. */
  lemma CallsOwed(routed: seq<ClientFrame>, out: seq<ClientFrame>, missed: Option<ClientFrame>, reqs: seq<AgentRequest>, tracked: nat,
                  deliveries: set<(nat, nat)>, gen: nat, session: SessionID, earlier: set<nat>)
    requires CallsRecorded(CallsIn(routed), deliveries, gen, earlier) && SerialsDistinct(reqs, tracked)
    requires Deliver(reqs, gen, session) !! deliveries && NoCalls(out) && (missed.Some? ==> missed.value.TurnResult?)
    ensures CallsRecorded(CallsIn(routed + RestoreFrames(out, missed, Redelivered(reqs, gen, session))), deliveries + Deliver(reqs, gen, session),
                          gen, earlier)
  {
    hide CallsRecorded, CallsIn, SerialsDistinct, Deliver, Redelivered, RestoreFrames;
    CallsRedelivered(reqs, tracked, gen, session);
    CallsRestored(out, missed, Redelivered(reqs, gen, session));
    CallsGrow(routed, RestoreFrames(out, missed, Redelivered(reqs, gen, session)), deliveries, Deliver(reqs, gen, session), gen, earlier);
  }

  lemma DeliverNow(reqs: seq<AgentRequest>, gen: nat, session: SessionID)
    ensures forall d | d in Deliver(reqs, gen, session) :: d.1 == gen
  {
  }

  /** A new request, put on the connection at once. */
  lemma CallsOne(routed: seq<ClientFrame>, serial: nat, line: string, deliveries: set<(nat, nat)>, gen: nat, earlier: set<nat>)
    requires CallsRecorded(CallsIn(routed), deliveries, gen, earlier) && (serial, gen) !in deliveries
    ensures CallsRecorded(CallsIn(routed + [AgentCall(serial, line)]), deliveries + {(serial, gen)}, gen, earlier)
  {
    hide CallsRecorded;
    assert CallsIn([AgentCall(serial, line)]) == [serial];
    CallsGrow(routed, [AgentCall(serial, line)], deliveries, {(serial, gen)}, gen, earlier);
  }

  lemma CallsSame(calls: seq<nat>, deliveries: set<(nat, nat)>, gen: nat)
    requires calls == []
    ensures CallsRecorded(calls, deliveries, gen, set d | d in deliveries && d.1 == gen :: d.0)
  {
    var earlier := set d | d in deliveries && d.1 == gen :: d.0;
    forall n ensures n in earlier <==> (n, gen) in deliveries {
      if (n, gen) in deliveries { assert (n, gen).0 == n; }
    }
  }

  // ----- The replies on one connection -----

  function IsReply(): ClientFrame -> bool {
    (f: ClientFrame) => f.Response?
  }

  function RepliesIn(frames: seq<ClientFrame>): seq<ClientFrame> {
    Keep(frames, IsReply())
  }

  /**
  Which forwarded request each reply on connection gen answers, None for a reply to nothing that was forwarded: it is
  one this very connection sent, under its client's own id, and none is answered twice.
  */
  ghost predicate Answered(replies: seq<ClientFrame>, answered: seq<Option<Key>>, issued: map<Key, PendingRequest>, fates: map<Key, Fate>,
                           gen: nat) {
    && |replies| == |answered|
    && (forall i | 0 <= i < |answered| && answered[i].Some? ::
          && answered[i].value in issued && issued[answered[i].value].gen == gen
          && answered[i].value in fates && fates[answered[i].value] == Replied
          && replies[i].Response? && replies[i].id == issued[answered[i].value].clientID)
    && (forall i, j | 0 <= i < j < |answered| && answered[i].Some? :: answered[i] != answered[j])
  }

  lemma RepliesQuiet(routed: seq<ClientFrame>, more: seq<ClientFrame>)
    requires forall f | f in more :: !f.Response?
    ensures RepliesIn(routed + more) == RepliesIn(routed)
  {
    KeepConcat(routed, more, IsReply());
    KeepNone(more, IsReply());
    assert Keep(routed, IsReply()) + [] == Keep(routed, IsReply());
  }

  function Nones(n: nat): seq<Option<Key>> {
    seq(n, _ => None)
  }

  /** What the frames of a reply leave of replies, and which request each of them answers. */
  lemma RepliesRouted(pending: map<Key, PendingRequest>, id: Key, connGen: nat, out: seq<ClientFrame>)
    ensures RepliesIn(RoutedFrames(pending, Some(id), connGen, out)) ==
      if out == [] || id !in pending then RepliesIn(out)
      else if pending[id].gen != connGen then []
      else RepliesIn(out[..|out| - 1])
           + if out[|out| - 1].Response? then [Response(pending[id].clientID, out[|out| - 1].line)] else []
  {
    hide Keep;
    var frames := RoutedFrames(pending, Some(id), connGen, out);
    if out != [] && id in pending {
      if pending[id].gen != connGen {
        KeepNone(frames, IsReply());
      } else {
        var last := frames[|frames| - 1];
        assert frames == out[..|out| - 1] + [last];
        KeepConcat(out[..|out| - 1], [last], IsReply());
        if last.Response? { KeepAll([last], IsReply()); } else { KeepNone([last], IsReply()); }
      }
    }
  }

  lemma RepliesRestored(out: seq<ClientFrame>, missed: Option<ClientFrame>, reqs: seq<AgentRequest>, gen: nat, session: SessionID)
    requires missed.Some? ==> missed.value.TurnResult?
    ensures RepliesIn(RestoreFrames(out, missed, Redelivered(reqs, gen, session))) == RepliesIn(out)
  {
    hide Keep;
    var owed, middle := Redelivered(reqs, gen, session), if missed.Some? then [missed.value] else [];
    RedeliveredQuiet(reqs, gen, session);
    if out == [] {
      RepliesQuiet([], owed);
      assert [] + owed == owed;
    } else {
      var last := [out[|out| - 1]];
      RepliesQuiet(out[..|out| - 1] + middle + last, owed);
      RepliesQuiet(out[..|out| - 1], middle);
      KeepConcat(out[..|out| - 1] + middle, last, IsReply());
      KeepConcat(out[..|out| - 1], last, IsReply());
      assert out[..|out| - 1] + last == out;
    }
  }

  lemma RestoredQuiet(routed: seq<ClientFrame>, replay: seq<ClientFrame>, reply: ClientFrame, missed: Option<ClientFrame>,
                      reqs: seq<AgentRequest>, gen: nat, session: SessionID)
    requires !reply.Response? && (forall f | f in replay :: !f.Response?) && (missed.Some? ==> missed.value.TurnResult?)
    ensures RepliesIn(routed + RestoreFrames(replay + [reply], missed, Redelivered(reqs, gen, session))) == RepliesIn(routed)
  {
    hide Keep, RestoreFrames, Redelivered;
    RepliesRestored(replay + [reply], missed, reqs, gen, session);
    KeepNone(replay + [reply], IsReply());
    KeepConcat(routed, RestoreFrames(replay + [reply], missed, Redelivered(reqs, gen, session)), IsReply());
    assert Keep(routed, IsReply()) + [] == Keep(routed, IsReply());
  }

  lemma RedeliveredQuiet(reqs: seq<AgentRequest>, gen: nat, session: SessionID)
    ensures forall f | f in Redelivered(reqs, gen, session) :: f.AgentCall?
  {
    hide Keep;
  }

  lemma RepliesConcat(a: seq<ClientFrame>, b: seq<ClientFrame>)
    ensures RepliesIn(a + b) == RepliesIn(a) + RepliesIn(b)
  {
    KeepConcat(a, b, IsReply());
  }

  /** Which request each reply among the frames of a reply answers. */
  function Tags(pending: map<Key, PendingRequest>, id: Key, connGen: nat, out: seq<ClientFrame>): seq<Option<Key>> {
    if out == [] || id !in pending then Nones(|RepliesIn(out)|)
    else if pending[id].gen != connGen then []
    else Nones(|RepliesIn(out[..|out| - 1])|) + if out[|out| - 1].Response? then [Some(id)] else []
  }

  lemma TagsOf(routed: seq<ClientFrame>, pending: map<Key, PendingRequest>, id: Key, connGen: nat, out: seq<ClientFrame>,
               answered: seq<Option<Key>>, issued: map<Key, PendingRequest>, was: map<Key, Fate>, fates: map<Key, Fate>)
    requires Answered(RepliesIn(routed), answered, issued, was, connGen)
    requires id in pending ==> id in issued && issued[id] == pending[id]
    requires if out != [] && id in pending then id !in was && fates == was[id := Replied] else fates == was
    ensures var replies := RepliesIn(RoutedFrames(pending, Some(id), connGen, out));
      && Answered(RepliesIn(routed) + replies, answered + Tags(pending, id, connGen, out), issued, fates, connGen)
      && replies == (if out == [] || id !in pending then RepliesIn(out)
                     else if pending[id].gen != connGen then []
                     else RepliesIn(out[..|out| - 1])
                          + if out[|out| - 1].Response? then [Response(pending[id].clientID, out[|out| - 1].line)] else [])
      && (out != [] && id in pending && pending[id].gen == connGen && out[|out| - 1].Response? ==>
            var tags := Tags(pending, id, connGen, out); tags != [] && tags[|tags| - 1] == Some(id))
  {
    hide Answered, RepliesIn;
    RepliesRouted(pending, id, connGen, out);
    AnsweredGrow(RepliesIn(routed), answered, issued, was, fates, connGen, RepliesIn(RoutedFrames(pending, Some(id), connGen, out)),
                 Tags(pending, id, connGen, out));
  }

  lemma AnsweredGrow(replies: seq<ClientFrame>, answered: seq<Option<Key>>, issued: map<Key, PendingRequest>, was: map<Key, Fate>,
                     fates: map<Key, Fate>, gen: nat, more: seq<ClientFrame>, tags: seq<Option<Key>>)
    requires Answered(replies, answered, issued, was, gen) && |more| == |tags|
    requires forall id | id in was :: id in fates && fates[id] == was[id]
    requires forall i | 0 <= i < |tags| && tags[i].Some? ::
      && i == |tags| - 1 && tags[i].value in issued && issued[tags[i].value].gen == gen && tags[i].value !in was
      && tags[i].value in fates && fates[tags[i].value] == Replied
      && more[i].Response? && more[i].id == issued[tags[i].value].clientID
    ensures Answered(replies + more, answered + tags, issued, fates, gen)
  {
  }

  // ----- Turn statuses -----

  /** Whose pump it is: the agent, the gateway's session and the process. */
  datatype Origin = Origin(agentID: string, sessionID: string, runtimeID: string)

  function AttentionText(kind: Attention): string {
    match kind
    case NoAttention => ""
    case Permission => "permission"
    case Elicitation => "elicitation"
  }

  /** A running turn changed when its prompt started. */
  function RunningStatus(origin: Origin, session: SessionID, startedAt: int, kinds: seq<Attention>): Turns.Status {
    Turns.Status(origin.agentID, session.name, origin.sessionID, origin.runtimeID, Turns.Running, Map(kinds, AttentionText),
                 startedAt, startedAt, "")
  }

  /** st is the running turn of its chat: its latest prompt, and what its agent waits for. */
  ghost predicate RunningTurn(origin: Origin, pending: map<Key, PendingRequest>, reqs: seq<AgentRequest>, st: Turns.Status) {
    var session := SessionID(st.sessionID);
    Prompted(pending, session) && Latest(pending, session, st.startedAt) && st == RunningStatus(origin, session, st.startedAt, Kinds(reqs, session))
  }

  predicate InTurns(out: seq<Turns.Status>, session: SessionID) {
    exists st :: st in out && st.sessionID == session.name
  }

  lemma TurnsOf(origin: Origin, pending: map<Key, PendingRequest>, reqs: seq<AgentRequest>, live: seq<LiveTurn>, out: seq<Turns.Status>)
    requires |out| == |live|
    requires forall i | 0 <= i < |live| :: out[i] == RunningStatus(origin, live[i].session, live[i].startedAt, live[i].attention)
    requires forall session :: Lists(live, session) <==> Prompted(pending, session)
    requires forall t | t in live :: Latest(pending, t.session, t.startedAt) && t.attention == Kinds(reqs, t.session)
    ensures forall st | st in out :: RunningTurn(origin, pending, reqs, st)
    ensures forall session | Prompted(pending, session) :: InTurns(out, session)
  {
    hide Kinds, Latest, Prompted;
    forall st | st in out ensures RunningTurn(origin, pending, reqs, st) {
      var i :| 0 <= i < |out| && out[i] == st;
      assert live[i] in live && Lists(live, live[i].session) && SessionID(live[i].session.name) == live[i].session;
    }
    forall session | Prompted(pending, session) ensures InTurns(out, session) {
      assert Lists(live, session);
      var t :| t in live && t.session == session;
      var i :| 0 <= i < |live| && live[i] == t;
      assert out[i] in out;
    }
  }

  class StdioPump {
    const origin: Origin
    var connGen: nat
    var client: Option<nat>
    var writerQ: ClientQueue?
    var closed: bool
    var turnResults: map<SessionID, string>
    const reqIDs: RequestIDs
    const recovery: LoadRecovery
    const size: ClientFrame -> nat
    // The catch-up replies answered on the bound connection.
    ghost var splices: map<SessionID, Spliced>
    // The agent requests its generation had been sent before it was bound.
    ghost var earlier: set<nat>
    // Which request each reply on the bound connection answers.
    ghost var answered: seq<Option<Key>>

    /** A live queue belongs to the current generation, and is whole. */
    ghost predicate QueueCurrent()
      reads this`writerQ, this`connGen, this`client, writerQ
    {
      writerQ != null ==> client.Some? && writerQ.gen == connGen > 0 && writerQ.Valid() && !writerQ.cut
    }

    ghost predicate SplicesHold()
      reads this`writerQ, this`splices, writerQ, recovery`ops
    {
      && (writerQ == null ==> splices == map[])
      && (writerQ != null ==> AllHold(writerQ.routed, recovery.ops, splices))
    }

    /** Nothing was delivered to a connection that is still to come. */
    ghost predicate DeliveredSoFar()
      reads this`connGen, reqIDs`agentReqs, reqIDs`deliveries
    {
      && (forall i | 0 <= i < |reqIDs.agentReqs| :: reqIDs.agentReqs[i].deliveredGen <= connGen)
      && (forall d | d in reqIDs.deliveries :: d.1 <= connGen)
    }

    /** The queue holds every agent request delivered to the connection, and each of them once. */
    ghost predicate CallsSent()
      reads this`writerQ, this`connGen, this`earlier, writerQ, reqIDs`deliveries
    {
      writerQ != null ==> CallsRecorded(CallsIn(writerQ.routed), reqIDs.deliveries, connGen, earlier)
    }

    /** Every reply on the queue is this connection's own, and answers what no other does. */
    ghost predicate RepliesSent()
      reads this`writerQ, this`connGen, this`answered, writerQ, reqIDs`issued, reqIDs`fates
    {
      writerQ != null ==> Answered(RepliesIn(writerQ.routed), answered, reqIDs.issued, reqIDs.fates, connGen)
    }

    /** While a step goes on, a request may be on record that is still to be queued. */
    ghost predicate Midway()
      reads this, reqIDs, recovery, writerQ
    {
      reqIDs.Valid() && recovery.Valid() && QueueCurrent() && SplicesHold() && DeliveredSoFar()
    }

    ghost predicate Valid()
      reads this, reqIDs, recovery, writerQ
    {
      Midway() && CallsSent() && RepliesSent()
    }

    predicate Bound()
      reads this`client, this`writerQ
    {
      client.Some? && writerQ != null
    }

    constructor (origin: Origin, reqIDs: RequestIDs, recovery: LoadRecovery, size: ClientFrame -> nat)
      requires reqIDs.Valid() && reqIDs.agentReqs == [] && reqIDs.deliveries == {} && recovery.Valid()
      ensures Valid() && connGen == 0 && !Bound() && !closed
      ensures this.origin == origin && this.reqIDs == reqIDs && this.recovery == recovery
    {
      this.origin := origin;
      this.reqIDs, this.recovery, this.size := reqIDs, recovery, size;
      connGen, client, writerQ, closed, turnResults, splices, earlier, answered := 0, None, null, false, map[], map[], {}, [];
    }

    method StopWriter()
      modifies this`writerQ, this`splices
      ensures writerQ == null && splices == map[]
    {
      writerQ, splices := null, map[];
    }

    /** A running status for each chat whose prompt awaits its reply, once. */
    method LiveTurns() returns (out: seq<Turns.Status>)
      ensures forall i, j | 0 <= i < j < |out| :: out[i].sessionID != out[j].sessionID
      ensures forall st | st in out :: RunningTurn(origin, reqIDs.pending, reqIDs.agentReqs, st)
      ensures forall session | Prompted(reqIDs.pending, session) :: InTurns(out, session)
      ensures forall i | 0 <= i < |out| ::
        && out[i].agentID == origin.agentID && out[i].gatewaySessionID == origin.sessionID && out[i].runtimeID == origin.runtimeID
        && out[i].state == Turns.Running && out[i].changedAt == out[i].startedAt && out[i].stopReason == ""
    {
      hide Kinds, Latest, Prompted, RunningTurn;
      var live := reqIDs.LiveTurns();
      out := [];
      for i := 0 to |live|
        invariant |out| == i
        invariant forall j | 0 <= j < i :: out[j] == RunningStatus(origin, live[j].session, live[j].startedAt, live[j].attention)
      {
        out := out + [RunningStatus(origin, live[i].session, live[i].startedAt, live[i].attention)];
      }
      TurnsOf(origin, reqIDs.pending, reqIDs.agentReqs, live, out);
    }

    /** Claims the pump for a new connection; the one before is evicted. */
    method Attach() returns (gen: nat)
      requires Valid()
      modifies this`connGen, this`client, this`writerQ, this`splices
      ensures Valid() && !Bound()
      ensures gen == connGen == old(connGen) + 1 && forall n :: (n, gen) !in reqIDs.deliveries
    {
      hide RequestIDs.Valid, LoadRecovery.Valid;
      client := None;
      StopWriter();
      connGen := connGen + 1;
      gen := connGen;
    }

    /** Binds conn unless a newer connection superseded gen or the agent is gone. */
    method Bind(conn: nat, gen: nat) returns (bound: bool)
      requires Valid() && gen > 0
      modifies this`client, this`writerQ, this`splices, this`earlier, this`answered
      ensures Valid() && bound == (!closed && connGen == gen)
      ensures bound ==> forall n :: n in earlier <==> (n, gen) in reqIDs.deliveries
      ensures bound ==> client == Some(conn) && writerQ != null && fresh(writerQ) && writerQ.routed == [] && writerQ.gen == gen
      ensures !bound ==> client == old(client) && writerQ == old(writerQ) && splices == old(splices)
    {
      hide RequestIDs.Valid, LoadRecovery.Valid;
      if closed || connGen != gen {
        return false;
      }
      client := Some(conn);
      StopWriter();
      writerQ := new ClientQueue(size, gen);
      earlier := set d | d in reqIDs.deliveries && d.1 == gen :: d.0;
      answered := [];
      assert CallsIn([]) == [] && RepliesIn([]) == [];
      CallsSame([], reqIDs.deliveries, gen);
      return true;
    }

    /** Detaches the current connection; a superseded one changes nothing. */
    method Detach(gen: nat) returns (detached: bool)
      requires Valid()
      modifies this`client, this`writerQ, this`splices
      ensures Valid() && detached == (connGen == gen)
      ensures detached ==> client == None && writerQ == null
      ensures !detached ==> client == old(client) && writerQ == old(writerQ) && splices == old(splices)
    {
      hide RequestIDs.Valid, LoadRecovery.Valid;
      if connGen != gen {
        return false;
      }
      client := None;
      StopWriter();
      return true;
    }

    /** A write to conn failed: it is detached unless another connection already took over. */
    method WriteFailed(conn: nat)
      requires Valid()
      modifies this`client, this`writerQ, this`splices
      ensures Valid()
      ensures old(client) == Some(conn) ==> client == None && writerQ == null
      ensures old(client) != Some(conn) ==> client == old(client) && writerQ == old(writerQ) && splices == old(splices)
    {
      hide RequestIDs.Valid, LoadRecovery.Valid;
      if client == Some(conn) {
        client := None;
        StopWriter();
      }
    }

    /** The agent is gone: nothing more is queued and nobody can bind. */
    method Close()
      requires Valid()
      modifies this`closed, this`writerQ, this`splices
      ensures Valid() && closed && writerQ == null
    {
      hide RequestIDs.Valid, LoadRecovery.Valid;
      closed := true;
      StopWriter();
    }

    /**
     * Moves frames to the bound client's queue. All of them count as routed; a client that cannot take one
     * is disconnected, so what it was sent is a prefix of what was routed to it.
     */
    method Queue(frames: seq<ClientFrame>) returns (evict: Option<nat>)
      requires QueueCurrent() && writerQ != null
      modifies this`client, this`writerQ, this`splices, writerQ
      ensures QueueCurrent() && old(writerQ).Valid()
      ensures old(writerQ).routed == old(writerQ.routed) + frames
      ensures old(writerQ).taken == old(writerQ.taken)
      ensures old(writerQ).taken + old(writerQ).frames <= old(writerQ).routed
      ensures old(writerQ).cut ==> writerQ == null && client == None && splices == map[] && evict == old(client)
      ensures !old(writerQ).cut ==> writerQ == old(writerQ) && client == old(client) && splices == old(splices) && evict == None
    {
      evict := None;
      var accepted := writerQ.PushAll(frames);
      if !accepted {
        evict := client;
        client := None;
        StopWriter();
      }
    }

    // ----- Agent to client -----

    /** The agent's session/update: numbered, buffered and queued in one step. */
    method ForwardUpdate(sid: SessionID, line: string, user: bool) returns (evict: Option<nat>)
      requires Valid()
      modifies this`client, this`writerQ, this`splices, writerQ, recovery
      ensures Valid()
      ensures old(Bound()) ==>
        old(writerQ).routed == old(writerQ.routed) + [Live(sid, recovery.Stamped(line, old(recovery.Of(sid)).head + 1))]
    {
      hide RequestIDs.Valid, LoadRecovery.Valid, AllHold, Recorded, Run, LoadRecovery.Of;
      hide CallsRecorded, CallsIn, Answered, RepliesIn;
      evict := None;
      ghost var was := recovery.ops;
      var l := recovery.Record(sid, line, user);
      ghost var op := Update(l, user, recovery.numbering(line, old(recovery.Of(sid)).head + 1).Some?);
      assert recovery.ops == Add(was, sid, op);
      if Bound() {
        LiveHold(writerQ.routed, was, splices, sid, op);
        splices := Extended(splices, sid, Recorded(Run(At(was, sid, [])), op));
        CallsQuiet(writerQ.routed, [Live(sid, l)]);
        RepliesQuiet(writerQ.routed, [Live(sid, l)]);
        evict := Queue([Live(sid, l)]);
      }
    }

    /** Completes a reply that restores session for the current connection. */
    method Restore(session: SessionID, out: seq<ClientFrame>) returns (frames: seq<ClientFrame>)
      requires reqIDs.Valid() && DeliveredSoFar() && connGen > 0
      modifies this`turnResults, reqIDs`agentReqs, reqIDs`deliveries
      ensures reqIDs.Valid() && DeliveredSoFar()
      ensures frames == RestoreFrames(out, ResultOf(old(turnResults), session), Redelivered(old(reqIDs.agentReqs), connGen, session))
      ensures turnResults == if out == [] then old(turnResults) else old(turnResults) - {session}
      ensures reqIDs.agentReqs == MarkSent(old(reqIDs.agentReqs), connGen, session)
      ensures forall i | 0 <= i < |reqIDs.agentReqs| && reqIDs.agentReqs[i].session == session :: reqIDs.agentReqs[i].deliveredGen == connGen
      ensures reqIDs.deliveries == old(reqIDs.deliveries) + Deliver(old(reqIDs.agentReqs), connGen, session)
      ensures Deliver(old(reqIDs.agentReqs), connGen, session) !! old(reqIDs.deliveries)
    {
      hide RequestIDs.Valid, Redelivered, RestoreFrames, Deliver;
      RestoreNothing(ResultOf(turnResults, session), Redelivered(reqIDs.agentReqs, connGen, session));
      DeliverNow(reqIDs.agentReqs, connGen, session);
      frames := reqIDs.Redeliver(connGen, session, out);
      if out == [] {
        return;
      }
      RestoreInserts(out, ResultOf(turnResults, session), Redelivered(old(reqIDs.agentReqs), connGen, session));
      var replyIdx := |out| - 1;
      if session in turnResults {
        frames := frames[..replyIdx] + [TurnResult(session, turnResults[session])] + frames[replyIdx..];
        turnResults := turnResults - {session};
      }
    }

    /**
     * Answers a catch-up session/resume in one step, so no update is sent twice or out of order across the
     * replay. Only the current connection is answered.
     */
    method AnswerCatchUp(gen: nat, id: string, sid: SessionID, epoch: string, after: int) returns (evict: Option<nat>)
      requires Valid()
      modifies this`client, this`writerQ, this`splices, this`turnResults, writerQ, reqIDs`agentReqs, reqIDs`deliveries
      ensures Valid()
      ensures gen != connGen || !old(Bound()) ==>
        && evict == None && writerQ == old(writerQ) && splices == old(splices) && turnResults == old(turnResults)
        && (writerQ != null ==> writerQ.routed == old(writerQ.routed)) && reqIDs.agentReqs == old(reqIDs.agentReqs)
      ensures gen == connGen && old(Bound()) ==>
        var t := Run(recovery.Ops(sid));
        var gap := epoch != recovery.epoch || Gap(t.s, after);
        var reply := CatchUpReply(id, recovery.epoch, t.s.head, gap);
        && old(writerQ).routed == old(writerQ.routed) + CatchUpFrames(t, sid, after, reply,
             ResultOf(old(turnResults), sid), Redelivered(old(reqIDs.agentReqs), connGen, sid))
        && (gap ==> old(writerQ).routed == old(writerQ.routed) + [reply])
        && (!gap ==>
              old(writerQ).routed == old(writerQ.routed)
                + (ReplayOf(sid, Map(Missed(t.s, after), LineText))
                   + ((if sid in old(turnResults) then [TurnResult(sid, old(turnResults)[sid])] else [])
                      + [reply] + Redelivered(old(reqIDs.agentReqs), connGen, sid))))
        && (!gap && writerQ != null ==> splices == old(splices)[sid := Spliced(|old(writerQ.routed)|, after, Missed(t.s, after))])
        && (gap ==> reqIDs.agentReqs == old(reqIDs.agentReqs) && turnResults == old(turnResults))
    {
      hide RequestIDs.Valid, LoadRecovery.Valid, AllHold, Run, LoadRecovery.Of, Gap, Missed, RestoreFrames, Redelivered, MarkSent;
      evict := None;
      if gen != connGen || !Bound() {
        return;
      }
      var lines, head, gap := recovery.CatchUp(sid, epoch, after);
      var reply := CatchUpReply(id, recovery.epoch, head, gap);
      if gap {
        CallsQuiet(writerQ.routed, [reply]);
        RepliesQuiet(writerQ.routed, [reply]);
        evict := QueueSilent([reply]);
      } else {
        RestoreOne(turnResults, sid, reply, Redelivered(reqIDs.agentReqs, connGen, sid));
        evict := AnswerGapless(sid, after, lines, reply);
      }
    }

    method AnswerGapless(sid: SessionID, after: int, lines: seq<string>, reply: ClientFrame) returns (evict: Option<nat>)
      requires Valid() && Bound() && reply.CatchUpReply?
      requires !Gap(Run(recovery.Ops(sid)).s, after) && lines == Map(Missed(Run(recovery.Ops(sid)).s, after), LineText)
      modifies this`client, this`writerQ, this`splices, this`turnResults, writerQ, reqIDs`agentReqs, reqIDs`deliveries
      ensures Valid()
      ensures old(writerQ).routed == old(writerQ.routed) + (ReplayOf(sid, lines)
        + RestoreFrames([reply], ResultOf(old(turnResults), sid), Redelivered(old(reqIDs.agentReqs), connGen, sid)))
      ensures writerQ != null ==> splices == old(splices)[sid := Spliced(|old(writerQ.routed)|, after, Missed(Run(recovery.Ops(sid)).s, after))]
    {
      hide RequestIDs.Valid, LoadRecovery.Valid, AllHold, Run, LoadRecovery.Of, Gap, Missed, RestoreFrames, Redelivered, MarkSent;
      hide CallsRecorded, CallsIn, SerialsDistinct, Deliver, Answered, RepliesIn;
      var replay := ReplayOf(sid, lines);
      ghost var missed, owed := ResultOf(turnResults, sid), Redelivered(reqIDs.agentReqs, connGen, sid);
      RestoreReplay(replay, reply, missed, owed);
      RedeliveredSilent(reqIDs.agentReqs, connGen, sid);
      RestoreSilent([reply], missed, owed);
      OpensHold(writerQ.routed, RestoreFrames([reply], missed, owed), recovery.ops, splices, sid, after);
      reqIDs.Serials();
      var frames := Restore(sid, replay + [reply]);
      splices := splices[sid := Spliced(|writerQ.routed|, after, Missed(Run(recovery.Ops(sid)).s, after))];
      CallsOwed(writerQ.routed, replay + [reply], missed, old(reqIDs.agentReqs), reqIDs.tracked, old(reqIDs.deliveries), connGen, sid, earlier);
      RestoredQuiet(writerQ.routed, replay, reply, missed, old(reqIDs.agentReqs), connGen, sid);
      evict := Queue(frames);
    }

    /** Queues frames that show no update. */
    method QueueSilent(frames: seq<ClientFrame>) returns (evict: Option<nat>)
      requires Midway() && Bound() && AllSilent(frames)
      requires CallsRecorded(CallsIn(writerQ.routed + frames), reqIDs.deliveries, connGen, earlier)
      requires Answered(RepliesIn(writerQ.routed + frames), answered, reqIDs.issued, reqIDs.fates, connGen)
      modifies this`client, this`writerQ, this`splices, writerQ
      ensures Valid() && old(writerQ).routed == old(writerQ.routed) + frames
      ensures writerQ == null || (writerQ == old(writerQ) && splices == old(splices))
    {
      hide RequestIDs.Valid, LoadRecovery.Valid, AllHold, CallsIn, RepliesIn, Answered;
      SilentHold(writerQ.routed, frames, recovery.ops, splices);
      evict := Queue(frames);
    }

    /**
     * Routes an agent reply. out is what the earlier stages made of it and origin what they took it to answer;
     * the books are consulted again here. A load or resume that succeeded for this connection also brings it
     * everything the agent still waits for in that session.
     */
    method ForwardReply(id: Key, out: seq<ClientFrame>, origin: Option<PendingRequest>, succeeded: bool, result: Option<string>)
      returns (evict: Option<nat>)
      requires Valid() && AllSilent(out) && NoCalls(out)
      modifies this`client, this`writerQ, this`splices, this`turnResults, this`answered, writerQ,
        reqIDs`pending, reqIDs`byOwner, reqIDs`fates, reqIDs`agentReqs, reqIDs`deliveries
      ensures Valid() && connGen == old(connGen)
      ensures old(Bound()) ==> old(writerQ).routed == old(writerQ.routed) + ReplyFrames(old(reqIDs.pending), Some(id), connGen, out,
        if Restores(origin, connGen, succeeded) then Some(origin.value.session) else None, old(turnResults), old(reqIDs.agentReqs))
      ensures old(Bound()) && (out == [] || id !in old(reqIDs.pending)) ==>
        RepliesIn(old(writerQ).routed) == RepliesIn(old(writerQ.routed)) + RepliesIn(out)
      ensures old(Bound()) && out != [] && id in old(reqIDs.pending) && old(reqIDs.pending)[id].gen != connGen ==>
        RepliesIn(old(writerQ).routed) == RepliesIn(old(writerQ.routed))
      ensures old(Bound()) && out != [] && id in old(reqIDs.pending) && old(reqIDs.pending)[id].gen == connGen ==>
        var reply := out[|out| - 1];
        && RepliesIn(old(writerQ).routed) == RepliesIn(old(writerQ.routed)) + RepliesIn(out[..|out| - 1])
             + (if reply.Response? then [Response(old(reqIDs.pending)[id].clientID, reply.line)] else [])
        && (reply.Response? && writerQ != null ==> |answered| > 0 && answered[|answered| - 1] == Some(id))
      ensures old(Bound()) && origin.Some? && origin.value.kind.Load? && origin.value.gen == connGen && succeeded ==>
        forall r | r in reqIDs.agentReqs && r.session == origin.value.session :: r.deliveredGen == connGen
      ensures Answers(old(reqIDs.pending), Some(id), out) ==> id !in old(reqIDs.fates) && reqIDs.fates == old(reqIDs.fates)[id := Replied]
      ensures !old(Bound()) ==>
        turnResults == if origin.Some? && origin.value.kind.Prompt? && origin.value.session != NO_SESSION && origin.value.gen == connGen && result.Some?
                       then old(turnResults)[origin.value.session := result.value] else old(turnResults)
    {
      hide RequestIDs.Valid, LoadRecovery.Valid, AllHold, RestoreFrames, Redelivered, Routed, AfterTurn, MarkSent;
      hide CallsRecorded, CallsIn, SerialsDistinct, Deliver, Answered, RepliesIn, AllSilent, NoCalls;
      evict := None;
      var frames := RouteReply(id, out);
      if !Bound() {
        if KeepsResult(origin, connGen) && result.Some? {
          turnResults := turnResults[PromptSession(origin.value) := result.value];
        }
        return;
      }
      evict := SendReply(frames, if Restores(origin, connGen, succeeded) then Some(origin.value.session) else None);
    }

    /** Consults the books on a reply, and notes what it answers if it is to be queued. */
    method RouteReply(id: Key, out: seq<ClientFrame>) returns (frames: seq<ClientFrame>)
      requires Valid() && AllSilent(out) && NoCalls(out)
      modifies this`answered, reqIDs`pending, reqIDs`byOwner, reqIDs`fates, reqIDs`agentReqs
      ensures Midway() && CallsSent() && AllSilent(frames) && NoCalls(frames)
      ensures frames == RoutedFrames(old(reqIDs.pending), Some(id), connGen, out)
      ensures writerQ != null ==>
        Answered(RepliesIn(writerQ.routed) + RepliesIn(frames), answered, reqIDs.issued, reqIDs.fates, connGen)
      ensures out == [] || id !in old(reqIDs.pending) ==> RepliesIn(frames) == RepliesIn(out) && reqIDs.agentReqs == old(reqIDs.agentReqs)
      ensures out != [] && id in old(reqIDs.pending) ==>
        && id !in old(reqIDs.fates) && reqIDs.fates == old(reqIDs.fates)[id := Replied]
        && reqIDs.agentReqs == AfterTurn(old(reqIDs.agentReqs), PromptSession(old(reqIDs.pending)[id]))
      ensures out != [] && id in old(reqIDs.pending) && old(reqIDs.pending)[id].gen != connGen ==> RepliesIn(frames) == []
      ensures out != [] && id in old(reqIDs.pending) && old(reqIDs.pending)[id].gen == connGen ==>
        var reply := out[|out| - 1];
        && RepliesIn(frames) == RepliesIn(out[..|out| - 1])
             + (if reply.Response? then [Response(old(reqIDs.pending)[id].clientID, reply.line)] else [])
        && (reply.Response? && writerQ != null ==> |answered| > 0 && answered[|answered| - 1] == Some(id))
    {
      hide RequestIDs.Valid, LoadRecovery.Valid, AllHold, Routed, AfterTurn, MarkSent;
      hide CallsRecorded, CallsIn, SerialsDistinct, Answered, RepliesIn, Tags;
      RoutedSilent(reqIDs.pending, Some(id), connGen, out);
      AfterTurnDelivered(reqIDs.agentReqs, connGen);
      ghost var pending, fates := reqIDs.pending, reqIDs.fates;
      RepliesRouted(pending, id, connGen, out);
      reqIDs.PendingIssued();
      frames := reqIDs.Reply(connGen, Some(id), out);
      if writerQ != null {
        TagsOf(writerQ.routed, pending, id, connGen, out, answered, reqIDs.issued, fates, reqIDs.fates);
        answered := answered + Tags(pending, id, connGen, out);
      }
    }

    /** Queues the frames of a reply, with what the session it restores, if any, is owed. */
    method SendReply(frames: seq<ClientFrame>, restores: Option<SessionID>) returns (evict: Option<nat>)
      requires Midway() && CallsSent() && Bound() && AllSilent(frames) && NoCalls(frames)
      requires Answered(RepliesIn(writerQ.routed) + RepliesIn(frames), answered, reqIDs.issued, reqIDs.fates, connGen)
      modifies this`client, this`writerQ, this`splices, this`turnResults, writerQ, reqIDs`agentReqs, reqIDs`deliveries
      ensures Valid()
      ensures old(writerQ).routed == old(writerQ.routed) +
        if restores.None? then frames
        else RestoreFrames(frames, ResultOf(old(turnResults), restores.value), Redelivered(old(reqIDs.agentReqs), connGen, restores.value))
      ensures RepliesIn(old(writerQ).routed) == RepliesIn(old(writerQ.routed)) + RepliesIn(frames)
      ensures restores.Some? ==> forall r | r in reqIDs.agentReqs && r.session == restores.value :: r.deliveredGen == connGen
    {
      hide RequestIDs.Valid, LoadRecovery.Valid, AllHold, RestoreFrames, Redelivered, MarkSent;
      hide CallsRecorded, CallsIn, SerialsDistinct, Deliver, Answered, RepliesIn;
      var out := frames;
      if restores.Some? {
        var session := restores.value;
        ghost var missed, reqs := ResultOf(turnResults, session), reqIDs.agentReqs;
        RedeliveredSilent(reqs, connGen, session);
        RestoreSilent(frames, missed, Redelivered(reqs, connGen, session));
        reqIDs.Serials();
        out := Restore(session, frames);
        CallsOwed(writerQ.routed, frames, missed, reqs, reqIDs.tracked, old(reqIDs.deliveries), connGen, session, earlier);
        RepliesRestored(frames, missed, reqs, connGen, session);
      } else {
        CallsQuiet(writerQ.routed, frames);
      }
      RepliesConcat(writerQ.routed, out);
      evict := QueueSilent(out);
    }

    /**
     * The agent's own request: remembered until it is answered, and put on the bound connection, if any, for
     * the only time this side of a restore.
     */
    method ForwardRequest(key: Key, line: string, session: SessionID, ask: Attention, requestID: Option<Key>)
      returns (evict: Option<nat>)
      requires Valid()
      modifies this`client, this`writerQ, this`splices, writerQ, reqIDs`agentReqs, reqIDs`tracked, reqIDs`deliveries
      ensures Valid()
      ensures |reqIDs.agentReqs| > 0
      ensures var r := reqIDs.agentReqs[|reqIDs.agentReqs| - 1];
        && r.key == key && r.frame == line && r.session == session && r.serial == old(reqIDs.tracked)
        && r.deliveredGen == (if old(Bound()) then connGen else 0)
        && (old(Bound()) ==> old(writerQ).routed == old(writerQ.routed) + [FrameOf(r)])
        && reqIDs.agentReqs == Track(old(reqIDs.agentReqs), r)
    {
      hide RequestIDs.Valid, LoadRecovery.Valid, AllHold, Track, CallsRecorded, CallsIn, Answered, RepliesIn;
      evict := None;
      var deliveredGen := if Bound() then connGen else 0;
      ghost var (attention, chat) := reqIDs.AttentionFor(ask, session, requestID);
      var serial := reqIDs.tracked;
      ghost var r := AgentRequest(key, serial, line, session, deliveredGen, attention, chat);
      TrackForgets(reqIDs.agentReqs, r);
      TrackDelivered(reqIDs.agentReqs, r, connGen);
      reqIDs.TrackAgentRequest(key, line, session, ask, requestID, deliveredGen);
      if Bound() {
        CallsOne(writerQ.routed, serial, line, old(reqIDs.deliveries), connGen, earlier);
        RepliesQuiet(writerQ.routed, [AgentCall(serial, line)]);
        evict := QueueSilent([AgentCall(serial, line)]);
      }
    }

    /** Any other frame passes through. */
    method ForwardNotice(line: string) returns (evict: Option<nat>)
      requires Valid()
      modifies this`client, this`writerQ, this`splices, writerQ
      ensures Valid()
      ensures old(Bound()) ==> old(writerQ).routed == old(writerQ.routed) + [Other(line)]
    {
      hide RequestIDs.Valid, LoadRecovery.Valid, AllHold;
      evict := None;
      if Bound() {
        CallsQuiet(writerQ.routed, [Other(line)]);
        RepliesQuiet(writerQ.routed, [Other(line)]);
        evict := QueueSilent([Other(line)]);
      }
    }

    // ----- Client to agent -----

    /** Gives a client request its agent-side id; a prompt supersedes the result kept for its session. */
    method Translate(gen: nat, clientID: string, kind: Kind, session: SessionID, now: int) returns (agentID: Key)
      requires Valid()
      modifies this`turnResults, reqIDs`next, reqIDs`pending, reqIDs`byOwner, reqIDs`issued
      ensures Valid() && agentID !in old(reqIDs.issued) && agentID in reqIDs.pending
      ensures turnResults == if kind.Prompt? then old(turnResults) - {session} else old(turnResults)
    {
      hide RequestIDs.Valid, LoadRecovery.Valid, AllHold;
      agentID := reqIDs.Outbound(gen, clientID, kind, session, now);
      if kind.Prompt? {
        turnResults := turnResults - {session};
      }
    }

    /** Buffers a prompt for replay. The client that sent it is not sent it again, so no splice changes. */
    method BufferPrompt(sid: SessionID, blocks: seq<string>, clientID: string, promptID: Key)
      requires Valid()
      modifies recovery
      ensures Valid()
      ensures recovery.Ops(sid) == old(recovery.Ops(sid)) + recovery.Chunks(blocks, clientID, promptID.text, old(recovery.Of(sid)).head)
    {
      hide RequestIDs.Valid, LoadRecovery.Valid, AllHold, LoadRecovery.Of;
      ghost var was := recovery.ops;
      ghost var chunks := recovery.Chunks(blocks, clientID, promptID.text, recovery.Of(sid).head);
      ChunksQuiet(recovery, blocks, clientID, promptID.text, recovery.Of(sid).head);
      recovery.BufferPrompt(sid, blocks, clientID, promptID.text);
      if writerQ != null {
        forall s | s != sid ensures At(recovery.ops, s, []) == At(was, s, []) { assert recovery.Ops(s) == old(recovery.Ops(s)); }
        BlocksHold(writerQ.routed, was, recovery.ops, splices, sid, chunks);
      }
    }

    /**
     * What the bound client is sent of a session from a catch-up reply on: the replay and then every live
     * update, in order, each agent update past its cursor that still is part of the conversation once and no
     * other. The queue hands it over whole.
     */
    lemma SeamlessStream(sid: SessionID)
      requires Valid() && writerQ != null && sid in splices
      ensures var sp, t, prompts := splices[sid], Run(recovery.Ops(sid)), Prompts(recovery.Ops(sid));
        && sp.start <= |writerQ.routed| && writerQ.taken + writerQ.frames == writerQ.routed
        && Shown(writerQ.routed[sp.start..], sid) == Map(sp.sent, LineText)
        && Keep(sp.sent, FromAgent(prompts)) == Keep(Keep(Log(t), RankAbove(sp.after)), FromAgent(prompts))
        && Ordered(sp.sent) && forall f | f in sp.sent :: sp.after < Rank(f)
    {
      hide RequestIDs.Valid, LoadRecovery.Valid, Run, Prompts, Shown, Keep, Map, Ordered, Log;
    }

    /** No agent request is on the connection twice: it was sent those delivered to it since it was bound. */
    lemma EachCallOnce()
      requires Valid() && writerQ != null
      ensures var calls := CallsIn(writerQ.routed);
        && (forall i, j | 0 <= i < j < |calls| :: calls[i] != calls[j])
        && forall n :: n in calls <==> (n, writerQ.gen) in reqIDs.deliveries && n !in earlier
    {
      hide RequestIDs.Valid, LoadRecovery.Valid, AllHold, CallsIn;
    }

    /**
     * A reply that answers a forwarded request is on the connection that sent the request, under the id its client
     * gave it, and there is one at most.
     */
    lemma OwnReplies()
      requires Valid() && writerQ != null
      ensures var replies := Keep(writerQ.routed, IsReply());
        && |replies| == |answered|
        && (forall i | 0 <= i < |replies| && answered[i].Some? ::
              && answered[i].value in reqIDs.issued && replies[i].Response?
              && reqIDs.issued[answered[i].value].gen == writerQ.gen && reqIDs.issued[answered[i].value].clientID == replies[i].id)
        && (forall i, j | 0 <= i < j < |replies| && answered[i].Some? :: answered[i] != answered[j])
    {
      hide RequestIDs.Valid, LoadRecovery.Valid, AllHold, CallsRecorded, Keep;
    }

    /** The agent rejected a prompt, or it never reached the agent. */
    method RejectPrompt(sid: SessionID, promptID: Key)
      requires Valid()
      modifies recovery
      ensures Valid() && recovery.ops == Add(old(recovery.ops), sid, Reject(promptID.text))
    {
      hide RequestIDs.Valid, LoadRecovery.Valid, AllHold;
      if writerQ != null { QuietHold(writerQ.routed, recovery.ops, splices, sid, Reject(promptID.text)); }
      recovery.ForgetPrompt(sid, promptID.text);
    }
  }

  lemma TrackDelivered(reqs: seq<AgentRequest>, r: AgentRequest, gen: nat)
    requires r.deliveredGen <= gen && forall i | 0 <= i < |reqs| :: reqs[i].deliveredGen <= gen
    ensures forall i | 0 <= i < |Track(reqs, r)| :: Track(reqs, r)[i].deliveredGen <= gen
  {
    hide Keep;
    var others := Keep(reqs, RequestIds.Unnamed(r.key));
    forall i | 0 <= i < |others| ensures others[i].deliveredGen <= gen { KeepIn(reqs, RequestIds.Unnamed(r.key), others[i]); }
  }

  predicate Blocks(ops: seq<Op>) {
    forall op | op in ops :: op.PromptBlock?
  }

  lemma {:induction false} ChunksQuiet(r: LoadRecovery, blocks: seq<string>, clientID: string, promptID: string, head: int)
    ensures Blocks(r.Chunks(blocks, clientID, promptID, head))
    decreases blocks
  {
    if blocks != [] {
      ChunksQuiet(r, blocks[1..], clientID, promptID, head + 1);
      ChunksQuiet(r, blocks[1..], clientID, promptID, head);
    }
  }

  /** Prompt blocks of sid change no splice. */
  lemma {:induction false} BlocksHold(routed: seq<ClientFrame>, ops: map<SessionID, seq<Op>>, now: map<SessionID, seq<Op>>,
                                      splices: map<SessionID, Spliced>, sid: SessionID, more: seq<Op>)
    requires AllHold(routed, ops, splices) && Blocks(more)
    requires At(now, sid, []) == At(ops, sid, []) + more
    requires forall s | s != sid :: At(now, s, []) == At(ops, s, [])
    ensures AllHold(routed, now, splices)
    decreases more
  {
    hide SpliceHolds, Prompts, Run;
    if more == [] {
      assert At(ops, sid, []) + [] == At(ops, sid, []);
    } else {
      assert more[0] in more;
      QuietHold(routed, ops, splices, sid, more[0]);
      assert At(ops, sid, []) + more == At(Add(ops, sid, more[0]), sid, []) + more[1..];
      BlocksHold(routed, Add(ops, sid, more[0]), now, splices, sid, more[1..]);
    }
  }

  /** A prompt of this connection that ended while nobody was bound: its outcome is kept for the next attach. */
  predicate KeepsResult(origin: Option<PendingRequest>, connGen: nat) {
    origin.Some? && origin.value.gen == connGen && PromptSession(origin.value) != NO_SESSION
  }

  predicate Restores(origin: Option<PendingRequest>, connGen: nat, succeeded: bool) {
    origin.Some? && origin.value.kind.Load? && origin.value.gen == connGen && succeeded
  }

  function RoutedFrames(pending: map<Key, PendingRequest>, id: Option<Key>, connGen: nat, out: seq<ClientFrame>): seq<ClientFrame> {
    if Answers(pending, id, out) then Routed(pending[id.value], connGen, out) else out
  }

  /** What an agent reply puts on the bound connection. */
  function ReplyFrames(pending: map<Key, PendingRequest>, id: Option<Key>, connGen: nat, out: seq<ClientFrame>,
                       restores: Option<SessionID>, results: map<SessionID, string>, reqs: seq<AgentRequest>): seq<ClientFrame> {
    var frames := RoutedFrames(pending, id, connGen, out);
    var left := if Answers(pending, id, out) then AfterTurn(reqs, PromptSession(pending[id.value])) else reqs;
    if restores.None? then frames
    else RestoreFrames(frames, ResultOf(results, restores.value), Redelivered(left, connGen, restores.value))
  }

  lemma RoutedSilent(pending: map<Key, PendingRequest>, id: Option<Key>, connGen: nat, out: seq<ClientFrame>)
    requires AllSilent(out)
    ensures AllSilent(RoutedFrames(pending, id, connGen, out))
    ensures NoCalls(out) ==> NoCalls(RoutedFrames(pending, id, connGen, out))
  {
  }

  lemma AfterTurnDelivered(reqs: seq<AgentRequest>, gen: nat)
    requires forall i | 0 <= i < |reqs| :: reqs[i].deliveredGen <= gen
    ensures forall session, i | 0 <= i < |AfterTurn(reqs, session)| :: AfterTurn(reqs, session)[i].deliveredGen <= gen
  {
    hide Keep;
    forall session, i | 0 <= i < |AfterTurn(reqs, session)| ensures AfterTurn(reqs, session)[i].deliveredGen <= gen {
      if session != NO_SESSION { KeepIn(reqs, Outside(session), AfterTurn(reqs, session)[i]); }
    }
  }
}
