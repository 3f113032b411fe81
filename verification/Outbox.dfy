/**
 * The transactional outbox, exactly once: over every run, with crashes, retries, reaps and replays anywhere, the
 * messages whose origin is a given delivery are all the lines of its one successful execution, or none.
 */
module Outbox {
  import opened Bytes
  import opened Keys
  import opened Stamps
  import opened Workflow
  import opened Tables
  import opened Engine
  import opened Integrity
  import opened Ownership
  import opened Transitions
  import Frames
  import Streams

  type Emissions = map<Id, Emission>

  function DoneIds(db: Db): set<Id> {
    set id | id in db.deliveries && db.deliveries[id].state.Done?
  }

  /** The row names a version that exists. */
  predicate HasPinned(actions: Actions, row: Row) {
    row.version.Some? && row.action in actions && 1 <= row.version.value <= |actions[row.action]|
  }

  /** The definition a row was claimed under. */
  function PinnedDef(actions: Actions, row: Row): Definition
    requires HasPinned(actions, row)
  {
    actions[row.action][row.version.value - 1].def
  }

  function From(row: Row): Origin
    requires row.version.Some?
  {
    Origin(row.action, row.version.value, row.msg)
  }

  /** One emitted message: the line, on the pinned version's output queue, one hop on, in the same trace. */
  ghost predicate EmittedOk(messages: map<Id, Message>, row: Row, output: Queue, m: Id, payload: Data)
    requires row.version.Some?
  {
    && row.msg in messages && m in messages
    && var in_, out := messages[row.msg], messages[m];
       && out.queue == output && out.payload == payload && out.trace == in_.trace
       && out.headers == Hops(MessageHops(in_.headers) + 1) && out.origin == Some(From(row))
  }

  ghost predicate Lists(messages: map<Id, Message>, row: Row, output: Queue, mids: seq<Id>, payloads: seq<Data>)
    requires row.version.Some?
  {
    && Increasing(mids) && |mids| == |payloads|
    && forall i {:trigger EmittedOk(messages, row, output, mids[i], payloads[i])} | 0 <= i < |mids| ::
         EmittedOk(messages, row, output, mids[i], payloads[i])
  }

  /** The payloads a definition publishes from a standard output that parsed. */
  function Published(cfg: Config, def: Definition, stdout: Data): Option<seq<Data>> {
    var lines := Streams.Parse(cfg.valid, stdout);
    if lines.None? then None else Some(if def.output == "" then [] else lines.value)
  }

  /** A completed delivery's messages are precisely the lines of its standard output, in order. */
  ghost predicate EmissionOk(cfg: Config, db: Db, id: Id, em: Emission) {
    && id in db.deliveries && HasPinned(db.actions, db.deliveries[id])
    && var def := PinnedDef(db.actions, db.deliveries[id]);
       var payloads := Published(cfg, def, em.stdout);
       payloads.Some? && Lists(db.messages, db.deliveries[id], def.output, em.mids, payloads.value)
  }

  ghost predicate AllEmitted(cfg: Config, db: Db, outbox: Emissions) {
    forall id {:trigger EmissionOk(cfg, db, id, outbox[id])} | id in outbox :: EmissionOk(cfg, db, id, outbox[id])
  }

  /** A message with an origin was emitted by that delivery. */
  ghost predicate Accounted(db: Db, outbox: Emissions, m: Id)
    requires m in db.messages
  {
    db.messages[m].origin.Some? ==>
      exists id | id in outbox && id in db.deliveries ::
        m in outbox[id].mids && db.deliveries[id].version.Some? &&
        db.messages[m].origin.value == From(db.deliveries[id])
  }

  ghost predicate AllAccounted(db: Db, outbox: Emissions) {
    forall m {:trigger Accounted(db, outbox, m)} | m in db.messages :: Accounted(db, outbox, m)
  }

  ghost predicate OutboxOk(cfg: Config, db: Db, outbox: Emissions) {
    outbox.Keys == DoneIds(db) && AllEmitted(cfg, db, outbox) && AllAccounted(db, outbox)
  }

  // What keeps it.

  ghost predicate VersionsKept(a: Actions, b: Actions) {
    forall n, v, d | HasVersion(a, n, v, d) :: HasVersion(b, n, v, d)
  }

  ghost predicate MessagesKept(db: Db, r: Db) {
    forall m | m in db.messages :: m in r.messages && r.messages[m] == db.messages[m]
  }

  lemma ListsKept(messages: map<Id, Message>, after: map<Id, Message>, row: Row, output: Queue, mids: seq<Id>,
                  payloads: seq<Data>)
    requires row.version.Some? && Lists(messages, row, output, mids, payloads)
    requires forall m | m in messages :: m in after && after[m] == messages[m]
    ensures Lists(after, row, output, mids, payloads)
  {
    forall i | 0 <= i < |mids| ensures EmittedOk(after, row, output, mids[i], payloads[i]) {
      assert EmittedOk(messages, row, output, mids[i], payloads[i]);
    }
  }

  lemma PinnedKept(a: Actions, b: Actions, row: Row)
    requires HasPinned(a, row) && VersionsKept(a, b)
    ensures HasPinned(b, row) && PinnedDef(b, row) == PinnedDef(a, row)
  {
    assert HasVersion(a, row.action, row.version.value, PinnedDef(a, row));
  }

  lemma EmissionKept(cfg: Config, db: Db, r: Db, id: Id, em: Emission)
    requires EmissionOk(cfg, db, id, em)
    requires id in r.deliveries && r.deliveries[id] == db.deliveries[id]
    requires MessagesKept(db, r) && VersionsKept(db.actions, r.actions)
    ensures EmissionOk(cfg, r, id, em)
  {
    var row := db.deliveries[id];
    PinnedKept(db.actions, r.actions, row);
    var def := PinnedDef(db.actions, row);
    ListsKept(db.messages, r.messages, row, def.output, em.mids, Published(cfg, def, em.stdout).value);
  }

  /** Any step that completes nothing and appends only ingress. */
  lemma OutboxKept(cfg: Config, db: Db, r: Db, outbox: Emissions)
    requires OutboxOk(cfg, db, outbox) && AllEvolve(db, r) && DoneIds(r) == DoneIds(db)
    requires MessagesKept(db, r) && VersionsKept(db.actions, r.actions)
    requires forall m | m in r.messages && m !in db.messages :: r.messages[m].origin.None?
    ensures OutboxOk(cfg, r, outbox)
  {
    forall id | id in outbox ensures EmissionOk(cfg, r, id, outbox[id]) {
      DoneRowKept(db, r, id);
      assert EmissionOk(cfg, db, id, outbox[id]);
      EmissionKept(cfg, db, r, id, outbox[id]);
    }
    forall m | m in r.messages ensures Accounted(r, outbox, m) {
      if m in db.messages {
        AccountedKept(db, r, outbox, outbox, m);
      }
    }
  }

  lemma DoneRowKept(db: Db, r: Db, id: Id)
    requires AllEvolve(db, r) && id in DoneIds(db)
    ensures id in r.deliveries && r.deliveries[id] == db.deliveries[id]
  {
    assert Evolves(db.deliveries[id], r.deliveries[id]);
  }

  lemma AccountedKept(db: Db, r: Db, outbox: Emissions, after: Emissions, m: Id)
    requires AllAccounted(db, outbox) && AllEvolve(db, r) && outbox.Keys == DoneIds(db)
    requires m in db.messages && m in r.messages && r.messages[m] == db.messages[m]
    requires forall id | id in outbox :: id in after && after[id] == outbox[id]
    ensures Accounted(r, after, m)
  {
    assert Accounted(db, outbox, m);
    if db.messages[m].origin.Some? {
      var id :| id in outbox && id in db.deliveries && m in outbox[id].mids &&
                db.deliveries[id].version.Some? && db.messages[m].origin.value == From(db.deliveries[id]);
      DoneRowKept(db, r, id);
      assert m in after[id].mids;
    }
  }

  // Completion.

  lemma CompletedDone(db: Db, id: Id, stderr: Data, outs: seq<Outgoing>, ids: seq<Id>, now: Stamp)
    requires Insertable(db, outs, ids) && id in db.deliveries && db.deliveries[id].state.Claimed?
    ensures DoneIds(Complete(db, id, stderr, outs, ids, now).value) == DoneIds(db) + {id}
  {
    var mid := MarkDone(db, id, stderr, now);
    MarkedDone(db.deliveries, id, mid.deliveries[id]);
    InsertDone(mid, outs, ids);
  }

  lemma MarkedDone(deliveries: map<Id, Row>, id: Id, row: Row)
    requires id in deliveries && row.state.Done?
    ensures forall db: Db, r: Db | db.deliveries == deliveries && r.deliveries == deliveries[id := row] ::
      DoneIds(r) == DoneIds(db) + {id}
  {
  }

  /** The tables just after a completion, as far as the outbox is concerned. */
  ghost predicate JustCompleted(db: Db, r: Db, x: Exec, id: Id, payloads: seq<Data>, mids: seq<Id>, now: Stamp) {
    && id in db.deliveries && id in r.deliveries && !db.deliveries[id].state.Done?
    && r.deliveries[id] == db.deliveries[id].(state := Done, stderr := r.deliveries[id].stderr,
         completedAt := r.deliveries[id].completedAt, pgid := r.deliveries[id].pgid)
    && r.actions == db.actions && AllEvolve(db, r) && DoneIds(r) == DoneIds(db) + {id}
    && MessagesKept(db, r) && Increasing(mids) && |mids| == |payloads|
    && (forall i | 0 <= i < |mids| ::
          mids[i] in r.messages && r.messages[mids[i]] == OutputMessage(x, payloads[i], now))
    && (forall m | m in r.messages && m !in db.messages :: m in mids)
  }

  lemma Completed(db: Db, x: Exec, id: Id, stderr: Data, payloads: seq<Data>, mids: seq<Id>, ids: seq<Id>, now: Stamp)
    requires id in db.deliveries && db.deliveries[id].state.Claimed? && |mids| == |payloads| && Increasing(mids)
    requires Insertable(db, BuildOutputs(x, payloads, mids, now), ids)
    ensures var r := Complete(db, id, stderr, BuildOutputs(x, payloads, mids, now), ids, now);
      r.Some? && JustCompleted(db, r.value, x, id, payloads, mids, now)
  {
    var outs := BuildOutputs(x, payloads, mids, now);
    var r := Complete(db, id, stderr, outs, ids, now).value;
    CompleteEvolves(db, id, stderr, outs, ids, now);
    CompletedDone(db, id, stderr, outs, ids, now);
    InsertedMessages(db.messages, x, payloads, mids, now);
    assert r.messages == InsertMessages(db.messages, outs);
    assert id !in ids;
  }

  lemma InsertedMessages(messages: map<Id, Message>, x: Exec, payloads: seq<Data>, mids: seq<Id>, now: Stamp)
    requires |mids| == |payloads|
    requires var outs := BuildOutputs(x, payloads, mids, now);
      DistinctIds(outs) && forall i | 0 <= i < |outs| :: outs[i].id !in messages
    ensures var r := InsertMessages(messages, BuildOutputs(x, payloads, mids, now));
      && (forall m | m in messages :: m in r && r[m] == messages[m])
      && (forall i | 0 <= i < |mids| :: mids[i] in r && r[mids[i]] == OutputMessage(x, payloads[i], now))
      && (forall m | m in r && m !in messages :: m in mids)
  {
    var outs := BuildOutputs(x, payloads, mids, now);
    var r := InsertMessages(messages, outs);
    forall i | 0 <= i < |mids| ensures mids[i] in r && r[mids[i]] == OutputMessage(x, payloads[i], now) {
      assert outs[i].id == mids[i];
    }
    forall m | m in r && m !in messages ensures m in mids {
      var i :| 0 <= i < |outs| && outs[i].id == m;
      assert mids[i] == m;
    }
  }

  lemma NewEmission(cfg: Config, db: Db, r: Db, x: Exec, id: Id, o: Outcome, payloads: seq<Data>, mids: seq<Id>,
                    now: Stamp)
    requires ExecOk(cfg, db, id, x) && Emits(cfg, x.info, o) == Some(payloads)
    requires JustCompleted(db, r, x, id, payloads, mids, now)
    ensures EmissionOk(cfg, r, id, Emission(o.stdout, mids))
  {
    hide Streams.Parse;
    var row := r.deliveries[id];
    assert HasPinned(r.actions, row) && PinnedDef(r.actions, row) == x.info.def;
    forall i | 0 <= i < |mids| ensures EmittedOk(r.messages, row, x.info.def.output, mids[i], payloads[i]) {
      assert r.messages[mids[i]] == OutputMessage(x, payloads[i], now);
    }
  }

  lemma NewAccounted(cfg: Config, db: Db, r: Db, x: Exec, id: Id, payloads: seq<Data>, mids: seq<Id>, now: Stamp,
                     after: Emissions, m: Id)
    requires ExecOk(cfg, db, id, x) && JustCompleted(db, r, x, id, payloads, mids, now)
    requires id in after && after[id].mids == mids && m in r.messages && m !in db.messages
    ensures Accounted(r, after, m)
  {
    var i :| 0 <= i < |mids| && mids[i] == m;
    assert r.messages[m] == OutputMessage(x, payloads[i], now);
    assert m in after[id].mids && r.messages[m].origin.value == From(r.deliveries[id]);
  }

  lemma CompletionEmits(cfg: Config, db: Db, r: Db, outbox: Emissions, x: Exec, id: Id, o: Outcome,
                        payloads: seq<Data>, mids: seq<Id>, now: Stamp)
    requires OutboxOk(cfg, db, outbox) && ExecOk(cfg, db, id, x) && Emits(cfg, x.info, o) == Some(payloads)
    requires JustCompleted(db, r, x, id, payloads, mids, now)
    ensures OutboxOk(cfg, r, outbox[id := Emission(o.stdout, mids)])
  {
    var after := outbox[id := Emission(o.stdout, mids)];
    assert id !in outbox.Keys;
    NewEmission(cfg, db, r, x, id, o, payloads, mids, now);
    forall d | d in after ensures EmissionOk(cfg, r, d, after[d]) {
      if d != id {
        assert d in outbox.Keys;
        DoneRowKept(db, r, d);
        assert EmissionOk(cfg, db, d, outbox[d]);
        EmissionKept(cfg, db, r, d, outbox[d]);
      }
    }
    forall m | m in r.messages ensures Accounted(r, after, m) {
      if m in db.messages {
        AccountedKept(db, r, outbox, after, m);
      } else {
        NewAccounted(cfg, db, r, x, id, payloads, mids, now, after, m);
      }
    }
    assert after.Keys == DoneIds(r);
  }

  // Steps.

  lemma ReceiveOutbox(cfg: Config, s: Sys, id: Id, ok: bool, now: Stamp, gate: Stamp, mids: seq<Id>, ids: seq<Id>)
    requires Inv(cfg, s) && CanReceive(cfg, s, id, now, mids, ids) && OutboxOk(cfg, s.db, s.h.outbox)
    ensures var t := DoReceive(cfg, s, id, ok, now, gate, mids, ids); OutboxOk(cfg, t.db, t.h.outbox)
  {
    var x := s.execs[id];
    var emits := Emits(cfg, x.info, x.phase.outcome);
    assert ExecOk(cfg, s.db, id, x);
    if ok && emits.Some? {
      Completed(s.db, x, id, x.phase.outcome.stderr, emits.value, mids, ids, now);
      var r := Complete(s.db, id, x.phase.outcome.stderr, BuildOutputs(x, emits.value, mids, now), ids, now).value;
      CompletionEmits(cfg, s.db, r, s.h.outbox, x, id, x.phase.outcome, emits.value, mids, now);
    } else if ok {
      ReceiveEvolves(cfg, s, id, ok, now, gate, mids, ids);
      FailedOutbox(cfg, s.db, s.h.outbox, id, x.work.row.attempt >= x.info.maxAttempts, gate,
                   if x.phase.outcome.failed then Execution else BadStdout, x.phase.outcome.stderr, now);
    }
  }

  lemma FailedOutbox(cfg: Config, db: Db, outbox: Emissions, id: Id, dead: bool, gate: Stamp, reason: Reason,
                     stderr: Data, now: Stamp)
    requires OutboxOk(cfg, db, outbox) && id in db.deliveries && db.deliveries[id].state.Claimed?
    ensures OutboxOk(cfg, Fail(db, id, dead, gate, reason, stderr, now).value, outbox)
  {
    var r := Fail(db, id, dead, gate, reason, stderr, now).value;
    assert DoneIds(r) == DoneIds(db);
    OutboxKept(cfg, db, r, outbox);
  }

  lemma DaemonOutbox(cfg: Config, s: Sys, d: DaemonEvent)
    requires Inv(cfg, s) && CanDaemon(s, d) && OutboxOk(cfg, s.db, s.h.outbox)
    ensures var t := DoDaemon(s, d); OutboxOk(cfg, t.db, t.h.outbox)
  {
    var t := DoDaemon(s, d);
    DaemonEvolves(cfg, s, d);
    assert DoneIds(t.db) == DoneIds(s.db);
    OutboxKept(cfg, s.db, t.db, s.h.outbox);
  }

  /** A waiting row rewritten into anything but done. */
  lemma MovedOutbox(cfg: Config, db: Db, outbox: Emissions, id: Id, row: Row)
    requires OutboxOk(cfg, db, outbox) && id in db.deliveries && Waiting(db.deliveries[id].state)
    requires SamePair(db.deliveries[id], row) && Arrow(db.deliveries[id].state, row.state)
    ensures OutboxOk(cfg, db.(deliveries := db.deliveries[id := row]), outbox)
  {
    var r := db.(deliveries := db.deliveries[id := row]);
    assert DoneIds(r) == DoneIds(db);
    OutboxKept(cfg, db, r, outbox);
  }

  lemma DecideOutbox(cfg: Config, s: Sys, ok: bool)
    requires Inv(cfg, s) && CanDispatch(s, Decide(ok)) && OutboxOk(cfg, s.db, s.h.outbox)
    ensures var t := DoDecide(cfg, s, ok); OutboxOk(cfg, t.db, t.h.outbox)
  {
    var info, w := s.pc.plan.infos[s.pc.k], s.pc.work;
    SettlesTerminal(cfg, info, w.msg);
    var d := Decision(cfg, info, w.msg);
    if !ok {
    } else if d.Settle? {
      var r := Resolve(s.db, w.id, d.state, d.error, s.pc.plan.now).value;
      MovedOutbox(cfg, s.db, s.h.outbox, w.id, r.deliveries[w.id]);
    } else {
      var r := Claim(s.db, w.id, info.version, s.pc.plan.now).value;
      MovedOutbox(cfg, s.db, s.h.outbox, w.id, r.deliveries[w.id]);
    }
  }

  lemma DispatchOutbox(cfg: Config, s: Sys, p: DispatchEvent)
    requires Inv(cfg, s) && CanDispatch(s, p) && OutboxOk(cfg, s.db, s.h.outbox)
    ensures var t := DoDispatch(cfg, s, p); OutboxOk(cfg, t.db, t.h.outbox)
  {
    if p.Decide? {
      DecideOutbox(cfg, s, p.ok);
    } else {
      Frames.DispatchFrame(cfg, s, p);
    }
  }

  lemma LoopOutbox(cfg: Config, s: Sys, l: LoopEvent)
    requires CanLoop(s, l) && OutboxOk(cfg, s.db, s.h.outbox)
    ensures var t := DoLoop(s, l); OutboxOk(cfg, t.db, t.h.outbox)
  {
    var t := DoLoop(s, l);
    Frames.LoopFrame(s, l);
    LoopEvolves(s, l);
    assert DoneIds(t.db) == DoneIds(s.db);
    OutboxKept(cfg, s.db, t.db, s.h.outbox);
  }

  lemma WorkOutbox(cfg: Config, s: Sys, w: WorkerEvent)
    requires CanWork(cfg, s, w) && OutboxOk(cfg, s.db, s.h.outbox)
    ensures var t := DoWork(cfg, s, w); OutboxOk(cfg, t.db, t.h.outbox)
  {
    var t := DoWork(cfg, s, w);
    WorkEvolves(cfg, s, w);
    assert DoneIds(t.db) == DoneIds(s.db);
    OutboxKept(cfg, s.db, t.db, s.h.outbox);
  }

  lemma InsertDone(db: Db, outs: seq<Outgoing>, ids: seq<Id>)
    requires Insertable(db, outs, ids)
    ensures DoneIds(Insert(db, outs, ids)) == DoneIds(db)
  {
    forall d ensures d in DoneIds(Insert(db, outs, ids)) <==> d in DoneIds(db) {
      if d in ids {
        InsertedRow(db, outs, ids, d);
      }
    }
  }

  lemma SendOutbox(cfg: Config, s: Sys, out: Outgoing, ids: seq<Id>)
    requires Insertable(s.db, [out], ids) && OutboxOk(cfg, s.db, s.h.outbox) && out.msg.origin.None?
    ensures OutboxOk(cfg, Insert(s.db, [out], ids), s.h.outbox)
  {
    var r := Insert(s.db, [out], ids);
    InsertDone(s.db, [out], ids);
    forall m | m in r.messages && m !in s.db.messages ensures r.messages[m].origin.None? {
      assert Among([out], m);
    }
    OutboxKept(cfg, s.db, r, s.h.outbox);
  }

  lemma ReplayOutbox(cfg: Config, s: Sys, id: Id)
    requires Replay(s.db, id).Replayed? && OutboxOk(cfg, s.db, s.h.outbox)
    ensures OutboxOk(cfg, Replay(s.db, id).db, s.h.outbox)
  {
    var r := Replay(s.db, id).db;
    assert DoneIds(r) == DoneIds(s.db);
    OutboxKept(cfg, s.db, r, s.h.outbox);
  }

  lemma RegistryOutbox(cfg: Config, db: Db, outbox: Emissions, actions: Actions)
    requires OutboxOk(cfg, db, outbox) && VersionsKept(db.actions, actions)
    ensures OutboxOk(cfg, db.(actions := actions), outbox)
  {
    var r := db.(actions := actions);
    assert DoneIds(r) == DoneIds(db);
    OutboxKept(cfg, db, r, outbox);
  }

  lemma RequestOutbox(cfg: Config, s: Sys, q: RequestEvent)
    requires CanRequest(s, q) && OutboxOk(cfg, s.db, s.h.outbox)
    ensures var t := DoRequest(s, q); OutboxOk(cfg, t.db, t.h.outbox)
  {
    match q
    case Send(mid, queue, payload, headers, trace, now, ids) =>
      SendOutbox(cfg, s, Outgoing(mid, Ingress(queue, payload, headers, trace, now)), ids);
    case ReplayRow(id) => ReplayOutbox(cfg, s, id);
    case Register(name, def) =>
      var after := Apply(s.db.actions, name, def);
      forall n, v, d | HasVersion(s.db.actions, n, v, d) ensures HasVersion(after, n, v, d) {
        VersionsStay(s.db.actions, n, v, d, name, def, true);
      }
      RegistryOutbox(cfg, s.db, s.h.outbox, after);
    case Switch(name, on) =>
      var after := SetEnabled(s.db.actions, name, on);
      forall n, v, d | HasVersion(s.db.actions, n, v, d) ensures HasVersion(after, n, v, d) {
        VersionsStay(s.db.actions, n, v, d, name, d, on);
      }
      RegistryOutbox(cfg, s.db, s.h.outbox, after);
    case _ =>
  }

  lemma StepOutbox(cfg: Config, s: Sys, e: Event)
    requires Inv(cfg, s) && Can(cfg, s, e) && OutboxOk(cfg, s.db, s.h.outbox)
    ensures var t := Do(cfg, s, e); OutboxOk(cfg, t.db, t.h.outbox)
  {
    match e
    case Daemon(d) => DaemonOutbox(cfg, s, d);
    case Dispatch(p) => DispatchOutbox(cfg, s, p);
    case Loop(l) => LoopOutbox(cfg, s, l);
    case Receive(id, ok, now, gate, mids, ids) => ReceiveOutbox(cfg, s, id, ok, now, gate, mids, ids);
    case Worker(w) => WorkOutbox(cfg, s, w);
    case Request(q) => RequestOutbox(cfg, s, q);
    case Track(t) =>
  }

  lemma {:induction false} RunOutbox(cfg: Config, es: seq<Event>)
    ensures var s := Run(cfg, START, es); OutboxOk(cfg, s.db, s.h.outbox)
  {
    if es == [] {
      assert DoneIds(START.db) == {};
    } else {
      var n := |es| - 1;
      RunOutbox(cfg, es[..n]);
      RunInv(cfg, es[..n]);
      if Can(cfg, Run(cfg, START, es[..n]), es[n]) {
        StepOutbox(cfg, Run(cfg, START, es[..n]), es[n]);
      }
    }
  }

  // The result.

  /** The messages a (message, action) pair has produced. */
  ghost function Produced(db: Db, row: Row): set<Id> {
    set m | m in db.messages && db.messages[m].origin.Some?
            && db.messages[m].origin.value.action == row.action && db.messages[m].origin.value.msg == row.msg
  }

  /**
   * Exactly once, in every reachable state: a delivery that is not done has produced nothing; one that is done has
   * produced precisely the payloads of its successful execution's output, under the version pinned in its row.
   */
  lemma ExactlyOnce(cfg: Config, es: seq<Event>, id: Id)
    requires id in Run(cfg, START, es).db.deliveries
    ensures var s := Run(cfg, START, es); var row := s.db.deliveries[id];
      && (id in s.h.outbox <==> row.state.Done?)
      && Produced(s.db, row) == (if row.state.Done? then Elements(s.h.outbox[id].mids) else {})
      && (row.state.Done? ==> EmissionOk(cfg, s.db, id, s.h.outbox[id]))
  {
    RunOutbox(cfg, es);
    RunInv(cfg, es);
    var s := Run(cfg, START, es);
    var row := s.db.deliveries[id];
    assert id in s.h.outbox.Keys <==> id in DoneIds(s.db);
    if row.state.Done? {
      assert EmissionOk(cfg, s.db, id, s.h.outbox[id]);
      var def := PinnedDef(s.db.actions, row);
      var em := s.h.outbox[id];
      ProducedAll(s.db.messages, row, def.output, em.mids, Published(cfg, def, em.stdout).value);
    }
    forall m | m in Produced(s.db, row) ensures row.state.Done? && m in s.h.outbox[id].mids {
      ProducedBy(s.db, s.h.outbox, id, m);
    }
  }

  lemma ProducedBy(db: Db, outbox: Emissions, id: Id, m: Id)
    requires AllAccounted(db, outbox) && UniquePairs(db) && id in db.deliveries && m in Produced(db, db.deliveries[id])
    ensures id in outbox && m in outbox[id].mids
  {
    assert Accounted(db, outbox, m);
    var d :| d in outbox && d in db.deliveries && m in outbox[d].mids &&
             db.deliveries[d].version.Some? && db.messages[m].origin.value == From(db.deliveries[d]);
    assert SamePair(db.deliveries[d], db.deliveries[id]);
  }

  lemma ProducedAll(messages: map<Id, Message>, row: Row, output: Queue, mids: seq<Id>, payloads: seq<Data>)
    requires row.version.Some? && Lists(messages, row, output, mids, payloads)
    ensures forall m | m in mids :: m in messages && messages[m].origin == Some(From(row))
  {
    forall m | m in mids ensures m in messages && messages[m].origin == Some(From(row)) {
      var i :| 0 <= i < |mids| && mids[i] == m;
      assert EmittedOk(messages, row, output, mids[i], payloads[i]);
    }
  }

  /** Once done, always done: no later step, crash or replay touches the row or what it emitted. */
  lemma {:induction false} DoneForever(cfg: Config, es: seq<Event>, fs: seq<Event>, id: Id)
    requires var s := Run(cfg, START, es); id in s.db.deliveries && s.db.deliveries[id].state.Done?
    ensures var s, t := Run(cfg, START, es), Run(cfg, START, es + fs);
      && id in t.db.deliveries && t.db.deliveries[id] == s.db.deliveries[id]
      && id in s.h.outbox && id in t.h.outbox && t.h.outbox[id] == s.h.outbox[id]
    decreases |fs|
  {
    RunOutbox(cfg, es);
    var s := Run(cfg, START, es);
    assert id in DoneIds(s.db);
    if fs == [] {
      assert es + fs == es;
    } else {
      var n := |fs| - 1;
      DoneForever(cfg, es, fs[..n], id);
      assert (es + fs)[..|es + fs| - 1] == es + fs[..n];
      var m := Run(cfg, START, es + fs[..n]);
      RunInv(cfg, es + fs[..n]);
      RunOutbox(cfg, es + fs[..n]);
      if Can(cfg, m, fs[n]) {
        StepEvolves(cfg, m, fs[n]);
        DoneRowKept(m.db, Do(cfg, m, fs[n]).db, id);
        OutboxGrows(cfg, m, fs[n], id);
      }
    }
  }

  lemma OutboxGrows(cfg: Config, s: Sys, e: Event, id: Id)
    requires Inv(cfg, s) && Can(cfg, s, e) && id in s.h.outbox
    requires id in s.db.deliveries && s.db.deliveries[id].state.Done?
    ensures var t := Do(cfg, s, e); id in t.h.outbox && t.h.outbox[id] == s.h.outbox[id]
  {
    match e
    case Daemon(d) =>
    case Dispatch(p) => Frames.DispatchFrame(cfg, s, p);
    case Loop(l) => Frames.LoopFrame(s, l);
    case Receive(r, ok, now, gate, mids, ids) => ReceiveGrows(cfg, s, r, ok, now, gate, mids, ids, id);
    case Worker(w) => Frames.WorkFrame(cfg, s, w);
    case Request(q) => RequestGrows(s, q);
    case Track(t) =>
  }

  lemma RequestGrows(s: Sys, q: RequestEvent)
    requires CanRequest(s, q)
    ensures DoRequest(s, q).h.outbox == s.h.outbox
  {
  }

  lemma ReceiveGrows(cfg: Config, s: Sys, r: Id, ok: bool, now: Stamp, gate: Stamp, mids: seq<Id>, ids: seq<Id>, id: Id)
    requires Inv(cfg, s) && CanReceive(cfg, s, r, now, mids, ids) && id in s.h.outbox
    requires id in s.db.deliveries && s.db.deliveries[id].state.Done?
    ensures var t := DoReceive(cfg, s, r, ok, now, gate, mids, ids);
      id in t.h.outbox && t.h.outbox[id] == s.h.outbox[id]
  {
    assert ExecOk(cfg, s.db, r, s.execs[r]);
    assert r != id;
  }
}
