/**
 * Topic fan-out. A message's deliveries are, for all time, exactly one per action that was enabled, not a join and
 * subscribed when the message was appended; and a delivery is given up as superseded only by a version other than
 * the one it was created for.
 */
module Fanout {
  import opened Bytes
  import opened Keys
  import opened Stamps
  import opened Workflow
  import opened Tables
  import opened Engine
  import opened Integrity
  import opened Ownership
  import opened Transitions
  import Frames

  /** Per message, the subscribers at append and the version each had. */
  type Fans = map<Id, map<Name, nat>>

  ghost predicate IsDelivery(db: Db, d: Id, m: Id, n: Name) {
    d in db.deliveries && db.deliveries[d].msg == m && db.deliveries[d].action == n
  }

  /** Each recorded subscriber has its delivery, and subscribed under the recorded version. */
  ghost predicate FanOk(db: Db, fans: Fans, m: Id, n: Name)
    requires m in fans && n in fans[m]
  {
    && (exists d {:trigger IsDelivery(db, d, m, n)} :: IsDelivery(db, d, m, n))
    && m in db.messages && n in db.actions && 1 <= fans[m][n] <= |db.actions[n]|
    && Takes(db.actions[n][fans[m][n] - 1].def, db.messages[m].queue)
  }

  /** Each delivery is a recorded one, and no version it was created for gave it up. */
  ghost predicate RowOk(fans: Fans, row: Row) {
    && row.msg in fans && row.action in fans[row.msg]
    && forall v | row.state.Cancelled? && row.error == Some(Superseded(v)) :: v != fans[row.msg][row.action]
  }

  ghost predicate FansOk(db: Db, fans: Fans) {
    && fans.Keys == db.messages.Keys
    && (forall m, n {:trigger FanOk(db, fans, m, n)} | m in fans && n in fans[m] :: FanOk(db, fans, m, n))
    && (forall d {:trigger RowOk(fans, db.deliveries[d])} | d in db.deliveries :: RowOk(fans, db.deliveries[d]))
  }

  ghost predicate Keeps(db: Db, r: Db) {
    && r.messages == db.messages && r.deliveries.Keys == db.deliveries.Keys
    && (forall d | d in db.deliveries :: SamePair(db.deliveries[d], r.deliveries[d]))
    && (forall n | n in db.actions :: n in r.actions && |db.actions[n]| <= |r.actions[n]|)
    && (forall n, v | n in db.actions && 0 <= v < |db.actions[n]| :: r.actions[n][v].def == db.actions[n][v].def)
  }

  lemma FanKept(db: Db, r: Db, fans: Fans, m: Id, n: Name)
    requires Keeps(db, r) && m in fans && n in fans[m] && FanOk(db, fans, m, n)
    ensures FanOk(r, fans, m, n)
  {
    var d :| IsDelivery(db, d, m, n);
    assert SamePair(db.deliveries[d], r.deliveries[d]);
    assert IsDelivery(r, d, m, n);
  }

  /** A step that adds nothing and drops nothing. */
  lemma FansKept(db: Db, r: Db, fans: Fans)
    requires FansOk(db, fans) && Keeps(db, r)
    requires forall d {:trigger RowOk(fans, r.deliveries[d])} | d in r.deliveries :: RowOk(fans, r.deliveries[d])
    ensures FansOk(r, fans)
  {
    forall m, n | m in fans && n in fans[m] ensures FanOk(r, fans, m, n) {
      assert FanOk(db, fans, m, n);
      FanKept(db, r, fans, m, n);
    }
  }

  lemma UpdateFans(db: Db, fans: Fans, id: Id, row: Row)
    requires FansOk(db, fans) && id in db.deliveries && SamePair(db.deliveries[id], row) && RowOk(fans, row)
    ensures FansOk(db.(deliveries := db.deliveries[id := row]), fans)
  {
    var r := db.(deliveries := db.deliveries[id := row]);
    forall d | d in r.deliveries ensures RowOk(fans, r.deliveries[d]) {
      if d != id { assert RowOk(fans, db.deliveries[d]); }
    }
    FansKept(db, r, fans);
  }

  /** A row that does not become cancelled. */
  lemma MoveFans(db: Db, fans: Fans, id: Id, row: Row)
    requires FansOk(db, fans) && id in db.deliveries && SamePair(db.deliveries[id], row) && !row.state.Cancelled?
    ensures FansOk(db.(deliveries := db.deliveries[id := row]), fans)
  {
    assert RowOk(fans, db.deliveries[id]);
    UpdateFans(db, fans, id, row);
  }

  // Insertion.

  /** The fans of the old messages stand and each new one has its own. */
  ghost predicate Recorded(fans: Fans, after: Fans, actions: Actions, outs: seq<Outgoing>) {
    && (forall m :: m in after <==> m in fans || Among(outs, m))
    && (forall m | m in fans && !Among(outs, m) :: after[m] == fans[m])
    && (forall i | 0 <= i < |outs| :: outs[i].id in after && after[outs[i].id] == FanOf(actions, outs[i].msg.queue))
  }

  lemma RecordsFans(h: History, actions: Actions, outs: seq<Outgoing>)
    requires DistinctIds(outs)
    ensures Recorded(h.fans, h.fans + BatchFans(actions, outs), actions, outs)
  {
  }

  /** The tables with some rows and messages added. */
  ghost predicate Extends(db: Db, r: Db, outs: seq<Outgoing>) {
    && r.actions == db.actions
    && (forall m :: m in r.messages <==> m in db.messages || Among(outs, m))
    && (forall m | m in db.messages :: r.messages[m] == db.messages[m])
    && (forall i | 0 <= i < |outs| :: outs[i].id in r.messages && r.messages[outs[i].id] == outs[i].msg)
    && (forall d | d in db.deliveries :: d in r.deliveries && r.deliveries[d] == db.deliveries[d])
  }

  lemma InsertExtends(db: Db, outs: seq<Outgoing>, ids: seq<Id>)
    requires Insertable(db, outs, ids)
    ensures Extends(db, Insert(db, outs, ids), outs)
    ensures forall m | m in db.messages :: !Among(outs, m)
  {
  }

  lemma InsertedFan(db: Db, r: Db, outs: seq<Outgoing>, ids: seq<Id>, i: nat, n: Name)
    requires Insertable(db, outs, ids) && r == Insert(db, outs, ids)
    requires i < |outs| && n in FanOf(db.actions, outs[i].msg.queue)
    ensures exists d :: IsDelivery(r, d, outs[i].id, n)
  {
    var fan := Fan(db.actions, outs);
    FanCovers(db.actions, outs, i, n);
    var k :| 0 <= k < |fan| && fan[k] == Target(outs[i].id, n);
    assert r.deliveries[ids[k]] == Fresh(fan[k].msg, fan[k].action);
    assert IsDelivery(r, ids[k], outs[i].id, n);
  }

  lemma NewFan(db: Db, r: Db, after: Fans, fans: Fans, outs: seq<Outgoing>, ids: seq<Id>, i: nat, n: Name)
    requires Insertable(db, outs, ids) && r == Insert(db, outs, ids) && Extends(db, r, outs)
    requires Recorded(fans, after, db.actions, outs) && i < |outs| && n in after[outs[i].id]
    ensures FanOk(r, after, outs[i].id, n)
  {
    InsertedFan(db, r, outs, ids, i, n);
    assert after[outs[i].id] == FanOf(db.actions, outs[i].msg.queue);
  }

  lemma OldFan(db: Db, r: Db, after: Fans, fans: Fans, outs: seq<Outgoing>, m: Id, n: Name)
    requires Extends(db, r, outs) && FansOk(db, fans) && m in fans && m in after && after[m] == fans[m] && n in fans[m]
    ensures FanOk(r, after, m, n)
  {
    assert FanOk(db, fans, m, n);
    var d :| IsDelivery(db, d, m, n);
    assert IsDelivery(r, d, m, n);
  }

  lemma InsertedRowOk(db: Db, after: Fans, fans: Fans, outs: seq<Outgoing>, ids: seq<Id>, d: Id)
    requires Insertable(db, outs, ids) && Recorded(fans, after, db.actions, outs) && d in ids
    ensures d in Insert(db, outs, ids).deliveries && RowOk(after, Insert(db, outs, ids).deliveries[d])
  {
    InsertedRow(db, outs, ids, d);
    var row := Insert(db, outs, ids).deliveries[d];
    var i :| 0 <= i < |outs| && row.msg == outs[i].id && Subscribed(db.actions, outs[i].msg.queue, row.action);
    assert row.action in FanOf(db.actions, outs[i].msg.queue);
  }

  lemma FansExtended(db: Db, r: Db, after: Fans, fans: Fans, outs: seq<Outgoing>, ids: seq<Id>, m: Id, n: Name)
    requires Insertable(db, outs, ids) && r == Insert(db, outs, ids) && Extends(db, r, outs)
    requires Recorded(fans, after, db.actions, outs) && FansOk(db, fans)
    requires m in fans ==> !Among(outs, m)
    requires m in after && n in after[m]
    ensures FanOk(r, after, m, n)
  {
    if m in fans {
      OldFan(db, r, after, fans, outs, m, n);
    } else {
      assert Among(outs, m);
      var i :| 0 <= i < |outs| && outs[i].id == m;
      NewFan(db, r, after, fans, outs, ids, i, n);
    }
  }

  lemma FanKeys(db: Db, r: Db, after: Fans, fans: Fans, outs: seq<Outgoing>)
    requires Extends(db, r, outs) && Recorded(fans, after, db.actions, outs) && fans.Keys == db.messages.Keys
    ensures after.Keys == r.messages.Keys
  {
    forall m ensures m in after <==> m in r.messages {
      assert m in fans.Keys <==> m in db.messages.Keys;
    }
  }

  lemma InsertFans(db: Db, after: Fans, fans: Fans, outs: seq<Outgoing>, ids: seq<Id>)
    requires Insertable(db, outs, ids) && Recorded(fans, after, db.actions, outs) && FansOk(db, fans)
    ensures FansOk(Insert(db, outs, ids), after)
  {
    var r := Insert(db, outs, ids);
    InsertExtends(db, outs, ids);
    FanKeys(db, r, after, fans, outs);
    forall m, n | m in after && n in after[m] ensures FanOk(r, after, m, n) {
      assert m in fans ==> m in fans.Keys && m in db.messages;
      FansExtended(db, r, after, fans, outs, ids, m, n);
    }
    forall d | d in r.deliveries ensures RowOk(after, r.deliveries[d]) {
      if d in db.deliveries {
        assert RowOk(fans, db.deliveries[d]);
        assert db.deliveries[d].msg in fans.Keys;
      } else {
        InsertedRowOk(db, after, fans, outs, ids, d);
      }
    }
  }

  // Steps.

  /** A version that took the message never gives its delivery up. */
  lemma SupersedingDiffers(cfg: Config, db: Db, fans: Fans, row: Row, info: ActionInfo, msg: Message)
    requires Sound(db) && FansOk(db, fans) && InfoOk(cfg, db.actions, info) && RowOk(fans, row)
    requires row.action == info.name && row.msg in db.messages && db.messages[row.msg] == msg
    requires Decision(cfg, info, msg) == Settle(Cancelled, Some(Superseded(info.version)))
    ensures info.version != fans[row.msg][row.action]
  {
    assert FanOk(db, fans, row.msg, row.action);
    assert ValidVersions(db.actions[info.name]);
    FanOutAgreesWithDispatch(info.def, msg.queue);
  }

  /** Only supersession cancels here. */
  lemma CancelsOnlySuperseded(cfg: Config, info: ActionInfo, msg: Message)
    ensures var d := Decision(cfg, info, msg);
      d.Settle? && d.state.Cancelled? ==> d == Settle(Cancelled, Some(Superseded(info.version)))
  {
  }

  lemma SettleFans(cfg: Config, s: Sys, fans: Fans)
    requires Inv(cfg, s) && s.pc.Picked? && FansOk(s.db, fans)
    requires s.pc.k < |s.pc.plan.infos| && Decision(cfg, s.pc.plan.infos[s.pc.k], s.pc.work.msg).Settle?
    ensures var w, d := s.pc.work, Decision(cfg, s.pc.plan.infos[s.pc.k], s.pc.work.msg);
      var r := Resolve(s.db, w.id, d.state, d.error, s.pc.plan.now); r.Some? && FansOk(r.value, fans)
  {
    var info, w := s.pc.plan.infos[s.pc.k], s.pc.work;
    var d := Decision(cfg, info, w.msg);
    assert InfoOk(cfg, s.db.actions, s.pc.plan.infos[s.pc.k]);
    assert RowOk(fans, s.db.deliveries[w.id]);
    var row := Resolve(s.db, w.id, d.state, d.error, s.pc.plan.now).value.deliveries[w.id];
    CancelsOnlySuperseded(cfg, info, w.msg);
    if d.state.Cancelled? {
      SupersedingDiffers(cfg, s.db, fans, s.db.deliveries[w.id], info, w.msg);
    }
    UpdateFans(s.db, fans, w.id, row);
  }

  lemma DecideFans(cfg: Config, s: Sys, ok: bool)
    requires Inv(cfg, s) && CanDispatch(s, Decide(ok)) && FansOk(s.db, s.h.fans)
    ensures var t := DoDecide(cfg, s, ok); FansOk(t.db, t.h.fans)
  {
    var info, w := s.pc.plan.infos[s.pc.k], s.pc.work;
    Frames.DecideFrame(cfg, s, ok);
    if ok && Decision(cfg, info, w.msg).Settle? {
      SettleFans(cfg, s, s.h.fans);
    } else if ok {
      MoveFans(s.db, s.h.fans, w.id, Claim(s.db, w.id, info.version, s.pc.plan.now).value.deliveries[w.id]);
    }
  }

  lemma DispatchFans(cfg: Config, s: Sys, p: DispatchEvent)
    requires Inv(cfg, s) && CanDispatch(s, p) && FansOk(s.db, s.h.fans)
    ensures var t := DoDispatch(cfg, s, p); FansOk(t.db, t.h.fans)
  {
    if p.Decide? {
      DecideFans(cfg, s, p.ok);
    } else {
      Frames.DispatchFrame(cfg, s, p);
    }
  }

  lemma DaemonFans(cfg: Config, s: Sys, d: DaemonEvent)
    requires Inv(cfg, s) && CanDaemon(s, d) && FansOk(s.db, s.h.fans)
    ensures var t := DoDaemon(s, d); FansOk(t.db, t.h.fans)
  {
    if d.Reap? && d.ok {
      var id := s.pc.todo[0];
      assert id in Elements(s.pc.todo);
      MoveFans(s.db, s.h.fans, id, ResetOrphan(s.db, id, d.now).deliveries[id]);
    }
  }

  lemma CompleteFans(db: Db, h: History, after: Fans, id: Id, stderr: Data, outs: seq<Outgoing>, ids: seq<Id>,
                     now: Stamp)
    requires Insertable(db, outs, ids) && id in db.deliveries && db.deliveries[id].state.Claimed? && FansOk(db, h.fans)
    requires after == h.fans + BatchFans(db.actions, outs)
    ensures FansOk(Complete(db, id, stderr, outs, ids, now).value, after)
  {
    var mid := MarkDone(db, id, stderr, now);
    MoveFans(db, h.fans, id, mid.deliveries[id]);
    RecordsFans(h, db.actions, outs);
    InsertFans(mid, after, h.fans, outs, ids);
  }

  lemma EmitFans(s: Sys, id: Id, o: Outcome, mids: seq<Id>, outs: seq<Outgoing>, ids: seq<Id>, now: Stamp)
    requires Insertable(s.db, outs, ids) && id in s.execs && FansOk(s.db, s.h.fans)
    requires id in s.db.deliveries && s.db.deliveries[id].state.Claimed?
    ensures var t := DoEmit(s, Complete(s.db, id, o.stderr, outs, ids, now).value, id, Emission(o.stdout, mids),
      outs, ids);
      FansOk(t.db, t.h.fans)
  {
    var after := s.h.fans + BatchFans(s.db.actions, outs);
    CompleteFans(s.db, s.h, after, id, o.stderr, outs, ids, now);
  }

  lemma FailFans(s: Sys, id: Id, dead: bool, gate: Stamp, reason: Reason, stderr: Data, now: Stamp)
    requires id in s.execs && FansOk(s.db, s.h.fans) && id in s.db.deliveries && s.db.deliveries[id].state.Claimed?
    ensures var r := Fail(s.db, id, dead, gate, reason, stderr, now); r.Some? && FansOk(r.value, s.h.fans)
  {
    MoveFans(s.db, s.h.fans, id, Fail(s.db, id, dead, gate, reason, stderr, now).value.deliveries[id]);
  }

  lemma ReceiveFans(cfg: Config, s: Sys, id: Id, ok: bool, now: Stamp, gate: Stamp, mids: seq<Id>, ids: seq<Id>)
    requires Inv(cfg, s) && CanReceive(cfg, s, id, now, mids, ids) && FansOk(s.db, s.h.fans)
    ensures var t := DoReceive(cfg, s, id, ok, now, gate, mids, ids); FansOk(t.db, t.h.fans)
  {
    var x := s.execs[id];
    assert ExecOk(cfg, s.db, id, x);
    var o := x.phase.outcome;
    var emits := Emits(cfg, x.info, o);
    if !ok {
    } else if emits.Some? {
      EmitFans(s, id, o, mids, BuildOutputs(x, emits.value, mids, now), ids, now);
    } else {
      FailFans(s, id, x.work.row.attempt >= x.info.maxAttempts, gate, if o.failed then Execution else BadStdout,
               o.stderr, now);
    }
  }

  lemma LoopFans(s: Sys, l: LoopEvent)
    requires CanLoop(s, l) && FansOk(s.db, s.h.fans)
    ensures var t := DoLoop(s, l); FansOk(t.db, t.h.fans)
  {
    if l.Control? && l.ok {
      CancelFans(s.db, s.h.fans, s.disabling[l.k], l.now);
    }
  }

  lemma CancelFans(db: Db, fans: Fans, name: Name, now: Stamp)
    requires FansOk(db, fans)
    ensures FansOk(CancelAll(db, name, ActionDisabled, now), fans)
  {
    var r := CancelAll(db, name, ActionDisabled, now);
    forall d | d in r.deliveries ensures RowOk(fans, r.deliveries[d]) {
      assert RowOk(fans, db.deliveries[d]);
    }
    FansKept(db, r, fans);
  }

  lemma WorkFans(cfg: Config, s: Sys, w: WorkerEvent)
    requires CanWork(cfg, s, w) && FansOk(s.db, s.h.fans)
    ensures var t := DoWork(cfg, s, w); FansOk(t.db, t.h.fans)
  {
    if w.Record? && w.ok && SetPgid(s.db, w.id, w.pgid) != s.db {
      MoveFans(s.db, s.h.fans, w.id, SetPgid(s.db, w.id, w.pgid).deliveries[w.id]);
    }
  }

  lemma RegistryFans(db: Db, fans: Fans, actions: Actions)
    requires FansOk(db, fans) && Keeps(db, db.(actions := actions))
    ensures FansOk(db.(actions := actions), fans)
  {
    forall d | d in db.deliveries ensures RowOk(fans, db.deliveries[d]) {
    }
    FansKept(db, db.(actions := actions), fans);
  }

  lemma RequestFans(s: Sys, q: RequestEvent)
    requires CanRequest(s, q) && FansOk(s.db, s.h.fans)
    ensures var t := DoRequest(s, q); FansOk(t.db, t.h.fans)
  {
    match q
    case Send(mid, queue, payload, headers, trace, now, ids) =>
      var outs := [Outgoing(mid, Ingress(queue, payload, headers, trace, now))];
      RecordsFans(s.h, s.db.actions, outs);
      InsertFans(s.db, s.h.fans + BatchFans(s.db.actions, outs), s.h.fans, outs, ids);
    case ReplayRow(id) => MoveFans(s.db, s.h.fans, id, Replay(s.db, id).db.deliveries[id]);
    case Register(name, def) => RegistryFans(s.db, s.h.fans, Apply(s.db.actions, name, def));
    case Switch(name, on) => RegistryFans(s.db, s.h.fans, SetEnabled(s.db.actions, name, on));
    case _ =>
  }

  lemma StepFans(cfg: Config, s: Sys, e: Event)
    requires Inv(cfg, s) && Can(cfg, s, e) && FansOk(s.db, s.h.fans)
    ensures var t := Do(cfg, s, e); FansOk(t.db, t.h.fans)
  {
    match e
    case Daemon(d) => DaemonFans(cfg, s, d);
    case Dispatch(p) => DispatchFans(cfg, s, p);
    case Loop(l) => LoopFans(s, l);
    case Receive(id, ok, now, gate, mids, ids) => ReceiveFans(cfg, s, id, ok, now, gate, mids, ids);
    case Worker(w) => WorkFans(cfg, s, w);
    case Request(q) => RequestFans(s, q);
    case Track(t) =>
  }

  lemma {:induction false} RunFans(cfg: Config, es: seq<Event>)
    ensures var s := Run(cfg, START, es); FansOk(s.db, s.h.fans)
  {
    if es != [] {
      var n := |es| - 1;
      RunFans(cfg, es[..n]);
      RunInv(cfg, es[..n]);
      if Can(cfg, Run(cfg, START, es[..n]), es[n]) {
        StepFans(cfg, Run(cfg, START, es[..n]), es[n]);
      }
    }
  }

  // The results.

  /**
   * In every reachable state, the deliveries of a message and its recorded subscribers correspond one to one, and
   * each subscriber's recorded version takes the message's queue.
   */
  lemma OneDeliveryPerSubscriber(cfg: Config, es: seq<Event>, m: Id, n: Name)
    requires m in Run(cfg, START, es).db.messages
    ensures var s := Run(cfg, START, es);
      && m in s.h.fans
      && (n in s.h.fans[m] <==> exists d :: IsDelivery(s.db, d, m, n))
      && (forall c, d | IsDelivery(s.db, c, m, n) && IsDelivery(s.db, d, m, n) :: c == d)
      && (n in s.h.fans[m] ==> n in s.db.actions && 1 <= s.h.fans[m][n] <= |s.db.actions[n]|
                               && Takes(s.db.actions[n][s.h.fans[m][n] - 1].def, s.db.messages[m].queue))
  {
    RunFans(cfg, es);
    RunInv(cfg, es);
    hide Run;
    DeliveriesAre(cfg, Run(cfg, START, es), m, n);
  }

  lemma DeliveriesAre(cfg: Config, s: Sys, m: Id, n: Name)
    requires Inv(cfg, s) && FansOk(s.db, s.h.fans) && m in s.db.messages
    ensures m in s.h.fans
    ensures n in s.h.fans[m] <==> exists d :: IsDelivery(s.db, d, m, n)
    ensures forall c, d | IsDelivery(s.db, c, m, n) && IsDelivery(s.db, d, m, n) :: c == d
    ensures n in s.h.fans[m] ==>
      && n in s.db.actions && 1 <= s.h.fans[m][n] <= |s.db.actions[n]|
      && Takes(s.db.actions[n][s.h.fans[m][n] - 1].def, s.db.messages[m].queue)
  {
    assert m in s.h.fans.Keys;
    if n in s.h.fans[m] {
      assert FanOk(s.db, s.h.fans, m, n);
    }
    forall d | IsDelivery(s.db, d, m, n) ensures n in s.h.fans[m] {
      assert RowOk(s.h.fans, s.db.deliveries[d]);
    }
    forall c, d | IsDelivery(s.db, c, m, n) && IsDelivery(s.db, d, m, n) ensures c == d {
      assert SamePair(s.db.deliveries[c], s.db.deliveries[d]);
    }
  }

  /** A delivery cancelled as superseded by v was not created for v. */
  lemma SupersededByAnother(cfg: Config, es: seq<Event>, d: Id, v: nat)
    requires var s := Run(cfg, START, es);
      d in s.db.deliveries && s.db.deliveries[d].state.Cancelled? && s.db.deliveries[d].error == Some(Superseded(v))
    ensures var s := Run(cfg, START, es); var row := s.db.deliveries[d];
      row.msg in s.h.fans && row.action in s.h.fans[row.msg] && v != s.h.fans[row.msg][row.action]
  {
    RunFans(cfg, es);
    var s := Run(cfg, START, es);
    assert RowOk(s.h.fans, s.db.deliveries[d]);
  }

  /**
   * About to supersede: the vetting version is another than the delivery's own, and it is the older one only if a
   * version has been registered since this dispatch loaded the registry; a current version supersedes older ones.
   */
  lemma OlderSupersedesOnlyAfterApply(cfg: Config, es: seq<Event>)
    requires var s := Run(cfg, START, es); CanDispatch(s, Decide(true))
    requires var s := Run(cfg, START, es); var info := s.pc.plan.infos[s.pc.k];
      Decision(cfg, info, s.pc.work.msg) == Settle(Cancelled, Some(Superseded(info.version)))
    ensures var s := Run(cfg, START, es); var info, row := s.pc.plan.infos[s.pc.k], s.pc.work.row;
      && row.msg in s.h.fans && row.action in s.h.fans[row.msg] && row.action in s.db.actions
      && s.h.fans[row.msg][row.action] != info.version
      && (info.version < s.h.fans[row.msg][row.action] ==> info.version < |s.db.actions[row.action]|)
      && (info.version == |s.db.actions[row.action]| ==> s.h.fans[row.msg][row.action] < info.version)
  {
    RunFans(cfg, es);
    RunInv(cfg, es);
    var s := Run(cfg, START, es);
    var info, row := s.pc.plan.infos[s.pc.k], s.pc.work.row;
    assert InfoOk(cfg, s.db.actions, s.pc.plan.infos[s.pc.k]);
    assert RowOk(s.h.fans, s.db.deliveries[s.pc.work.id]);
    assert FanOk(s.db, s.h.fans, row.msg, row.action);
    SupersedingDiffers(cfg, s.db, s.h.fans, row, info, s.pc.work.msg);
  }

  /** The fan of an appended message is the registry's subscribers at that commit, each at its current version. */
  lemma AppendFansOut(cfg: Config, s: Sys, mid: Id, queue: Queue, payload: Data, headers: Headers, trace: Id,
                      now: Stamp, ids: seq<Id>, n: Name)
    requires CanRequest(s, Send(mid, queue, payload, headers, trace, now, ids))
    ensures var t := DoRequest(s, Send(mid, queue, payload, headers, trace, now, ids));
      && mid in t.h.fans
      && (n in t.h.fans[mid] <==> Enabled(s.db.actions, n) && Takes(Current(s.db.actions, n).def, queue))
      && (n in t.h.fans[mid] ==> t.h.fans[mid][n] == |s.db.actions[n]|)
  {
    var outs := [Outgoing(mid, Ingress(queue, payload, headers, trace, now))];
    RecordsFans(s.h, s.db.actions, outs);
    assert outs[0].id in s.h.fans + BatchFans(s.db.actions, outs);
  }

  /** So does a completion, for each message it emits. */
  lemma EmitFansOut(cfg: Config, s: Sys, id: Id, now: Stamp, gate: Stamp, mids: seq<Id>, ids: seq<Id>, i: nat)
    requires Inv(cfg, s) && CanReceive(cfg, s, id, now, mids, ids)
    requires var x := s.execs[id]; var emits := Emits(cfg, x.info, x.phase.outcome); emits.Some? && i < |emits.value|
    ensures var t := DoReceive(cfg, s, id, true, now, gate, mids, ids);
      mids[i] in t.h.fans && t.h.fans[mids[i]] == FanOf(s.db.actions, s.execs[id].info.def.output)
  {
    var x := s.execs[id];
    assert ExecOk(cfg, s.db, id, x);
    var outs := BuildOutputs(x, Emits(cfg, x.info, x.phase.outcome).value, mids, now);
    RecordsFans(s.h, s.db.actions, outs);
    assert outs[i].id == mids[i];
  }

  /** A fan, once recorded, never changes. */
  lemma StepKeepsFans(cfg: Config, s: Sys, e: Event, m: Id)
    requires Inv(cfg, s) && Can(cfg, s, e) && FansOk(s.db, s.h.fans) && m in s.h.fans
    ensures var t := Do(cfg, s, e); m in t.h.fans && t.h.fans[m] == s.h.fans[m]
  {
    assert m in s.h.fans.Keys;
    match e
    case Daemon(d) => DaemonKeepsFans(s, d);
    case Dispatch(p) => Frames.DispatchFrame(cfg, s, p);
    case Loop(l) => Frames.LoopFrame(s, l);
    case Receive(id, ok, now, gate, mids, ids) => ReceiveKeepsFans(cfg, s, id, ok, now, gate, mids, ids, m);
    case Worker(w) => Frames.WorkFrame(cfg, s, w);
    case Request(q) => RequestKeepsFans(s, q, m);
    case Track(t) =>
  }

  lemma DaemonKeepsFans(s: Sys, d: DaemonEvent)
    requires CanDaemon(s, d)
    ensures DoDaemon(s, d).h.fans == s.h.fans
  {
  }

  lemma RequestKeepsFans(s: Sys, q: RequestEvent, m: Id)
    requires CanRequest(s, q) && m in s.h.fans && m in s.db.messages
    ensures var t := DoRequest(s, q); m in t.h.fans && t.h.fans[m] == s.h.fans[m]
  {
    if q.Send? {
      RecordsFans(s.h, s.db.actions, [Outgoing(q.mid, Ingress(q.queue, q.payload, q.headers, q.trace, q.now))]);
    }
  }

  lemma ReceiveKeepsFans(cfg: Config, s: Sys, id: Id, ok: bool, now: Stamp, gate: Stamp, mids: seq<Id>, ids: seq<Id>,
                         m: Id)
    requires CanReceive(cfg, s, id, now, mids, ids) && m in s.h.fans && m in s.db.messages
    ensures var t := DoReceive(cfg, s, id, ok, now, gate, mids, ids); m in t.h.fans && t.h.fans[m] == s.h.fans[m]
  {
    var x := s.execs[id];
    var emits := Emits(cfg, x.info, x.phase.outcome);
    if emits.Some? {
      var outs := BuildOutputs(x, emits.value, mids, now);
      InsertExtends(s.db, outs, ids);
      RecordsFans(s.h, s.db.actions, outs);
    }
  }

  /** For all time: later steps, registry changes included, neither add a delivery to a message nor drop one. */
  lemma {:induction false} FanOutForever(cfg: Config, es: seq<Event>, fs: seq<Event>, m: Id, n: Name)
    requires m in Run(cfg, START, es).db.messages
    ensures var s, t := Run(cfg, START, es), Run(cfg, START, es + fs);
      && m in s.h.fans && m in t.h.fans && t.h.fans[m] == s.h.fans[m] && m in t.db.messages
      && ((exists d :: IsDelivery(t.db, d, m, n)) <==> n in s.h.fans[m])
    decreases |fs|
  {
    hide Step;
    RunFans(cfg, es);
    var s := Run(cfg, START, es);
    assert m in s.h.fans.Keys;
    hide FansOk;
    hide IsDelivery;
    if fs == [] {
      assert es + fs == es;
    } else {
      var k := |fs| - 1;
      FanOutForever(cfg, es, fs[..k], m, n);
      assert (es + fs)[..|es + fs| - 1] == es + fs[..k];
      NextKeepsFans(cfg, es + fs[..k], fs[k], m);
    }
    OneDeliveryPerSubscriber(cfg, es + fs, m, n);
  }

  lemma NextKeepsFans(cfg: Config, es: seq<Event>, e: Event, m: Id)
    requires m in Run(cfg, START, es).db.messages
    ensures var s, t := Run(cfg, START, es), Step(cfg, Run(cfg, START, es), e);
      m in s.h.fans && m in t.h.fans && t.h.fans[m] == s.h.fans[m] && m in t.db.messages
  {
    RunInv(cfg, es);
    RunFans(cfg, es);
    var s := Run(cfg, START, es);
    assert m in s.h.fans.Keys;
    if Can(cfg, s, e) {
      StepKeepsFans(cfg, s, e, m);
      StepFans(cfg, s, e);
      assert m in Do(cfg, s, e).h.fans.Keys;
    }
  }
}
