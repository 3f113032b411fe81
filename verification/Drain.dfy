/**
 * Every run drains. With a fixed registry and no ingress, replay or reap, each claim, completion, failure,
 * resolution and cancellation strictly lowers a measure of the tables, so even a cyclic graph of actions moves its
 * rows only finitely often; and no message is emitted beyond the hop limit.
 */
module Drain {
  import opened Bytes
  import opened Keys
  import opened Stamps
  import opened Workflow
  import opened Tables
  import opened Engine
  import opened Integrity
  import opened Ownership
  import opened Transitions
  import Attempts
  import Frames
  import Streams
  import Sums
  import Text

  // The measure.

  /** The most attempts of any action, the most rows one execution can create, and the hop limit. */
  datatype Scale = Scale(attempts: int, rows: nat, hops: int)

  function MostOf(cfg: Config, actions: Actions, names: seq<Name>): (m: int)
    ensures m >= 1 && forall n | n in names :: Attempts.Bound(cfg, actions, n) <= m
  {
    if names == [] then 1
    else
      var k := |names| - 1;
      var m, b := MostOf(cfg, actions, names[..k]), Attempts.Bound(cfg, actions, names[k]);
      if b <= m then m else b
  }

  /** The most lines in an output within the cap. */
  function LineBound(cap: int): nat {
    if cap < 0 then 0 else (cap + 1) / 2
  }

  function ScaleOf(cfg: Config, actions: Actions): (c: Scale)
    ensures c.attempts >= 1 && forall n | n in actions :: Attempts.Bound(cfg, actions, n) <= c.attempts
  {
    Scale(MostOf(cfg, actions, Text.Sorted(actions.Keys)), Sums.Times(LineBound(cfg.stdoutCap), |actions|), cfg.maxHops)
  }

  /** A fresh row with this many hops left. */
  function Whole(c: Scale, left: nat): nat
    requires c.attempts >= 1
    decreases left, 1
  {
    2 * c.attempts + Gain(c, left)
  }

  /** All that one successful execution can create. */
  function Gain(c: Scale, left: nat): nat
    requires c.attempts >= 1
    decreases left, 0
  {
    if left == 0 then 0 else Sums.Times(c.rows, Whole(c, left - 1))
  }

  function Left(c: Scale, messages: map<Id, Message>, m: Id): nat {
    if m in messages && MessageHops(messages[m].headers) < c.hops then c.hops - MessageHops(messages[m].headers) else 0
  }

  /** What a row can still do. */
  function Weight(c: Scale, row: Row, left: nat): nat
    requires c.attempts >= 1
  {
    var spare := c.attempts - row.attempt;
    if Waiting(row.state) then 2 * (if spare >= 1 then spare else 1) + Gain(c, left)
    else if row.state.Claimed? then 1 + 2 * (if spare >= 0 then spare else 0) + Gain(c, left)
    else 0
  }

  function RowWeight(c: Scale, db: Db, d: Id): nat
    requires c.attempts >= 1 && d in db.deliveries
  {
    Weight(c, db.deliveries[d], Left(c, db.messages, db.deliveries[d].msg))
  }

  ghost function Weights(c: Scale, db: Db): map<Id, nat>
    requires c.attempts >= 1
  {
    map d | d in db.deliveries :: RowWeight(c, db, d)
  }

  ghost function Measure(cfg: Config, db: Db): nat {
    Sums.Total(Weights(ScaleOf(cfg, db.actions), db))
  }

  // The effect of each transaction on it.

  ghost predicate SomeMove(db: Db, r: Db) {
    exists d :: d in db.deliveries && d in r.deliveries && db.deliveries[d].state != r.deliveries[d].state
  }

  /** Nothing grew, and a move cost something. */
  ghost predicate Drains(cfg: Config, db: Db, r: Db) {
    Measure(cfg, r) <= Measure(cfg, db) && (SomeMove(db, r) ==> Measure(cfg, r) < Measure(cfg, db))
  }

  lemma RowDrains(cfg: Config, db: Db, id: Id, row: Row)
    requires id in db.deliveries && row.msg == db.deliveries[id].msg
    requires var c := ScaleOf(cfg, db.actions); var left := Left(c, db.messages, row.msg);
      && Weight(c, row, left) <= Weight(c, db.deliveries[id], left)
      && (row.state != db.deliveries[id].state ==> Weight(c, row, left) < Weight(c, db.deliveries[id], left))
    ensures Drains(cfg, db, db.(deliveries := db.deliveries[id := row]))
  {
    var c := ScaleOf(cfg, db.actions);
    var r := db.(deliveries := db.deliveries[id := row]);
    var w := Weight(c, row, Left(c, db.messages, row.msg));
    WeightsUpdate(c, db, id, row);
    Sums.TotalUpdate(Weights(c, db), id, w);
    assert Measure(cfg, r) == Sums.Total(Weights(c, db)[id := w]);
  }

  lemma WeightsUpdate(c: Scale, db: Db, id: Id, row: Row)
    requires c.attempts >= 1 && id in db.deliveries
    ensures Weights(c, db.(deliveries := db.deliveries[id := row])) ==
      Weights(c, db)[id := Weight(c, row, Left(c, db.messages, row.msg))]
  {
    var r := db.(deliveries := db.deliveries[id := row]);
    forall d | d in db.deliveries && d != id ensures RowWeight(c, r, d) == RowWeight(c, db, d) {
    }
  }

  lemma ResolveDrains(cfg: Config, db: Db, id: Id, state: State, error: Option<Reason>, now: Stamp)
    requires id in db.deliveries && Waiting(db.deliveries[id].state) && !Active(state)
    ensures Drains(cfg, db, Resolve(db, id, state, error, now).value)
  {
    RowDrains(cfg, db, id, Resolve(db, id, state, error, now).value.deliveries[id]);
  }

  lemma ClaimDrains(cfg: Config, db: Db, id: Id, version: nat, now: Stamp)
    requires id in db.deliveries && Waiting(db.deliveries[id].state)
    ensures Drains(cfg, db, Claim(db, id, version, now).value)
  {
    RowDrains(cfg, db, id, Claim(db, id, version, now).value.deliveries[id]);
  }

  /** A retry costs an attempt. */
  lemma FailedWeight(c: Scale, before: Row, after: Row, left: nat)
    requires c.attempts >= 1 && before.state.Claimed? && after.attempt == before.attempt
    requires after.state.Dead? || (after.state.Failed? && before.attempt < c.attempts)
    ensures Weight(c, after, left) < Weight(c, before, left)
  {
  }

  lemma FailDrains(cfg: Config, db: Db, id: Id, x: Exec, gate: Stamp, reason: Reason, stderr: Data, now: Stamp)
    requires ExecOk(cfg, db, id, x)
    ensures var r := Fail(db, id, x.work.row.attempt >= x.info.maxAttempts, gate, reason, stderr, now);
      r.Some? && Drains(cfg, db, r.value)
  {
    var row := Fail(db, id, x.work.row.attempt >= x.info.maxAttempts, gate, reason, stderr, now).value.deliveries[id];
    InfoWithin(cfg, db.actions, x.info);
    var c := ScaleOf(cfg, db.actions);
    FailedWeight(c, db.deliveries[id], row, Left(c, db.messages, row.msg));
    RowDrains(cfg, db, id, row);
  }

  lemma InfoWithin(cfg: Config, actions: Actions, info: ActionInfo)
    requires InfoOk(cfg, actions, info)
    ensures info.maxAttempts <= ScaleOf(cfg, actions).attempts
  {
    assert info.maxAttempts == Attempts.MaxAttempts(cfg, actions[info.name][info.version - 1].def);
    assert info.maxAttempts <= Attempts.Bound(cfg, actions, info.name);
  }

  lemma PgidDrains(cfg: Config, db: Db, id: Id, pgid: int)
    ensures Drains(cfg, db, SetPgid(db, id, pgid))
  {
    if id in db.deliveries && db.deliveries[id].state.Claimed? {
      RowDrains(cfg, db, id, SetPgid(db, id, pgid).deliveries[id]);
    }
  }

  lemma CancelWeight(c: Scale, db: Db, name: Name, reason: Reason, now: Stamp, d: Id)
    requires c.attempts >= 1 && d in db.deliveries
    ensures var r := CancelAll(db, name, reason, now);
      RowWeight(c, r, d) <= RowWeight(c, db, d) &&
      (r.deliveries[d].state != db.deliveries[d].state ==> RowWeight(c, r, d) < RowWeight(c, db, d))
  {
  }

  lemma CancelDrains(cfg: Config, db: Db, name: Name, reason: Reason, now: Stamp)
    ensures Drains(cfg, db, CancelAll(db, name, reason, now))
  {
    var c := ScaleOf(cfg, db.actions);
    var r := CancelAll(db, name, reason, now);
    var a, b := Weights(c, db), Weights(c, r);
    forall d | d in a ensures b[d] <= a[d] && (r.deliveries[d].state != db.deliveries[d].state ==> b[d] < a[d]) {
      CancelWeight(c, db, name, reason, now, d);
    }
    assert a.Keys == b.Keys;
    Sums.TotalBelow(a, b);
    if SomeMove(db, r) {
      var d :| d in db.deliveries && d in r.deliveries && db.deliveries[d].state != r.deliveries[d].state;
      Sums.TotalStrictlyBelow(a, b, d);
    }
  }

  // Completion.

  /** Every inserted row weighs the same: all outputs carry one hop more than their input. */
  lemma InsertedWeight(c: Scale, db: Db, r: Db, outs: seq<Outgoing>, ids: seq<Id>, hops: int, d: Id)
    requires c.attempts >= 1 && Insertable(db, outs, ids) && r == Insert(db, outs, ids) && d in ids
    requires forall i | 0 <= i < |outs| :: MessageHops(outs[i].msg.headers) == hops
    ensures d in r.deliveries && RowWeight(c, r, d) == Whole(c, if hops < c.hops then c.hops - hops else 0)
  {
    InsertedRow(db, outs, ids, d);
    var row := r.deliveries[d];
    var i :| 0 <= i < |outs| && row.msg == outs[i].id && Subscribed(db.actions, outs[i].msg.queue, row.action);
    assert r.messages[outs[i].id] == outs[i].msg;
    FreshWeight(c, r.messages, row, hops);
  }

  lemma FreshWeight(c: Scale, messages: map<Id, Message>, row: Row, hops: int)
    requires c.attempts >= 1 && row == Fresh(row.msg, row.action)
    requires row.msg in messages && MessageHops(messages[row.msg].headers) == hops
    ensures Weight(c, row, Left(c, messages, row.msg)) == Whole(c, if hops < c.hops then c.hops - hops else 0)
  {
  }

  /** Rows keep their weight when messages and rows are added. */
  lemma KeptWeight(c: Scale, db: Db, r: Db, d: Id)
    requires c.attempts >= 1 && References(db) && d in db.deliveries && d in r.deliveries
    requires r.deliveries[d] == db.deliveries[d]
    requires forall m | m in db.messages :: m in r.messages && r.messages[m] == db.messages[m]
    ensures RowWeight(c, r, d) == RowWeight(c, db, d)
  {
    assert Refers(db, d);
  }

  lemma WeightsExtend(c: Scale, db: Db, r: Db, ids: seq<Id>, v: nat)
    requires c.attempts >= 1 && Increasing(ids) && db.deliveries.Keys !! Elements(ids)
    requires r.deliveries.Keys == db.deliveries.Keys + Elements(ids)
    requires forall d | d in db.deliveries :: RowWeight(c, r, d) == RowWeight(c, db, d)
    requires forall d | d in Elements(ids) :: RowWeight(c, r, d) == v
    ensures Sums.Total(Weights(c, r)) == Sums.Total(Weights(c, db)) + Sums.Times(|ids|, v)
  {
    Sums.TotalExtend(Weights(c, db), Weights(c, r), ids, v);
  }

  lemma InsertedKeys(deliveries: map<Id, Row>, fan: seq<Target>, ids: seq<Id>)
    requires Increasing(ids) && |ids| == |fan| && (forall k | 0 <= k < |ids| :: ids[k] !in deliveries)
    ensures deliveries.Keys !! Elements(ids)
    ensures InsertRows(deliveries, fan, ids).Keys == deliveries.Keys + Elements(ids)
  {
    forall d | d in Elements(ids) ensures d !in deliveries {
      var k :| 0 <= k < |ids| && ids[k] == d;
    }
  }

  lemma InsertAdds(c: Scale, db: Db, r: Db, outs: seq<Outgoing>, ids: seq<Id>, hops: int)
    requires c.attempts >= 1 && Insertable(db, outs, ids) && r == Insert(db, outs, ids) && References(db)
    requires forall i | 0 <= i < |outs| :: MessageHops(outs[i].msg.headers) == hops
    ensures Sums.Total(Weights(c, r)) ==
      Sums.Total(Weights(c, db)) + Sums.Times(|ids|, Whole(c, if hops < c.hops then c.hops - hops else 0))
  {
    var v := Whole(c, if hops < c.hops then c.hops - hops else 0);
    InsertedKeys(db.deliveries, Fan(db.actions, outs), ids);
    forall d | d in Elements(ids) ensures RowWeight(c, r, d) == v {
      InsertedWeight(c, db, r, outs, ids, hops, d);
    }
    forall d | d in db.deliveries ensures RowWeight(c, r, d) == RowWeight(c, db, d) {
      KeptWeight(c, db, r, d);
    }
    WeightsExtend(c, db, r, ids, v);
  }

  lemma {:induction false} FanTimes(actions: Actions, outs: seq<Outgoing>)
    ensures |Fan(actions, outs)| <= Sums.Times(|outs|, |actions|)
  {
    if outs != [] {
      FanTimes(actions, outs[..|outs| - 1]);
    }
  }

  /** An execution creates at most rows rows. */
  lemma OutputBound(cfg: Config, actions: Actions, x: Exec, o: Outcome, payloads: seq<Data>, outs: seq<Outgoing>)
    requires Emits(cfg, x.info, o) == Some(payloads) && |o.stdout| <= cfg.stdoutCap && |outs| == |payloads|
    ensures |Fan(actions, outs)| <= ScaleOf(cfg, actions).rows
  {
    PayloadCount(cfg, x.info, o, payloads);
    FanTimes(actions, outs);
    Sums.TimesGrows(|outs|, LineBound(cfg.stdoutCap), |actions|);
  }

  lemma PayloadCount(cfg: Config, info: ActionInfo, o: Outcome, payloads: seq<Data>)
    requires Emits(cfg, info, o) == Some(payloads) && |o.stdout| <= cfg.stdoutCap
    ensures |payloads| <= LineBound(cfg.stdoutCap)
  {
    Streams.PayloadBound(o.stdout);
    Streams.ParseIs(cfg.valid, o.stdout);
    hide Streams.Parse;
    hide Streams.Split;
    hide Streams.Payloads;
  }

  lemma MarkDoneWeight(cfg: Config, db: Db, id: Id, stderr: Data, now: Stamp)
    requires id in db.deliveries && db.deliveries[id].state.Claimed?
    ensures var c := ScaleOf(cfg, db.actions);
      Sums.Total(Weights(c, MarkDone(db, id, stderr, now))) ==
        Measure(cfg, db) - Weight(c, db.deliveries[id], Left(c, db.messages, db.deliveries[id].msg))
  {
    var c := ScaleOf(cfg, db.actions);
    var r := MarkDone(db, id, stderr, now);
    assert Weights(c, r) == Weights(c, db)[id := 0];
    Sums.TotalUpdate(Weights(c, db), id, 0);
  }

  /** What a completion adds is less than what it closes. */
  lemma CompleteCost(cfg: Config, db: Db, mid: Db, r: Db, id: Id, x: Exec, o: Outcome, payloads: seq<Data>,
                     outs: seq<Outgoing>, ids: seq<Id>)
    requires References(mid) && ExecOk(cfg, db, id, x) && Within(cfg, x.(phase := Finished(o)))
    requires Emits(cfg, x.info, o) == Some(payloads) && |outs| == |payloads| && mid.actions == db.actions
    requires forall i | 0 <= i < |outs| :: MessageHops(outs[i].msg.headers) == MessageHops(x.work.msg.headers) + 1
    requires Insertable(mid, outs, ids) && r == Insert(mid, outs, ids)
    requires var c := ScaleOf(cfg, db.actions);
      Sums.Total(Weights(c, mid)) ==
        Measure(cfg, db) - Weight(c, db.deliveries[id], Left(c, db.messages, db.deliveries[id].msg))
    ensures Sums.Total(Weights(ScaleOf(cfg, db.actions), r)) < Measure(cfg, db)
  {
    hide Sums.Total;
    hide Weights;
    hide Streams.Parse;
    hide Insert;
    var c := ScaleOf(cfg, db.actions);
    var hops := MessageHops(x.work.msg.headers) + 1;
    var left := c.hops - hops;
    InsertAdds(c, mid, r, outs, ids, hops);
    OutputBound(cfg, db.actions, x, o, payloads, outs);
    Sums.TimesGrows(|ids|, c.rows, Whole(c, left));
    assert Left(c, db.messages, db.deliveries[id].msg) == left + 1;
    ClosedPays(c, db.deliveries[id], left);
  }

  lemma MarkedDone(db: Db, id: Id, stderr: Data, outs: seq<Outgoing>, ids: seq<Id>, now: Stamp)
    requires References(db) && id in db.deliveries && Insertable(db, outs, ids)
    ensures var mid := MarkDone(db, id, stderr, now); References(mid) && Insertable(mid, outs, ids)
  {
    var mid := MarkDone(db, id, stderr, now);
    forall d | d in mid.deliveries ensures Refers(mid, d) {
      assert Refers(db, d);
    }
  }

  lemma CompleteDrains(cfg: Config, db: Db, id: Id, x: Exec, o: Outcome, payloads: seq<Data>, outs: seq<Outgoing>,
                       ids: seq<Id>, now: Stamp)
    requires References(db) && ExecOk(cfg, db, id, x) && Within(cfg, x.(phase := Finished(o)))
    requires Emits(cfg, x.info, o) == Some(payloads) && |outs| == |payloads| && Insertable(db, outs, ids)
    requires forall i | 0 <= i < |outs| :: MessageHops(outs[i].msg.headers) == MessageHops(x.work.msg.headers) + 1
    ensures Drains(cfg, db, Complete(db, id, o.stderr, outs, ids, now).value)
  {
    var mid := MarkDone(db, id, o.stderr, now);
    MarkedDone(db, id, o.stderr, outs, ids, now);
    MarkDoneWeight(cfg, db, id, o.stderr, now);
    var r := Insert(mid, outs, ids);
    CompleteCost(cfg, db, mid, r, id, x, o, payloads, outs, ids);
    LowerDrains(cfg, db, r);
  }

  lemma LowerDrains(cfg: Config, db: Db, r: Db)
    requires r.actions == db.actions && Sums.Total(Weights(ScaleOf(cfg, db.actions), r)) < Measure(cfg, db)
    ensures Drains(cfg, db, r)
  {
  }

  /** A completed row pays for all that it created. */
  lemma ClosedPays(c: Scale, row: Row, left: nat)
    requires c.attempts >= 1 && row.state.Claimed?
    ensures Weight(c, row, left + 1) > Sums.Times(c.rows, Whole(c, left))
  {
    assert Gain(c, left + 1) == Sums.Times(c.rows, Whole(c, left));
  }

  // Executions stay within the limits they were launched under.

  ghost predicate Within(cfg: Config, x: Exec) {
    && MessageHops(x.work.msg.headers) < cfg.maxHops
    && (x.phase.Finished? && !x.phase.outcome.failed ==> |x.phase.outcome.stdout| <= cfg.stdoutCap)
  }

  ghost predicate AllWithin(cfg: Config, execs: map<Id, Exec>) {
    forall id {:trigger Within(cfg, execs[id])} | id in execs :: Within(cfg, execs[id])
  }

  lemma DecideWithin(cfg: Config, s: Sys, ok: bool)
    requires CanDispatch(s, Decide(ok)) && AllWithin(cfg, s.execs)
    ensures AllWithin(cfg, DoDecide(cfg, s, ok).execs)
  {
    var info, w := s.pc.plan.infos[s.pc.k], s.pc.work;
    LaunchHops(cfg, info, w.msg);
    var t := DoDecide(cfg, s, ok);
    forall id | id in t.execs ensures Within(cfg, t.execs[id]) {
      assert id in s.execs ==> Within(cfg, s.execs[id]);
    }
  }

  lemma LaunchHops(cfg: Config, info: ActionInfo, msg: Message)
    ensures Decision(cfg, info, msg).Launch? ==> MessageHops(msg.headers) < cfg.maxHops
  {
  }

  lemma StepWithin(cfg: Config, s: Sys, e: Event)
    requires Can(cfg, s, e) && AllWithin(cfg, s.execs)
    ensures AllWithin(cfg, Do(cfg, s, e).execs)
  {
    match e
    case Daemon(d) => DaemonWithin(cfg, s, d);
    case Dispatch(p) => if p.Decide? { DecideWithin(cfg, s, p.ok); } else { Frames.DispatchFrame(cfg, s, p); }
    case Loop(l) => Frames.LoopFrame(s, l);
    case Receive(id, ok, now, gate, mids, ids) => ReceiveWithin(cfg, s, id, ok, now, gate, mids, ids);
    case Worker(w) => WorkWithin(cfg, s, w);
    case Request(q) => RequestWithin(s, q);
    case Track(t) =>
  }

  lemma DaemonWithin(cfg: Config, s: Sys, d: DaemonEvent)
    requires CanDaemon(s, d) && AllWithin(cfg, s.execs)
    ensures AllWithin(cfg, DoDaemon(s, d).execs)
  {
  }

  lemma RequestWithin(s: Sys, q: RequestEvent)
    requires CanRequest(s, q)
    ensures DoRequest(s, q).execs == s.execs
  {
  }

  lemma ReceiveWithin(cfg: Config, s: Sys, id: Id, ok: bool, now: Stamp, gate: Stamp, mids: seq<Id>, ids: seq<Id>)
    requires CanReceive(cfg, s, id, now, mids, ids) && AllWithin(cfg, s.execs)
    ensures AllWithin(cfg, DoReceive(cfg, s, id, ok, now, gate, mids, ids).execs)
  {
    Frames.ReceiveFrame(cfg, s, id, ok, now, gate, mids, ids);
    var rest := s.execs - {id};
    forall d | d in rest ensures Within(cfg, rest[d]) {
      assert Within(cfg, s.execs[d]);
    }
  }

  lemma WorkWithin(cfg: Config, s: Sys, w: WorkerEvent)
    requires CanWork(cfg, s, w) && AllWithin(cfg, s.execs)
    ensures AllWithin(cfg, DoWork(cfg, s, w).execs)
  {
    var t := DoWork(cfg, s, w);
    forall d | d in t.execs ensures Within(cfg, t.execs[d]) {
      assert Within(cfg, s.execs[d]);
    }
  }

  lemma {:induction false} RunWithin(cfg: Config, es: seq<Event>)
    ensures AllWithin(cfg, Run(cfg, START, es).execs)
  {
    if es != [] {
      var n := |es| - 1;
      RunWithin(cfg, es[..n]);
      if Can(cfg, Run(cfg, START, es[..n]), es[n]) {
        StepWithin(cfg, Run(cfg, START, es[..n]), es[n]);
      }
    }
  }

  // Steps.

  /** No ingress, no replay, no registry change, no reap. */
  predicate Closed(e: Event) {
    match e
    case Request(q) => !q.Send? && !q.ReplayRow? && !q.Register? && !q.Switch?
    case Daemon(d) => !d.Reap?
    case _ => true
  }

  lemma DecideDrains(cfg: Config, s: Sys, ok: bool)
    requires Inv(cfg, s) && CanDispatch(s, Decide(ok))
    ensures Drains(cfg, s.db, DoDecide(cfg, s, ok).db)
  {
    var info, w := s.pc.plan.infos[s.pc.k], s.pc.work;
    SettlesTerminal(cfg, info, w.msg);
    var d := Decision(cfg, info, w.msg);
    if !ok {
      assert DoDecide(cfg, s, ok).db == s.db;
    } else if d.Settle? {
      ResolveDrains(cfg, s.db, w.id, d.state, d.error, s.pc.plan.now);
      assert DoDecide(cfg, s, ok).db == Resolve(s.db, w.id, d.state, d.error, s.pc.plan.now).value;
    } else {
      ClaimDrains(cfg, s.db, w.id, info.version, s.pc.plan.now);
      assert DoDecide(cfg, s, ok).db == Claim(s.db, w.id, info.version, s.pc.plan.now).value;
    }
  }

  lemma DispatchDrains(cfg: Config, s: Sys, p: DispatchEvent)
    requires Inv(cfg, s) && CanDispatch(s, p)
    ensures Drains(cfg, s.db, DoDispatch(cfg, s, p).db)
  {
    if p.Decide? {
      DecideDrains(cfg, s, p.ok);
    } else {
      Frames.DispatchFrame(cfg, s, p);
    }
  }

  lemma ReceiveDrains(cfg: Config, s: Sys, id: Id, ok: bool, now: Stamp, gate: Stamp, mids: seq<Id>, ids: seq<Id>)
    requires Inv(cfg, s) && CanReceive(cfg, s, id, now, mids, ids) && AllWithin(cfg, s.execs)
    ensures Drains(cfg, s.db, DoReceive(cfg, s, id, ok, now, gate, mids, ids).db)
  {
    var x := s.execs[id];
    var o := x.phase.outcome;
    assert ExecOk(cfg, s.db, id, x) && Within(cfg, x);
    var emits := Emits(cfg, x.info, o);
    if !ok {
    } else if emits.Some? {
      CompleteDrains(cfg, s.db, id, x, o, emits.value, BuildOutputs(x, emits.value, mids, now), ids, now);
    } else {
      FailDrains(cfg, s.db, id, x, gate, if o.failed then Execution else BadStdout, o.stderr, now);
    }
  }

  lemma LoopDrains(cfg: Config, s: Sys, l: LoopEvent)
    requires CanLoop(s, l)
    ensures Drains(cfg, s.db, DoLoop(s, l).db)
  {
    if l.Control? && l.ok {
      CancelDrains(cfg, s.db, s.disabling[l.k], ActionDisabled, l.now);
    }
  }

  lemma WorkDrains(cfg: Config, s: Sys, w: WorkerEvent)
    requires CanWork(cfg, s, w)
    ensures Drains(cfg, s.db, DoWork(cfg, s, w).db)
  {
    if w.Record? {
      PgidDrains(cfg, s.db, w.id, w.pgid);
    }
  }

  lemma DaemonDrains(cfg: Config, s: Sys, d: DaemonEvent)
    requires CanDaemon(s, d) && Closed(Daemon(d))
    ensures Drains(cfg, s.db, DoDaemon(s, d).db)
  {
    assert DoDaemon(s, d).db == s.db;
  }

  lemma RequestDrains(cfg: Config, s: Sys, q: RequestEvent)
    requires CanRequest(s, q) && Closed(Request(q))
    ensures Drains(cfg, s.db, DoRequest(s, q).db)
  {
    assert DoRequest(s, q).db == s.db;
  }

  /** Every closed step drains. */
  lemma StepDrains(cfg: Config, s: Sys, e: Event)
    requires Inv(cfg, s) && Can(cfg, s, e) && AllWithin(cfg, s.execs) && Closed(e)
    ensures Drains(cfg, s.db, Do(cfg, s, e).db)
  {
    match e
    case Daemon(d) => DaemonDrains(cfg, s, d);
    case Dispatch(p) => DispatchDrains(cfg, s, p);
    case Loop(l) => LoopDrains(cfg, s, l);
    case Receive(id, ok, now, gate, mids, ids) => ReceiveDrains(cfg, s, id, ok, now, gate, mids, ids);
    case Worker(w) => WorkDrains(cfg, s, w);
    case Request(q) => RequestDrains(cfg, s, q);
    case Track(t) =>
  }

  /** How many steps of a run change the state of some row. */
  ghost function Moves(cfg: Config, s: Sys, es: seq<Event>): nat {
    if es == [] then 0
    else
      var t := Run(cfg, s, es[..|es| - 1]);
      Moves(cfg, s, es[..|es| - 1]) + if SomeMove(t.db, Step(cfg, t, es[|es| - 1]).db) then 1 else 0
  }

  /**
   * From any reachable state, however the graph of actions is wired: any run of closed steps moves rows at most
   * Measure times, and each move, every launched execution among them, uses the measure up.
   */
  lemma {:induction false} EveryRunDrains(cfg: Config, es: seq<Event>, fs: seq<Event>)
    requires forall i | 0 <= i < |fs| :: Closed(fs[i])
    ensures var s, t := Run(cfg, START, es), Run(cfg, START, es + fs);
      Moves(cfg, s, fs) + Measure(cfg, t.db) <= Measure(cfg, s.db)
    decreases |fs|
  {
    var s := Run(cfg, START, es);
    RunAppend(cfg, START, es, fs);
    if fs == [] {
      assert es + fs == es;
    } else {
      var n := |fs| - 1;
      EveryRunDrains(cfg, es, fs[..n]);
      RunAppend(cfg, START, es, fs[..n]);
      RunInv(cfg, es + fs[..n]);
      RunWithin(cfg, es + fs[..n]);
      var t := Run(cfg, s, fs[..n]);
      if Can(cfg, t, fs[n]) {
        StepDrains(cfg, t, fs[n]);
      }
    }
  }

  // The hop limit.

  /** The fewest hops any client has sent in, and at most zero. */
  function Fewest(es: seq<Event>): int {
    if es == [] then 0
    else
      var last, rest := es[|es| - 1], Fewest(es[..|es| - 1]);
      if last.Request? && last.q.Send? && MessageHops(last.q.headers) < rest then MessageHops(last.q.headers) else rest
  }

  /** What the engine emits has more hops than the fewest that came in, and at most the limit. */
  predicate GoodHops(cfg: Config, fewest: int, msg: Message) {
    if msg.origin.None? then fewest <= MessageHops(msg.headers)
    else msg.headers.Hops? && fewest < msg.headers.n <= cfg.maxHops
  }

  ghost predicate AllGoodHops(cfg: Config, fewest: int, messages: map<Id, Message>) {
    forall m {:trigger GoodHops(cfg, fewest, messages[m])} | m in messages :: GoodHops(cfg, fewest, messages[m])
  }

  lemma FewerHops(cfg: Config, fewer: int, fewest: int, messages: map<Id, Message>)
    requires fewer <= fewest && AllGoodHops(cfg, fewest, messages)
    ensures AllGoodHops(cfg, fewer, messages)
  {
    forall m | m in messages ensures GoodHops(cfg, fewer, messages[m]) {
      assert GoodHops(cfg, fewest, messages[m]);
    }
  }

  lemma InsertHops(cfg: Config, fewest: int, messages: map<Id, Message>, outs: seq<Outgoing>)
    requires AllGoodHops(cfg, fewest, messages) && DistinctIds(outs)
    requires forall i | 0 <= i < |outs| :: outs[i].id !in messages && GoodHops(cfg, fewest, outs[i].msg)
    ensures AllGoodHops(cfg, fewest, InsertMessages(messages, outs))
  {
  }

  lemma ReceiveHops(cfg: Config, fewest: int, s: Sys, id: Id, ok: bool, now: Stamp, gate: Stamp, mids: seq<Id>,
                    ids: seq<Id>)
    requires Inv(cfg, s) && CanReceive(cfg, s, id, now, mids, ids) && AllWithin(cfg, s.execs)
    requires AllGoodHops(cfg, fewest, s.db.messages)
    ensures AllGoodHops(cfg, fewest, DoReceive(cfg, s, id, ok, now, gate, mids, ids).db.messages)
  {
    var x := s.execs[id];
    assert ExecOk(cfg, s.db, id, x) && Within(cfg, x);
    assert GoodHops(cfg, fewest, s.db.messages[x.work.row.msg]);
    var emits := Emits(cfg, x.info, x.phase.outcome);
    if emits.Some? {
      InsertHops(cfg, fewest, s.db.messages, BuildOutputs(x, emits.value, mids, now));
    }
  }

  lemma RequestHops(cfg: Config, fewest: int, s: Sys, q: RequestEvent)
    requires CanRequest(s, q) && AllGoodHops(cfg, fewest, s.db.messages)
    requires q.Send? ==> fewest <= MessageHops(q.headers)
    ensures AllGoodHops(cfg, fewest, DoRequest(s, q).db.messages)
  {
    if q.Send? {
      InsertHops(cfg, fewest, s.db.messages, [Outgoing(q.mid, Ingress(q.queue, q.payload, q.headers, q.trace, q.now))]);
    }
  }

  lemma StepHops(cfg: Config, fewest: int, s: Sys, e: Event)
    requires Inv(cfg, s) && Can(cfg, s, e) && AllWithin(cfg, s.execs) && AllGoodHops(cfg, fewest, s.db.messages)
    requires e.Request? && e.q.Send? ==> fewest <= MessageHops(e.q.headers)
    ensures AllGoodHops(cfg, fewest, Do(cfg, s, e).db.messages)
  {
    match e
    case Daemon(d) =>
    case Dispatch(p) => Frames.DispatchFrame(cfg, s, p);
    case Loop(l) => Frames.LoopFrame(s, l);
    case Receive(id, ok, now, gate, mids, ids) => ReceiveHops(cfg, fewest, s, id, ok, now, gate, mids, ids);
    case Worker(w) => Frames.WorkFrame(cfg, s, w);
    case Request(q) => RequestHops(cfg, fewest, s, q);
    case Track(t) =>
  }

  /**
   * No message the engine emits, in any run, exceeds the hop limit, whatever hops came in; and each has more hops than
   * the fewest that came in, so at least one if no client sent less than zero.
   */
  lemma {:induction false} HopLimitHolds(cfg: Config, es: seq<Event>)
    ensures AllGoodHops(cfg, Fewest(es), Run(cfg, START, es).db.messages)
  {
    if es != [] {
      var n := |es| - 1;
      HopLimitHolds(cfg, es[..n]);
      RunInv(cfg, es[..n]);
      RunWithin(cfg, es[..n]);
      FewerHops(cfg, Fewest(es), Fewest(es[..n]), Run(cfg, START, es[..n]).db.messages);
      if Can(cfg, Run(cfg, START, es[..n]), es[n]) {
        StepHops(cfg, Fewest(es), Run(cfg, START, es[..n]), es[n]);
      }
    }
  }
}
