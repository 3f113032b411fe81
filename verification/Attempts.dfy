/**
 * Attempts over whole runs: the counter in a row is the number of its claims since it was created or last replayed,
 * and it outgrows the registered max_attempts only by the reaps since then.
 */
module Attempts {
  import opened Bytes
  import opened Keys
  import opened Stamps
  import opened Workflow
  import opened Tables
  import opened Engine
  import opened Integrity
  import opened Ownership
  import Frames

  function MaxAttempts(cfg: Config, def: Definition): int {
    if def.maxAttempts.Some? then def.maxAttempts.value else cfg.defaultMaxAttempts
  }

  /** The largest max_attempts of some versions. */
  function Most(cfg: Config, versions: seq<Version>): (m: int)
    ensures m >= 1 && forall v | 0 <= v < |versions| :: MaxAttempts(cfg, versions[v].def) <= m
  {
    if versions == [] then 1
    else
      var n := |versions| - 1;
      var m := Most(cfg, versions[..n]);
      if MaxAttempts(cfg, versions[n].def) <= m then m else MaxAttempts(cfg, versions[n].def)
  }

  function Bound(cfg: Config, actions: Actions, name: Name): (m: int)
    ensures m >= 1
  {
    if name in actions then Most(cfg, actions[name]) else 1
  }

  lemma {:induction false} MostSame(cfg: Config, a: seq<Version>, b: seq<Version>)
    requires |a| == |b| && forall v | 0 <= v < |a| :: a[v].def == b[v].def
    ensures Most(cfg, a) == Most(cfg, b)
  {
    if a != [] {
      MostSame(cfg, a[..|a| - 1], b[..|b| - 1]);
    }
  }

  lemma BoundGrows(cfg: Config, actions: Actions, name: Name, other: Name, def: Definition, on: bool)
    ensures Bound(cfg, Apply(actions, other, def), name) >= Bound(cfg, actions, name)
    ensures Registered(actions, other) ==> Bound(cfg, SetEnabled(actions, other, on), name) == Bound(cfg, actions, name)
  {
    if name == other && Registered(actions, name) {
      var versions := actions[name];
      assert (versions + [Version(def, true)])[..|versions|] == versions;
      assert (versions + [Version(def, false)])[..|versions|] == versions;
      MostSame(cfg, versions, SetEnabled(actions, other, on)[name]);
    }
  }

  /** One row against its tally. */
  ghost predicate TallyOk(cfg: Config, actions: Actions, h: History, d: Id, row: Row) {
    var t := TallyOf(h, d);
    && row.attempt == t.claims
    && row.attempt <= Bound(cfg, actions, row.action) + t.reaps
    && (row.state.Failed? ==> row.attempt < Bound(cfg, actions, row.action) + t.reaps)
  }

  ghost predicate Tallied(cfg: Config, db: Db, h: History) {
    && h.tallies.Keys <= db.deliveries.Keys
    && forall d {:trigger TallyOk(cfg, db.actions, h, d, db.deliveries[d])} | d in db.deliveries ::
         TallyOk(cfg, db.actions, h, d, db.deliveries[d])
  }

  lemma UpdateTallied(cfg: Config, db: Db, h: History, id: Id, row: Row, after: History)
    requires Tallied(cfg, db, h) && id in db.deliveries && TallyOk(cfg, db.actions, after, id, row)
    requires after.tallies == h.tallies || (id in after.tallies && after.tallies == h.tallies[id := after.tallies[id]])
    ensures Tallied(cfg, db.(deliveries := db.deliveries[id := row]), after)
  {
    var r := db.(deliveries := db.deliveries[id := row]);
    forall d | d in r.deliveries ensures TallyOk(cfg, r.actions, after, d, r.deliveries[d]) {
      if d != id { assert TallyOk(cfg, db.actions, h, d, db.deliveries[d]); }
    }
  }

  lemma InsertTallied(cfg: Config, db: Db, h: History, outs: seq<Outgoing>, ids: seq<Id>)
    requires Tallied(cfg, db, h) && Insertable(db, outs, ids)
    ensures Tallied(cfg, Insert(db, outs, ids), h)
  {
    var r := Insert(db, outs, ids);
    forall d | d in r.deliveries ensures TallyOk(cfg, r.actions, h, d, r.deliveries[d]) {
      if d in db.deliveries {
        assert TallyOk(cfg, db.actions, h, d, db.deliveries[d]);
      } else {
        InsertedRow(db, outs, ids, d);
        assert d !in h.tallies.Keys;
      }
    }
  }

  lemma CancelTallied(cfg: Config, db: Db, h: History, name: Name, reason: Reason, now: Stamp)
    requires Tallied(cfg, db, h)
    ensures Tallied(cfg, CancelAll(db, name, reason, now), h)
  {
    var r := CancelAll(db, name, reason, now);
    forall d | d in r.deliveries ensures TallyOk(cfg, r.actions, h, d, r.deliveries[d]) {
      assert TallyOk(cfg, db.actions, h, d, db.deliveries[d]);
    }
  }

  lemma RegistryTallied(cfg: Config, db: Db, h: History, actions: Actions)
    requires Tallied(cfg, db, h)
    requires forall n: Name :: Bound(cfg, actions, n) >= Bound(cfg, db.actions, n)
    ensures Tallied(cfg, db.(actions := actions), h)
  {
    forall d | d in db.deliveries ensures TallyOk(cfg, actions, h, d, db.deliveries[d]) {
      assert TallyOk(cfg, db.actions, h, d, db.deliveries[d]);
    }
  }

  /** Only the tallies of a history matter here. */
  lemma SameTallies(cfg: Config, db: Db, h: History, after: History)
    requires Tallied(cfg, db, h) && after.tallies == h.tallies
    ensures Tallied(cfg, db, after)
  {
    forall d | d in db.deliveries ensures TallyOk(cfg, db.actions, after, d, db.deliveries[d]) {
      assert TallyOk(cfg, db.actions, h, d, db.deliveries[d]);
    }
  }

  // Steps.

  lemma ReapTallied(cfg: Config, s: Sys, ok: bool, now: Stamp)
    requires Inv(cfg, s) && s.pc.Reaping? && s.pc.todo != [] && Tallied(cfg, s.db, s.h)
    ensures var t := DoReap(s, ok, now); Tallied(cfg, t.db, t.h)
  {
    var t := DoReap(s, ok, now);
    if ok {
      var id := s.pc.todo[0];
      assert id in Elements(s.pc.todo);
      assert TallyOk(cfg, s.db.actions, s.h, id, s.db.deliveries[id]);
      UpdateTallied(cfg, s.db, s.h, id, t.db.deliveries[id], t.h);
    } else {
      SameTallies(cfg, s.db, s.h, t.h);
    }
  }

  lemma DaemonTallied(cfg: Config, s: Sys, d: DaemonEvent)
    requires Inv(cfg, s) && CanDaemon(s, d) && Tallied(cfg, s.db, s.h)
    ensures var t := DoDaemon(s, d); Tallied(cfg, t.db, t.h)
  {
    if d.Reap? {
      ReapTallied(cfg, s, d.ok, d.now);
    } else {
      SameTallies(cfg, s.db, s.h, DoDaemon(s, d).h);
    }
  }

  /** A claim is one more attempt within the bound. */
  lemma LaunchTallied(cfg: Config, s: Sys, info: ActionInfo, w: Work)
    requires Inv(cfg, s) && s.pc.Picked? && w == s.pc.work && info == s.pc.plan.infos[s.pc.k] && Tallied(cfg, s.db, s.h)
    requires Claim(s.db, w.id, info.version, s.pc.plan.now).Some?
    ensures var t := DoLaunch(s, Claim(s.db, w.id, info.version, s.pc.plan.now).value, s.pc.plan, s.pc.k, info, w);
      Tallied(cfg, t.db, t.h)
  {
    var db := Claim(s.db, w.id, info.version, s.pc.plan.now).value;
    var t := DoLaunch(s, db, s.pc.plan, s.pc.k, info, w);
    RowSound(s.db, w.id);
    assert TallyOk(cfg, s.db.actions, s.h, w.id, s.db.deliveries[w.id]);
    UpdateTallied(cfg, s.db, s.h, w.id, db.deliveries[w.id], t.h);
  }

  lemma SettleTallied(cfg: Config, s: Sys, state: State, error: Option<Reason>)
    requires Inv(cfg, s) && s.pc.Picked? && Tallied(cfg, s.db, s.h) && !state.Failed?
    requires Resolve(s.db, s.pc.work.id, state, error, s.pc.plan.now).Some?
    ensures var r := Resolve(s.db, s.pc.work.id, state, error, s.pc.plan.now).value;
      var t := DoSettle(s, r, s.pc.plan, s.pc.k, s.pc.work.id);
      Tallied(cfg, t.db, t.h)
  {
    var id := s.pc.work.id;
    var db := Resolve(s.db, id, state, error, s.pc.plan.now).value;
    var t := DoSettle(s, db, s.pc.plan, s.pc.k, id);
    assert TallyOk(cfg, s.db.actions, s.h, id, s.db.deliveries[id]);
    UpdateTallied(cfg, s.db, s.h, id, db.deliveries[id], t.h);
  }

  lemma DecideTallied(cfg: Config, s: Sys, ok: bool)
    requires Inv(cfg, s) && CanDispatch(s, Decide(ok)) && Tallied(cfg, s.db, s.h)
    ensures var t := DoDecide(cfg, s, ok); Tallied(cfg, t.db, t.h)
  {
    var info, w := s.pc.plan.infos[s.pc.k], s.pc.work;
    var d := Decision(cfg, info, w.msg);
    SettlesTerminal(cfg, info, w.msg);
    if !ok {
      SameTallies(cfg, s.db, s.h, DoDecide(cfg, s, ok).h);
    } else if d.Settle? {
      SettleTallied(cfg, s, d.state, d.error);
    } else {
      LaunchTallied(cfg, s, info, w);
    }
  }

  lemma DispatchTallied(cfg: Config, s: Sys, p: DispatchEvent)
    requires Inv(cfg, s) && CanDispatch(s, p) && Tallied(cfg, s.db, s.h)
    ensures var t := DoDispatch(cfg, s, p); Tallied(cfg, t.db, t.h)
  {
    if p.Decide? {
      DecideTallied(cfg, s, p.ok);
    } else {
      Frames.DispatchFrame(cfg, s, p);
    }
  }

  lemma FailTallied(cfg: Config, db: Db, h: History, id: Id, x: Exec, gate: Stamp, reason: Reason, stderr: Data,
                    now: Stamp)
    requires ExecOk(cfg, db, id, x) && Tallied(cfg, db, h)
    ensures var r := Fail(db, id, x.work.row.attempt >= x.info.maxAttempts, gate, reason, stderr, now);
      r.Some? && Tallied(cfg, r.value, h)
  {
    var r := Fail(db, id, x.work.row.attempt >= x.info.maxAttempts, gate, reason, stderr, now).value;
    assert TallyOk(cfg, db.actions, h, id, db.deliveries[id]);
    assert x.info.maxAttempts == MaxAttempts(cfg, db.actions[x.info.name][x.info.version - 1].def);
    UpdateTallied(cfg, db, h, id, r.deliveries[id], h);
  }

  lemma CompleteTallied(cfg: Config, db: Db, h: History, id: Id, stderr: Data, outs: seq<Outgoing>, ids: seq<Id>,
                        now: Stamp)
    requires Insertable(db, outs, ids) && id in db.deliveries && db.deliveries[id].state.Claimed? && Tallied(cfg, db, h)
    ensures Tallied(cfg, Complete(db, id, stderr, outs, ids, now).value, h)
  {
    var mid := MarkDone(db, id, stderr, now);
    assert TallyOk(cfg, db.actions, h, id, db.deliveries[id]);
    UpdateTallied(cfg, db, h, id, mid.deliveries[id], h);
    InsertTallied(cfg, mid, h, outs, ids);
  }

  lemma ReceiveTallied(cfg: Config, s: Sys, id: Id, ok: bool, now: Stamp, gate: Stamp, mids: seq<Id>, ids: seq<Id>)
    requires Inv(cfg, s) && CanReceive(cfg, s, id, now, mids, ids) && Tallied(cfg, s.db, s.h)
    ensures var t := DoReceive(cfg, s, id, ok, now, gate, mids, ids); Tallied(cfg, t.db, t.h)
  {
    var t := DoReceive(cfg, s, id, ok, now, gate, mids, ids);
    Frames.ReceiveFrame(cfg, s, id, ok, now, gate, mids, ids);
    var x := s.execs[id];
    assert ExecOk(cfg, s.db, id, x);
    var emits := Emits(cfg, x.info, x.phase.outcome);
    if !ok {
    } else if emits.Some? {
      CompleteTallied(cfg, s.db, s.h, id, x.phase.outcome.stderr, BuildOutputs(x, emits.value, mids, now), ids, now);
    } else {
      FailTallied(cfg, s.db, s.h, id, x, gate, if x.phase.outcome.failed then Execution else BadStdout,
                  x.phase.outcome.stderr, now);
    }
    SameTallies(cfg, t.db, s.h, t.h);
  }

  lemma LoopTallied(cfg: Config, s: Sys, l: LoopEvent)
    requires CanLoop(s, l) && Tallied(cfg, s.db, s.h)
    ensures var t := DoLoop(s, l); Tallied(cfg, t.db, t.h)
  {
    var t := DoLoop(s, l);
    if l.Control? && l.ok {
      CancelTallied(cfg, s.db, s.h, s.disabling[l.k], ActionDisabled, l.now);
    }
    SameTallies(cfg, t.db, s.h, t.h);
  }

  lemma WorkTallied(cfg: Config, s: Sys, w: WorkerEvent)
    requires Inv(cfg, s) && CanWork(cfg, s, w) && Tallied(cfg, s.db, s.h)
    ensures var t := DoWork(cfg, s, w); Tallied(cfg, t.db, t.h)
  {
    assert ExecOk(cfg, s.db, w.id, s.execs[w.id]);
    assert TallyOk(cfg, s.db.actions, s.h, w.id, s.db.deliveries[w.id]);
    if w.Record? && w.ok {
      UpdateTallied(cfg, s.db, s.h, w.id, SetPgid(s.db, w.id, w.pgid).deliveries[w.id], s.h);
    }
  }

  lemma ReplayTallied(cfg: Config, s: Sys, id: Id)
    requires Tallied(cfg, s.db, s.h) && Replay(s.db, id).Replayed?
    ensures var t := DoReplay(s, id); Tallied(cfg, t.db, t.h)
  {
    var t := DoReplay(s, id);
    UpdateTallied(cfg, s.db, s.h, id, t.db.deliveries[id], t.h);
  }

  lemma SendTallied(cfg: Config, s: Sys, out: Outgoing, ids: seq<Id>)
    requires Tallied(cfg, s.db, s.h) && Insertable(s.db, [out], ids)
    ensures var t := DoSend(s, out, ids); Tallied(cfg, t.db, t.h)
  {
    InsertTallied(cfg, s.db, s.h, [out], ids);
    var t := DoSend(s, out, ids);
    SameTallies(cfg, t.db, s.h, t.h);
  }

  lemma RequestTallied(cfg: Config, s: Sys, q: RequestEvent)
    requires CanRequest(s, q) && Tallied(cfg, s.db, s.h)
    ensures var t := DoRequest(s, q); Tallied(cfg, t.db, t.h)
  {
    match q
    case Send(mid, queue, payload, headers, trace, now, ids) =>
      SendTallied(cfg, s, Outgoing(mid, Ingress(queue, payload, headers, trace, now)), ids);
    case ReplayRow(id) => ReplayTallied(cfg, s, id);
    case Register(name, def) =>
      forall n: Name ensures Bound(cfg, Apply(s.db.actions, name, def), n) >= Bound(cfg, s.db.actions, n) {
        BoundGrows(cfg, s.db.actions, n, name, def, true);
      }
      RegistryTallied(cfg, s.db, s.h, Apply(s.db.actions, name, def));
    case Switch(name, on) =>
      forall n: Name ensures Bound(cfg, SetEnabled(s.db.actions, name, on), n) >= Bound(cfg, s.db.actions, n) {
        BoundGrows(cfg, s.db.actions, n, name, Current(s.db.actions, name).def, on);
      }
      RegistryTallied(cfg, s.db, s.h, SetEnabled(s.db.actions, name, on));
      SameTallies(cfg, DoSwitch(s, name, on).db, s.h, DoSwitch(s, name, on).h);
    case _ =>
  }

  lemma StepTallied(cfg: Config, s: Sys, e: Event)
    requires Inv(cfg, s) && Can(cfg, s, e) && Tallied(cfg, s.db, s.h)
    ensures var t := Do(cfg, s, e); Tallied(cfg, t.db, t.h)
  {
    match e
    case Daemon(d) => DaemonTallied(cfg, s, d);
    case Dispatch(p) => DispatchTallied(cfg, s, p);
    case Loop(l) => LoopTallied(cfg, s, l);
    case Receive(id, ok, now, gate, mids, ids) => ReceiveTallied(cfg, s, id, ok, now, gate, mids, ids);
    case Worker(w) => WorkTallied(cfg, s, w);
    case Request(q) => RequestTallied(cfg, s, q);
    case Track(t) =>
  }

  lemma {:induction false} RunTallied(cfg: Config, es: seq<Event>)
    ensures var s := Run(cfg, START, es); Tallied(cfg, s.db, s.h)
  {
    if es != [] {
      var n := |es| - 1;
      RunTallied(cfg, es[..n]);
      RunInv(cfg, es[..n]);
      if Can(cfg, Run(cfg, START, es[..n]), es[n]) {
        StepTallied(cfg, Run(cfg, START, es[..n]), es[n]);
      }
    }
  }

  lemma {:induction false} MostBelow(cfg: Config, versions: seq<Version>, m: int)
    requires m >= 1 && forall v | 0 <= v < |versions| :: MaxAttempts(cfg, versions[v].def) <= m
    ensures Most(cfg, versions) <= m
  {
    if versions != [] {
      MostBelow(cfg, versions[..|versions| - 1], m);
    }
  }

  /**
   * Row shape and attempts in every reachable state: the columns fit the state; attempt is the number of claims since
   * creation or the last replay; and while no version of the action allows more than m attempts, attempt is at most m
   * plus the reaps since then, one less while the row waits to be retried.
   */
  lemma AttemptsBounded(cfg: Config, es: seq<Event>, d: Id, m: int)
    requires d in Run(cfg, START, es).db.deliveries && m >= 1
    requires var s := Run(cfg, START, es); var versions := s.db.actions;
      forall n, v | n in versions && n == s.db.deliveries[d].action && 0 <= v < |versions[n]| ::
        MaxAttempts(cfg, versions[n][v].def) <= m
    ensures var s := Run(cfg, START, es); var row, t := s.db.deliveries[d], TallyOf(s.h, d);
      && Shape(row) && row.attempt == t.claims
      && row.attempt <= m + t.reaps - (if row.state.Failed? then 1 else 0)
  {
    RunTallied(cfg, es);
    RunInv(cfg, es);
    var s := Run(cfg, START, es);
    RowSound(s.db, d);
    var name := s.db.deliveries[d].action;
    MostBelow(cfg, s.db.actions[name], m);
    assert TallyOk(cfg, s.db.actions, s.h, d, s.db.deliveries[d]);
  }
}
