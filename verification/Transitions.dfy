/** The life of a row: which steps may change it, and how. */
module Transitions {
  import opened Bytes
  import opened Keys
  import opened Stamps
  import opened Workflow
  import opened Tables
  import opened Engine
  import opened Integrity
  import opened Ownership

  /** The only moves between states. */
  predicate Arrow(a: State, b: State) {
    || (Waiting(a) && b in {Claimed, Filtered, Dead, Cancelled})
    || (a.Claimed? && b in {Done, Failed, Dead})
    || (a.Dead? && b.Pending?)
  }

  /** A row is left alone, re-stamped within its state while claimed, or moved along an arrow. */
  predicate Evolves(a: Row, b: Row) {
    a == b || (SamePair(a, b) && (Arrow(a.state, b.state) || (a.state.Claimed? && b == a.(pgid := b.pgid))))
  }

  ghost predicate AllEvolve(db: Db, r: Db) {
    db.deliveries.Keys <= r.deliveries.Keys &&
    forall d {:trigger Evolves(db.deliveries[d], r.deliveries[d])} | d in db.deliveries ::
      Evolves(db.deliveries[d], r.deliveries[d])
  }

  lemma DaemonEvolves(cfg: Config, s: Sys, d: DaemonEvent)
    requires Inv(cfg, s) && CanDaemon(s, d)
    ensures AllEvolve(s.db, DoDaemon(s, d).db)
  {
  }

  /** Rewriting one row along an arrow. */
  lemma RowEvolves(db: Db, id: Id, row: Row)
    requires id in db.deliveries && Evolves(db.deliveries[id], row)
    ensures AllEvolve(db, db.(deliveries := db.deliveries[id := row]))
  {
  }

  lemma DecideEvolves(cfg: Config, s: Sys, ok: bool)
    requires Inv(cfg, s) && CanDispatch(s, Decide(ok))
    ensures AllEvolve(s.db, DoDecide(cfg, s, ok).db)
  {
    var info, w := s.pc.plan.infos[s.pc.k], s.pc.work;
    SettlesTerminal(cfg, info, w.msg);
    var d := Decision(cfg, info, w.msg);
    if d.Settle? {
      RowEvolves(s.db, w.id, Resolve(s.db, w.id, d.state, d.error, s.pc.plan.now).value.deliveries[w.id]);
    } else {
      RowEvolves(s.db, w.id, Claim(s.db, w.id, info.version, s.pc.plan.now).value.deliveries[w.id]);
    }
  }

  lemma CompleteEvolves(db: Db, id: Id, stderr: Data, outs: seq<Outgoing>, ids: seq<Id>, now: Stamp)
    requires Insertable(db, outs, ids) && id in db.deliveries && db.deliveries[id].state.Claimed?
    ensures AllEvolve(db, Complete(db, id, stderr, outs, ids, now).value)
  {
    var mid := MarkDone(db, id, stderr, now);
    var r := Complete(db, id, stderr, outs, ids, now).value;
    assert r == Insert(mid, outs, ids);
    assert forall d | d in mid.deliveries :: d in r.deliveries && r.deliveries[d] == mid.deliveries[d];
    DoneEvolves(db, id, mid, r);
  }

  lemma DoneEvolves(db: Db, id: Id, mid: Db, r: Db)
    requires id in db.deliveries && db.deliveries[id].state.Claimed?
    requires id in mid.deliveries && mid.deliveries[id].state.Done? && SamePair(db.deliveries[id], mid.deliveries[id])
    requires mid.deliveries == db.deliveries[id := mid.deliveries[id]]
    requires forall d | d in mid.deliveries :: d in r.deliveries && r.deliveries[d] == mid.deliveries[d]
    ensures AllEvolve(db, r)
  {
  }

  lemma ReceiveEvolves(cfg: Config, s: Sys, id: Id, ok: bool, now: Stamp, gate: Stamp, mids: seq<Id>, ids: seq<Id>)
    requires Inv(cfg, s) && CanReceive(cfg, s, id, now, mids, ids)
    ensures AllEvolve(s.db, DoReceive(cfg, s, id, ok, now, gate, mids, ids).db)
  {
    assert ExecOk(cfg, s.db, id, s.execs[id]);
    var x := s.execs[id];
    var emits := Emits(cfg, x.info, x.phase.outcome);
    if ok && emits.Some? {
      CompleteEvolves(s.db, id, x.phase.outcome.stderr, BuildOutputs(x, emits.value, mids, now), ids, now);
    }
  }

  lemma RequestEvolves(s: Sys, q: RequestEvent)
    requires CanRequest(s, q)
    ensures AllEvolve(s.db, DoRequest(s, q).db)
  {
  }

  lemma LoopEvolves(s: Sys, l: LoopEvent)
    requires CanLoop(s, l)
    ensures AllEvolve(s.db, DoLoop(s, l).db)
  {
  }

  lemma WorkEvolves(cfg: Config, s: Sys, w: WorkerEvent)
    requires CanWork(cfg, s, w)
    ensures AllEvolve(s.db, DoWork(cfg, s, w).db)
  {
  }

  lemma DispatchEvolves(cfg: Config, s: Sys, p: DispatchEvent)
    requires Inv(cfg, s) && CanDispatch(s, p)
    ensures AllEvolve(s.db, DoDispatch(cfg, s, p).db)
  {
    if p.Decide? {
      DecideEvolves(cfg, s, p.ok);
    }
  }

  /** Every step of every run moves rows only along the arrows, and never drops one. */
  lemma StepEvolves(cfg: Config, s: Sys, e: Event)
    requires Inv(cfg, s) && Can(cfg, s, e)
    ensures AllEvolve(s.db, Do(cfg, s, e).db)
  {
    match e
    case Daemon(d) => DaemonEvolves(cfg, s, d);
    case Dispatch(p) => DispatchEvolves(cfg, s, p);
    case Loop(l) => LoopEvolves(s, l);
    case Receive(id, ok, now, gate, mids, ids) => ReceiveEvolves(cfg, s, id, ok, now, gate, mids, ids);
    case Worker(w) => WorkEvolves(cfg, s, w);
    case Request(q) => RequestEvolves(s, q);
    case Track(t) =>
  }

  /** Handlers move a row only from dead to pending, and workers never move one. */
  lemma OthersOnlyReplay(s: Sys, q: RequestEvent, id: Id)
    requires CanRequest(s, q) && id in s.db.deliveries
    ensures var row := DoRequest(s, q).db.deliveries[id];
      row == s.db.deliveries[id] || (q == ReplayRow(id) && s.db.deliveries[id].state.Dead? && row.state.Pending?)
  {
    RequestEvolves(s, q);
    assert Evolves(s.db.deliveries[id], DoRequest(s, q).db.deliveries[id]);
  }

  lemma WorkersOnlyStamp(cfg: Config, s: Sys, w: WorkerEvent, id: Id)
    requires CanWork(cfg, s, w) && id in s.db.deliveries
    ensures var row := DoWork(cfg, s, w).db.deliveries[id];
      row == s.db.deliveries[id] || (w.Record? && w.id == id && row == s.db.deliveries[id].(pgid := Some(w.pgid)))
  {
  }

  /**
   * Interference freedom: in every reachable state, the row about to be claimed or resolved is still pending or
   * failed and unchanged since it was read, so the unguarded resolve never overwrites a claimed or terminal row
   * and the claim cannot miss.
   */
  lemma DecisionFindsItsRow(cfg: Config, es: seq<Event>, version: nat, state: State, error: Option<Reason>, now: Stamp)
    requires Run(cfg, START, es).pc.Picked?
    ensures var s := Run(cfg, START, es); var w := s.pc.work;
      && w.id in s.db.deliveries && s.db.deliveries[w.id] == w.row && Waiting(w.row.state) && w.id !in s.execs
      && Claim(s.db, w.id, version, now).Some? && Resolve(s.db, w.id, state, error, now).Some?
  {
    RunInv(cfg, es);
    var s := Run(cfg, START, es);
    WaitingIsUnowned(cfg, s, s.pc.work.id);
  }

  /** And a result always finds its row claimed, under the version and attempt the execution was launched with. */
  lemma ResultFindsItsRow(cfg: Config, es: seq<Event>, id: Id)
    requires id in Run(cfg, START, es).execs
    ensures var s := Run(cfg, START, es); var x := s.execs[id];
      && id in s.db.deliveries && s.db.deliveries[id].state.Claimed?
      && s.db.deliveries[id].attempt == x.work.row.attempt && s.db.deliveries[id].version == Some(x.info.version)
  {
    RunInv(cfg, es);
    var s := Run(cfg, START, es);
    assert ExecOk(cfg, s.db, id, s.execs[id]);
  }

  /** While serving, the claimed rows are exactly the executions in flight and the rows whose closing write failed. */
  lemma ClaimedRowsAccounted(cfg: Config, es: seq<Event>)
    requires Serving(Run(cfg, START, es).pc)
    ensures var s := Run(cfg, START, es);
      ClaimedIds(s.db) == s.execs.Keys + s.h.stuck && forall n: Name :: InFlight(s.inflight, n) == |Of(s.execs, n)|
  {
    RunInv(cfg, es);
  }

  /** A graceful stop: once drained, only rows whose closing write failed are still claimed. */
  lemma DrainedLeavesNoClaims(cfg: Config, es: seq<Event>)
    requires var s := Run(cfg, START, es); CanDaemon(s, Exit)
    ensures var s := Run(cfg, START, es); s.execs == map[] && ClaimedIds(s.db) == s.h.stuck
  {
    RunInv(cfg, es);
    var s := Run(cfg, START, es);
    forall name: Name ensures Of(s.execs, name) == {} {
      assert InFlight(s.inflight, name) == |Of(s.execs, name)|;
    }
    forall id | id in s.execs ensures id in Of(s.execs, s.execs[id].info.name) {
    }
  }

  /** An execution is launched only below its version's concurrency. */
  lemma LaunchBelowCeiling(cfg: Config, es: seq<Event>)
    requires Run(cfg, START, es).pc.Picked?
    ensures var s := Run(cfg, START, es);
      s.pc.k < |s.pc.plan.infos| &&
      var info := s.pc.plan.infos[s.pc.k]; IsJoin(info.def) || |Of(s.execs, info.name)| < info.concurrency
  {
    RunInv(cfg, es);
    var s := Run(cfg, START, es);
    assert InFlight(s.inflight, s.pc.plan.infos[s.pc.k].name) == |Of(s.execs, s.pc.plan.infos[s.pc.k].name)|;
  }
}
