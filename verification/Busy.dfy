/**
 * The busy counter. Handlers report late and the scheduler adjusts after it commits, so the counter alone passes
 * through wrong values; with the reports and the adjustment still owed it is exact in every interleaving. That is
 * what makes the idle tracker's two unsynchronised reads sound.
 */
module Busy {
  import opened Bytes
  import opened Keys
  import opened Stamps
  import opened Workflow
  import opened Tables
  import opened Engine
  import opened Integrity
  import opened Ownership
  import Frames
  import Streams

  /** Rows committed by handlers and not yet added to the counter. */
  function Owed(reports: seq<set<Id>>): nat {
    if reports == [] then 0 else Owed(reports[..|reports| - 1]) + |reports[|reports| - 1]|
  }

  /** The scheduler's own adjustment, committed but not yet applied. */
  function Due(pc: Pc): int {
    if pc.Adding? then pc.adj else 0
  }

  ghost predicate Balanced(s: Sys) {
    Serving(s.pc) ==>
      && s.active + Owed(s.committed) + Due(s.pc) == |ActiveIds(s.db)|
      && (s.pc.Adding? && s.pc.adj != 0 ==> s.active + Owed(s.committed) >= 1)
  }

  lemma {:induction false} OwedRemoved(reports: seq<set<Id>>, k: nat)
    requires k < |reports|
    ensures Owed(reports) == Owed(reports[..k] + reports[k + 1..]) + |reports[k]|
  {
    var n := |reports| - 1;
    if k == n {
      assert reports[..k] + reports[k + 1..] == reports[..n];
    } else {
      OwedRemoved(reports[..n], k);
      var rest := reports[..k] + reports[k + 1..];
      assert rest[..|rest| - 1] == reports[..n][..k] + reports[..n][k + 1..];
      assert rest[|rest| - 1] == reports[n];
    }
  }

  // What each transaction does to the set of active rows.

  lemma SetSizes(a: set<Id>, b: set<Id>)
    ensures b <= a ==> |a - b| == |a| - |b|
    ensures a !! b ==> |a + b| == |a| + |b|
  {
    if b <= a {
      assert a == (a - b) + b;
    }
  }

  /** Closing an active row. */
  lemma RowLeaves(db: Db, id: Id, row: Row)
    requires id in db.deliveries && Active(db.deliveries[id].state) && !Active(row.state)
    ensures |ActiveIds(db.(deliveries := db.deliveries[id := row]))| == |ActiveIds(db)| - 1
    ensures |ActiveIds(db)| >= 1
  {
    assert ActiveIds(db.(deliveries := db.deliveries[id := row])) == ActiveIds(db) - {id};
    assert id in ActiveIds(db);
  }

  lemma RowStays(db: Db, id: Id, row: Row)
    requires id in db.deliveries && Active(db.deliveries[id].state) == Active(row.state)
    ensures ActiveIds(db.(deliveries := db.deliveries[id := row])) == ActiveIds(db)
  {
  }

  lemma RowsArrive(db: Db, outs: seq<Outgoing>, ids: seq<Id>)
    requires Insertable(db, outs, ids)
    ensures |ActiveIds(Insert(db, outs, ids))| == |ActiveIds(db)| + |ids|
  {
    var a := ActiveIds(Insert(db, outs, ids));
    forall d ensures d in a <==> d in ActiveIds(db) || d in ids {
      RowArrives(db, outs, ids, d);
    }
    UnionSize(a, ActiveIds(db), ids);
  }

  lemma UnionSize(a: set<Id>, b: set<Id>, ids: seq<Id>)
    requires Increasing(ids) && (forall d | d in ids :: d !in b)
    requires forall d :: d in a <==> d in b || d in ids
    ensures |a| == |b| + |ids|
  {
    assert a == b + Elements(ids);
    SetSizes(b, Elements(ids));
    IncreasingCardinality(ids);
  }

  lemma RowArrives(db: Db, outs: seq<Outgoing>, ids: seq<Id>, d: Id)
    requires Insertable(db, outs, ids)
    ensures d in ActiveIds(Insert(db, outs, ids)) <==> d in ActiveIds(db) || d in ids
  {
    if d in ids {
      InsertedRow(db, outs, ids, d);
    }
  }

  lemma RowsCancelled(db: Db, name: Name, reason: Reason, now: Stamp)
    ensures |ActiveIds(CancelAll(db, name, reason, now))| == |ActiveIds(db)| - |WaitingOf(db, name)|
    ensures |WaitingOf(db, name)| <= |ActiveIds(db)|
  {
    var w := WaitingOf(db, name);
    assert w <= ActiveIds(db);
    assert ActiveIds(CancelAll(db, name, reason, now)) == ActiveIds(db) - w;
    SetSizes(ActiveIds(db), w);
  }

  // Steps.

  lemma DecideBalanced(cfg: Config, s: Sys, ok: bool)
    requires Inv(cfg, s) && Balanced(s) && CanDispatch(s, Decide(ok))
    ensures Balanced(DoDecide(cfg, s, ok))
  {
    var t := DoDecide(cfg, s, ok);
    var id := s.pc.work.id;
    Frames.DecideFrame(cfg, s, ok);
    SettlesTerminal(cfg, s.pc.plan.infos[s.pc.k], s.pc.work.msg);
    if t.pc.Adding? {
      RowLeaves(s.db, id, t.db.deliveries[id]);
    } else if t.db != s.db {
      RowStays(s.db, id, t.db.deliveries[id]);
    }
  }

  lemma CompletedActive(db: Db, id: Id, stderr: Data, outs: seq<Outgoing>, ids: seq<Id>, now: Stamp)
    requires Insertable(db, outs, ids) && id in db.deliveries && db.deliveries[id].state.Claimed?
    ensures |ActiveIds(Complete(db, id, stderr, outs, ids, now).value)| == |ActiveIds(db)| - 1 + |ids|
    ensures |ActiveIds(db)| >= 1
  {
    var mid := MarkDone(db, id, stderr, now);
    RowLeaves(db, id, mid.deliveries[id]);
    RowsArrive(mid, outs, ids);
  }

  lemma EmitBalanced(s: Sys, db: Db, id: Id, emission: Emission, outs: seq<Outgoing>, ids: seq<Id>)
    requires Balanced(s) && (s.pc.Blocked? || s.pc.Draining?) && id in s.execs && DistinctIds(outs)
    requires |ActiveIds(db)| == |ActiveIds(s.db)| - 1 + |ids| && |ActiveIds(s.db)| >= 1
    ensures Balanced(DoEmit(s, db, id, emission, outs, ids))
  {
  }

  lemma FailBalanced(s: Sys, id: Id, dead: bool, gate: Stamp, reason: Reason, stderr: Data, now: Stamp)
    requires Balanced(s) && Serving(s.pc) && !s.pc.Adding? && id in s.execs
    requires id in s.db.deliveries && s.db.deliveries[id].state.Claimed?
    ensures Balanced(DoFail(s, Fail(s.db, id, dead, gate, reason, stderr, now).value, id, dead))
  {
    var db := Fail(s.db, id, dead, gate, reason, stderr, now).value;
    if dead { RowLeaves(s.db, id, db.deliveries[id]); } else { RowStays(s.db, id, db.deliveries[id]); }
  }

  lemma ReceiveBalanced(cfg: Config, s: Sys, id: Id, ok: bool, now: Stamp, gate: Stamp, mids: seq<Id>, ids: seq<Id>)
    requires Inv(cfg, s) && Balanced(s) && CanReceive(cfg, s, id, now, mids, ids)
    ensures Balanced(DoReceive(cfg, s, id, ok, now, gate, mids, ids))
  {
    hide Streams.Parse;
    var x := s.execs[id];
    assert ExecOk(cfg, s.db, id, x);
    var o := x.phase.outcome;
    var emits := Emits(cfg, x.info, o);
    if !ok {
    } else if emits.Some? {
      var outs := BuildOutputs(x, emits.value, mids, now);
      CompletedActive(s.db, id, o.stderr, outs, ids, now);
      EmitBalanced(s, Complete(s.db, id, o.stderr, outs, ids, now).value, id, Emission(o.stdout, mids), outs, ids);
    } else {
      FailBalanced(s, id, x.work.row.attempt >= x.info.maxAttempts, gate, if o.failed then Execution else BadStdout,
                   o.stderr, now);
    }
  }

  lemma LoopBalanced(cfg: Config, s: Sys, l: LoopEvent)
    requires Inv(cfg, s) && Balanced(s) && CanLoop(s, l)
    ensures Balanced(DoLoop(s, l))
  {
    if l.Control? && l.ok {
      RowsCancelled(s.db, s.disabling[l.k], ActionDisabled, l.now);
    }
  }

  lemma WorkBalanced(cfg: Config, s: Sys, w: WorkerEvent)
    requires Inv(cfg, s) && Balanced(s) && CanWork(cfg, s, w)
    ensures Balanced(DoWork(cfg, s, w))
  {
    assert ExecOk(cfg, s.db, w.id, s.execs[w.id]);
    if w.Record? && w.ok {
      RowStays(s.db, w.id, SetPgid(s.db, w.id, w.pgid).deliveries[w.id]);
    }
  }

  lemma ReplayBalanced(s: Sys, id: Id)
    requires Balanced(s) && Serving(s.pc) && Replay(s.db, id).Replayed?
    ensures Balanced(DoReplay(s, id))
  {
    var t := DoReplay(s, id);
    assert ActiveIds(t.db) == ActiveIds(s.db) + {id};
    assert t.committed[..|t.committed| - 1] == s.committed;
  }

  lemma SendBalanced(s: Sys, out: Outgoing, ids: seq<Id>)
    requires Balanced(s) && Serving(s.pc) && Insertable(s.db, [out], ids)
    ensures Balanced(DoSend(s, out, ids))
  {
    RowsArrive(s.db, [out], ids);
    IncreasingCardinality(ids);
    var t := DoSend(s, out, ids);
    if ids != [] {
      assert t.committed[..|t.committed| - 1] == s.committed;
    }
  }

  lemma RequestBalanced(cfg: Config, s: Sys, q: RequestEvent)
    requires Inv(cfg, s) && Balanced(s) && CanRequest(s, q)
    ensures Balanced(DoRequest(s, q))
  {
    match q
    case Send(mid, queue, payload, headers, trace, now, ids) =>
      SendBalanced(s, Outgoing(mid, Ingress(queue, payload, headers, trace, now)), ids);
    case ReplayRow(id) => ReplayBalanced(s, id);
    case Count(k) => OwedRemoved(s.committed, k);
    case Register(_, _) => assert ActiveIds(DoRequest(s, q).db) == ActiveIds(s.db);
    case Switch(_, _) => assert ActiveIds(DoRequest(s, q).db) == ActiveIds(s.db);
    case _ =>
  }

  lemma DispatchBalanced(cfg: Config, s: Sys, p: DispatchEvent)
    requires Inv(cfg, s) && Balanced(s) && CanDispatch(s, p)
    ensures Balanced(DoDispatch(cfg, s, p))
  {
    if p.Decide? {
      DecideBalanced(cfg, s, p.ok);
    } else {
      Frames.DispatchFrame(cfg, s, p);
    }
  }

  lemma DaemonBalanced(cfg: Config, s: Sys, d: DaemonEvent)
    requires Inv(cfg, s) && Balanced(s) && CanDaemon(s, d)
    ensures Balanced(DoDaemon(s, d))
  {
  }

  lemma StepBalanced(cfg: Config, s: Sys, e: Event)
    requires Inv(cfg, s) && Balanced(s) && Can(cfg, s, e)
    ensures Balanced(Do(cfg, s, e))
  {
    match e
    case Daemon(d) => DaemonBalanced(cfg, s, d);
    case Dispatch(p) => DispatchBalanced(cfg, s, p);
    case Loop(l) => LoopBalanced(cfg, s, l);
    case Receive(id, ok, now, gate, mids, ids) => ReceiveBalanced(cfg, s, id, ok, now, gate, mids, ids);
    case Worker(w) => WorkBalanced(cfg, s, w);
    case Request(q) => RequestBalanced(cfg, s, q);
    case Track(t) =>
  }

  /** Busy accounting in every run: counter, reports owed and adjustment due add up to the active rows. */
  lemma {:induction false} RunBalanced(cfg: Config, es: seq<Event>)
    ensures Balanced(Run(cfg, START, es))
  {
    if es != [] {
      var n := |es| - 1;
      RunBalanced(cfg, es[..n]);
      RunInv(cfg, es[..n]);
      if Can(cfg, Run(cfg, START, es[..n]), es[n]) {
        StepBalanced(cfg, Run(cfg, START, es[..n]), es[n]);
      }
    }
  }

  // Idle-out.

  /** From the tracker's read of InFlight on, no handler has been in service unless a request has arrived since. */
  ghost predicate Silent(s: Sys) {
    s.tracker.Quiet? && !s.tracker.arrived ==>
      s.inService == 0 && s.committed == [] && s.counted == [] && s.disabling == []
  }

  /** Handlers in the middle of something are in service. */
  ghost predicate Counted(s: Sys) {
    |s.committed| + |s.counted| + |s.disabling| <= s.inService
  }

  lemma StepSilent(cfg: Config, s: Sys, e: Event)
    requires Inv(cfg, s) && Counted(s) && Silent(s) && Can(cfg, s, e)
    ensures Counted(Do(cfg, s, e)) && Silent(Do(cfg, s, e))
  {
    match e
    case Daemon(d) => DaemonSilent(cfg, s, d);
    case Dispatch(p) => Frames.DispatchFrame(cfg, s, p);
    case Loop(l) => Frames.LoopFrame(s, l);
    case Receive(id, ok, now, gate, mids, ids) => Frames.ReceiveFrame(cfg, s, id, ok, now, gate, mids, ids);
    case Worker(w) => Frames.WorkFrame(cfg, s, w);
    case Request(q) => RequestSilent(s, q);
    case Track(t) =>
  }

  lemma DaemonSilent(cfg: Config, s: Sys, d: DaemonEvent)
    requires Inv(cfg, s) && Counted(s) && Silent(s) && CanDaemon(s, d)
    ensures Counted(DoDaemon(s, d)) && Silent(DoDaemon(s, d))
  {
  }

  lemma RequestSilent(s: Sys, q: RequestEvent)
    requires Counted(s) && Silent(s) && CanRequest(s, q)
    ensures Counted(DoRequest(s, q)) && Silent(DoRequest(s, q))
  {
  }

  lemma {:induction false} RunSilent(cfg: Config, es: seq<Event>)
    ensures Counted(Run(cfg, START, es)) && Silent(Run(cfg, START, es))
  {
    if es != [] {
      var n := |es| - 1;
      RunSilent(cfg, es[..n]);
      RunInv(cfg, es[..n]);
      if Can(cfg, Run(cfg, START, es[..n]), es[n]) {
        StepSilent(cfg, Run(cfg, START, es[..n]), es[n]);
      }
    }
  }

  /** The counter is below zero exactly while more is owed to it than there are active rows. */
  lemma NegativeExactly(cfg: Config, es: seq<Event>)
    requires Serving(Run(cfg, START, es).pc)
    ensures var s := Run(cfg, START, es); s.active < 0 <==> |ActiveIds(s.db)| < Owed(s.committed) + Due(s.pc)
  {
    RunBalanced(cfg, es);
  }

  /** The tracker fires over active rows exactly when what is owed to the counter hides all of them. */
  lemma FiresOverWorkExactly(cfg: Config, es: seq<Event>)
    requires CanTrack(Run(cfg, START, es), Judge)
    ensures var s := Run(cfg, START, es);
      DoTrack(s, Judge).tracker.Fired? && ActiveIds(s.db) != {} <==>
        0 < |ActiveIds(s.db)| <= Owed(s.committed) + Due(s.pc)
  {
    RunBalanced(cfg, es);
  }

  /** So the counter goes below zero only while some handler has committed rows and not reported them. */
  lemma CounterNonNegative(cfg: Config, es: seq<Event>)
    requires var s := Run(cfg, START, es); Serving(s.pc) && Owed(s.committed) == 0
    ensures Run(cfg, START, es).active >= 0
  {
    RunBalanced(cfg, es);
  }

  /**
   * Idle-out soundness: when the tracker decides to fire and no handler has a report outstanding, no delivery is
   * pending, failed or claimed, even while the scheduler still owes the counter an adjustment.
   */
  lemma FiresOnlyWhenNothingIsOwed(cfg: Config, es: seq<Event>)
    requires var s := Run(cfg, START, es); CanTrack(s, Judge) && Owed(s.committed) == 0
    requires DoTrack(Run(cfg, START, es), Judge).tracker.Fired?
    ensures ActiveIds(Run(cfg, START, es).db) == {}
  {
    RunBalanced(cfg, es);
  }

  /** In particular when no request has arrived since the tracker read InFlight. */
  lemma FiresOnlyWhenIdle(cfg: Config, es: seq<Event>)
    requires var s := Run(cfg, START, es); CanTrack(s, Judge)
    requires var s := Run(cfg, START, es); DoTrack(s, Judge).tracker == Fired(false)
    ensures ActiveIds(Run(cfg, START, es).db) == {}
  {
    RunSilent(cfg, es);
    FiresOnlyWhenNothingIsOwed(cfg, es);
  }
}
