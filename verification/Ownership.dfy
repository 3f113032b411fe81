/**
 * Who may move a row. Between the scheduler's read of a row and its write, and between a claim and the apply of
 * its result, no handler and no worker can move it; so the unguarded resolve and the guarded claim, complete and
 * fail all find the row in the state the scheduler believes it is in.
 */
module Ownership {
  import opened Bytes
  import opened Keys
  import opened Stamps
  import opened Workflow
  import opened Tables
  import opened Engine
  import opened Integrity

  /** A snapshot of some version that exists. */
  ghost predicate InfoOk(cfg: Config, actions: Actions, info: ActionInfo) {
    && HasVersion(actions, info.name, info.version, info.def)
    && info.concurrency == Concurrency(info.def)
    && info.maxAttempts == if info.def.maxAttempts.Some? then info.def.maxAttempts.value else cfg.defaultMaxAttempts
  }

  ghost predicate PlanOk(cfg: Config, actions: Actions, plan: Plan) {
    forall i {:trigger InfoOk(cfg, actions, plan.infos[i])} | 0 <= i < |plan.infos| ::
      InfoOk(cfg, actions, plan.infos[i])
  }

  /** Where the loop may go on to. */
  ghost predicate NextOk(cfg: Config, actions: Actions, next: Pc) {
    next.Top? || next.Draining? || (next.Scan? && PlanOk(cfg, actions, next.plan))
  }

  /** The row the scheduler has read is still as it was read. */
  ghost predicate WorkOk(db: Db, w: Work, name: Name) {
    && w.id in db.deliveries && db.deliveries[w.id] == w.row && Waiting(w.row.state)
    && w.row.action == name && w.row.msg in db.messages && db.messages[w.row.msg] == w.msg
  }

  /** A running execution's row is claimed under its version, at its attempt. */
  ghost predicate ExecOk(cfg: Config, db: Db, id: Id, x: Exec) {
    && InfoOk(cfg, db.actions, x.info) && x.work.id == id && id in db.deliveries
    && var row := db.deliveries[id];
       && row.state.Claimed? && row.attempt == x.work.row.attempt && row.version == Some(x.info.version)
       && row.action == x.info.name && row.msg == x.work.row.msg
       && row.msg in db.messages && db.messages[row.msg] == x.work.msg
  }

  ghost predicate ExecsOk(cfg: Config, db: Db, execs: map<Id, Exec>) {
    forall id {:trigger ExecOk(cfg, db, id, execs[id])} | id in execs :: ExecOk(cfg, db, id, execs[id])
  }

  function Of(execs: map<Id, Exec>, name: Name): set<Id> {
    set id | id in execs && execs[id].info.name == name
  }

  /** The in-memory counter of each action is the number of its executions. */
  ghost predicate InflightOk(inflight: map<Name, int>, execs: map<Id, Exec>) {
    forall n: Name :: InFlight(inflight, n) == |Of(execs, n)|
  }

  ghost predicate PcOk(cfg: Config, db: Db, inflight: map<Name, int>, pc: Pc) {
    match pc
    case Reaping(todo) => Increasing(todo) && Elements(todo) == ClaimedIds(db)
    case Scan(plan, _) => PlanOk(cfg, db.actions, plan)
    case Picked(plan, k, w) =>
      && PlanOk(cfg, db.actions, plan) && k < |plan.infos| && WorkOk(db, w, plan.infos[k].name)
      && !AtCeiling(inflight, plan.infos[k])
    case Adding(_, _, next) => NextOk(cfg, db.actions, next)
    case Poking(next) => NextOk(cfg, db.actions, next)
    case _ => true
  }

  /** The claimed rows are the running executions and the rows whose closing write failed. */
  ghost predicate ClaimedOk(db: Db, pc: Pc, execs: map<Id, Exec>, stuck: set<Id>) {
    && (Serving(pc) ==> ClaimedIds(db) == execs.Keys + stuck)
    && (pc.Seeding? ==> ClaimedIds(db) == {})
    && execs.Keys !! stuck
  }

  /** Before the counter is seeded there are no workers and no handlers. */
  ghost predicate Quiescent(s: Sys) {
    && s.execs == map[] && s.h.stuck == {} && s.h.order == []
    && s.committed == [] && s.counted == [] && s.disabling == [] && s.inService == 0
  }

  ghost predicate Inv(cfg: Config, s: Sys) {
    && Sound(s.db)
    && PcOk(cfg, s.db, s.inflight, s.pc)
    && ExecsOk(cfg, s.db, s.execs)
    && InflightOk(s.inflight, s.execs)
    && ClaimedOk(s.db, s.pc, s.execs, s.h.stuck)
    && (!Serving(s.pc) ==> Quiescent(s))
  }

  lemma EmptyInflight()
    ensures InflightOk(map[], map[])
  {
    assert forall n: Name :: Of(map[], n) == {};
  }

  lemma InitInv(cfg: Config)
    ensures Inv(cfg, START)
  {
    EmptyInflight();
  }

  // Daemon steps.

  lemma ReapInv(cfg: Config, s: Sys, ok: bool, now: Stamp)
    requires Inv(cfg, s) && s.pc.Reaping? && s.pc.todo != []
    ensures Inv(cfg, DoReap(s, ok, now))
  {
    EmptyInflight();
    var t := DoReap(s, ok, now);
    if ok {
      var id := s.pc.todo[0];
      assert id in Elements(s.pc.todo);
      RowSound(s.db, id);
      UpdateSound(s.db, id, t.db.deliveries[id]);
      forall d ensures d in Elements(t.pc.todo) <==> d in ClaimedIds(t.db) {
        assert d in Elements(s.pc.todo) <==> d == id || d in Elements(t.pc.todo);
      }
    }
  }

  lemma DaemonInv(cfg: Config, s: Sys, d: DaemonEvent)
    requires Inv(cfg, s) && CanDaemon(s, d)
    ensures Inv(cfg, DoDaemon(s, d))
  {
    EmptyInflight();
    match d
    case Boot => assert Elements(Keys.Sorted(ClaimedIds(s.db))) == ClaimedIds(s.db);
    case Reap(ok, now) => ReapInv(cfg, s, ok, now);
    case Reaped => assert ClaimedIds(s.db) == Elements(s.pc.todo) == {};
    case _ =>
  }

  // Dispatch steps.

  /** A serving step that touches neither the tables nor the executions. */
  lemma Keep(cfg: Config, s: Sys, t: Sys)
    requires Inv(cfg, s) && Serving(s.pc) && Serving(t.pc)
    requires t.db == s.db && t.execs == s.execs && t.inflight == s.inflight && t.h.stuck == s.h.stuck
    requires PcOk(cfg, t.db, t.inflight, t.pc)
    ensures Inv(cfg, t)
  {
  }

  lemma LoadedPlanOk(cfg: Config, actions: Actions, plan: Plan)
    requires plan.infos == LoadActions(cfg, actions)
    ensures PlanOk(cfg, actions, plan)
  {
    forall i | 0 <= i < |plan.infos| ensures InfoOk(cfg, actions, plan.infos[i]) {
      assert plan.infos[i] in plan.infos;
    }
  }

  lemma EligibleIsWaiting(db: Db, name: Name, now: Stamp, id: Id)
    requires id in Eligible(db, name, now)
    ensures WorkOk(db, Work(id, db.deliveries[id], db.messages[db.deliveries[id].msg]), name)
  {
  }

  lemma PickInv(cfg: Config, s: Sys, ok: bool)
    requires Inv(cfg, s) && CanDispatch(s, Pick(ok))
    ensures Inv(cfg, DoPick(s, ok))
  {
    var t := DoPick(s, ok);
    if t.pc.Picked? {
      EligibleIsWaiting(s.db, s.pc.plan.infos[s.pc.k].name, s.pc.plan.now, t.pc.work.id);
    }
    Keep(cfg, s, t);
  }

  /** A row that is not claimed belongs to no execution. */
  lemma WaitingIsUnowned(cfg: Config, s: Sys, id: Id)
    requires Inv(cfg, s) && Serving(s.pc) && id in s.db.deliveries && !s.db.deliveries[id].state.Claimed?
    ensures id !in s.execs && id !in s.h.stuck
  {
    assert id !in ClaimedIds(s.db);
  }

  /** What an execution relies on in its row. */
  predicate SameBinding(a: Row, b: Row) {
    a.state == b.state && a.attempt == b.attempt && a.version == b.version && a.action == b.action && a.msg == b.msg
  }

  /** Executions survive a step that keeps their rows' bindings, the messages and the versions. */
  lemma ExecsFrame(cfg: Config, db: Db, execs: map<Id, Exec>, r: Db, rest: map<Id, Exec>)
    requires ExecsOk(cfg, db, execs)
    requires forall id | id in rest ::
      id in execs && rest[id].info == execs[id].info && rest[id].work == execs[id].work
    requires forall id | id in rest && id in db.deliveries ::
      id in r.deliveries && SameBinding(db.deliveries[id], r.deliveries[id])
    requires forall m | m in db.messages :: m in r.messages && r.messages[m] == db.messages[m]
    requires forall info | InfoOk(cfg, db.actions, info) :: InfoOk(cfg, r.actions, info)
    ensures ExecsOk(cfg, r, rest)
  {
    forall id | id in rest ensures ExecOk(cfg, r, id, rest[id]) {
      assert ExecOk(cfg, db, id, execs[id]);
    }
  }

  /** Rewriting a row that no execution owns. */
  lemma UnownedUpdate(cfg: Config, db: Db, execs: map<Id, Exec>, id: Id, row: Row)
    requires Sound(db) && ExecsOk(cfg, db, execs) && id in db.deliveries && id !in execs
    requires SamePair(row, db.deliveries[id]) && Shape(row)
    ensures Sound(db.(deliveries := db.deliveries[id := row]))
    ensures ExecsOk(cfg, db.(deliveries := db.deliveries[id := row]), execs)
  {
    UpdateSound(db, id, row);
    ExecsFrame(cfg, db, execs, db.(deliveries := db.deliveries[id := row]), execs);
  }

  lemma SettleInv(cfg: Config, s: Sys, db: Db)
    requires Inv(cfg, s) && s.pc.Picked?
    requires s.pc.work.id in s.db.deliveries && db.deliveries.Keys == s.db.deliveries.Keys
    requires db == s.db.(deliveries := s.db.deliveries[s.pc.work.id := db.deliveries[s.pc.work.id]])
    requires var row := db.deliveries[s.pc.work.id];
      SamePair(row, s.db.deliveries[s.pc.work.id]) && Shape(row) && !row.state.Claimed?
    ensures Inv(cfg, DoSettle(s, db, s.pc.plan, s.pc.k, s.pc.work.id))
  {
    var id := s.pc.work.id;
    WaitingIsUnowned(cfg, s, id);
    UnownedUpdate(cfg, s.db, s.execs, id, db.deliveries[id]);
    assert ClaimedIds(db) == ClaimedIds(s.db);
  }

  /** No check settles a row as claimed, pending, failed or done. */
  lemma SettlesTerminal(cfg: Config, info: ActionInfo, msg: Message)
    ensures Decision(cfg, info, msg).Settle? ==>
      Decision(cfg, info, msg).state in {Filtered, Dead, Cancelled}
  {
  }

  /** The tables and the executions after a claim. */
  lemma LaunchInv(cfg: Config, s: Sys, info: ActionInfo, w: Work)
    requires Inv(cfg, s) && s.pc.Picked? && info == s.pc.plan.infos[s.pc.k] && w == s.pc.work
    ensures Claim(s.db, w.id, info.version, s.pc.plan.now).Some?
    ensures Inv(cfg, DoLaunch(s, Claim(s.db, w.id, info.version, s.pc.plan.now).value, s.pc.plan, s.pc.k, info, w))
  {
    var db := Claim(s.db, w.id, info.version, s.pc.plan.now).value;
    var x := Launched(info, w);
    WaitingIsUnowned(cfg, s, w.id);
    RowSound(s.db, w.id);
    UnownedUpdate(cfg, s.db, s.execs, w.id, db.deliveries[w.id]);
    assert ClaimedIds(db) == ClaimedIds(s.db) + {w.id};
    AddInflight(s.inflight, s.execs, w.id, x);
    assert InfoOk(cfg, s.db.actions, s.pc.plan.infos[s.pc.k]);
    LaunchedExecs(cfg, db, s.execs, w.id, x);
  }

  lemma LaunchedExecs(cfg: Config, db: Db, execs: map<Id, Exec>, id: Id, x: Exec)
    requires ExecsOk(cfg, db, execs) && ExecOk(cfg, db, id, x) && id !in execs
    ensures ExecsOk(cfg, db, execs[id := x])
  {
    var after := execs[id := x];
    forall d | d in after ensures ExecOk(cfg, db, d, after[d]) {
      if d != id { assert ExecOk(cfg, db, d, execs[d]); }
    }
  }

  lemma DecideInv(cfg: Config, s: Sys, ok: bool)
    requires Inv(cfg, s) && CanDispatch(s, Decide(ok))
    ensures Inv(cfg, DoDecide(cfg, s, ok))
  {
    var info := s.pc.plan.infos[s.pc.k];
    var w := s.pc.work;
    if !ok {
      Keep(cfg, s, DoDecide(cfg, s, ok));
    } else if Decision(cfg, info, w.msg).Launch? {
      LaunchInv(cfg, s, info, w);
    } else {
      SettlesTerminal(cfg, info, w.msg);
      RowSound(s.db, w.id);
      var d := Decision(cfg, info, w.msg);
      SettleInv(cfg, s, Resolve(s.db, w.id, d.state, d.error, s.pc.plan.now).value);
    }
  }

  lemma DispatchInv(cfg: Config, s: Sys, p: DispatchEvent)
    requires Inv(cfg, s) && CanDispatch(s, p)
    ensures Inv(cfg, DoDispatch(cfg, s, p))
  {
    match p
    case Load(ok, now) =>
      if ok { LoadedPlanOk(cfg, s.db.actions, Plan(LoadActions(cfg, s.db.actions), now)); }
      Keep(cfg, s, DoDispatch(cfg, s, p));
    case Pick(ok) => PickInv(cfg, s, ok);
    case Decide(ok) => DecideInv(cfg, s, ok);
    case _ => Keep(cfg, s, DoDispatch(cfg, s, p));
  }

  // Counting executions.

  lemma OfAdded(execs: map<Id, Exec>, id: Id, x: Exec, n: Name)
    requires id !in execs
    ensures Of(execs[id := x], n) == if n == x.info.name then Of(execs, n) + {id} else Of(execs, n)
  {
  }

  lemma AddInflight(inflight: map<Name, int>, execs: map<Id, Exec>, id: Id, x: Exec)
    requires InflightOk(inflight, execs) && id !in execs
    ensures InflightOk(inflight[x.info.name := InFlight(inflight, x.info.name) + 1], execs[id := x])
  {
    var after := inflight[x.info.name := InFlight(inflight, x.info.name) + 1];
    forall n: Name ensures InFlight(after, n) == |Of(execs[id := x], n)| {
      assert InFlight(inflight, n) == |Of(execs, n)|;
      OfAdded(execs, id, x, n);
      assert id !in Of(execs, n);
    }
  }

  lemma DropInflight(inflight: map<Name, int>, execs: map<Id, Exec>, id: Id)
    requires InflightOk(inflight, execs) && id in execs
    ensures var name := execs[id].info.name;
      InflightOk(inflight[name := InFlight(inflight, name) - 1], execs - {id})
  {
    var name := execs[id].info.name;
    forall n: Name ensures InFlight(inflight[name := InFlight(inflight, name) - 1], n) == |Of(execs - {id}, n)| {
      assert InFlight(inflight, n) == |Of(execs, n)|;
      assert Of(execs - {id}, n) == if n == name then Of(execs, n) - {id} else Of(execs, n);
    }
  }

  // Results.

  /** Inserted rows are pending, so nothing becomes claimed, and existing rows stand. */
  lemma InsertedClaims(db: Db, outs: seq<Outgoing>, ids: seq<Id>, d: Id)
    requires Insertable(db, outs, ids)
    ensures d in ClaimedIds(Insert(db, outs, ids)) <==> d in ClaimedIds(db)
  {
    if d in ids {
      InsertedRow(db, outs, ids, d);
    }
  }

  lemma InsertExecs(cfg: Config, db: Db, execs: map<Id, Exec>, outs: seq<Outgoing>, ids: seq<Id>)
    requires Insertable(db, outs, ids) && ExecsOk(cfg, db, execs)
    ensures ExecsOk(cfg, Insert(db, outs, ids), execs)
    ensures ClaimedIds(Insert(db, outs, ids)) == ClaimedIds(db)
  {
    var r := Insert(db, outs, ids);
    assert r.actions == db.actions;
    forall id | id in execs ensures ExecOk(cfg, r, id, execs[id]) {
      assert ExecOk(cfg, db, id, execs[id]);
    }
    forall d ensures d in ClaimedIds(Insert(db, outs, ids)) <==> d in ClaimedIds(db) {
      InsertedClaims(db, outs, ids, d);
    }
  }

  /** The three ways a result is applied to the tables. */
  lemma ClosedRow(cfg: Config, s: Sys, id: Id, row: Row)
    requires Inv(cfg, s) && id in s.execs && Serving(s.pc)
    requires id in s.db.deliveries && SamePair(row, s.db.deliveries[id]) && Shape(row) && !row.state.Claimed?
    ensures var db := s.db.(deliveries := s.db.deliveries[id := row]);
      Sound(db) && ExecsOk(cfg, db, s.execs - {id}) && ClaimedIds(db) == ClaimedIds(s.db) - {id}
  {
    UpdateSound(s.db, id, row);
    ExecsFrame(cfg, s.db, s.execs, s.db.(deliveries := s.db.deliveries[id := row]), s.execs - {id});
  }

  lemma LostInv(cfg: Config, s: Sys, id: Id)
    requires Inv(cfg, s) && Serving(s.pc) && id in s.execs
    ensures Inv(cfg, DoLose(s, id))
  {
    assert ExecOk(cfg, s.db, id, s.execs[id]);
    ExecsFrame(cfg, s.db, s.execs, s.db, s.execs - {id});
    DropInflight(s.inflight, s.execs, id);
  }

  /** The execution is off the books and its row is closed. */
  lemma ReleasedInv(cfg: Config, s: Sys, id: Id, t: Sys)
    requires Inv(cfg, s) && Serving(s.pc) && id in s.execs
    requires t.execs == Release(s, id).execs && t.inflight == Release(s, id).inflight && t.h.stuck == s.h.stuck
    requires (t.pc.Adding? || t.pc.Poking?) && (t.pc.next.Top? || t.pc.next.Draining?)
    requires Sound(t.db) && ExecsOk(cfg, t.db, s.execs - {id}) && ClaimedIds(t.db) == ClaimedIds(s.db) - {id}
    ensures Inv(cfg, t)
  {
    DropInflight(s.inflight, s.execs, id);
    assert (s.execs - {id}).Keys == s.execs.Keys - {id};
  }

  lemma FailedTables(cfg: Config, s: Sys, id: Id, dead: bool, gate: Stamp, reason: Reason, stderr: Data, now: Stamp)
    requires Inv(cfg, s) && Serving(s.pc) && id in s.execs
    ensures Fail(s.db, id, dead, gate, reason, stderr, now).Some?
    ensures var db := Fail(s.db, id, dead, gate, reason, stderr, now).value;
      Sound(db) && ExecsOk(cfg, db, s.execs - {id}) && ClaimedIds(db) == ClaimedIds(s.db) - {id}
  {
    assert ExecOk(cfg, s.db, id, s.execs[id]);
    RowSound(s.db, id);
    ClosedRow(cfg, s, id, Fail(s.db, id, dead, gate, reason, stderr, now).value.deliveries[id]);
  }

  /** The tables after a successful completion. */
  lemma CompletedTables(cfg: Config, s: Sys, id: Id, stderr: Data, outs: seq<Outgoing>, ids: seq<Id>, now: Stamp)
    requires Inv(cfg, s) && Serving(s.pc) && id in s.execs && Insertable(s.db, outs, ids)
    ensures Complete(s.db, id, stderr, outs, ids, now).Some?
    ensures var db := Complete(s.db, id, stderr, outs, ids, now).value;
      Sound(db) && ExecsOk(cfg, db, s.execs - {id}) && ClaimedIds(db) == ClaimedIds(s.db) - {id}
  {
    assert ExecOk(cfg, s.db, id, s.execs[id]);
    RowSound(s.db, id);
    var mid := MarkDone(s.db, id, stderr, now);
    ClosedRow(cfg, s, id, mid.deliveries[id]);
    InsertSound(mid, outs, ids);
    InsertExecs(cfg, mid, s.execs - {id}, outs, ids);
  }

  lemma SuccessInv(cfg: Config, s: Sys, id: Id, now: Stamp, gate: Stamp, mids: seq<Id>, ids: seq<Id>)
    requires Inv(cfg, s) && CanReceive(cfg, s, id, now, mids, ids)
    requires Emits(cfg, s.execs[id].info, s.execs[id].phase.outcome).Some?
    ensures Inv(cfg, DoReceive(cfg, s, id, true, now, gate, mids, ids))
  {
    var x := s.execs[id];
    var o := x.phase.outcome;
    var outs := BuildOutputs(x, Emits(cfg, x.info, o).value, mids, now);
    CompletedTables(cfg, s, id, o.stderr, outs, ids, now);
    var db := Complete(s.db, id, o.stderr, outs, ids, now).value;
    ReleasedInv(cfg, s, id, DoEmit(s, db, id, Emission(o.stdout, mids), outs, ids));
  }

  lemma FailureInv(cfg: Config, s: Sys, id: Id, now: Stamp, gate: Stamp, mids: seq<Id>, ids: seq<Id>)
    requires Inv(cfg, s) && CanReceive(cfg, s, id, now, mids, ids)
    requires Emits(cfg, s.execs[id].info, s.execs[id].phase.outcome).None?
    ensures Inv(cfg, DoReceive(cfg, s, id, true, now, gate, mids, ids))
  {
    var x := s.execs[id];
    var o := x.phase.outcome;
    var dead := x.work.row.attempt >= x.info.maxAttempts;
    var reason := if o.failed then Execution else BadStdout;
    FailedTables(cfg, s, id, dead, gate, reason, o.stderr, now);
    ReleasedInv(cfg, s, id, DoFail(s, Fail(s.db, id, dead, gate, reason, o.stderr, now).value, id, dead));
  }

  lemma ReceiveInv(cfg: Config, s: Sys, id: Id, ok: bool, now: Stamp, gate: Stamp, mids: seq<Id>, ids: seq<Id>)
    requires Inv(cfg, s) && CanReceive(cfg, s, id, now, mids, ids)
    ensures Inv(cfg, DoReceive(cfg, s, id, ok, now, gate, mids, ids))
  {
    if !ok {
      LostInv(cfg, s, id);
    } else if Emits(cfg, s.execs[id].info, s.execs[id].phase.outcome).Some? {
      SuccessInv(cfg, s, id, now, gate, mids, ids);
    } else {
      FailureInv(cfg, s, id, now, gate, mids, ids);
    }
  }

  // The rest of the loop.

  lemma ControlInv(cfg: Config, s: Sys, k: nat, ok: bool, now: Stamp)
    requires Inv(cfg, s) && CanLoop(s, Control(k, ok, now))
    ensures Inv(cfg, DoControl(s, k, ok, now))
  {
    if ok {
      var r := CancelAll(s.db, s.disabling[k], ActionDisabled, now);
      CancelAllSound(s.db, s.disabling[k], ActionDisabled, now);
      assert ClaimedIds(r) == ClaimedIds(s.db);
      forall id | id in s.execs ensures ExecOk(cfg, r, id, s.execs[id]) {
        assert ExecOk(cfg, s.db, id, s.execs[id]);
      }
    }
  }

  lemma LoopInv(cfg: Config, s: Sys, l: LoopEvent)
    requires Inv(cfg, s) && CanLoop(s, l)
    ensures Inv(cfg, DoLoop(s, l))
  {
    if l.Control? {
      ControlInv(cfg, s, l.k, l.ok, l.now);
    } else {
      Keep(cfg, s, DoLoop(s, l));
    }
  }

  // Workers and handlers.

  lemma WorkInv(cfg: Config, s: Sys, w: WorkerEvent)
    requires Inv(cfg, s) && CanWork(cfg, s, w)
    ensures Inv(cfg, DoWork(cfg, s, w))
  {
    var t := DoWork(cfg, s, w);
    assert ExecOk(cfg, s.db, w.id, s.execs[w.id]);
    RowSound(s.db, w.id);
    if w.Record? && w.ok {
      UpdateSound(s.db, w.id, t.db.deliveries[w.id]);
    }
    ExecsFrame(cfg, s.db, s.execs, t.db, t.execs);
    assert ClaimedIds(t.db) == ClaimedIds(s.db);
    assert t.execs.Keys == s.execs.Keys;
    PhaseKeepsCounts(s.inflight, s.execs, w.id, t.execs[w.id]);
  }

  lemma PhaseKeepsCounts(inflight: map<Name, int>, execs: map<Id, Exec>, id: Id, x: Exec)
    requires InflightOk(inflight, execs) && id in execs && x.info == execs[id].info
    ensures InflightOk(inflight, execs[id := x])
  {
    forall n: Name ensures InFlight(inflight, n) == |Of(execs[id := x], n)| {
      assert InFlight(inflight, n) == |Of(execs, n)|;
      assert Of(execs[id := x], n) == Of(execs, n);
    }
  }

  lemma SendInv(cfg: Config, s: Sys, out: Outgoing, ids: seq<Id>)
    requires Inv(cfg, s) && Serving(s.pc) && Insertable(s.db, [out], ids)
    ensures Inv(cfg, DoSend(s, out, ids))
  {
    InsertSound(s.db, [out], ids);
    InsertExecs(cfg, s.db, s.execs, [out], ids);
  }

  lemma ReplayInv(cfg: Config, s: Sys, id: Id)
    requires Inv(cfg, s) && Serving(s.pc) && Replay(s.db, id).Replayed?
    ensures Inv(cfg, DoReplay(s, id))
  {
    var t := DoReplay(s, id);
    WaitingIsUnowned(cfg, s, id);
    RowSound(s.db, id);
    UnownedUpdate(cfg, s.db, s.execs, id, t.db.deliveries[id]);
    assert ClaimedIds(t.db) == ClaimedIds(s.db);
  }

  /** Registry changes keep every snapshot's version. */
  lemma RegistryInv(cfg: Config, s: Sys, t: Sys)
    requires Inv(cfg, s) && Serving(s.pc) && t.pc == s.pc && t.execs == s.execs && t.inflight == s.inflight
    requires t.h.stuck == s.h.stuck && t.db == s.db.(actions := t.db.actions) && Sound(t.db)
    requires forall name, version, def | HasVersion(s.db.actions, name, version, def) ::
      HasVersion(t.db.actions, name, version, def)
    ensures Inv(cfg, t)
  {
    assert ClaimedIds(t.db) == ClaimedIds(s.db);
    ExecsFrame(cfg, s.db, s.execs, t.db, t.execs);
    forall plan | PlanOk(cfg, s.db.actions, plan) ensures PlanOk(cfg, t.db.actions, plan) {
      forall i | 0 <= i < |plan.infos| ensures InfoOk(cfg, t.db.actions, plan.infos[i]) {
        assert InfoOk(cfg, s.db.actions, plan.infos[i]);
      }
    }
  }

  lemma RegisterInv(cfg: Config, s: Sys, name: Name, def: Definition)
    requires Inv(cfg, s) && Serving(s.pc) && Workflow.Valid(def)
    ensures Inv(cfg, s.(db := s.db.(actions := Apply(s.db.actions, name, def))))
  {
    ApplySound(s.db, name, def);
    forall n, v, d | HasVersion(s.db.actions, n, v, d) ensures HasVersion(Apply(s.db.actions, name, def), n, v, d) {
      VersionsStay(s.db.actions, n, v, d, name, def, true);
    }
    RegistryInv(cfg, s, s.(db := s.db.(actions := Apply(s.db.actions, name, def))));
  }

  lemma SwitchInv(cfg: Config, s: Sys, name: Name, on: bool)
    requires Inv(cfg, s) && Serving(s.pc) && Registered(s.db.actions, name)
    ensures Inv(cfg, DoSwitch(s, name, on))
  {
    SetEnabledSound(s.db, name, on);
    forall n, v, d | HasVersion(s.db.actions, n, v, d) ensures HasVersion(SetEnabled(s.db.actions, name, on), n, v, d) {
      VersionsStay(s.db.actions, n, v, d, name, d, on);
    }
    RegistryInv(cfg, s, DoSwitch(s, name, on));
  }

  lemma RequestInv(cfg: Config, s: Sys, q: RequestEvent)
    requires Inv(cfg, s) && CanRequest(s, q)
    ensures Inv(cfg, DoRequest(s, q))
  {
    match q
    case Send(mid, queue, payload, headers, trace, now, ids) =>
      SendInv(cfg, s, Outgoing(mid, Ingress(queue, payload, headers, trace, now)), ids);
    case ReplayRow(id) => ReplayInv(cfg, s, id);
    case Register(name, def) => RegisterInv(cfg, s, name, def);
    case Switch(name, on) => SwitchInv(cfg, s, name, on);
    case _ => Keep(cfg, s, DoRequest(s, q));
  }

  /** Every enabled step keeps the invariant. */
  lemma StepInv(cfg: Config, s: Sys, e: Event)
    requires Inv(cfg, s) && Can(cfg, s, e)
    ensures Inv(cfg, Do(cfg, s, e))
  {
    match e
    case Daemon(d) => DaemonInv(cfg, s, d);
    case Dispatch(p) => DispatchInv(cfg, s, p);
    case Loop(l) => LoopInv(cfg, s, l);
    case Receive(id, ok, now, gate, mids, ids) => ReceiveInv(cfg, s, id, ok, now, gate, mids, ids);
    case Worker(w) => WorkInv(cfg, s, w);
    case Request(q) => RequestInv(cfg, s, q);
    case Track(t) => Keep(cfg, s, DoTrack(s, t));
  }

  /** The invariant holds after every run from the empty database. */
  lemma {:induction false} RunInv(cfg: Config, es: seq<Event>)
    ensures Inv(cfg, Run(cfg, START, es))
  {
    if es == [] {
      InitInv(cfg);
    } else {
      var n := |es| - 1;
      RunInv(cfg, es[..n]);
      if Can(cfg, Run(cfg, START, es[..n]), es[n]) {
        StepInv(cfg, Run(cfg, START, es[..n]), es[n]);
      }
    }
  }
}
