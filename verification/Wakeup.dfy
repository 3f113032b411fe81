/**
 * No lost wake-up. With a fixed registry and a working store, whenever the loop blocks, a pending delivery of an
 * enabled action below its ceiling is one whose handler has still to nudge, or a nudge is already waiting; and the
 * timer is set for the earliest retry.
 */
module Wakeup {
  import opened Bytes
  import opened Keys
  import opened Stamps
  import opened Workflow
  import opened Tables
  import opened Engine
  import opened Integrity
  import opened Ownership
  import opened Disabling
  import Drain
  import Frames

  /** Reads and writes of the loop succeed and the registry stays as it is. */
  predicate Steady(e: Event) {
    match e
    case Dispatch(p) => (p.Load? || p.Pick? || p.Decide? ==> p.ok)
    case Loop(l) => (l.Arm? ==> l.ok)
    case Request(q) => !q.Register? && !q.Switch?
    case _ => true
  }

  predicate Holds(reports: seq<set<Id>>, d: Id) {
    exists k | 0 <= k < |reports| :: d in reports[k]
  }

  /** A handler has committed this row and not yet nudged. */
  predicate Excused(s: Sys, d: Id) {
    Holds(s.committed, d) || Holds(s.counted, d)
  }

  predicate PendingOf(deliveries: map<Id, Row>, name: Name, d: Id) {
    d in deliveries && deliveries[d].action == name && deliveries[d].state.Pending?
  }

  /** Nothing of this action waits for the loop unnoticed. */
  ghost predicate Covered(s: Sys, info: ActionInfo) {
    || s.nudge
    || AtCeiling(s.inflight, info)
    || forall d {:trigger PendingOf(s.db.deliveries, info.name, d)} | PendingOf(s.db.deliveries, info.name, d) ::
      Excused(s, d)
  }

  /** The first k actions of the current registry are covered. */
  ghost predicate CoveredTo(cfg: Config, s: Sys, infos: seq<ActionInfo>, k: nat) {
    && infos == LoadActions(cfg, s.db.actions)
    && forall i {:trigger Covered(s, infos[i])} | 0 <= i < k && i < |infos| :: Covered(s, infos[i])
  }

  ghost predicate Awake(cfg: Config, s: Sys) {
    Plain(s.pc) &&
    match s.pc
    case Scan(plan, k) => CoveredTo(cfg, s, plan.infos, k)
    case Picked(plan, k, _) => CoveredTo(cfg, s, plan.infos, k)
    case Adding(_, _, next) => next.Scan? ==> CoveredTo(cfg, s, next.plan.infos, next.k)
    case Arming => var all := LoadActions(cfg, s.db.actions); CoveredTo(cfg, s, all, |all|)
    case Blocked => var all := LoadActions(cfg, s.db.actions); CoveredTo(cfg, s, all, |all|)
    case _ => true
  }

  // What keeps an action covered.

  /** No action becomes uncovered: pending rows are old or reported by a handler, and reports end in a nudge. */
  ghost predicate Attentive(s: Sys, t: Sys) {
    && (s.nudge ==> t.nudge) && (forall n: Name :: InFlight(s.inflight, n) <= InFlight(t.inflight, n))
    && (forall n, d {:trigger PendingOf(t.db.deliveries, n, d)} | PendingOf(t.db.deliveries, n, d) ::
          PendingOf(s.db.deliveries, n, d) || Excused(t, d))
    && (t.nudge || forall d | Excused(s, d) :: Excused(t, d))
  }

  lemma CoveredKept(s: Sys, t: Sys, info: ActionInfo)
    requires Covered(s, info) && Attentive(s, t)
    ensures Covered(t, info)
  {
    assert InFlight(s.inflight, info.name) <= InFlight(t.inflight, info.name);
  }

  lemma CoveredToKept(cfg: Config, s: Sys, t: Sys, infos: seq<ActionInfo>, k: nat)
    requires CoveredTo(cfg, s, infos, k) && Attentive(s, t) && t.db.actions == s.db.actions
    ensures CoveredTo(cfg, t, infos, k)
  {
    forall i | 0 <= i < k && i < |infos| ensures Covered(t, infos[i]) {
      assert Covered(s, infos[i]);
      CoveredKept(s, t, infos[i]);
    }
  }

  /** A step that leaves the loop where it is. */
  lemma AwakeKept(cfg: Config, s: Sys, t: Sys)
    requires Awake(cfg, s) && Attentive(s, t) && t.db.actions == s.db.actions && t.pc == s.pc
    ensures Awake(cfg, t)
  {
    match s.pc
    case Scan(plan, k) => CoveredToKept(cfg, s, t, plan.infos, k);
    case Picked(plan, k, _) => CoveredToKept(cfg, s, t, plan.infos, k);
    case Adding(_, _, next) => if next.Scan? { CoveredToKept(cfg, s, t, next.plan.infos, next.k); }
    case Arming => var all := LoadActions(cfg, s.db.actions); CoveredToKept(cfg, s, t, all, |all|);
    case Blocked => var all := LoadActions(cfg, s.db.actions); CoveredToKept(cfg, s, t, all, |all|);
    case _ =>
  }

  // Dispatch.

  lemma NoPending(db: Db, name: Name, now: Stamp, d: Id)
    requires References(db) && NextEligible(db, name, now).None?
    ensures !PendingOf(db.deliveries, name, d)
  {
    assert d in db.deliveries ==> Refers(db, d);
    assert d !in Eligible(db, name, now);
  }

  lemma OneMore(cfg: Config, s: Sys, t: Sys, infos: seq<ActionInfo>, k: nat)
    requires CoveredTo(cfg, s, infos, k) && k < |infos| && Covered(s, infos[k])
    requires t == s.(pc := t.pc)
    ensures CoveredTo(cfg, t, infos, k + 1)
  {
    forall i | 0 <= i < k + 1 ensures Covered(t, infos[i]) {
      assert i < k ==> Covered(s, infos[i]);
      assert Covered(s, infos[i]);
    }
  }

  lemma PickAwake(cfg: Config, s: Sys)
    requires Inv(cfg, s) && CanDispatch(s, Pick(true)) && Awake(cfg, s)
    ensures Awake(cfg, DoPick(s, true))
  {
    var t := DoPick(s, true);
    var infos, k := s.pc.plan.infos, s.pc.k;
    if NextEligible(s.db, infos[k].name, s.pc.plan.now).None? {
      forall d ensures !PendingOf(s.db.deliveries, infos[k].name, d) {
        NoPending(s.db, infos[k].name, s.pc.plan.now, d);
      }
      assert Covered(s, infos[k]);
      OneMore(cfg, s, t, infos, k);
    } else {
      CoveredSame(cfg, s, t, infos, k);
    }
  }

  lemma CoveredSame(cfg: Config, s: Sys, t: Sys, infos: seq<ActionInfo>, k: nat)
    requires CoveredTo(cfg, s, infos, k) && t == s.(pc := t.pc)
    ensures CoveredTo(cfg, t, infos, k)
  {
    forall i | 0 <= i < k && i < |infos| ensures Covered(t, infos[i]) {
      assert Covered(s, infos[i]);
    }
  }

  /** Claiming or resolving one row takes it out of the pending rows. */
  lemma MovedAttentive(s: Sys, t: Sys, id: Id)
    requires id in t.db.deliveries && t.db.deliveries == s.db.deliveries[id := t.db.deliveries[id]]
    requires !t.db.deliveries[id].state.Pending?
    requires t.nudge == s.nudge && t.committed == s.committed && t.counted == s.counted
    requires forall n: Name :: InFlight(s.inflight, n) <= InFlight(t.inflight, n)
    ensures Attentive(s, t)
  {
  }

  lemma SettleAwake(cfg: Config, s: Sys, state: State, error: Option<Reason>)
    requires s.pc.Picked? && Awake(cfg, s) && !state.Pending?
    requires Resolve(s.db, s.pc.work.id, state, error, s.pc.plan.now).Some?
    ensures var r := Resolve(s.db, s.pc.work.id, state, error, s.pc.plan.now).value;
      Awake(cfg, DoSettle(s, r, s.pc.plan, s.pc.k, s.pc.work.id))
  {
    var id := s.pc.work.id;
    var t := DoSettle(s, Resolve(s.db, id, state, error, s.pc.plan.now).value, s.pc.plan, s.pc.k, id);
    MovedAttentive(s, t, id);
    CoveredToKept(cfg, s, t, s.pc.plan.infos, s.pc.k);
  }

  lemma LaunchAwake(cfg: Config, s: Sys, info: ActionInfo, w: Work)
    requires s.pc.Picked? && Awake(cfg, s) && w == s.pc.work && Claim(s.db, w.id, info.version, s.pc.plan.now).Some?
    ensures Awake(cfg, DoLaunch(s, Claim(s.db, w.id, info.version, s.pc.plan.now).value, s.pc.plan, s.pc.k, info, w))
  {
    var t := DoLaunch(s, Claim(s.db, w.id, info.version, s.pc.plan.now).value, s.pc.plan, s.pc.k, info, w);
    MovedAttentive(s, t, w.id);
    CoveredToKept(cfg, s, t, s.pc.plan.infos, s.pc.k);
  }

  lemma DecideAwake(cfg: Config, s: Sys)
    requires Inv(cfg, s) && CanDispatch(s, Decide(true)) && Awake(cfg, s)
    ensures Awake(cfg, DoDecide(cfg, s, true))
  {
    var info, w := s.pc.plan.infos[s.pc.k], s.pc.work;
    SettlesTerminal(cfg, info, w.msg);
    var d := Decision(cfg, info, w.msg);
    if d.Settle? {
      SettleAwake(cfg, s, d.state, d.error);
    } else {
      LaunchAwake(cfg, s, info, w);
    }
  }

  lemma DispatchAwake(cfg: Config, s: Sys, p: DispatchEvent)
    requires Inv(cfg, s) && CanDispatch(s, p) && Awake(cfg, s) && Steady(Dispatch(p))
    ensures Awake(cfg, DoDispatch(cfg, s, p))
  {
    match p
    case Load(_, _) =>
    case Next => OneMore(cfg, s, DoDispatch(cfg, s, p), s.pc.plan.infos, s.pc.k);
    case Pick(_) => PickAwake(cfg, s);
    case Decide(_) => DecideAwake(cfg, s);
    case Dispatched =>
      var all := s.pc.plan.infos;
      forall i | 0 <= i < |all| ensures Covered(DoDispatch(cfg, s, p), all[i]) {
        assert Covered(s, all[i]);
      }
  }

  // The rest of the loop.

  lemma ReceiveAwake(cfg: Config, s: Sys, id: Id, ok: bool, now: Stamp, gate: Stamp, mids: seq<Id>, ids: seq<Id>)
    requires CanReceive(cfg, s, id, now, mids, ids)
    ensures Awake(cfg, DoReceive(cfg, s, id, ok, now, gate, mids, ids))
  {
    Frames.ReceiveFrame(cfg, s, id, ok, now, gate, mids, ids);
    ReceivePlain(cfg, s, id, ok, now, gate, mids, ids);
  }

  lemma ReceivePlain(cfg: Config, s: Sys, id: Id, ok: bool, now: Stamp, gate: Stamp, mids: seq<Id>, ids: seq<Id>)
    requires CanReceive(cfg, s, id, now, mids, ids)
    ensures Plain(DoReceive(cfg, s, id, ok, now, gate, mids, ids).pc)
  {
    Frames.ReceiveFrame(cfg, s, id, ok, now, gate, mids, ids);
  }

  lemma LoopAwake(cfg: Config, s: Sys, l: LoopEvent)
    requires CanLoop(s, l) && Awake(cfg, s)
    ensures Awake(cfg, DoLoop(s, l))
  {
    var t := DoLoop(s, l);
    match l
    case Arm(_, _) =>
      var all := LoadActions(cfg, s.db.actions);
      ArmedCovered(cfg, s, t, all);
    case Add => if s.pc.next.Scan? { AddedCovered(cfg, s, t, s.pc.next.plan.infos, s.pc.next.k); }
    case _ =>
  }

  lemma ArmedCovered(cfg: Config, s: Sys, t: Sys, infos: seq<ActionInfo>)
    requires CoveredTo(cfg, s, infos, |infos|) && t == s.(pc := t.pc, timer := t.timer)
    ensures CoveredTo(cfg, t, infos, |infos|)
  {
    forall i | 0 <= i < |infos| ensures Covered(t, infos[i]) {
      assert Covered(s, infos[i]);
    }
  }

  lemma AddedCovered(cfg: Config, s: Sys, t: Sys, infos: seq<ActionInfo>, k: nat)
    requires CoveredTo(cfg, s, infos, k) && t == s.(pc := t.pc, active := t.active)
    ensures CoveredTo(cfg, t, infos, k)
  {
    forall i | 0 <= i < k && i < |infos| ensures Covered(t, infos[i]) {
      assert Covered(s, infos[i]);
    }
  }

  // Handlers and workers.

  lemma HoldsMore(reports: seq<set<Id>>, ids: set<Id>, d: Id)
    ensures Holds(reports + [ids], d) <==> Holds(reports, d) || d in ids
  {
    if Holds(reports, d) {
      var k :| 0 <= k < |reports| && d in reports[k];
      assert (reports + [ids])[k] == reports[k];
    }
    if d in ids {
      assert (reports + [ids])[|reports|] == ids;
    }
  }

  lemma HoldsWithout(reports: seq<set<Id>>, k: nat, d: Id)
    requires k < |reports|
    ensures Holds(reports, d) ==> Holds(reports[..k] + reports[k + 1..], d) || d in reports[k]
  {
    var rest := reports[..k] + reports[k + 1..];
    if Holds(reports, d) && d !in reports[k] {
      var j :| 0 <= j < |reports| && d in reports[j];
      assert rest[if j < k then j else j - 1] == reports[j];
    }
  }

  lemma SendAttentive(s: Sys, out: Outgoing, ids: seq<Id>)
    requires Insertable(s.db, [out], ids)
    ensures Attentive(s, DoSend(s, out, ids))
  {
    var t := DoSend(s, out, ids);
    forall d ensures (Excused(s, d) || d in ids ==> Excused(t, d)) {
      HoldsMore(s.committed, Elements(ids), d);
    }
    forall n, d | PendingOf(t.db.deliveries, n, d) ensures PendingOf(s.db.deliveries, n, d) || Excused(t, d) {
    }
  }

  lemma ReplayAttentive(s: Sys, id: Id)
    requires Replay(s.db, id).Replayed?
    ensures Attentive(s, DoReplay(s, id))
  {
    forall d ensures (Excused(s, d) || d == id ==> Excused(DoReplay(s, id), d)) {
      HoldsMore(s.committed, {id}, d);
    }
  }

  lemma CountAttentive(s: Sys, k: nat)
    requires CanRequest(s, Count(k))
    ensures Attentive(s, DoRequest(s, Count(k)))
  {
    forall d | Excused(s, d) ensures Excused(DoRequest(s, Count(k)), d) {
      HoldsWithout(s.committed, k, d);
      HoldsMore(s.counted, s.committed[k], d);
    }
  }

  lemma RequestAwake(cfg: Config, s: Sys, q: RequestEvent)
    requires CanRequest(s, q) && Awake(cfg, s) && Steady(Request(q))
    ensures Awake(cfg, DoRequest(s, q))
  {
    match q {
      case Send(mid, queue, payload, headers, trace, now, ids) =>
        SendAttentive(s, Outgoing(mid, Ingress(queue, payload, headers, trace, now)), ids);
      case ReplayRow(id) => ReplayAttentive(s, id);
      case Count(k) => CountAttentive(s, k);
      case _ =>
    }
    AwakeKept(cfg, s, DoRequest(s, q));
  }

  lemma WorkAwake(cfg: Config, s: Sys, w: WorkerEvent)
    requires CanWork(cfg, s, w) && Awake(cfg, s)
    ensures Awake(cfg, DoWork(cfg, s, w))
  {
    AwakeKept(cfg, s, DoWork(cfg, s, w));
  }

  lemma DaemonAwake(cfg: Config, s: Sys, d: DaemonEvent)
    requires CanDaemon(s, d)
    ensures Awake(cfg, DoDaemon(s, d))
  {
  }

  lemma TrackAwake(cfg: Config, s: Sys, t: TrackerEvent)
    requires CanTrack(s, t) && Awake(cfg, s)
    ensures Awake(cfg, DoTrack(s, t))
  {
    AwakeKept(cfg, s, DoTrack(s, t));
  }

  lemma StepAwake(cfg: Config, s: Sys, e: Event)
    requires Inv(cfg, s) && Can(cfg, s, e) && Awake(cfg, s) && Steady(e)
    ensures Awake(cfg, Do(cfg, s, e))
  {
    match e
    case Daemon(d) => DaemonAwake(cfg, s, d);
    case Dispatch(p) => DispatchAwake(cfg, s, p);
    case Loop(l) => LoopAwake(cfg, s, l);
    case Receive(id, ok, now, gate, mids, ids) => ReceiveAwake(cfg, s, id, ok, now, gate, mids, ids);
    case Worker(w) => WorkAwake(cfg, s, w);
    case Request(q) => RequestAwake(cfg, s, q);
    case Track(t) => TrackAwake(cfg, s, t);
  }

  // The timer.

  /** Set for the gate that NextRetryAt reports, and no sooner than now. */
  ghost predicate TimerOk(s: Sys) {
    s.pc.Blocked? && NextRetryAt(s.db).Some? ==>
      && s.timer.Set?
      && var wait := Instant(NextRetryAt(s.db).value) - Instant(s.timer.armedAt);
         s.timer.delay == if wait < 0 then 0 else wait
  }

  lemma SameGates(db: Db, r: Db)
    requires forall d | d in db.deliveries && db.deliveries[d].state.Failed? ::
      d in r.deliveries && r.deliveries[d] == db.deliveries[d]
    requires forall d | d in r.deliveries && r.deliveries[d].state.Failed? ::
      d in db.deliveries && r.deliveries[d] == db.deliveries[d]
    ensures Gates(r) == Gates(db)
  {
  }

  lemma RequestTimer(s: Sys, q: RequestEvent)
    requires CanRequest(s, q) && TimerOk(s)
    ensures TimerOk(DoRequest(s, q))
  {
    if q.Send? {
      InsertGates(s.db, [Outgoing(q.mid, Ingress(q.queue, q.payload, q.headers, q.trace, q.now))], q.ids);
    } else if q.ReplayRow? {
      SameGates(s.db, Replay(s.db, q.id).db);
    } else {
      assert DoRequest(s, q).db.deliveries == s.db.deliveries;
    }
  }

  lemma InsertGates(db: Db, outs: seq<Outgoing>, ids: seq<Id>)
    requires Insertable(db, outs, ids)
    ensures Gates(Insert(db, outs, ids)) == Gates(db)
  {
    var r := Insert(db, outs, ids);
    forall d | d in r.deliveries && r.deliveries[d].state.Failed?
      ensures d in db.deliveries && r.deliveries[d] == db.deliveries[d]
    {
      if d in ids { InsertedRow(db, outs, ids, d); }
    }
    SameGates(db, r);
  }

  lemma WorkTimer(cfg: Config, s: Sys, w: WorkerEvent)
    requires CanWork(cfg, s, w) && TimerOk(s)
    ensures TimerOk(DoWork(cfg, s, w))
  {
    SameGates(s.db, DoWork(cfg, s, w).db);
  }

  lemma DaemonTimer(s: Sys, d: DaemonEvent)
    requires CanDaemon(s, d)
    ensures !DoDaemon(s, d).pc.Blocked?
  {
  }

  lemma DispatchTimer(cfg: Config, s: Sys, p: DispatchEvent)
    requires CanDispatch(s, p)
    ensures !DoDispatch(cfg, s, p).pc.Blocked?
  {
    Frames.DispatchFrame(cfg, s, p);
  }

  lemma ReceiveTimer(cfg: Config, s: Sys, id: Id, ok: bool, now: Stamp, gate: Stamp, mids: seq<Id>, ids: seq<Id>)
    requires CanReceive(cfg, s, id, now, mids, ids)
    ensures !DoReceive(cfg, s, id, ok, now, gate, mids, ids).pc.Blocked?
  {
    Frames.ReceiveFrame(cfg, s, id, ok, now, gate, mids, ids);
  }

  lemma TrackTimer(s: Sys, t: TrackerEvent)
    requires CanTrack(s, t) && TimerOk(s)
    ensures TimerOk(DoTrack(s, t))
  {
  }

  lemma LoopTimer(s: Sys, l: LoopEvent)
    requires CanLoop(s, l) && Plain(s.pc) && Steady(Loop(l))
    ensures TimerOk(DoLoop(s, l))
  {
  }

  lemma StepTimer(cfg: Config, s: Sys, e: Event)
    requires Inv(cfg, s) && Can(cfg, s, e) && Plain(s.pc) && TimerOk(s) && Steady(e)
    ensures TimerOk(Do(cfg, s, e))
  {
    match e
    case Daemon(d) => DaemonTimer(s, d);
    case Dispatch(p) => DispatchTimer(cfg, s, p);
    case Loop(l) => LoopTimer(s, l);
    case Receive(id, ok, now, gate, mids, ids) => ReceiveTimer(cfg, s, id, ok, now, gate, mids, ids);
    case Worker(w) => WorkTimer(cfg, s, w);
    case Request(q) => RequestTimer(s, q);
    case Track(t) => TrackTimer(s, t);
  }

  lemma {:induction false} RunAwake(cfg: Config, es: seq<Event>, fs: seq<Event>)
    requires Run(cfg, START, es).pc.Top? && forall i | 0 <= i < |fs| :: Steady(fs[i])
    ensures var t := Run(cfg, START, es + fs); Awake(cfg, t) && TimerOk(t)
    decreases |fs|
  {
    if fs == [] {
      assert es + fs == es;
    } else {
      var n := |fs| - 1;
      RunAwake(cfg, es, fs[..n]);
      assert (es + fs)[..|es + fs| - 1] == es + fs[..n];
      RunInv(cfg, es + fs[..n]);
      if Can(cfg, Run(cfg, START, es + fs[..n]), fs[n]) {
        StepAwake(cfg, Run(cfg, START, es + fs[..n]), fs[n]);
        StepTimer(cfg, Run(cfg, START, es + fs[..n]), fs[n]);
      }
    }
  }

  /**
   * From any reachable state in which the loop is about to dispatch, through any steps that leave the registry alone
   * and do not fail the loop's own reads and writes (crashes and failing applies are allowed): whenever the loop
   * blocks, each pending delivery of an enabled action is held back by the action's ceiling, or is one whose handler
   * has not nudged yet, or a nudge is waiting.
   */
  lemma NoLostWakeup(cfg: Config, es: seq<Event>, fs: seq<Event>, n: Name, d: Id)
    requires Run(cfg, START, es).pc.Top? && forall i | 0 <= i < |fs| :: Steady(fs[i])
    requires var t := Run(cfg, START, es + fs); t.pc.Blocked? && Enabled(t.db.actions, n)
    requires PendingOf(Run(cfg, START, es + fs).db.deliveries, n, d)
    ensures var t := Run(cfg, START, es + fs);
      t.nudge || AtCeiling(t.inflight, Info(cfg, t.db.actions, n)) || Excused(t, d)
  {
    RunAwake(cfg, es, fs);
    var t := Run(cfg, START, es + fs);
    var all := LoadActions(cfg, t.db.actions);
    var i :| 0 <= i < |all| && all[i] == Info(cfg, t.db.actions, n);
    assert Covered(t, all[i]);
  }

  /** And if any delivery has failed, the timer is set for the earliest gate. */
  lemma TimerCoversRetries(cfg: Config, es: seq<Event>, fs: seq<Event>, d: Id)
    requires Run(cfg, START, es).pc.Top? && forall i | 0 <= i < |fs| :: Steady(fs[i])
    requires Run(cfg, START, es + fs).pc.Blocked?
    requires var t := Run(cfg, START, es + fs); d in t.db.deliveries && t.db.deliveries[d].state.Failed?
    ensures var t := Run(cfg, START, es + fs);
      NextRetryAt(t.db).Some? && t.timer.Set? &&
      var wait := Instant(NextRetryAt(t.db).value) - Instant(t.timer.armedAt);
      t.timer.delay == if wait < 0 then 0 else wait
  {
    RunAwake(cfg, es, fs);
    RunInv(cfg, es + fs);
    var t := Run(cfg, START, es + fs);
    RowSound(t.db, d);
    assert t.db.deliveries[d].notBefore.value in Gates(t.db);
  }

  /**
   * So a loop that blocks with nothing running, no nudge and no handler between its commit and its nudge has served
   * every enabled action: what is still waiting has failed, and the timer is set for it.
   */
  lemma NothingWaitsUnseen(cfg: Config, es: seq<Event>, fs: seq<Event>, d: Id)
    requires Run(cfg, START, es).pc.Top? && forall i | 0 <= i < |fs| :: Steady(fs[i])
    requires var t := Run(cfg, START, es + fs);
      t.pc.Blocked? && !t.nudge && t.execs == map[] && t.committed == [] && t.counted == []
    requires var t := Run(cfg, START, es + fs);
      d in t.db.deliveries && Waiting(t.db.deliveries[d].state) && Enabled(t.db.actions, t.db.deliveries[d].action)
    ensures var t := Run(cfg, START, es + fs); t.db.deliveries[d].state.Failed? && t.timer.Set?
  {
    var t := Run(cfg, START, es + fs);
    RunInv(cfg, es + fs);
    var n := t.db.deliveries[d].action;
    FreeIsBelow(cfg, t, n);
    if PendingOf(t.db.deliveries, n, d) {
      NoLostWakeup(cfg, es, fs, n, d);
      assert false;
    }
    TimerCoversRetries(cfg, es, fs, d);
  }

  /** With nothing running, no action is at its ceiling. */
  lemma FreeIsBelow(cfg: Config, s: Sys, n: Name)
    requires Inv(cfg, s) && s.execs == map[] && Enabled(s.db.actions, n)
    ensures !AtCeiling(s.inflight, Info(cfg, s.db.actions, n))
  {
    assert InFlight(s.inflight, n) == |Of(s.execs, n)|;
    assert Of(s.execs, n) == {};
    assert ValidVersions(s.db.actions[n]);
  }

  /**
   * What every run drains to. Steps that bring no work in and do not fail the loop's own reads and writes move rows at
   * most Measure times; and when the loop blocks with nothing running, no nudge and no report owed, a row that is
   * still active has failed and the timer is set for it, or its action is disabled, or its closing write failed.
   */
  lemma DrainsToRest(cfg: Config, es: seq<Event>, fs: seq<Event>, d: Id)
    requires Run(cfg, START, es).pc.Top?
    requires forall i | 0 <= i < |fs| :: Steady(fs[i]) && Drain.Closed(fs[i])
    requires var t := Run(cfg, START, es + fs);
      t.pc.Blocked? && !t.nudge && t.execs == map[] && t.committed == [] && t.counted == []
    requires d in ActiveIds(Run(cfg, START, es + fs).db)
    ensures var s, t := Run(cfg, START, es), Run(cfg, START, es + fs);
      Drain.Moves(cfg, s, fs) + Drain.Measure(cfg, t.db) <= Drain.Measure(cfg, s.db)
    ensures var t := Run(cfg, START, es + fs); var row := t.db.deliveries[d];
      || (row.state.Failed? && t.timer.Set?)
      || (Waiting(row.state) && !Enabled(t.db.actions, row.action))
      || (row.state.Claimed? && d in t.h.stuck)
  {
    Drain.EveryRunDrains(cfg, es, fs);
    var t := Run(cfg, START, es + fs);
    if t.db.deliveries[d].state.Claimed? {
      RunInv(cfg, es + fs);
      assert d in ClaimedIds(t.db);
    } else if Enabled(t.db.actions, t.db.deliveries[d].action) {
      NothingWaitsUnseen(cfg, es, fs, d);
    }
  }
}
