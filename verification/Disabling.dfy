/**
 * The disable protocol. From the moment a disable call has returned until the action is next enabled, across any
 * number of applied versions and restarts, none of its deliveries is claimed or created; only a replay, the failure
 * of an execution already running, or the reaping of one can make a row of it wait again.
 */
module Disabling {
  import opened Bytes
  import opened Keys
  import opened Stamps
  import opened Workflow
  import opened Tables
  import opened Engine
  import opened Integrity
  import opened Ownership
  import opened Transitions
  import Frames
  import Recovery

  predicate Mentions(plan: Plan, n: Name) {
    exists i | 0 <= i < |plan.infos| :: plan.infos[i].name == n
  }

  /** No dispatch in progress has the action in its snapshot. */
  predicate Unplanned(pc: Pc, n: Name) {
    match pc
    case Scan(plan, _) => !Mentions(plan, n)
    case Picked(plan, _, _) => !Mentions(plan, n)
    case Adding(_, _, next) => next.Scan? ==> !Mentions(next.plan, n)
    case Poking(next) => !next.Scan?
    case _ => true
  }

  ghost predicate Quiet(s: Sys, n: Name) {
    Registered(s.db.actions, n) && !Enabled(s.db.actions, n) && Unplanned(s.pc, n)
  }

  /** Only a resolve returns into a dispatch. */
  predicate Plain(pc: Pc) {
    match pc
    case Adding(_, poke, next) => next.Top? || next.Draining? || (next.Scan? && !poke)
    case Poking(next) => next.Top? || next.Draining?
    case _ => true
  }

  ghost predicate AllQuiet(s: Sys) {
    && Plain(s.pc)
    && forall n {:trigger Quiet(s, n)} | n in s.h.quiet :: Quiet(s, n)
  }

  /** A step of dispatch keeps to its plan. */
  lemma DispatchPlan(cfg: Config, s: Sys, p: DispatchEvent)
    requires CanDispatch(s, p)
    ensures var t := DoDispatch(cfg, s, p);
      && Plain(t.pc) && (t.pc.Scan? && !p.Load? ==> (s.pc.Scan? || s.pc.Picked?) && t.pc.plan == s.pc.plan)
      && (t.pc.Picked? ==> s.pc.Scan? && t.pc.plan == s.pc.plan)
      && (t.pc.Adding? && t.pc.next.Scan? ==> s.pc.Picked? && t.pc.next.plan == s.pc.plan)
  {
    if p.Decide? {
      Frames.DecideFrame(cfg, s, p.ok);
    }
  }

  lemma LoadSkips(cfg: Config, actions: Actions, now: Stamp, n: Name)
    requires !Enabled(actions, n)
    ensures !Mentions(Plan(LoadActions(cfg, actions), now), n)
  {
    var infos := LoadActions(cfg, actions);
    forall i | 0 <= i < |infos| ensures infos[i].name != n {
      assert infos[i] in infos;
    }
  }

  lemma DispatchQuiet(cfg: Config, s: Sys, p: DispatchEvent)
    requires CanDispatch(s, p) && AllQuiet(s)
    ensures AllQuiet(DoDispatch(cfg, s, p))
  {
    var t := DoDispatch(cfg, s, p);
    DispatchPlan(cfg, s, p);
    Frames.DispatchFrame(cfg, s, p);
    forall n | n in t.h.quiet ensures Quiet(t, n) {
      assert Quiet(s, n);
      if p.Load? && p.ok { LoadSkips(cfg, s.db.actions, p.now, n); }
    }
  }

  lemma ReceiveQuiet(cfg: Config, s: Sys, id: Id, ok: bool, now: Stamp, gate: Stamp, mids: seq<Id>, ids: seq<Id>)
    requires CanReceive(cfg, s, id, now, mids, ids) && AllQuiet(s)
    ensures AllQuiet(DoReceive(cfg, s, id, ok, now, gate, mids, ids))
  {
    var t := DoReceive(cfg, s, id, ok, now, gate, mids, ids);
    Frames.ReceiveFrame(cfg, s, id, ok, now, gate, mids, ids);
    forall n | n in t.h.quiet ensures Quiet(t, n) {
      assert Quiet(s, n);
    }
  }

  lemma LoopQuiet(s: Sys, l: LoopEvent)
    requires CanLoop(s, l) && AllQuiet(s)
    requires l.Control? ==> Registered(s.db.actions, s.disabling[l.k])
    ensures AllQuiet(DoLoop(s, l))
  {
    var t := DoLoop(s, l);
    forall n | n in t.h.quiet ensures Quiet(t, n) {
      if n in s.h.quiet { assert Quiet(s, n); }
    }
  }

  lemma RequestQuiet(s: Sys, q: RequestEvent)
    requires CanRequest(s, q) && AllQuiet(s)
    ensures AllQuiet(DoRequest(s, q))
  {
    var t := DoRequest(s, q);
    forall n | n in t.h.quiet ensures Quiet(t, n) {
      assert Quiet(s, n);
      if q.Register? && q.name == n {
        ApplyInherits(s.db.actions, n, q.def);
      }
    }
  }

  lemma DaemonQuiet(s: Sys, d: DaemonEvent)
    requires CanDaemon(s, d) && AllQuiet(s)
    ensures AllQuiet(DoDaemon(s, d))
  {
    var t := DoDaemon(s, d);
    forall n | n in t.h.quiet ensures Quiet(t, n) {
      assert Quiet(s, n);
    }
  }

  lemma WorkQuiet(cfg: Config, s: Sys, w: WorkerEvent)
    requires CanWork(cfg, s, w) && AllQuiet(s)
    ensures AllQuiet(DoWork(cfg, s, w))
  {
    var t := DoWork(cfg, s, w);
    Frames.WorkFrame(cfg, s, w);
    forall n | n in t.h.quiet ensures Quiet(t, n) {
      assert Quiet(s, n);
    }
  }

  lemma TrackQuiet(s: Sys, e: TrackerEvent)
    requires CanTrack(s, e) && AllQuiet(s)
    ensures AllQuiet(DoTrack(s, e))
  {
    var t := DoTrack(s, e);
    forall n | n in t.h.quiet ensures Quiet(t, n) {
      assert Quiet(s, n);
    }
  }

  /** Waiting disable handlers name registered actions. */
  ghost predicate Named(s: Sys) {
    forall k | 0 <= k < |s.disabling| :: Registered(s.db.actions, s.disabling[k])
  }

  lemma StepNamed(cfg: Config, s: Sys, e: Event)
    requires Can(cfg, s, e) && Named(s)
    ensures Named(Do(cfg, s, e))
  {
    match e
    case Daemon(d) => DaemonNamed(s, d);
    case Dispatch(p) => Frames.DispatchFrame(cfg, s, p);
    case Loop(l) => LoopNamed(s, l);
    case Receive(id, ok, now, gate, mids, ids) => Frames.ReceiveFrame(cfg, s, id, ok, now, gate, mids, ids);
    case Worker(w) => Frames.WorkFrame(cfg, s, w);
    case Request(q) => RequestNamed(s, q);
    case Track(t) =>
  }

  lemma DaemonNamed(s: Sys, d: DaemonEvent)
    requires CanDaemon(s, d) && Named(s)
    ensures Named(DoDaemon(s, d))
  {
  }

  lemma LoopNamed(s: Sys, l: LoopEvent)
    requires CanLoop(s, l) && Named(s)
    ensures Named(DoLoop(s, l))
  {
  }

  lemma RequestNamed(s: Sys, q: RequestEvent)
    requires CanRequest(s, q) && Named(s)
    ensures Named(DoRequest(s, q))
  {
  }

  lemma StepQuiet(cfg: Config, s: Sys, e: Event)
    requires Can(cfg, s, e) && AllQuiet(s) && Named(s)
    ensures AllQuiet(Do(cfg, s, e))
  {
    match e
    case Daemon(d) => DaemonQuiet(s, d);
    case Dispatch(p) => DispatchQuiet(cfg, s, p);
    case Loop(l) => LoopQuiet(s, l);
    case Receive(id, ok, now, gate, mids, ids) => ReceiveQuiet(cfg, s, id, ok, now, gate, mids, ids);
    case Worker(w) => WorkQuiet(cfg, s, w);
    case Request(q) => RequestQuiet(s, q);
    case Track(t) => TrackQuiet(s, t);
  }

  lemma {:induction false} RunQuiet(cfg: Config, es: seq<Event>)
    ensures AllQuiet(Run(cfg, START, es)) && Named(Run(cfg, START, es))
  {
    if es != [] {
      var n := |es| - 1;
      RunQuiet(cfg, es[..n]);
      if Can(cfg, Run(cfg, START, es[..n]), es[n]) {
        StepQuiet(cfg, Run(cfg, START, es[..n]), es[n]);
        StepNamed(cfg, Run(cfg, START, es[..n]), es[n]);
      }
    }
  }

  // What a step may do to the rows of a quiet action.

  /** The event that ends this very row's execution in failure: the applying of its result, or its own reaping. */
  predicate Ends(s: Sys, e: Event, d: Id) {
    (e.Receive? && e.id == d) || (e.Daemon? && e.d.Reap? && s.pc.Reaping? && s.pc.todo != [] && s.pc.todo[0] == d)
  }

  /**
   * A row of the action: it existed, was not claimed just now, and waits anew only when its replay or the end of its
   * execution makes it.
   */
  predicate Calm(before: map<Id, Row>, after: map<Id, Row>, n: Name, d: Id, replayed: bool, ended: bool) {
    d in after && after[d].action == n ==>
      && d in before && before[d].action == n
      && (after[d].state.Claimed? ==> before[d].state.Claimed?)
      && (Waiting(after[d].state) && !Waiting(before[d].state) ==>
            Revived(before[d].state, after[d].state, replayed, ended))
  }

  predicate Revived(a: State, b: State, replayed: bool, ended: bool) {
    (replayed && a.Dead? && b.Pending?) || (ended && a.Claimed? && b.Failed?)
  }

  /** Rewriting a row of another action. */
  lemma OtherRowCalm(db: Db, id: Id, row: Row, n: Name, d: Id)
    requires id in db.deliveries && SamePair(db.deliveries[id], row) && row.action != n
    ensures Calm(db.deliveries, db.deliveries[id := row], n, d, false, false)
  {
  }

  lemma DecideCalm(cfg: Config, s: Sys, ok: bool, n: Name, d: Id)
    requires PcOk(cfg, s.db, s.inflight, s.pc) && CanDispatch(s, Decide(ok)) && Quiet(s, n)
    ensures Calm(s.db.deliveries, DoDecide(cfg, s, ok).db.deliveries, n, d, false, false)
  {
    var info, w := s.pc.plan.infos[s.pc.k], s.pc.work;
    var v := Decision(cfg, info, w.msg);
    assert s.db.deliveries[w.id].action == info.name != n;
    if !ok {
      assert DoDecide(cfg, s, ok).db == s.db;
    } else if v.Settle? {
      OtherRowCalm(s.db, w.id, Resolve(s.db, w.id, v.state, v.error, s.pc.plan.now).value.deliveries[w.id], n, d);
    } else {
      OtherRowCalm(s.db, w.id, Claim(s.db, w.id, info.version, s.pc.plan.now).value.deliveries[w.id], n, d);
    }
  }

  lemma InsertCalm(db: Db, outs: seq<Outgoing>, ids: seq<Id>, n: Name, d: Id)
    requires Insertable(db, outs, ids) && !Enabled(db.actions, n)
    ensures var r := Insert(db, outs, ids).deliveries;
      d in r && r[d].action == n ==> d in db.deliveries && r[d] == db.deliveries[d]
  {
    if d in ids {
      InsertedRow(db, outs, ids, d);
    }
  }

  lemma CompleteCalm(db: Db, id: Id, stderr: Data, outs: seq<Outgoing>, ids: seq<Id>, now: Stamp, n: Name, d: Id)
    requires Insertable(db, outs, ids) && !Enabled(db.actions, n) && id in db.deliveries
    requires db.deliveries[id].state.Claimed?
    ensures Calm(db.deliveries, Complete(db, id, stderr, outs, ids, now).value.deliveries, n, d, false, false)
  {
    InsertCalm(MarkDone(db, id, stderr, now), outs, ids, n, d);
  }

  lemma FailCalm(db: Db, id: Id, dead: bool, gate: Stamp, reason: Reason, stderr: Data, now: Stamp, n: Name, d: Id)
    requires id in db.deliveries && db.deliveries[id].state.Claimed?
    ensures Calm(db.deliveries, Fail(db, id, dead, gate, reason, stderr, now).value.deliveries, n, d, false, d == id)
  {
  }

  lemma ReceiveCalm(cfg: Config, s: Sys, id: Id, ok: bool, now: Stamp, gate: Stamp, mids: seq<Id>, ids: seq<Id>,
                    n: Name, d: Id)
    requires Inv(cfg, s) && CanReceive(cfg, s, id, now, mids, ids) && Quiet(s, n)
    ensures Calm(s.db.deliveries, DoReceive(cfg, s, id, ok, now, gate, mids, ids).db.deliveries, n, d, false, d == id)
  {
    var x := s.execs[id];
    var o := x.phase.outcome;
    assert ExecOk(cfg, s.db, id, x);
    var emits := Emits(cfg, x.info, o);
    if emits.Some? {
      CompleteCalm(s.db, id, o.stderr, BuildOutputs(x, emits.value, mids, now), ids, now, n, d);
    } else {
      FailCalm(s.db, id, x.work.row.attempt >= x.info.maxAttempts, gate, if o.failed then Execution else BadStdout,
               o.stderr, now, n, d);
    }
  }

  lemma RequestCalm(s: Sys, q: RequestEvent, n: Name, d: Id)
    requires CanRequest(s, q) && Quiet(s, n)
    ensures Calm(s.db.deliveries, DoRequest(s, q).db.deliveries, n, d, q == ReplayRow(d), false)
  {
    if q.Send? {
      InsertCalm(s.db, [Outgoing(q.mid, Ingress(q.queue, q.payload, q.headers, q.trace, q.now))], q.ids, n, d);
    }
  }

  lemma DispatchCalm(cfg: Config, s: Sys, p: DispatchEvent, n: Name, d: Id)
    requires Inv(cfg, s) && CanDispatch(s, p) && Quiet(s, n)
    ensures Calm(s.db.deliveries, DoDispatch(cfg, s, p).db.deliveries, n, d, false, false)
  {
    if p.Decide? {
      DecideCalm(cfg, s, p.ok, n, d);
    } else {
      Frames.DispatchFrame(cfg, s, p);
    }
  }

  lemma LoopCalm(s: Sys, l: LoopEvent, n: Name, d: Id)
    requires CanLoop(s, l)
    ensures Calm(s.db.deliveries, DoLoop(s, l).db.deliveries, n, d, false, false)
  {
    if l.Control? && l.ok {
      CancelCalm(s.db, s.disabling[l.k], l.now, n, d);
    } else {
      assert DoLoop(s, l).db == s.db;
    }
  }

  lemma CancelCalm(db: Db, name: Name, now: Stamp, n: Name, d: Id)
    ensures Calm(db.deliveries, CancelAll(db, name, ActionDisabled, now).deliveries, n, d, false, false)
  {
  }

  lemma WorkCalm(cfg: Config, s: Sys, w: WorkerEvent, n: Name, d: Id)
    requires CanWork(cfg, s, w)
    ensures Calm(s.db.deliveries, DoWork(cfg, s, w).db.deliveries, n, d, false, false)
  {
  }

  lemma DaemonCalm(s: Sys, e: DaemonEvent, n: Name, d: Id)
    requires CanDaemon(s, e)
    ensures Calm(s.db.deliveries, DoDaemon(s, e).db.deliveries, n, d, false, Ends(s, Daemon(e), d))
  {
  }

  ghost predicate StepCalm(cfg: Config, s: Sys, e: Event, n: Name, d: Id)
    requires Can(cfg, s, e)
  {
    Calm(s.db.deliveries, Do(cfg, s, e).db.deliveries, n, d, e == Request(ReplayRow(d)), Ends(s, e, d))
  }

  lemma StepStaysQuiet(cfg: Config, s: Sys, e: Event, n: Name, d: Id)
    requires Inv(cfg, s) && Quiet(s, n) && Can(cfg, s, e)
    ensures StepCalm(cfg, s, e, n, d)
  {
    match e
    case Daemon(c) => DaemonCalm(s, c, n, d);
    case Dispatch(p) => DispatchCalm(cfg, s, p, n, d);
    case Loop(l) => LoopCalm(s, l, n, d);
    case Receive(id, ok, now, gate, mids, ids) => ReceiveCalm(cfg, s, id, ok, now, gate, mids, ids, n, d);
    case Worker(w) => WorkCalm(cfg, s, w, n, d);
    case Request(q) => RequestCalm(s, q, n, d);
    case Track(t) =>
  }

  /**
   * The protocol: in every reachable state, whatever step comes next, an action whose disable has returned and which
   * has not been enabled since gets no new row and no claim, and a row of it starts waiting only by its own replay or
   * by the failure or the reaping of its own execution.
   */
  lemma DisabledStaysQuiet(cfg: Config, es: seq<Event>, e: Event, n: Name, d: Id)
    requires var s := Run(cfg, START, es); n in s.h.quiet && Can(cfg, s, e)
    ensures var s := Run(cfg, START, es); !Enabled(s.db.actions, n) && StepCalm(cfg, s, e, n, d)
  {
    hide Do;
    RunQuiet(cfg, es);
    RunInv(cfg, es);
    assert Quiet(Run(cfg, START, es), n);
    StepStaysQuiet(cfg, Run(cfg, START, es), e, n, d);
  }

  // What that comes to over a run.

  ghost predicate ActiveRow(s: Sys, n: Name, d: Id) {
    d in s.db.deliveries && s.db.deliveries[d].action == n && Active(s.db.deliveries[d].state)
  }

  /** The row's columns that decide activity, one step on: nothing of a quiet action turns active but by its replay. */
  lemma StepFades(cfg: Config, es: seq<Event>, e: Event, n: Name, d: Id)
    requires n in Run(cfg, START, es).h.quiet && e != Request(Switch(n, true)) && e != Request(ReplayRow(d))
    ensures var s := Run(cfg, START, es); var t := Step(cfg, s, e);
      n in t.h.quiet && (ActiveRow(t, n, d) ==> ActiveRow(s, n, d))
  {
    var s := Run(cfg, START, es);
    if Can(cfg, s, e) {
      DisabledStaysQuiet(cfg, es, e, n, d);
      QuietUntilEnabled(cfg, s, e, n);
    }
  }

  lemma {:induction false} QuietRowsFade(cfg: Config, es: seq<Event>, fs: seq<Event>, n: Name, d: Id)
    requires n in Run(cfg, START, es).h.quiet
    requires forall i | 0 <= i < |fs| :: fs[i] != Request(Switch(n, true)) && fs[i] != Request(ReplayRow(d))
    ensures var s, t := Run(cfg, START, es), Run(cfg, START, es + fs);
      n in t.h.quiet && (ActiveRow(t, n, d) ==> ActiveRow(s, n, d))
    decreases |fs|
  {
    hide Can;
    hide Do;
    if fs == [] {
      assert es + fs == es;
    } else {
      var k := |fs| - 1;
      QuietRowsFade(cfg, es, fs[..k], n, d);
      assert (es + fs)[..|es + fs| - 1] == es + fs[..k];
      StepFades(cfg, es + fs[..k], fs[k], n, d);
    }
  }

  ghost predicate ClaimedRow(s: Sys, n: Name, d: Id) {
    d in s.db.deliveries && s.db.deliveries[d].action == n && s.db.deliveries[d].state.Claimed?
  }

  /** The action is not enabled, and the delivery not replayed. */
  predicate LeavesAlone(fs: seq<Event>, n: Name, d: Id) {
    forall i | 0 <= i < |fs| :: fs[i] != Request(Switch(n, true)) && fs[i] != Request(ReplayRow(d))
  }

  /**
   * What a disable leaves behind: from the moment it returns until the action is next enabled, a delivery of the action
   * that nobody replays is active only if it was claimed at that moment.
   */
  lemma OnlyClaimedRowsSurvive(cfg: Config, es: seq<Event>, k: nat, now: Stamp, fs: seq<Event>, n: Name, d: Id)
    requires var s := Run(cfg, START, es);
      CanLoop(s, Control(k, true, now)) && s.disabling[k] == n && !Enabled(s.db.actions, n)
    requires LeavesAlone(fs, n, d)
    ensures var r := Run(cfg, START, es + [Loop(Control(k, true, now))]);
      var t := Run(cfg, START, es + [Loop(Control(k, true, now))] + fs);
      n in r.h.quiet && n in t.h.quiet && (ActiveRow(t, n, d) ==> ClaimedRow(r, n, d))
  {
    var s, e := Run(cfg, START, es), Loop(Control(k, true, now));
    assert (es + [e])[..|es + [e]| - 1] == es;
    var r := Run(cfg, START, es + [e]);
    assert r == DoLoop(s, Control(k, true, now));
    DisableCancels(s, k, now);
    QuietRowsFade(cfg, es + [e], fs, n, d);
    if ActiveRow(r, n, d) {
      NoneWaiting(r, n, d);
    }
  }

  lemma NoneWaiting(r: Sys, n: Name, d: Id)
    requires WaitingOf(r.db, n) == {} && ActiveRow(r, n, d)
    ensures r.db.deliveries[d].state.Claimed?
  {
    assert d !in WaitingOf(r.db, n);
  }

  /** When the disable returns, no delivery of the action is waiting; and it stays quiet until a switch turns it on. */
  lemma DisableCancels(s: Sys, k: nat, now: Stamp)
    requires CanLoop(s, Control(k, true, now)) && !Enabled(s.db.actions, s.disabling[k])
    ensures var t := DoLoop(s, Control(k, true, now));
      WaitingOf(t.db, s.disabling[k]) == {} && s.disabling[k] in t.h.quiet
  {
  }

  lemma QuietUntilEnabled(cfg: Config, s: Sys, e: Event, n: Name)
    requires Can(cfg, s, e) && n in s.h.quiet && e != Request(Switch(n, true))
    ensures n in Do(cfg, s, e).h.quiet
  {
    match e
    case Daemon(d) => DaemonKeepsQuiet(s, d);
    case Dispatch(p) => Frames.DispatchFrame(cfg, s, p);
    case Loop(l) => LoopKeepsQuiet(s, l);
    case Receive(id, ok, now, gate, mids, ids) => Frames.ReceiveFrame(cfg, s, id, ok, now, gate, mids, ids);
    case Worker(w) => Frames.WorkFrame(cfg, s, w);
    case Request(q) => RequestKeepsQuiet(s, q, n);
    case Track(t) =>
  }

  lemma DaemonKeepsQuiet(s: Sys, d: DaemonEvent)
    requires CanDaemon(s, d)
    ensures DoDaemon(s, d).h.quiet == s.h.quiet
  {
  }

  lemma LoopKeepsQuiet(s: Sys, l: LoopEvent)
    requires CanLoop(s, l)
    ensures s.h.quiet <= DoLoop(s, l).h.quiet
  {
  }

  lemma RequestKeepsQuiet(s: Sys, q: RequestEvent, n: Name)
    requires CanRequest(s, q) && n in s.h.quiet && q != Switch(n, true)
    ensures n in DoRequest(s, q).h.quiet
  {
  }

  // What the protocol does not give: an execution that fails after its action was disabled is stranded.

  ghost predicate Stranded(s: Sys, n: Name, d: Id) {
    && n in s.h.quiet && n !in s.disabling
    && d in s.db.deliveries && s.db.deliveries[d].action == n && s.db.deliveries[d].state.Failed?
  }

  lemma DispatchStrands(cfg: Config, s: Sys, p: DispatchEvent, n: Name, d: Id)
    requires Inv(cfg, s) && CanDispatch(s, p) && Quiet(s, n) && Stranded(s, n, d)
    ensures var t := DoDispatch(cfg, s, p); Stranded(t, n, d) && t.db.deliveries[d] == s.db.deliveries[d]
  {
    if p.Decide? {
      DecideStrands(cfg, s, p.ok, n, d);
    } else {
      Frames.DispatchFrame(cfg, s, p);
    }
  }

  lemma DecideStrands(cfg: Config, s: Sys, ok: bool, n: Name, d: Id)
    requires PcOk(cfg, s.db, s.inflight, s.pc) && CanDispatch(s, Decide(ok)) && Quiet(s, n) && Stranded(s, n, d)
    ensures var t := DoDecide(cfg, s, ok); Stranded(t, n, d) && t.db.deliveries[d] == s.db.deliveries[d]
  {
    var w := s.pc.work;
    Frames.DecideFrame(cfg, s, ok);
    assert s.pc.plan.infos[s.pc.k].name != n;
    assert w.id != d;
  }

  lemma LoopStrands(s: Sys, l: LoopEvent, n: Name, d: Id)
    requires CanLoop(s, l) && Stranded(s, n, d)
    ensures var t := DoLoop(s, l); Stranded(t, n, d) && t.db.deliveries[d] == s.db.deliveries[d]
  {
    if l.Control? {
      assert s.disabling[l.k] in s.disabling;
    }
  }

  lemma ReceiveStrands(cfg: Config, s: Sys, id: Id, ok: bool, now: Stamp, gate: Stamp, mids: seq<Id>, ids: seq<Id>,
                       n: Name, d: Id)
    requires Inv(cfg, s) && CanReceive(cfg, s, id, now, mids, ids) && Stranded(s, n, d)
    ensures var t := DoReceive(cfg, s, id, ok, now, gate, mids, ids);
      Stranded(t, n, d) && t.db.deliveries[d] == s.db.deliveries[d]
  {
    assert ExecOk(cfg, s.db, id, s.execs[id]);
    Frames.ReceiveFrame(cfg, s, id, ok, now, gate, mids, ids);
  }

  lemma RequestStrands(s: Sys, q: RequestEvent, n: Name, d: Id)
    requires CanRequest(s, q) && Stranded(s, n, d) && (q.Switch? ==> q.name != n)
    ensures var t := DoRequest(s, q); Stranded(t, n, d) && t.db.deliveries[d] == s.db.deliveries[d]
  {
    RequestKeepsDisabling(s, q, n);
  }

  lemma RequestKeepsDisabling(s: Sys, q: RequestEvent, n: Name)
    requires CanRequest(s, q) && n !in s.disabling && (q.Switch? ==> q.name != n)
    ensures n !in DoRequest(s, q).disabling
  {
  }

  lemma DaemonStrands(s: Sys, e: DaemonEvent, n: Name, d: Id)
    requires CanDaemon(s, e) && Stranded(s, n, d)
    ensures var t := DoDaemon(s, e); Stranded(t, n, d) && t.db.deliveries[d] == s.db.deliveries[d]
  {
  }

  lemma WorkStrands(cfg: Config, s: Sys, w: WorkerEvent, n: Name, d: Id)
    requires CanWork(cfg, s, w) && Stranded(s, n, d)
    ensures var t := DoWork(cfg, s, w); Stranded(t, n, d) && t.db.deliveries[d] == s.db.deliveries[d]
  {
  }

  lemma StepStrands(cfg: Config, s: Sys, e: Event, n: Name, d: Id)
    requires Inv(cfg, s) && Can(cfg, s, e) && Quiet(s, n) && Stranded(s, n, d)
    requires forall on :: e != Request(Switch(n, on))
    ensures var t := Do(cfg, s, e); Stranded(t, n, d) && t.db.deliveries[d] == s.db.deliveries[d]
  {
    match e
    case Daemon(c) => DaemonStrands(s, c, n, d);
    case Dispatch(p) => DispatchStrands(cfg, s, p, n, d);
    case Loop(l) => LoopStrands(s, l, n, d);
    case Receive(id, ok, now, gate, mids, ids) => ReceiveStrands(cfg, s, id, ok, now, gate, mids, ids, n, d);
    case Worker(w) => WorkStrands(cfg, s, w, n, d);
    case Request(q) => assert e == Request(q); RequestStrands(s, q, n, d);
    case Track(t) =>
  }

  /**
   * Once the disable has returned, a failed delivery of the action is never touched again by any run, retries and
   * restarts included, until the action is switched: it stays failed, and so keeps counting as work.
   */
  lemma {:induction false} FailedRowIsStranded(cfg: Config, es: seq<Event>, fs: seq<Event>, n: Name, d: Id)
    requires Stranded(Run(cfg, START, es), n, d)
    requires forall i, on | 0 <= i < |fs| :: fs[i] != Request(Switch(n, on))
    ensures var s, t := Run(cfg, START, es), Run(cfg, START, es + fs);
      Stranded(t, n, d) && t.db.deliveries[d] == s.db.deliveries[d] && ActiveIds(t.db) != {}
    decreases |fs|
  {
    hide Can;
    hide Do;
    if fs == [] {
      assert es + fs == es;
    } else {
      var k := |fs| - 1;
      FailedRowIsStranded(cfg, es, fs[..k], n, d);
      assert (es + fs)[..|es + fs| - 1] == es + fs[..k];
      StrandsOn(cfg, es + fs[..k], fs[k], n, d);
    }
    assert d in ActiveIds(Run(cfg, START, es + fs).db);
  }

  /** A restart brings any delivery that was claimed to that. */
  lemma ClaimedRowStrands(cfg: Config, es: seq<Event>, nows: seq<Stamp>, n: Name, d: Id)
    requires n in Run(cfg, START, es).h.quiet && ClaimedRow(Run(cfg, START, es), n, d)
    requires |nows| == |ClaimedIds(Run(cfg, START, es).db)|
    ensures LeavesAlone(Recovery.Restart(nows), n, d)
    ensures Stranded(Run(cfg, START, es + Recovery.Restart(nows)), n, d)
  {
    RestartLeavesAlone(nows, n, d);
    Recovery.CrashRecovery(cfg, es, nows);
    QuietRowsFade(cfg, es, Recovery.Restart(nows), n, d);
    hide Run;
    assert d in ClaimedIds(Run(cfg, START, es).db);
  }

  lemma RestartLeavesAlone(nows: seq<Stamp>, n: Name, d: Id)
    ensures LeavesAlone(Recovery.Restart(nows), n, d)
  {
    ReapsAreDaemon(nows);
  }

  lemma {:induction false} ReapsAreDaemon(nows: seq<Stamp>)
    ensures forall i | 0 <= i < |nows| :: Recovery.Reaps(nows)[i].Daemon?
  {
    if nows != [] {
      ReapsAreDaemon(nows[..|nows| - 1]);
    }
  }

  /**
   * So a disable can strand a delivery if and only if it was claimed when the disable returned: some later run that
   * neither enables the action nor replays the delivery leaves it failed for good. With nothing of the action claimed
   * at that moment, nothing of it is ever stranded.
   */
  lemma DisableStrandsExactlyClaimed(cfg: Config, es: seq<Event>, k: nat, now: Stamp, n: Name, d: Id)
    requires var s := Run(cfg, START, es);
      CanLoop(s, Control(k, true, now)) && s.disabling[k] == n && !Enabled(s.db.actions, n)
    ensures var back := es + [Loop(Control(k, true, now))];
      (exists fs | LeavesAlone(fs, n, d) :: Stranded(Run(cfg, START, back + fs), n, d)) <==>
      ClaimedRow(Run(cfg, START, back), n, d)
  {
    var back := es + [Loop(Control(k, true, now))];
    var r := Run(cfg, START, back);
    OnlyClaimedRowsSurvive(cfg, es, k, now, [], n, d);
    hide Run;
    forall fs | LeavesAlone(fs, n, d) && Stranded(Run(cfg, START, back + fs), n, d) ensures ClaimedRow(r, n, d) {
      OnlyClaimedRowsSurvive(cfg, es, k, now, fs, n, d);
    }
    if ClaimedRow(r, n, d) {
      var nows := seq(|ClaimedIds(r.db)|, i => now);
      ClaimedRowStrands(cfg, back, nows, n, d);
    }
  }

  lemma StrandsOn(cfg: Config, es: seq<Event>, e: Event, n: Name, d: Id)
    requires Stranded(Run(cfg, START, es), n, d) && forall on :: e != Request(Switch(n, on))
    ensures var s := Run(cfg, START, es); var t := Step(cfg, s, e);
      Stranded(t, n, d) && t.db.deliveries[d] == s.db.deliveries[d]
  {
    RunInv(cfg, es);
    RunQuiet(cfg, es);
    assert Quiet(Run(cfg, START, es), n);
    if Can(cfg, Run(cfg, START, es), e) {
      StepStrands(cfg, Run(cfg, START, es), e, n, d);
    }
  }
}
