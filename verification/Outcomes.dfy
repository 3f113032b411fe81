/**
 * What becomes of a delivery, said of its row and in the terms of the message, the definition and the output: how
 * vetting ends, how an execution ends, when a retry may start, and what a send and a switch leave in the tables.
 */
module Outcomes {
  import opened Bytes
  import opened Keys
  import opened Stamps
  import opened Workflow
  import opened Tables
  import opened Columns
  import opened Engine
  import opened Integrity
  import opened Ownership
  import opened Transitions
  import D = Disabling
  import Frames
  import Streams

  // Vetting.

  predicate Covers(def: Definition, queue: Queue) {
    exists i | 0 <= i < |def.inputs| :: def.inputs[i].queue == queue
  }

  predicate Unreadable(f: FilterOutcome) {
    f.CompileError? || f.InputError? || f.EvalError?
  }

  /** The state and reason that vetting leaves for a delivery of a non-join: the first cause that holds decides. */
  predicate Judged(cfg: Config, info: ActionInfo, msg: Message, state: State, error: Option<Reason>) {
    var covered := Covers(info.def, msg.queue);
    var broken := msg.headers.Undecodable?;
    var spent := (if msg.headers.Hops? then msg.headers.n else 0) >= cfg.maxHops;
    var f := cfg.filter(info.name, info.version, msg);
    && (state.Cancelled? <==> !covered)
    && (state.Dead? <==> covered && (broken || spent || Unreadable(f)))
    && (state.Filtered? <==> covered && !broken && !spent && f.Reject?)
    && (state.Claimed? <==> covered && !broken && !spent && f.Accept?)
    && (state.Cancelled? ==> error == Some(Superseded(info.version)))
    && (state.Filtered? ==> error == None)
    && (state.Dead? ==>
          && (error == Some(BadHeaders) <==> broken)
          && (error == Some(HopLimit) <==> !broken && spent)
          && (error == Some(BadDefinition) <==> !broken && !spent && f.CompileError?)
          && (error == Some(BadInput) <==> !broken && !spent && f.InputError?)
          && (error == Some(FilterError) <==> !broken && !spent && f.EvalError?))
  }

  /** A delivery is let through to its claim exactly when no check stops it. */
  predicate Admitted(cfg: Config, info: ActionInfo, msg: Message) {
    && Covers(info.def, msg.queue) && !msg.headers.Undecodable?
    && (if msg.headers.Hops? then msg.headers.n else 0) < cfg.maxHops
    && cfg.filter(info.name, info.version, msg).Accept?
  }

  lemma VerdictIs(cfg: Config, info: ActionInfo, msg: Message)
    requires !IsJoin(info.def)
    ensures var v := Decision(cfg, info, msg);
      && (v.Launch? <==> Admitted(cfg, info, msg))
      && (v.Settle? ==> Judged(cfg, info, msg, v.state, v.error))
  {
  }

  /** The write that follows a pick: what vetting makes of the row. */
  lemma DecideJudges(cfg: Config, s: Sys)
    requires PcOk(cfg, s.db, s.inflight, s.pc) && CanDispatch(s, Decide(true))
    requires !IsJoin(s.pc.plan.infos[s.pc.k].def)
    ensures var w, info, t := s.pc.work, s.pc.plan.infos[s.pc.k], DoDecide(cfg, s, true);
      && OnlyRow(s.db.deliveries, t.db.deliveries, w.id) && t.db.messages == s.db.messages
      && var row := t.db.deliveries[w.id];
         && Judged(cfg, info, w.msg, row.state, row.error)
         && if row.state.Claimed? then ClaimedFrom(w.row, row, info.version, s.pc.plan.now)
            else ResolvedFrom(w.row, row, row.state, row.error, s.pc.plan.now)
  {
    var w, info := s.pc.work, s.pc.plan.infos[s.pc.k];
    VerdictIs(cfg, info, w.msg);
    SettlesTerminal(cfg, info, w.msg);
    var v := Decision(cfg, info, w.msg);
    hide Decision;
    hide Judged;
    hide Admitted;
    if v.Settle? {
      assert Resolve(s.db, w.id, v.state, v.error, s.pc.plan.now).Some?;
    } else {
      assert Claim(s.db, w.id, info.version, s.pc.plan.now).Some?;
      AdmittedIsClaimed(cfg, info, w.msg, DoDecide(cfg, s, true).db.deliveries[w.id]);
    }
  }

  lemma AdmittedIsClaimed(cfg: Config, info: ActionInfo, msg: Message, row: Row)
    requires Admitted(cfg, info, msg) && row.state.Claimed?
    ensures Judged(cfg, info, msg, row.state, row.error)
  {
  }

  /** In every reachable state. */
  lemma VettingDecides(cfg: Config, es: seq<Event>)
    requires var s := Run(cfg, START, es); CanDispatch(s, Decide(true)) && !IsJoin(s.pc.plan.infos[s.pc.k].def)
    ensures var s := Run(cfg, START, es); var t := Do(cfg, s, Dispatch(Decide(true)));
      && s.pc.work.id in t.db.deliveries
      && var row := t.db.deliveries[s.pc.work.id];
         Judged(cfg, s.pc.plan.infos[s.pc.k], s.pc.work.msg, row.state, row.error)
  {
    RunInv(cfg, es);
    DecideJudges(cfg, Run(cfg, START, es));
  }

  /** A join's delivery is cancelled as superseded by the join. */
  lemma JoinCancels(cfg: Config, s: Sys)
    requires PcOk(cfg, s.db, s.inflight, s.pc) && CanDispatch(s, Decide(true))
    requires IsJoin(s.pc.plan.infos[s.pc.k].def)
    ensures var w, info, t := s.pc.work, s.pc.plan.infos[s.pc.k], DoDecide(cfg, s, true);
      && OnlyRow(s.db.deliveries, t.db.deliveries, w.id)
      && ResolvedFrom(w.row, t.db.deliveries[w.id], Cancelled, Some(Superseded(info.version)), s.pc.plan.now)
  {
    assert Resolve(s.db, s.pc.work.id, Cancelled, Some(Superseded(s.pc.plan.infos[s.pc.k].version)),
                   s.pc.plan.now).Some?;
  }

  /** The version an execution runs under is one that was registered, with its own limits or the defaults. */
  lemma LimitsAreTheVersions(cfg: Config, es: seq<Event>, id: Id)
    requires id in Run(cfg, START, es).execs
    ensures var s := Run(cfg, START, es); var info := s.execs[id].info; var def := info.def;
      && info.name in s.db.actions && 1 <= info.version <= |s.db.actions[info.name]|
      && s.db.actions[info.name][info.version - 1].def == def
      && info.concurrency == (if def.concurrency.Some? then def.concurrency.value else 1)
      && info.maxAttempts == (if def.maxAttempts.Some? then def.maxAttempts.value else cfg.defaultMaxAttempts)
  {
    RunInv(cfg, es);
    hide Run;
    InfoIs(cfg, Run(cfg, START, es), id);
  }

  lemma InfoIs(cfg: Config, s: Sys, id: Id)
    requires Inv(cfg, s) && id in s.execs
    ensures var info := s.execs[id].info; var def := info.def;
      && info.name in s.db.actions && 1 <= info.version <= |s.db.actions[info.name]|
      && s.db.actions[info.name][info.version - 1].def == def
      && info.concurrency == (if def.concurrency.Some? then def.concurrency.value else 1)
      && info.maxAttempts == (if def.maxAttempts.Some? then def.maxAttempts.value else cfg.defaultMaxAttempts)
  {
    assert ExecOk(cfg, s.db, id, s.execs[id]);
  }

  // Closing.

  /** The execution did not fail, and every piece of its output that is not blank is JSON: there may be none. */
  predicate Clean(cfg: Config, o: Outcome) {
    !o.failed && Streams.AllJson(cfg.valid, o.stdout)
  }

  /** What the result of an execution makes of its row. */
  predicate ClosedBy(cfg: Config, x: Exec, o: Outcome, gate: Stamp, now: Stamp, a: Row, b: Row) {
    if Clean(cfg, o) then DoneFrom(a, b, o.stderr, now)
    else
      FailedFrom(a, b, a.attempt >= x.info.maxAttempts, gate, if o.failed then Execution else BadStdout, o.stderr, now)
  }

  lemma EmitsIfClean(cfg: Config, info: ActionInfo, o: Outcome)
    ensures Emits(cfg, info, o).Some? <==> Clean(cfg, o)
  {
    Streams.ParsesIfAllJson(cfg.valid, o.stdout);
  }

  /** The other rows are as they were; there may be new ones. */
  predicate OthersKept(was: map<Id, Row>, now: map<Id, Row>, id: Id) {
    forall d | d in was && d != id :: d in now && now[d] == was[d]
  }

  /** The closing write. */
  lemma ReceiveCloses(cfg: Config, s: Sys, id: Id, now: Stamp, gate: Stamp, mids: seq<Id>, ids: seq<Id>)
    requires Inv(cfg, s) && CanReceive(cfg, s, id, now, mids, ids)
    ensures var t, x := DoReceive(cfg, s, id, true, now, gate, mids, ids), s.execs[id];
      && id in s.db.deliveries && id in t.db.deliveries && OthersKept(s.db.deliveries, t.db.deliveries, id)
      && ClosedBy(cfg, x, x.phase.outcome, gate, now, s.db.deliveries[id], t.db.deliveries[id])
      && (!Clean(cfg, x.phase.outcome) ==>
            OnlyRow(s.db.deliveries, t.db.deliveries, id) && t.db.messages == s.db.messages)
  {
    var x := s.execs[id];
    var o := x.phase.outcome;
    assert ExecOk(cfg, s.db, id, x);
    EmitsIfClean(cfg, x.info, o);
    hide Clean;
    hide Emits;
    hide DoneFrom;
    hide FailedFrom;
    hide OnlyRow;
    hide OthersKept;
    hide Complete;
    hide Fail;
    var emits := Emits(cfg, x.info, o);
    if emits.Some? {
      CompleteCloses(s.db, id, o.stderr, BuildOutputs(x, emits.value, mids, now), ids, now);
    } else {
      var dead := x.work.row.attempt >= x.info.maxAttempts;
      FailCloses(s.db, id, dead, gate, if o.failed then Execution else BadStdout, o.stderr, now);
    }
  }

  lemma CompleteCloses(db: Db, id: Id, stderr: Data, outs: seq<Outgoing>, ids: seq<Id>, now: Stamp)
    requires id in db.deliveries && db.deliveries[id].state.Claimed? && Insertable(db, outs, ids)
    ensures var r := Complete(db, id, stderr, outs, ids, now);
      && r.Some? && id in r.value.deliveries && DoneFrom(db.deliveries[id], r.value.deliveries[id], stderr, now)
      && OthersKept(db.deliveries, r.value.deliveries, id)
  {
    assert id !in ids;
  }

  lemma FailCloses(db: Db, id: Id, dead: bool, gate: Stamp, reason: Reason, stderr: Data, now: Stamp)
    requires id in db.deliveries && db.deliveries[id].state.Claimed?
    ensures var r := Fail(db, id, dead, gate, reason, stderr, now);
      && r.Some? && OnlyRow(db.deliveries, r.value.deliveries, id) && r.value.messages == db.messages
      && id in r.value.deliveries && OthersKept(db.deliveries, r.value.deliveries, id)
      && FailedFrom(db.deliveries[id], r.value.deliveries[id], dead, gate, reason, stderr, now)
  {
  }

  /** What that says of the state, the reason and the gate. */
  lemma ClosedMeans(cfg: Config, x: Exec, o: Outcome, gate: Stamp, now: Stamp, a: Row, b: Row)
    requires ClosedBy(cfg, x, o, gate, now, a, b)
    ensures b.state.Done? <==> Clean(cfg, o)
    ensures b.state.Dead? <==> !Clean(cfg, o) && a.attempt >= x.info.maxAttempts
    ensures b.state.Failed? <==> !Clean(cfg, o) && a.attempt < x.info.maxAttempts
    ensures b.state.Failed? ==> b.notBefore == Some(gate)
    ensures !b.state.Done? ==> b.error == Some(if o.failed then Execution else BadStdout)
  {
    hide Clean;
  }

  /** In every reachable state. */
  lemma ResultDecides(cfg: Config, es: seq<Event>, id: Id, now: Stamp, gate: Stamp, mids: seq<Id>, ids: seq<Id>)
    requires CanReceive(cfg, Run(cfg, START, es), id, now, mids, ids)
    ensures var s := Run(cfg, START, es); var t := Do(cfg, s, Receive(id, true, now, gate, mids, ids));
      && id in s.db.deliveries && id in t.db.deliveries
      && var a, row, x := s.db.deliveries[id], t.db.deliveries[id], s.execs[id];
         && (row.state.Done? <==> Clean(cfg, x.phase.outcome))
         && (row.state.Dead? <==> !Clean(cfg, x.phase.outcome) && a.attempt >= x.info.maxAttempts)
         && (row.state.Failed? <==> !Clean(cfg, x.phase.outcome) && a.attempt < x.info.maxAttempts)
         && (row.state.Failed? ==> row.notBefore == Some(gate))
         && (!row.state.Done? ==> row.error == Some(if x.phase.outcome.failed then Execution else BadStdout))
  {
    RunInv(cfg, es);
    hide Run;
    hide Inv;
    hide ClosedBy;
    hide Clean;
    var s := Run(cfg, START, es);
    ReceiveCloses(cfg, s, id, now, gate, mids, ids);
    hide DoReceive;
    hide CanReceive;
    ClosedMeans(cfg, s.execs[id], s.execs[id].phase.outcome, gate, now, s.db.deliveries[id],
                DoReceive(cfg, s, id, true, now, gate, mids, ids).db.deliveries[id]);
  }

  // Sending.

  /** A send stores the message as it was sent, with no origin, and no other message. */
  lemma SendStores(s: Sys, mid: Id, queue: Queue, payload: Data, headers: Headers, trace: Id, now: Stamp, ids: seq<Id>)
    requires CanRequest(s, Send(mid, queue, payload, headers, trace, now, ids))
    ensures var t := DoRequest(s, Send(mid, queue, payload, headers, trace, now, ids));
      && mid !in s.db.messages
      && t.db.messages == s.db.messages[mid := Message(queue, payload, headers, trace, None, now)]
      && InsertedBy(s.db, t.db, [Outgoing(mid, Message(queue, payload, headers, trace, None, now))])
  {
    OneInserted(s.db, Outgoing(mid, Ingress(queue, payload, headers, trace, now)), ids);
  }

  lemma OneInserted(db: Db, out: Outgoing, ids: seq<Id>)
    requires Insertable(db, [out], ids)
    ensures out.id !in db.messages && Insert(db, [out], ids).messages == db.messages[out.id := out.msg]
    ensures InsertedBy(db, Insert(db, [out], ids), [out])
  {
    var outs := [out];
    InsertLaw(db, outs, ids);
    assert outs[0].id !in db.messages && outs[..0] == [];
    assert InsertMessages(db.messages, outs[..0]) == db.messages;
  }

  // Switching.

  lemma SetEnabledFlips(actions: Actions, name: Name, on: bool)
    requires Registered(actions, name)
    ensures Flipped(actions, SetEnabled(actions, name, on), name, on)
  {
  }

  /** No longer enabled, whatever versions come. */
  ghost predicate Off(s: Sys, n: Name) {
    Registered(s.db.actions, n) && !Enabled(s.db.actions, n)
  }

  lemma StepStaysOff(cfg: Config, s: Sys, e: Event, n: Name)
    requires Can(cfg, s, e) && Off(s, n) && e != Request(Switch(n, true))
    ensures Off(Do(cfg, s, e), n)
  {
    match e
    case Daemon(d) =>
    case Dispatch(p) => Frames.DispatchFrame(cfg, s, p);
    case Loop(l) => Frames.LoopFrame(s, l);
    case Receive(id, ok, now, gate, mids, ids) => Frames.ReceiveFrame(cfg, s, id, ok, now, gate, mids, ids);
    case Worker(w) => Frames.WorkFrame(cfg, s, w);
    case Request(q) => RequestStaysOff(s, q, n);
    case Track(t) =>
  }

  lemma RequestStaysOff(s: Sys, q: RequestEvent, n: Name)
    requires CanRequest(s, q) && Off(s, n) && q != Switch(n, true)
    ensures Off(DoRequest(s, q), n)
  {
    if q.Register? && q.name == n {
      ApplyInherits(s.db.actions, n, q.def);
    } else if q.Switch? {
      SetEnabledFlips(s.db.actions, q.name, q.on);
    }
  }

  lemma {:induction false} RunStaysOff(cfg: Config, s: Sys, fs: seq<Event>, n: Name)
    requires Off(s, n) && forall i | 0 <= i < |fs| :: fs[i] != Request(Switch(n, true))
    ensures Off(Run(cfg, s, fs), n)
  {
    hide Can;
    hide Do;
    hide Off;
    if fs != [] {
      var k := |fs| - 1;
      RunStaysOff(cfg, s, fs[..k], n);
      if Can(cfg, Run(cfg, s, fs[..k]), fs[k]) {
        StepStaysOff(cfg, Run(cfg, s, fs[..k]), fs[k], n);
      }
    }
  }

  /**
   * A disable disables: once its flag is written, and whatever else happens short of an enable, the step that answers
   * its handler leaves the action off, nothing of it waiting, and quiet from then on.
   */
  lemma DisableTakesEffect(cfg: Config, es: seq<Event>, n: Name, fs: seq<Event>, k: nat, now: Stamp)
    requires Can(cfg, Run(cfg, START, es), Request(Switch(n, false)))
    requires forall i | 0 <= i < |fs| :: fs[i] != Request(Switch(n, true))
    requires var s := Run(cfg, START, es + [Request(Switch(n, false))] + fs);
      CanLoop(s, Control(k, true, now)) && s.disabling[k] == n
    ensures var s := Run(cfg, START, es + [Request(Switch(n, false))] + fs);
      var t := DoLoop(s, Control(k, true, now));
      Off(s, n) && Off(t, n) && WaitingOf(t.db, n) == {} && n in t.h.quiet
  {
    var e := Request(Switch(n, false));
    var s := Run(cfg, START, es);
    assert (es + [e])[..|es + [e]| - 1] == es;
    SetEnabledFlips(s.db.actions, n, false);
    RunAppend(cfg, START, es + [e], fs);
    RunStaysOff(cfg, Run(cfg, START, es + [e]), fs, n);
    D.DisableCancels(Run(cfg, START, es + [e] + fs), k, now);
  }

  // Retrying.

  /** What the scheduler has picked is due. */
  ghost predicate PickedDue(s: Sys) {
    s.pc.Picked? ==> NearlyDue(s.pc.work.row, s.pc.plan.now)
  }

  lemma StepPicksDue(cfg: Config, s: Sys, e: Event)
    requires Can(cfg, s, e) && PickedDue(s) && D.Plain(s.pc)
    ensures PickedDue(Do(cfg, s, e))
  {
    match e
    case Daemon(d) =>
    case Dispatch(p) => DispatchPicksDue(cfg, s, p);
    case Loop(l) => LoopPicksNothing(s, l);
    case Receive(id, ok, now, gate, mids, ids) => Frames.ReceiveFrame(cfg, s, id, ok, now, gate, mids, ids);
    case Worker(w) => Frames.WorkFrame(cfg, s, w);
    case Request(q) =>
    case Track(t) =>
  }

  lemma DispatchPicksDue(cfg: Config, s: Sys, p: DispatchEvent)
    requires CanDispatch(s, p)
    ensures PickedDue(DoDispatch(cfg, s, p))
  {
    if p.Pick? {
      var plan, k := s.pc.plan, s.pc.k;
      var found := NextEligible(s.db, plan.infos[k].name, plan.now);
      if found.Some? {
        EligibleIsDue(s.db, plan.infos[k].name, plan.now, found.value);
      }
    } else if p.Decide? {
      Frames.DecideFrame(cfg, s, p.ok);
    }
  }

  lemma LoopPicksNothing(s: Sys, l: LoopEvent)
    requires CanLoop(s, l) && D.Plain(s.pc)
    ensures !DoLoop(s, l).pc.Picked?
  {
  }

  lemma {:induction false} RunPicksDue(cfg: Config, es: seq<Event>)
    ensures PickedDue(Run(cfg, START, es))
  {
    hide Can;
    hide Do;
    if es != [] {
      var n := |es| - 1;
      RunPicksDue(cfg, es[..n]);
      D.RunQuiet(cfg, es[..n]);
      if Can(cfg, Run(cfg, START, es[..n]), es[n]) {
        StepPicksDue(cfg, Run(cfg, START, es[..n]), es[n]);
      }
    }
  }

  /** A failed row that nobody has picked stays as it is, gate and all, or is cancelled. */
  lemma UnpickedRowStays(cfg: Config, s: Sys, e: Event, d: Id)
    requires Inv(cfg, s) && Can(cfg, s, e) && d in s.db.deliveries && s.db.deliveries[d].state.Failed?
    requires !(s.pc.Picked? && s.pc.work.id == d)
    ensures var t := Do(cfg, s, e);
      d in t.db.deliveries && (t.db.deliveries[d] == s.db.deliveries[d] || t.db.deliveries[d].state.Cancelled?)
  {
    match e
    case Daemon(c) => UnpickedDaemon(s, c, d);
    case Dispatch(p) => UnpickedDispatch(cfg, s, p, d);
    case Loop(l) => UnpickedLoop(s, l, d);
    case Receive(id, ok, now, gate, mids, ids) => UnpickedReceive(cfg, s, id, ok, now, gate, mids, ids, d);
    case Worker(w) => UnpickedWork(cfg, s, w, d);
    case Request(q) => UnpickedRequest(s, q, d);
    case Track(t) =>
  }

  lemma UnpickedDaemon(s: Sys, c: DaemonEvent, d: Id)
    requires CanDaemon(s, c) && d in s.db.deliveries && s.db.deliveries[d].state.Failed?
    ensures var t := DoDaemon(s, c); d in t.db.deliveries && t.db.deliveries[d] == s.db.deliveries[d]
  {
  }

  lemma UnpickedLoop(s: Sys, l: LoopEvent, d: Id)
    requires CanLoop(s, l) && d in s.db.deliveries
    ensures var t := DoLoop(s, l);
      d in t.db.deliveries && (t.db.deliveries[d] == s.db.deliveries[d] || t.db.deliveries[d].state.Cancelled?)
  {
    if l.Control? {
    } else {
      assert DoLoop(s, l).db == s.db;
    }
  }

  lemma UnpickedDispatch(cfg: Config, s: Sys, p: DispatchEvent, d: Id)
    requires Inv(cfg, s) && CanDispatch(s, p) && d in s.db.deliveries && !(s.pc.Picked? && s.pc.work.id == d)
    ensures var t := DoDispatch(cfg, s, p); d in t.db.deliveries && t.db.deliveries[d] == s.db.deliveries[d]
  {
    Frames.DispatchFrame(cfg, s, p);
    if p.Decide? {
      if p.ok && !IsJoin(s.pc.plan.infos[s.pc.k].def) {
        DecideJudges(cfg, s);
      } else if p.ok {
        JoinCancels(cfg, s);
      } else {
        assert DoDecide(cfg, s, false).db == s.db;
      }
    }
  }

  lemma UnpickedReceive(cfg: Config, s: Sys, id: Id, ok: bool, now: Stamp, gate: Stamp, mids: seq<Id>, ids: seq<Id>,
                        d: Id)
    requires Inv(cfg, s) && CanReceive(cfg, s, id, now, mids, ids) && d in s.db.deliveries
    requires s.db.deliveries[d].state.Failed?
    ensures var t := DoReceive(cfg, s, id, ok, now, gate, mids, ids);
      d in t.db.deliveries && t.db.deliveries[d] == s.db.deliveries[d]
  {
    assert ExecOk(cfg, s.db, id, s.execs[id]);
    if ok {
      ReceiveCloses(cfg, s, id, now, gate, mids, ids);
    } else {
      assert DoReceive(cfg, s, id, ok, now, gate, mids, ids) == DoLose(s, id);
    }
  }

  lemma UnpickedWork(cfg: Config, s: Sys, w: WorkerEvent, d: Id)
    requires CanWork(cfg, s, w) && d in s.db.deliveries && s.db.deliveries[d].state.Failed?
    ensures var t := DoWork(cfg, s, w); d in t.db.deliveries && t.db.deliveries[d] == s.db.deliveries[d]
  {
  }

  lemma UnpickedRequest(s: Sys, q: RequestEvent, d: Id)
    requires CanRequest(s, q) && d in s.db.deliveries && s.db.deliveries[d].state.Failed?
    ensures var t := DoRequest(s, q); d in t.db.deliveries && t.db.deliveries[d] == s.db.deliveries[d]
  {
  }

  /** Along the run the delivery is not picked until its end, if then. */
  ghost predicate Unpicked(cfg: Config, es: seq<Event>, fs: seq<Event>, d: Id) {
    forall i | 0 <= i < |fs| :: var s := Run(cfg, START, es + fs[..i]); !(s.pc.Picked? && s.pc.work.id == d)
  }

  lemma {:induction false} GateStays(cfg: Config, es: seq<Event>, fs: seq<Event>, d: Id)
    requires d in Run(cfg, START, es).db.deliveries && Run(cfg, START, es).db.deliveries[d].state.Failed?
    requires Unpicked(cfg, es, fs, d)
    ensures var s, t := Run(cfg, START, es), Run(cfg, START, es + fs);
      d in t.db.deliveries && (t.db.deliveries[d] == s.db.deliveries[d] || t.db.deliveries[d].state.Cancelled?)
    decreases |fs|
  {
    hide Can;
    hide Do;
    if fs == [] {
      assert es + fs == es;
    } else {
      var n := |fs| - 1;
      assert forall i | 0 <= i < n :: fs[..n][..i] == fs[..i];
      GateStays(cfg, es, fs[..n], d);
      assert (es + fs)[..|es + fs| - 1] == es + fs[..n];
      GateStaysOn(cfg, es + fs[..n], fs[n], d);
    }
  }

  lemma GateStaysOn(cfg: Config, es: seq<Event>, e: Event, d: Id)
    requires var s := Run(cfg, START, es); d in s.db.deliveries && !(s.pc.Picked? && s.pc.work.id == d)
    requires var row := Run(cfg, START, es).db.deliveries[d]; row.state.Failed? || row.state.Cancelled?
    ensures var s, t := Run(cfg, START, es), Step(cfg, Run(cfg, START, es), e);
      && d in t.db.deliveries
      && (t.db.deliveries[d] == s.db.deliveries[d] || t.db.deliveries[d].state.Cancelled?)
  {
    RunInv(cfg, es);
    var s := Run(cfg, START, es);
    hide Do;
    if Can(cfg, s, e) {
      StepEvolves(cfg, s, e);
      if s.db.deliveries[d].state.Failed? {
        UnpickedRowStays(cfg, s, e, d);
      } else {
        assert Evolves(s.db.deliveries[d], Do(cfg, s, e).db.deliveries[d]);
      }
    }
  }

  /**
   * A retry waits for its gate. A row has failed with a gate, and anything may happen after, crashes and restarts
   * included: when the scheduler next picks the row, the clock that dispatch goes by is less than a second short of it.
   */
  lemma RetryWaits(cfg: Config, es: seq<Event>, fs: seq<Event>, d: Id, gate: Stamp)
    requires var s := Run(cfg, START, es);
      d in s.db.deliveries && s.db.deliveries[d].state.Failed? && s.db.deliveries[d].notBefore == Some(gate)
    requires Unpicked(cfg, es, fs, d)
    requires var t := Run(cfg, START, es + fs); t.pc.Picked? && t.pc.work.id == d
    ensures Instant(gate) - Instant(Run(cfg, START, es + fs).pc.plan.now) < NANOS_PER_SECOND
  {
    GateStays(cfg, es, fs, d);
    RunPicksDue(cfg, es + fs);
    RunInv(cfg, es + fs);
  }

  /** So from the closing of a failed execution on, with the gate that was handed to it. */
  lemma BackoffIsHonoured(cfg: Config, es: seq<Event>, id: Id, now: Stamp, gate: Stamp, mids: seq<Id>, ids: seq<Id>,
                          fs: seq<Event>)
    requires CanReceive(cfg, Run(cfg, START, es), id, now, mids, ids)
    requires var x := Run(cfg, START, es).execs[id];
      !Clean(cfg, x.phase.outcome) && x.work.row.attempt < x.info.maxAttempts
    requires Unpicked(cfg, es + [Receive(id, true, now, gate, mids, ids)], fs, id)
    requires var t := Run(cfg, START, es + [Receive(id, true, now, gate, mids, ids)] + fs);
      t.pc.Picked? && t.pc.work.id == id
    ensures var t := Run(cfg, START, es + [Receive(id, true, now, gate, mids, ids)] + fs);
      Instant(gate) - Instant(t.pc.plan.now) < NANOS_PER_SECOND
  {
    ClosedWithGate(cfg, es, id, now, gate, mids, ids);
    hide *;
    RetryWaits(cfg, es + [Receive(id, true, now, gate, mids, ids)], fs, id, gate);
  }

  lemma ClosedWithGate(cfg: Config, es: seq<Event>, id: Id, now: Stamp, gate: Stamp, mids: seq<Id>, ids: seq<Id>)
    requires CanReceive(cfg, Run(cfg, START, es), id, now, mids, ids)
    requires var x := Run(cfg, START, es).execs[id];
      !Clean(cfg, x.phase.outcome) && x.work.row.attempt < x.info.maxAttempts
    ensures var s := Run(cfg, START, es + [Receive(id, true, now, gate, mids, ids)]);
      id in s.db.deliveries && s.db.deliveries[id].state.Failed? && s.db.deliveries[id].notBefore == Some(gate)
  {
    ReceivableRuns(cfg, es, id, now, gate, mids, ids);
    hide *;
    NextState(cfg, es, Receive(id, true, now, gate, mids, ids));
    ResultFindsItsRow(cfg, es, id);
    ResultDecides(cfg, es, id, now, gate, mids, ids);
  }

  lemma ReceivableRuns(cfg: Config, es: seq<Event>, id: Id, now: Stamp, gate: Stamp, mids: seq<Id>, ids: seq<Id>)
    requires CanReceive(cfg, Run(cfg, START, es), id, now, mids, ids)
    ensures Can(cfg, Run(cfg, START, es), Receive(id, true, now, gate, mids, ids)) && id in Run(cfg, START, es).execs
  {
    hide Run;
  }

  lemma NextState(cfg: Config, es: seq<Event>, e: Event)
    requires Can(cfg, Run(cfg, START, es), e)
    ensures Run(cfg, START, es + [e]) == Do(cfg, Run(cfg, START, es), e)
  {
    hide Can;
    hide Do;
    assert (es + [e])[..|es + [e]| - 1] == es;
  }
}
