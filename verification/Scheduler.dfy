/**
 * The scheduler goroutine in place: its counters, its loops and its calls on the store. Every method is proved to
 * take the engine from one reachable state to another by the events of its own group, so all that holds of every
 * run holds of this code; what a whole loop achieves is stated beside it.
 */
module Scheduler {
  import opened Bytes
  import opened Keys
  import opened Stamps
  import opened Workflow
  import opened Tables
  import opened Columns
  import opened Engine
  import opened Integrity
  import opened Ownership
  import opened Database
  import opened Outcomes
  import Backoff
  import Streams
  import Text

  /** s is where the run es leads. */
  ghost predicate Reached(cfg: Config, s: Sys, es: seq<Event>) {
    s == Run(cfg, START, es)
  }

  lemma ReachedInv(cfg: Config, s: Sys, es: seq<Event>)
    requires Reached(cfg, s, es)
    ensures Inv(cfg, s)
  {
    RunInv(cfg, es);
  }

  lemma ReachedPc(cfg: Config, s: Sys, es: seq<Event>)
    requires Reached(cfg, s, es)
    ensures PcOk(cfg, s.db, s.inflight, s.pc)
  {
    ReachedInv(cfg, s, es);
  }

  lemma ReachedExec(cfg: Config, s: Sys, es: seq<Event>, id: Id)
    requires Reached(cfg, s, es) && id in s.execs
    ensures ExecOk(cfg, s.db, id, s.execs[id])
  {
    ReachedInv(cfg, s, es);
    assert ExecOk(cfg, s.db, id, s.execs[id]);
  }

  lemma ReachedNext(cfg: Config, s: Sys, es: seq<Event>, e: Event)
    requires Reached(cfg, s, es) && Can(cfg, s, e)
    ensures Reached(cfg, Do(cfg, s, e), es + [e])
  {
    assert (es + [e])[..|es + [e]| - 1] == es;
  }

  /** The goroutine's variables that dispatch leaves alone. */
  predicate Locals(s: Sys, t: Sys) {
    t.active == s.active && t.nudge == s.nudge && t.timer == s.timer
  }

  /** The events of dispatch and of its counter adjustments. */
  predicate OfDispatch(e: Event) {
    e.Dispatch? || e == Loop(Add)
  }

  ghost predicate Appended(before: seq<Event>, after: seq<Event>) {
    before <= after && forall i | |before| <= i < |after| :: OfDispatch(after[i])
  }

  /** The events of the scheduler and of its workers. */
  predicate OfScheduler(e: Event) {
    e.Dispatch? || e.Loop? || e.Receive? || e.Worker?
  }

  ghost predicate Extended(before: seq<Event>, after: seq<Event>) {
    before <= after && forall i | |before| <= i < |after| :: OfScheduler(after[i])
  }

  lemma ExtendedChain(a: seq<Event>, b: seq<Event>, c: seq<Event>)
    requires Extended(a, b) && Extended(b, c)
    ensures Extended(a, c)
  {
    forall i | |a| <= i < |c| ensures OfScheduler(c[i]) {
      if i < |b| { assert c[i] == b[i]; }
    }
  }

  /** The row is closed as vetting has it: see Judged. */
  predicate VettedFrom(cfg: Config, info: ActionInfo, msg: Message, a: Row, b: Row, now: Stamp) {
    Judged(cfg, info, msg, b.state, b.error) && ResolvedFrom(a, b, b.state, b.error, now)
  }

  lemma VettedIs(cfg: Config, info: ActionInfo, msg: Message, a: Row, b: Row, v: Verdict, now: Stamp)
    requires v.Settle? && Judged(cfg, info, msg, v.state, v.error) && ResolvedFrom(a, b, v.state, v.error, now)
    ensures VettedFrom(cfg, info, msg, a, b, now)
  {
    hide Judged;
  }

  /** Rows of the join that were waiting may be cancelled as superseded by it; every other row is as it was. */
  ghost predicate OnlySuperseded(was: map<Id, Row>, now: map<Id, Row>, info: ActionInfo, at: Stamp) {
    && now.Keys == was.Keys
    && forall d | d in was ::
         || now[d] == was[d]
         || (was[d].action == info.name && Waits(was[d]) &&
             ResolvedFrom(was[d], now[d], Cancelled, Some(Superseded(info.version)), at))
  }

  lemma NoneSuperseded(was: map<Id, Row>, info: ActionInfo, at: Stamp)
    ensures OnlySuperseded(was, was, info, at)
  {
  }

  lemma SupersededChain(a: map<Id, Row>, b: map<Id, Row>, c: map<Id, Row>, info: ActionInfo, at: Stamp)
    requires OnlySuperseded(a, b, info, at) && OnlySuperseded(b, c, info, at)
    ensures OnlySuperseded(a, c, info, at)
  {
  }

  /** The action is at its ceiling, or none of its rows has been due for a whole second or more. */
  ghost predicate Attended(db: Db, inflight: map<Name, int>, n: Name, now: Stamp)
    requires Registered(db.actions, n)
  {
    var def := Current(db.actions, n).def;
    || (!IsJoin(def) && InFlight(inflight, n) >= (if def.concurrency.Some? then def.concurrency.value else 1))
    || forall d | d in db.deliveries && db.deliveries[d].action == n :: !LongDue(db.deliveries[d], now)
  }

  lemma ServedIsAttended(cfg: Config, db: Db, inflight: map<Name, int>, n: Name, now: Stamp)
    requires Sound(db) && Enabled(db.actions, n) && Served(db, inflight, Info(cfg, db.actions, n), now)
    ensures Attended(db, inflight, n, now)
  {
    forall d | d in db.deliveries && db.deliveries[d].action == n && Eligible(db, n, now) == {}
      ensures !LongDue(db.deliveries[d], now)
    {
      RowSound(db, d);
      EligibleIsDue(db, n, now, d);
    }
  }

  lemma AllAttended(cfg: Config, s: Sys, es: seq<Event>, inflight: map<Name, int>, now: Stamp)
    requires Reached(cfg, s, es)
    requires forall i | i in Engine.LoadActions(cfg, s.db.actions) :: Served(s.db, inflight, i, now)
    ensures forall n | Enabled(s.db.actions, n) :: Attended(s.db, inflight, n, now)
  {
    ReachedInv(cfg, s, es);
    hide Served;
    hide Attended;
    hide Info;
    forall n | Enabled(s.db.actions, n) ensures Attended(s.db, inflight, n, now) {
      assert Info(cfg, s.db.actions, n) in Engine.LoadActions(cfg, s.db.actions);
      ServedIsAttended(cfg, s.db, inflight, n, now);
    }
  }

  /** Dispatch only takes rows out of reach and only adds executions. */
  ghost predicate Progress(db: Db, inflight: map<Name, int>, r: Db, after: map<Name, int>, now: Stamp) {
    && (forall n: Name :: Eligible(r, n, now) <= Eligible(db, n, now))
    && (forall n: Name :: InFlight(inflight, n) <= InFlight(after, n))
  }

  /** Nothing more to launch for this action. */
  predicate Served(db: Db, inflight: map<Name, int>, info: ActionInfo, now: Stamp) {
    AtCeiling(inflight, info) || Eligible(db, info.name, now) == {}
  }

  lemma AppendedChain(a: seq<Event>, b: seq<Event>, c: seq<Event>)
    requires Appended(a, b) && Appended(b, c)
    ensures Appended(a, c)
  {
    forall i | |a| <= i < |c| ensures OfDispatch(c[i]) {
      if i < |b| { assert c[i] == b[i]; }
    }
  }

  /** What the loop of `DecodeActions` does with one name. */
  lemma LoadNext(cfg: Config, actions: Actions, names: seq<Name>, i: nat)
    requires i < |names|
    ensures LoadFrom(cfg, actions, names[..i + 1]) ==
            LoadFrom(cfg, actions, names[..i]) +
            if Enabled(actions, names[i]) then [Info(cfg, actions, names[i])] else []
  {
    hide Info;
    var upto := names[..i + 1];
    assert upto[..|upto| - 1] == names[..i] && upto[|upto| - 1] == names[i];
  }

  /** What is loaded of an action: its current version and the limits that version sets, or the defaults. */
  ghost predicate LoadedAs(cfg: Config, versions: seq<Version>, info: ActionInfo) {
    && versions != []
    && var cur := versions[|versions| - 1];
       && cur.enabled && info.version == |versions| && info.def == cur.def
       && info.concurrency == (if cur.def.concurrency.Some? then cur.def.concurrency.value else 1)
       && info.maxAttempts == (if cur.def.maxAttempts.Some? then cur.def.maxAttempts.value else cfg.defaultMaxAttempts)
  }

  lemma LoadedOne(cfg: Config, actions: Actions, info: ActionInfo)
    requires Enabled(actions, info.name) && info == Info(cfg, actions, info.name)
    ensures LoadedAs(cfg, actions[info.name], info)
  {
  }

  lemma LoadedAll(cfg: Config, actions: Actions)
    ensures forall i | i in LoadActions(cfg, actions) :: i.name in actions && LoadedAs(cfg, actions[i.name], i)
  {
    hide Info;
    forall i | i in LoadActions(cfg, actions) ensures i.name in actions && LoadedAs(cfg, actions[i.name], i) {
      LoadedOne(cfg, actions, i);
    }
  }

  lemma InfoNamed(cfg: Config, actions: Actions, n: Name)
    requires Registered(actions, n)
    ensures Info(cfg, actions, n).name == n
  {
  }

  /** Each action once, in order of name. */
  predicate ByName(infos: seq<ActionInfo>) {
    forall i, j | 0 <= i < j < |infos| :: Text.Less(infos[i].name, infos[j].name)
  }

  lemma {:induction false} LoadedInOrder(cfg: Config, actions: Actions, names: seq<Name>)
    requires forall i, j | 0 <= i < j < |names| :: Text.Less(names[i], names[j])
    ensures ByName(LoadFrom(cfg, actions, names))
  {
    if names != [] {
      var n := |names| - 1;
      var before := LoadFrom(cfg, actions, names[..n]);
      LoadedInOrder(cfg, actions, names[..n]);
      if Enabled(actions, names[n]) {
        InfoNamed(cfg, actions, names[n]);
        forall i | i in before ensures Text.Less(i.name, names[n]) {
          var k :| 0 <= k < n && names[..n][k] == i.name;
          assert names[k] == i.name;
        }
        LastByName(before, Info(cfg, actions, names[n]));
      }
    }
  }

  lemma LastByName(before: seq<ActionInfo>, last: ActionInfo)
    requires ByName(before) && forall i | i in before :: Text.Less(i.name, last.name)
    ensures ByName(before + [last])
  {
  }

  lemma EachLoaded(cfg: Config, actions: Actions)
    ensures forall n | n in actions && actions[n] != [] && actions[n][|actions[n]| - 1].enabled ::
      exists i | i in LoadActions(cfg, actions) :: i.name == n
  {
    forall n | n in actions && actions[n] != [] && actions[n][|actions[n]| - 1].enabled
      ensures exists i | i in LoadActions(cfg, actions) :: i.name == n
    {
      assert Enabled(actions, n) && Info(cfg, actions, n) in LoadActions(cfg, actions);
    }
  }

  /** The current version of every enabled action, by name, with its limits. */
  method DecodeActions(cfg: Config, actions: Actions) returns (infos: seq<ActionInfo>)
    ensures infos == LoadActions(cfg, actions)
    ensures forall i | i in infos :: i.name in actions && LoadedAs(cfg, actions[i.name], i)
    ensures forall n | n in actions && actions[n] != [] && actions[n][|actions[n]| - 1].enabled ::
      exists i | i in infos :: i.name == n
    ensures ByName(infos)
  {
    LoadedAll(cfg, actions);
    LoadedInOrder(cfg, actions, Text.Sorted(actions.Keys));
    EachLoaded(cfg, actions);
    hide LoadedAs;
    hide ByName;
    hide Info;
    hide Text.Sorted;
    var names := Text.Sorted(actions.Keys);
    infos := [];
    var i := 0;
    while i < |names|
      invariant 0 <= i <= |names| && infos == LoadFrom(cfg, actions, names[..i])
    {
      LoadNext(cfg, actions, names, i);
      if Enabled(actions, names[i]) {
        infos := infos + [Info(cfg, actions, names[i])];
      }
      i := i + 1;
    }
    assert names[..i] == names;
  }

  /** Which input subscribes to the queue. */
  method FindInput(def: Definition, queue: Queue) returns (r: Option<nat>)
    ensures r == InputIndex(def, queue)
    ensures r.None? <==> !Covers(def, queue)
    ensures r.Some? ==> r.value < |def.inputs| && def.inputs[r.value].queue == queue
    ensures r.Some? ==> forall i | 0 <= i < r.value :: def.inputs[i].queue != queue
  {
    var i := 0;
    while i < |def.inputs|
      invariant 0 <= i <= |def.inputs| && InputIndexFrom(def.inputs, queue, 0) == InputIndexFrom(def.inputs, queue, i)
    {
      if def.inputs[i].queue == queue {
        return Some(i);
      }
      i := i + 1;
    }
    return None;
  }

  /** The pre-execution checks of a non-join: what is admitted, and the state and reason of what is not. */
  method Check(cfg: Config, info: ActionInfo, msg: Message) returns (v: Verdict)
    requires !IsJoin(info.def)
    ensures v == Decision(cfg, info, msg)
    ensures v.Launch? <==> Admitted(cfg, info, msg)
    ensures v.Settle? ==> Judged(cfg, info, msg, v.state, v.error)
  {
    var idx := FindInput(info.def, msg.queue);
    if idx.None? {
      return Settle(Cancelled, Some(Superseded(info.version)));
    }
    if msg.headers.Undecodable? {
      return Settle(Dead, Some(BadHeaders));
    }
    if MessageHops(msg.headers) >= cfg.maxHops {
      return Settle(Dead, Some(HopLimit));
    }
    var outcome := cfg.filter(info.name, info.version, msg);
    if outcome == CompileError {
      return Settle(Dead, Some(BadDefinition));
    }
    if outcome == InputError {
      return Settle(Dead, Some(BadInput));
    }
    if outcome == EvalError {
      return Settle(Dead, Some(FilterError));
    }
    if outcome == Reject {
      return Settle(Filtered, None);
    }
    return Launch;
  }

  lemma ProgressNone(db: Db, inflight: map<Name, int>, now: Stamp)
    ensures Progress(db, inflight, db, inflight, now)
  {
  }

  lemma ProgressChain(a: Db, f: map<Name, int>, b: Db, g: map<Name, int>, c: Db, h: map<Name, int>, now: Stamp)
    requires Progress(a, f, b, g, now) && Progress(b, g, c, h, now)
    ensures Progress(a, f, c, h, now)
  {
    forall n: Name ensures Eligible(c, n, now) <= Eligible(a, n, now) && InFlight(f, n) <= InFlight(h, n) {
      assert Eligible(b, n, now) <= Eligible(a, n, now) && InFlight(f, n) <= InFlight(g, n);
    }
  }

  lemma ServedKept(db: Db, inflight: map<Name, int>, r: Db, after: map<Name, int>, info: ActionInfo, now: Stamp)
    requires Served(db, inflight, info, now) && Progress(db, inflight, r, after, now)
    ensures Served(r, after, info, now)
  {
    assert InFlight(inflight, info.name) <= InFlight(after, info.name);
    assert Eligible(r, info.name, now) <= Eligible(db, info.name, now);
  }

  /** Taking a waiting row out. */
  lemma RowTaken(db: Db, id: Id, row: Row, name: Name, now: Stamp)
    requires id in db.deliveries && Waiting(db.deliveries[id].state) && db.deliveries[id].action == name
    requires !Waiting(row.state)
    ensures var r := db.(deliveries := db.deliveries[id := row]);
      && (forall n: Name :: Eligible(r, n, now) <= Eligible(db, n, now))
      && |WaitingOf(r, name)| < |WaitingOf(db, name)|
  {
    var r := db.(deliveries := db.deliveries[id := row]);
    assert WaitingOf(r, name) == WaitingOf(db, name) - {id};
    assert id in WaitingOf(db, name);
  }

  /** A decision to settle finds its row and takes it out. */
  lemma SettleStep(cfg: Config, s: Sys, state: State, error: Option<Reason>, ok: bool)
    requires PcOk(cfg, s.db, s.inflight, s.pc) && CanDispatch(s, Decide(ok))
    requires Decision(cfg, s.pc.plan.infos[s.pc.k], s.pc.work.msg) == Settle(state, error)
    ensures var w, plan, info := s.pc.work, s.pc.plan, s.pc.plan.infos[s.pc.k];
      var r, t := Resolve(s.db, w.id, state, error, plan.now), DoDecide(cfg, s, ok);
      && r.Some? && t.db == (if ok then r.value else s.db) && Locals(s, t) && t.inflight == s.inflight
      && t.pc == (if ok then Adding(-1, false, Scan(plan, s.pc.k))
                  else Scan(plan, if IsJoin(info.def) then s.pc.k + 1 else s.pc.k))
      && Progress(s.db, s.inflight, r.value, s.inflight, plan.now)
      && |WaitingOf(r.value, info.name)| < |WaitingOf(s.db, info.name)|
  {
    var w := s.pc.work;
    SettlesTerminal(cfg, s.pc.plan.infos[s.pc.k], w.msg);
    var r := Resolve(s.db, w.id, state, error, s.pc.plan.now).value;
    RowTaken(s.db, w.id, r.deliveries[w.id], s.pc.plan.infos[s.pc.k].name, s.pc.plan.now);
  }

  /** A decision to launch finds its row and takes it out. */
  lemma LaunchStep(cfg: Config, s: Sys, ok: bool)
    requires PcOk(cfg, s.db, s.inflight, s.pc) && CanDispatch(s, Decide(ok))
    requires Decision(cfg, s.pc.plan.infos[s.pc.k], s.pc.work.msg).Launch?
    ensures var w, plan, info := s.pc.work, s.pc.plan, s.pc.plan.infos[s.pc.k];
      var r, t := Claim(s.db, w.id, info.version, plan.now), DoDecide(cfg, s, ok);
      var more := s.inflight[info.name := InFlight(s.inflight, info.name) + 1];
      && r.Some? && t.db == (if ok then r.value else s.db) && Locals(s, t)
      && t.inflight == (if ok then more else s.inflight) && t.pc == Scan(plan, if ok then s.pc.k else s.pc.k + 1)
      && Progress(s.db, s.inflight, r.value, more, plan.now)
      && |WaitingOf(r.value, info.name)| < |WaitingOf(s.db, info.name)|
  {
    var w, info := s.pc.work, s.pc.plan.infos[s.pc.k];
    var r := Claim(s.db, w.id, info.version, s.pc.plan.now).value;
    RowTaken(s.db, w.id, r.deliveries[w.id], info.name, s.pc.plan.now);
  }

  // Results.

  /** One execution fewer. */
  function Freed(inflight: map<Name, int>, name: Name): map<Name, int> {
    inflight[name := InFlight(inflight, name) - 1]
  }

  /** What applying a result does to the goroutine's variables, given what the write left. */
  ghost predicate AppliedTo(s: Sys, id: Id, t: Sys, db: Db, pc: Pc)
    requires id in s.execs
  {
    && t.db == db && t.pc == pc && Locals(s, t)
    && t.inflight == Freed(s.inflight, s.execs[id].info.name) && t.execs == s.execs - {id}
  }

  lemma LoseApplies(s: Sys, id: Id)
    requires id in s.execs
    ensures AppliedTo(s, id, DoLose(s, id), s.db, Back(s.pc))
  {
  }

  lemma EmitApplies(s: Sys, db: Db, id: Id, emission: Emission, outs: seq<Outgoing>, ids: seq<Id>)
    requires id in s.execs && DistinctIds(outs)
    ensures AppliedTo(s, id, DoEmit(s, db, id, emission, outs, ids), db, Adding(|ids| - 1, true, Back(s.pc)))
  {
  }

  lemma FailApplies(s: Sys, db: Db, id: Id, dead: bool)
    requires id in s.execs
    ensures AppliedTo(s, id, DoFail(s, db, id, dead), db,
                      if dead then Adding(-1, true, Back(s.pc)) else Poking(Back(s.pc)))
  {
  }

  /** A result ready to be applied as a success, and the tables that leaves. */
  ghost predicate Emitting(cfg: Config, s: Sys, id: Id, x: Exec, outs: seq<Outgoing>, now: Stamp, mids: seq<Id>,
                           ids: seq<Id>, r: Db) {
    && CanReceive(cfg, s, id, now, mids, ids) && x == s.execs[id] && x.phase.Finished?
      && Emits(cfg, x.info, x.phase.outcome).Some?
      && outs == BuildOutputs(x, Emits(cfg, x.info, x.phase.outcome).value, mids, now)
      && Insertable(s.db, outs, ids) && Complete(s.db, id, x.phase.outcome.stderr, outs, ids, now) == Some(r)
  }

  /** The same for a failure. */
  ghost predicate Losing(cfg: Config, s: Sys, id: Id, x: Exec, gate: Stamp, now: Stamp, mids: seq<Id>, ids: seq<Id>,
                         r: Db) {
    && CanReceive(cfg, s, id, now, mids, ids) && x == s.execs[id] && x.phase.Finished?
      && Emits(cfg, x.info, x.phase.outcome).None?
      && Fail(s.db, id, x.work.row.attempt >= x.info.maxAttempts, gate,
              if x.phase.outcome.failed then Execution else BadStdout, x.phase.outcome.stderr, now) == Some(r)
  }

  lemma EmitStep(cfg: Config, s: Sys, id: Id, x: Exec, outs: seq<Outgoing>, ok: bool, now: Stamp, gate: Stamp,
                 mids: seq<Id>, ids: seq<Id>, r: Db)
    requires id in s.execs && Emitting(cfg, s, id, x, outs, now, mids, ids, r)
    ensures CanReceive(cfg, s, id, now, mids, ids)
    ensures AppliedTo(s, id, DoReceive(cfg, s, id, ok, now, gate, mids, ids), if ok then r else s.db,
                      if ok then Adding(|ids| - 1, true, Back(s.pc)) else Back(s.pc))
  {
    if ok {
      EmitApplies(s, r, id, Emission(x.phase.outcome.stdout, mids), outs, ids);
    } else {
      LoseApplies(s, id);
    }
  }

  lemma FailStep(cfg: Config, s: Sys, id: Id, x: Exec, ok: bool, now: Stamp, gate: Stamp, mids: seq<Id>,
                 ids: seq<Id>, r: Db)
    requires id in s.execs && Losing(cfg, s, id, x, gate, now, mids, ids, r)
    ensures CanReceive(cfg, s, id, now, mids, ids)
    ensures var dead := x.work.row.attempt >= x.info.maxAttempts;
      AppliedTo(s, id, DoReceive(cfg, s, id, ok, now, gate, mids, ids), if ok then r else s.db,
        if !ok then Back(s.pc) else if dead then Adding(-1, true, Back(s.pc)) else Poking(Back(s.pc)))
  {
    if ok {
      FailApplies(s, r, id, x.work.row.attempt >= x.info.maxAttempts);
    } else {
      LoseApplies(s, id);
    }
  }

  /** The payloads a result emits: none when it failed or its output is not all JSON. */
  method Payloads(cfg: Config, info: ActionInfo, o: Outcome) returns (r: Option<seq<Data>>)
    ensures r == Emits(cfg, info, o)
    ensures r.Some? <==> Clean(cfg, o)
    ensures r.Some? ==> r.value == if info.def.output == "" then [] else Streams.Payloads(Streams.Split(o.stdout))
  {
    EmitsIfClean(cfg, info, o);
    hide Clean;
    if o.failed {
      return None;
    }
    var parsed := Streams.ParseNDJSON(cfg.valid, o.stdout);
    if parsed.BadLine? {
      return None;
    }
    if info.def.output != "" {
      return Some(parsed.payloads);
    }
    return Some([]);
  }

  /** Lines become messages: trace inherited, hops incremented, origin recorded. */
  method Outputs(x: Exec, payloads: seq<Data>, mids: seq<Id>, now: Stamp) returns (outs: seq<Outgoing>)
    requires |mids| == |payloads|
    ensures outs == BuildOutputs(x, payloads, mids, now)
    ensures |outs| == |payloads| && forall i | 0 <= i < |outs| ::
      outs[i] == Outgoing(mids[i], Message(x.info.def.output, payloads[i], Hops(MessageHops(x.work.msg.headers) + 1),
                                           x.work.msg.trace,
                                           Some(Origin(x.info.name, x.info.version, x.work.row.msg)), now))
  {
    var hops := MessageHops(x.work.msg.headers);
    outs := [];
    var i := 0;
    while i < |payloads|
      invariant 0 <= i <= |payloads| && |outs| == i
      invariant forall j | 0 <= j < i :: outs[j] == Outgoing(mids[j], OutputMessage(x, payloads[j], now))
    {
      var msg := Message(x.info.def.output, payloads[i], Hops(hops + 1), x.work.msg.trace,
                         Some(Origin(x.info.name, x.info.version, x.work.row.msg)), now);
      outs := outs + [Outgoing(mids[i], msg)];
      i := i + 1;
    }
  }

  /** An apply is one Receive and then only its counter adjustment and its nudge. */
  predicate AppliedLog(before: seq<Event>, e: Event, after: seq<Event>) {
    after == before + [e] || after == before + [e] + [Loop(Poke)] || after == before + [e] + [Loop(Add)] + [Loop(Poke)]
  }

  /** The timer for a gate: how long from now, and never negative. */
  function Armed(gate: Option<Stamp>, now: Stamp): Timer {
    if gate.None? then Idle
    else Set(now, if Instant(gate.value) < Instant(now) then 0 else Instant(gate.value) - Instant(now))
  }

  /** How the number of active rows changes with a result: one done, with new rows; one dead; or one to retry. */
  function Change(cfg: Config, x: Exec, ids: seq<Id>): int
    requires x.phase.Finished?
  {
    if Clean(cfg, x.phase.outcome) then |ids| - 1 else if x.work.row.attempt >= x.info.maxAttempts then -1 else 0
  }

  /** 0.8 + 0.4 * rand. */
  type Jitter = j: real | 0.8 <= j < 1.2 witness 1.0

  /** When a failed attempt is due again: the jittered backoff after now. */
  function GateAfter(cfg: Config, attempt: nat, now: Stamp, jitter: Jitter): Stamp
    requires attempt >= 1 && cfg.backoffCap > 0
  {
    After(now, Backoff.Delay(cfg.backoffBase, cfg.backoffCap, attempt, jitter))
  }

  /** That gate lies as far ahead as documented, within a fifth, if the settings pass the test for the backoff. */
  lemma GateIsBackoff(cfg: Config, attempt: nat, now: Stamp, jitter: Jitter)
    requires attempt >= 1 && 0 < cfg.backoffBase < Backoff.LIMIT && 0 < cfg.backoffCap < Backoff.LIMIT
    requires forall n: nat | n < 64 :: Backoff.Harmless(cfg.backoffBase, cfg.backoffCap, n)
    requires Instant(now) + 2 * cfg.backoffCap < Instant(END)
    ensures var wait := Instant(GateAfter(cfg, attempt, now, jitter)) - Instant(now);
      var nominal := Backoff.Documented(cfg.backoffBase, cfg.backoffCap, attempt);
      4 * nominal - 5 < 5 * wait <= 6 * nominal
  {
    hide Instant;
    hide After;
    hide Backoff.Harmless;
    Backoff.DelayWithinAFifth(cfg.backoffBase, cfg.backoffCap, attempt, jitter);
    Backoff.DocumentedIsCapped(cfg.backoffBase, cfg.backoffCap, attempt);
    hide Backoff.Delay;
    hide Backoff.Documented;
    AfterIsLater(now, Backoff.Delay(cfg.backoffBase, cfg.backoffCap, attempt, jitter));
  }

  /** The delay runs to the gate with the least text among the failed rows, and not at all if that has passed. */
  ghost predicate WaitsForFirst(rows: map<Id, Row>, delay: int, now: Stamp) {
    exists d | d in rows && Gated(rows[d]) ::
      && (forall e | e in rows && Gated(rows[e]) ::
            Text.Leq(Stamps.Format(rows[d].notBefore.value), Stamps.Format(rows[e].notBefore.value)))
      && var wait := Instant(rows[d].notBefore.value) - Instant(now);
         delay == if wait < 0 then 0 else wait
  }

  lemma FirstIs(rows: map<Id, Row>, gate: Stamp, now: Stamp)
    requires exists d | d in rows :: rows[d].state.Failed? && rows[d].notBefore == Some(gate)
    requires forall e | e in rows && Gated(rows[e]) ::
      Text.Leq(Stamps.Format(gate), Stamps.Format(rows[e].notBefore.value))
    ensures exists d | d in rows :: Gated(rows[d])
    ensures var wait := Instant(gate) - Instant(now); WaitsForFirst(rows, if wait < 0 then 0 else wait, now)
  {
    hide Stamps.Format;
    hide Instant;
    var d :| d in rows && rows[d].state.Failed? && rows[d].notBefore == Some(gate);
    assert Gated(rows[d]);
  }

  // Draining.

  /**
   * An execution that is still on the books, and what it has reported or will report; with the clock reading, the
   * jitter and the ids that applying the result will use.
   */
  datatype Arrival =
    Arrival(id: Id, x: Exec, outcome: Outcome, now: Stamp, jitter: Jitter, mids: seq<Id>, ids: seq<Id>)

  /** The execution once its result is in. */
  function Reported(a: Arrival): Exec {
    a.x.(phase := Finished(a.outcome))
  }

  /** What a worker may report: what it has reported, or anything within the cap. */
  predicate MayReport(cfg: Config, a: Arrival) {
    if a.x.phase.Finished? then a.outcome == a.x.phase.outcome
    else !a.outcome.failed ==> |a.outcome.stdout| <= cfg.stdoutCap
  }

  /** The ids are new beside those in ms, ds and up to last, and there are as many as the outputs call for. */
  ghost predicate Fits(cfg: Config, actions: Actions, a: Arrival, ms: set<Id>, ds: set<Id>, last: Id) {
    && MayReport(cfg, a) && Later(last, a.ids) && Elements(a.ids) !! ds && Elements(a.mids) !! ms && Increasing(a.mids)
    && var emits := Emits(cfg, a.x.info, a.outcome);
       emits.Some? ==> |a.mids| == |emits.value| &&
                       |a.ids| == |Fan(actions, BuildOutputs(Reported(a), emits.value, a.mids, a.now))|
  }

  /** The same execution with its result in. */
  function In(a: Arrival): Arrival {
    a.(x := Reported(a))
  }

  lemma InFits(cfg: Config, actions: Actions, a: Arrival, ms: set<Id>, ds: set<Id>, last: Id)
    requires Fits(cfg, actions, a, ms, ds, last)
    ensures Fits(cfg, actions, In(a), ms, ds, last) && In(a).x.phase.Finished? && Reported(In(a)) == In(a).x
  {
    assert Reported(In(a)) == Reported(a);
  }

  /** Results that can be applied one after the other. */
  ghost predicate Arriving(cfg: Config, actions: Actions, rest: seq<Arrival>, ms: set<Id>, ds: set<Id>, last: Id) {
    rest != [] ==>
      && Fits(cfg, actions, rest[0], ms, ds, last)
      && Arriving(cfg, actions, rest[1..], ms + Elements(rest[0].mids), ds + Elements(rest[0].ids),
                  LastOf(last, rest[0].ids))
  }

  /** The results still to come are those of the executions still running. */
  ghost predicate Awaits(s: Sys, rest: seq<Arrival>, ms: set<Id>, ds: set<Id>, last: Id) {
    && s.pc.Draining? && s.db.messages.Keys <= ms && s.db.deliveries.Keys <= ds && s.lastId <= last
    && |s.execs| == |rest| && (forall i, j | 0 <= i < j < |rest| :: rest[i].id != rest[j].id)
    && forall i | 0 <= i < |rest| :: rest[i].id in s.execs && s.execs[rest[i].id] == rest[i].x
  }

  lemma FreshOutputs(messages: map<Id, Message>, a: Arrival, payloads: seq<Data>, ms: set<Id>)
    requires messages.Keys <= ms && Elements(a.mids) !! ms && Increasing(a.mids) && |a.mids| == |payloads|
    ensures var outs := BuildOutputs(a.x, payloads, a.mids, a.now);
      DistinctIds(outs) && forall i | 0 <= i < |outs| :: outs[i].id !in messages
  {
    var outs := BuildOutputs(a.x, payloads, a.mids, a.now);
    forall i | 0 <= i < |outs| ensures outs[i].id !in messages {
      assert outs[i].id == a.mids[i] && a.mids[i] in Elements(a.mids);
    }
  }

  lemma FreshRows(deliveries: map<Id, Row>, ids: seq<Id>, ds: set<Id>)
    requires deliveries.Keys <= ds && Elements(ids) !! ds
    ensures forall k | 0 <= k < |ids| :: ids[k] !in deliveries
  {
    forall k | 0 <= k < |ids| ensures ids[k] !in deliveries {
      assert ids[k] in Elements(ids);
    }
  }

  lemma FirstFits(cfg: Config, s: Sys, a: Arrival, ms: set<Id>, ds: set<Id>, last: Id)
    requires a.x.phase.Finished? && Reported(a) == a.x
    requires Fits(cfg, s.db.actions, a, ms, ds, last) && s.pc.Draining? && a.id in s.execs && s.execs[a.id] == a.x
    requires s.db.messages.Keys <= ms && s.db.deliveries.Keys <= ds && s.lastId <= last
    ensures CanReceive(cfg, s, a.id, a.now, a.mids, a.ids)
  {
    hide Tables.Fan;
    hide Streams.Parse;
    var emits := Emits(cfg, a.x.info, a.x.phase.outcome);
    if emits.Some? {
      FreshOutputs(s.db.messages, a, emits.value, ms);
      FreshRows(s.db.deliveries, a.ids, ds);
    }
  }

  lemma FirstAwaited(cfg: Config, s: Sys, rest: seq<Arrival>, ms: set<Id>, ds: set<Id>, last: Id)
    requires rest != [] && Awaits(s, rest, ms, ds, last) && Fits(cfg, s.db.actions, rest[0], ms, ds, last)
    requires rest[0].x.phase.Finished? && Reported(rest[0]) == rest[0].x
    ensures var a := rest[0];
      && a.id in s.execs && s.execs[a.id] == a.x && CanReceive(cfg, s, a.id, a.now, a.mids, a.ids)
      && Later(last, a.ids) && s.pc.Draining?
  {
    FirstFits(cfg, s, rest[0], ms, ds, last);
  }

  lemma AppliedExtends(before: seq<Event>, e: Event, after: seq<Event>)
    requires AppliedLog(before, e, after) && e.Receive?
    ensures Extended(before, after)
  {
  }

  /** What applying a result can add, and what it takes off the books. */
  ghost predicate Consumed(s: Sys, a: Arrival, t: Sys) {
    && t.db.messages.Keys <= s.db.messages.Keys + Elements(a.mids)
    && t.db.deliveries.Keys <= s.db.deliveries.Keys + Elements(a.ids)
    && (t.lastId == s.lastId || t.lastId == LastOf(s.lastId, a.ids))
    && t.execs == s.execs - {a.id} && t.db.actions == s.db.actions
  }

  lemma EmitConsumes(s: Sys, db: Db, a: Arrival, emission: Emission, outs: seq<Outgoing>)
    requires a.id in s.execs && DistinctIds(outs) && db.actions == s.db.actions
    requires db.messages.Keys <= s.db.messages.Keys + Elements(a.mids)
    requires db.deliveries.Keys <= s.db.deliveries.Keys + Elements(a.ids)
    ensures Consumed(s, a, DoEmit(s, db, a.id, emission, outs, a.ids))
    ensures DoEmit(s, db, a.id, emission, outs, a.ids).h.stuck == s.h.stuck
  {
  }

  lemma CompleteKeys(db: Db, a: Arrival, payloads: seq<Data>, stderr: Data)
    requires |a.mids| == |payloads| && Insertable(db, BuildOutputs(a.x, payloads, a.mids, a.now), a.ids)
    requires a.id in db.deliveries && db.deliveries[a.id].state.Claimed?
    ensures var r := Complete(db, a.id, stderr, BuildOutputs(a.x, payloads, a.mids, a.now), a.ids, a.now).value;
      && r.actions == db.actions && r.messages.Keys <= db.messages.Keys + Elements(a.mids)
      && r.deliveries.Keys <= db.deliveries.Keys + Elements(a.ids)
  {
    var outs := BuildOutputs(a.x, payloads, a.mids, a.now);
    forall m | Among(outs, m) ensures m in Elements(a.mids) {
      var i :| 0 <= i < |outs| && outs[i].id == m;
      assert a.mids[i] == m;
    }
  }

  lemma FailConsumes(s: Sys, db: Db, a: Arrival, dead: bool)
    requires a.id in s.execs && db.actions == s.db.actions && db.messages == s.db.messages
    requires db.deliveries.Keys == s.db.deliveries.Keys
    ensures Consumed(s, a, DoFail(s, db, a.id, dead)) && DoFail(s, db, a.id, dead).h.stuck == s.h.stuck
    ensures Consumed(s, a, DoLose(s, a.id))
  {
  }

  lemma ReceiveConsumes(cfg: Config, s: Sys, a: Arrival, gate: Stamp, ok: bool)
    requires Inv(cfg, s) && CanReceive(cfg, s, a.id, a.now, a.mids, a.ids) && s.execs[a.id] == a.x
    ensures var t := DoReceive(cfg, s, a.id, ok, a.now, gate, a.mids, a.ids);
      Consumed(s, a, t) && (ok ==> t.h.stuck == s.h.stuck)
  {
    hide Streams.Parse;
    assert ExecOk(cfg, s.db, a.id, a.x);
    var o := a.x.phase.outcome;
    var emits := Emits(cfg, a.x.info, o);
    FailConsumes(s, s.db, a, false);
    if !ok {
    } else if emits.Some? {
      var outs := BuildOutputs(a.x, emits.value, a.mids, a.now);
      CompleteKeys(s.db, a, emits.value, o.stderr);
      var r := Complete(s.db, a.id, o.stderr, outs, a.ids, a.now).value;
      EmitConsumes(s, r, a, Emission(o.stdout, a.mids), outs);
    } else {
      var dead := a.x.work.row.attempt >= a.x.info.maxAttempts;
      var r := Fail(s.db, a.id, dead, gate, if o.failed then Execution else BadStdout, o.stderr, a.now).value;
      FailConsumes(s, r, a, dead);
    }
  }

  /** The adjustment and the nudge after it change none of that. */
  lemma TailConsumes(cfg: Config, s: Sys, a: Arrival, m: Sys, l: LoopEvent)
    requires Consumed(s, a, m) && (l == Add || l == Poke)
    ensures Consumed(s, a, Step(cfg, m, Loop(l))) && Step(cfg, m, Loop(l)).h == m.h
  {
  }

  lemma AppliedConsumes(cfg: Config, s: Sys, es: seq<Event>, a: Arrival, gate: Stamp, ok: bool, t: Sys,
                        after: seq<Event>)
    requires Reached(cfg, s, es) && Reached(cfg, t, after)
    requires CanReceive(cfg, s, a.id, a.now, a.mids, a.ids) && s.execs[a.id] == a.x
    requires AppliedLog(es, Receive(a.id, ok, a.now, gate, a.mids, a.ids), after)
    ensures Consumed(s, a, t) && (ok ==> t.h.stuck == s.h.stuck)
  {
    var e := Receive(a.id, ok, a.now, gate, a.mids, a.ids);
    ReachedInv(cfg, s, es);
    ReceiveConsumes(cfg, s, a, gate, ok);
    var m := Do(cfg, s, e);
    ReachedNext(cfg, s, es, e);
    var one := es + [e];
    LastStep(cfg, one, Loop(Poke));
    LastStep(cfg, one, Loop(Add));
    LastStep(cfg, one + [Loop(Add)], Loop(Poke));
    TailConsumes(cfg, s, a, m, Poke);
    TailConsumes(cfg, s, a, m, Add);
    TailConsumes(cfg, s, a, Step(cfg, m, Loop(Add)), Poke);
  }

  /** A running execution is on its first attempt or a later one. */
  lemma AttemptCounts(cfg: Config, s: Sys, es: seq<Event>, id: Id)
    requires Reached(cfg, s, es) && id in s.execs
    ensures s.execs[id].work.row.attempt >= 1
  {
    ReachedInv(cfg, s, es);
    assert ExecOk(cfg, s.db, id, s.execs[id]);
    RowSound(s.db, id);
  }

  /** What applying a result does to the tables. */
  lemma AppliedCloses(cfg: Config, s: Sys, es: seq<Event>, id: Id, now: Stamp, gate: Stamp, mids: seq<Id>,
                      ids: seq<Id>, ok: bool, t: Sys, after: seq<Event>)
    requires Reached(cfg, s, es) && Reached(cfg, t, after) && CanReceive(cfg, s, id, now, mids, ids)
    requires AppliedLog(es, Receive(id, ok, now, gate, mids, ids), after)
    ensures id in s.db.deliveries && id in t.db.deliveries
    ensures ok ==> var x := s.execs[id];
      && ClosedBy(cfg, x, x.phase.outcome, gate, now, s.db.deliveries[id], t.db.deliveries[id])
      && OthersKept(s.db.deliveries, t.db.deliveries, id)
      && (!Clean(cfg, x.phase.outcome) ==> t.db.messages == s.db.messages)
    ensures !ok ==> t.db == s.db
  {
    var e := Receive(id, ok, now, gate, mids, ids);
    ReachedInv(cfg, s, es);
    assert ExecOk(cfg, s.db, id, s.execs[id]);
    ReachedNext(cfg, s, es, e);
    var one := es + [e];
    LastStep(cfg, one, Loop(Poke));
    LastStep(cfg, one, Loop(Add));
    LastStep(cfg, one + [Loop(Add)], Loop(Poke));
    TailsKeepTables(cfg, Do(cfg, s, e));
    if ok {
      ReceiveCloses(cfg, s, id, now, gate, mids, ids);
    } else {
      assert DoReceive(cfg, s, id, ok, now, gate, mids, ids) == DoLose(s, id);
    }
  }

  lemma TailsKeepTables(cfg: Config, m: Sys)
    ensures Step(cfg, m, Loop(Poke)).db == m.db && Step(cfg, m, Loop(Add)).db == m.db
    ensures Step(cfg, Step(cfg, m, Loop(Add)), Loop(Poke)).db == m.db
  {
  }

  lemma LastStep(cfg: Config, es: seq<Event>, e: Event)
    ensures Run(cfg, START, es + [e]) == Step(cfg, Run(cfg, START, es), e)
  {
    assert (es + [e])[..|es + [e]| - 1] == es;
  }

  /** A worker reports. */
  lemma ReportAwaits(s: Sys, rest: seq<Arrival>, ms: set<Id>, ds: set<Id>, last: Id)
    requires rest != [] && Awaits(s, rest, ms, ds, last)
    ensures Awaits(s.(execs := s.execs[rest[0].id := Reported(rest[0])]), [In(rest[0])] + rest[1..], ms, ds, last)
  {
    var a, after := rest[0], [In(rest[0])] + rest[1..];
    var execs := s.execs[a.id := Reported(a)];
    assert execs.Keys == s.execs.Keys;
    assert |execs| == |execs.Keys| && |s.execs| == |s.execs.Keys|;
    forall i | 0 <= i < |after| ensures after[i].id in execs && execs[after[i].id] == after[i].x {
      if i > 0 {
        assert after[i] == rest[i];
      }
    }
  }

  /** One result fewer to come. */
  lemma AwaitsFewer(cfg: Config, s: Sys, rest: seq<Arrival>, ms: set<Id>, ds: set<Id>, last: Id, t: Sys)
    requires rest != [] && Awaits(s, rest, ms, ds, last) && Later(last, rest[0].ids)
    requires Consumed(s, rest[0], t) && t.pc.Draining?
    ensures var a := rest[0];
      Awaits(t, rest[1..], ms + Elements(a.mids), ds + Elements(a.ids), LastOf(last, a.ids))
  {
    var a := rest[0];
    OneExecFewer(s.execs, a.id);
    LastGrows(s.lastId, last, a.ids);
    forall i | 0 <= i < |rest| - 1 ensures rest[1..][i].id in t.execs && t.execs[rest[1..][i].id] == rest[1..][i].x {
      assert rest[1..][i] == rest[i + 1] && rest[i + 1].id != rest[0].id;
    }
  }

  lemma OneExecFewer(execs: map<Id, Exec>, id: Id)
    requires id in execs
    ensures |execs - {id}| == |execs| - 1
  {
    assert (execs - {id}).Keys == execs.Keys - {id};
    assert |execs - {id}| == |(execs - {id}).Keys| && |execs| == |execs.Keys|;
  }

  lemma LastGrows(now: Id, last: Id, ids: seq<Id>)
    requires now <= last && Later(last, ids)
    ensures last <= LastOf(last, ids) && LastOf(now, ids) <= LastOf(last, ids)
  {
    if ids != [] {
      assert ids[0] <= ids[|ids| - 1];
    }
  }

  /** The counts are the executions, so together they are zero exactly when nothing runs. */
  lemma NothingRuns(inflight: map<Name, int>, execs: map<Id, Exec>)
    requires InflightOk(inflight, execs)
    ensures forall n | n in inflight :: inflight[n] >= 0
    ensures (forall n | n in inflight :: inflight[n] == 0) <==> execs == map[]
  {
    forall n | n in inflight ensures inflight[n] == |Of(execs, n)| {
      assert InFlight(inflight, n) == |Of(execs, n)|;
    }
    if execs != map[] {
      var id :| id in execs;
      var n := execs[id].info.name;
      assert InFlight(inflight, n) == |Of(execs, n)| && id in Of(execs, n);
    }
  }

  lemma Drained(cfg: Config, s: Sys, es: seq<Event>)
    requires Reached(cfg, s, es) && s.pc.Draining? && s.execs == map[]
    ensures ClaimedIds(s.db) == s.h.stuck
  {
    ReachedInv(cfg, s, es);
  }

  method Total(counts: map<Name, int>) returns (n: int)
    requires forall k | k in counts :: counts[k] >= 0
    ensures n >= 0 && (n == 0 <==> forall k | k in counts :: counts[k] == 0)
  {
    n := 0;
    var todo := counts.Keys;
    while todo != {}
      invariant todo <= counts.Keys && n >= 0
      invariant n == 0 <==> forall k | k in counts.Keys - todo :: counts[k] == 0
      decreases |todo|
    {
      var k :| k in todo;
      n := n + counts[k];
      assert counts.Keys - (todo - {k}) == (counts.Keys - todo) + {k};
      todo := todo - {k};
    }
    assert counts.Keys - todo == counts.Keys;
  }

  class Scheduler {
    const cfg: Config
    const st: Store
    var active: int
    var inflight: map<Name, int>
    var nudge: bool
    var timer: Timer
    ghost var sys: Sys          // the whole engine: this goroutine, its workers, the handlers and the tables
    ghost var log: seq<Event>   // the run so far

    ghost predicate Valid()
      reads this, st
    {
      && Reached(cfg, sys, log)
      && sys.db == Db(st.messages, st.actions, st.deliveries) && sys.active == active && sys.inflight == inflight
      && sys.nudge == nudge && sys.timer == timer && cfg.backoffBase > 0 && cfg.backoffCap > 0
    }

    /** Built once the reaper is done; the zero-valued settings get their defaults. */
    constructor (cfg: Config, st: Store, ghost sys: Sys, ghost log: seq<Event>)
      requires Reached(WithDefaults(cfg), sys, log) && sys.pc.Seeding? && sys.db == st.Contents()
      requires sys.active == 0 && sys.inflight == map[] && !sys.nudge && sys.timer == Idle
      ensures Valid() && this.st == st && this.cfg == WithDefaults(cfg) && this.sys == sys && this.log == log
    {
      this.cfg, this.st := WithDefaults(cfg), st;
      active, inflight, nudge, timer := 0, map[], false, Idle;
      this.sys, this.log := sys, log;
    }

    ghost method Record(e: Event)
      requires Reached(cfg, sys, log) && Can(cfg, sys, e)
      modifies this`sys, this`log
      ensures Reached(cfg, sys, log) && sys == Do(cfg, old(sys), e) && log == old(log) + [e]
    {
      ReachedNext(cfg, sys, log, e);
      sys, log := Do(cfg, sys, e), log + [e];
    }

    ghost method RecordDispatch(p: DispatchEvent)
      requires Reached(cfg, sys, log) && CanDispatch(sys, p)
      modifies this`sys, this`log
      ensures Reached(cfg, sys, log) && sys == DoDispatch(cfg, old(sys), p) && log == old(log) + [Dispatch(p)]
    {
      Record(Dispatch(p));
    }

    /** The next delivery of the k-th action, if there is one and it can be read. */
    method PickNext(infos: seq<ActionInfo>, k: nat, now: Stamp) returns (w: Option<Work>)
      requires Valid() && sys.pc == Scan(Plan(infos, now), k) && k < |infos| && !AtCeiling(inflight, infos[k])
      modifies this`sys, this`log, st`outages
      ensures Valid() && log == old(log) + [Dispatch(Pick(!Failing(old(st.outages))))]
      ensures st.outages == Rest(old(st.outages))
      ensures sys == DoPick(old(sys), !Failing(old(st.outages)))
      ensures w.None? <==> sys.pc == Scan(Plan(infos, now), k + 1)
      ensures w.Some? ==> sys.pc == Picked(Plan(infos, now), k, w.value)
      ensures w.None? && !Failing(old(st.outages)) ==> Eligible(sys.db, infos[k].name, now) == {}
      ensures w.Some? ==> w.value.id in st.deliveries && w.value.row == st.deliveries[w.value.id]
      ensures w.Some? ==> w.value.row.action == infos[k].name && NearlyDue(w.value.row, now)
      ensures w.Some? ==> w.value.row.msg in st.messages && w.value.msg == st.messages[w.value.row.msg]
    {
      hide LongDue;
      hide NearlyDue;
      hide Reached;
      var ok, id := st.NextEligible(infos[k].name, now);
      OneOldest(st.Contents(), infos[k].name, now, ok, id);
      w := None;
      if id.Some? {
        var row := st.deliveries[id.value];
        w := Some(Work(id.value, row, st.messages[row.msg]));
      }
      RecordDispatch(Pick(ok));
    }

    ghost method RecordSettled(infos: seq<ActionInfo>, k: nat, now: Stamp, w: Work, state: State,
                               error: Option<Reason>, ok: bool)
      requires Reached(cfg, sys, log) && sys.pc == Picked(Plan(infos, now), k, w) && k < |infos|
      requires Decision(cfg, infos[k], w.msg) == Verdict.Settle(state, error)
      modifies this`sys, this`log
      ensures Reached(cfg, sys, log) && log == old(log) + [Dispatch(Decide(ok))]
      ensures var r := Tables.Resolve(old(sys.db), w.id, state, error, now);
        && r.Some?
        && sys.db == (if ok then r.value else old(sys.db))
        && sys.pc == (if ok then Adding(-1, false, Scan(Plan(infos, now), k))
                      else Scan(Plan(infos, now), if IsJoin(infos[k].def) then k + 1 else k))
        && Locals(old(sys), sys) && sys.inflight == old(sys.inflight)
        && Progress(old(sys.db), old(sys.inflight), r.value, old(sys.inflight), now)
        && |WaitingOf(r.value, infos[k].name)| < |WaitingOf(old(sys.db), infos[k].name)|
    {
      ReachedPc(cfg, sys, log);
      SettleStep(cfg, sys, state, error, ok);
      Record(Dispatch(Decide(ok)));
    }

    ghost method RecordLaunched(infos: seq<ActionInfo>, k: nat, now: Stamp, w: Work, ok: bool)
      requires Reached(cfg, sys, log) && sys.pc == Picked(Plan(infos, now), k, w) && k < |infos|
      requires Decision(cfg, infos[k], w.msg).Launch?
      modifies this`sys, this`log
      ensures Reached(cfg, sys, log) && log == old(log) + [Dispatch(Decide(ok))]
      ensures var r := Tables.Claim(old(sys.db), w.id, infos[k].version, now);
        && r.Some?
        && sys.db == (if ok then r.value else old(sys.db))
        && sys.pc == Scan(Plan(infos, now), if ok then k else k + 1)
        && Locals(old(sys), sys)
        && sys.inflight ==
          (if ok then old(sys.inflight)[infos[k].name := InFlight(old(sys.inflight), infos[k].name) + 1]
                            else old(sys.inflight))
        && Progress(old(sys.db), old(sys.inflight), r.value,
                    old(sys.inflight)[infos[k].name := InFlight(old(sys.inflight), infos[k].name) + 1], now)
        && |WaitingOf(r.value, infos[k].name)| < |WaitingOf(old(sys.db), infos[k].name)|
    {
      ReachedPc(cfg, sys, log);
      LaunchStep(cfg, sys, ok);
      Record(Dispatch(Decide(ok)));
    }

    /** The counter follows a resolve. */
    ghost method RecordAdd()
      requires Reached(cfg, sys, log) && sys.pc.Adding? && !sys.pc.poke
      modifies this`sys, this`log
      ensures Reached(cfg, sys, log) && log == old(log) + [Loop(Add)]
      ensures sys.db == old(sys.db) && sys.inflight == old(sys.inflight) && sys.nudge == old(sys.nudge)
      ensures sys.timer == old(sys.timer) && sys.active == old(sys.active) + old(sys).pc.adj
      ensures sys.pc == old(sys).pc.next
    {
      Record(Loop(Add));
    }

    /** A terminal state without an execution; the counter follows the write. */
    method Settle(infos: seq<ActionInfo>, k: nat, now: Stamp, w: Work, state: State, error: Option<Reason>)
      returns (ok: bool)
      requires Valid() && sys.pc == Picked(Plan(infos, now), k, w) && k < |infos|
      requires Decision(cfg, infos[k], w.msg) == Verdict.Settle(state, error)
      modifies this`sys, this`log, this`active, st`deliveries, st`outages
      ensures Valid() && inflight == old(inflight)
      ensures log == old(log) + [Dispatch(Decide(ok))] + if ok then [Loop(Add)] else []
      ensures st.outages == Rest(old(st.outages)) && ok == !Failing(old(st.outages))
      ensures sys.pc == Scan(Plan(infos, now), if !ok && IsJoin(infos[k].def) then k + 1 else k)
      ensures Progress(old(sys.db), inflight, sys.db, inflight, now)
      ensures !ok ==> sys.db == old(sys.db)
      ensures ok ==> |WaitingOf(sys.db, infos[k].name)| < |WaitingOf(old(sys.db), infos[k].name)|
      ensures ok ==> OnlyRow(old(st.deliveries), st.deliveries, w.id)
      ensures ok ==> ResolvedFrom(old(st.deliveries[w.id]), st.deliveries[w.id], state, error, now)
      ensures active == old(active) - if ok then 1 else 0
    {
      hide Reached;
      hide OnlyRow;
      hide ResolvedFrom;
      hide Resolve;
      hide Waiting;
      ok := st.ResolveDelivery(w.id, state, error, now);
      RecordSettled(infos, k, now, w, state, error, !Failing(old(st.outages)));
      if ok {
        active := active - 1;
        RecordAdd();
        assert Valid();
      } else {
        assert Valid();
        ProgressNone(sys.db, inflight, now);
      }
    }

    /** The claim, then the execution. */
    method Launch(infos: seq<ActionInfo>, k: nat, now: Stamp, w: Work) returns (ok: bool)
      requires Valid() && sys.pc == Picked(Plan(infos, now), k, w) && k < |infos|
      requires Decision(cfg, infos[k], w.msg).Launch?
      modifies this`sys, this`log, this`inflight, st`deliveries, st`outages
      ensures Valid() && log == old(log) + [Dispatch(Decide(ok))]
      ensures st.outages == Rest(old(st.outages)) && ok == !Failing(old(st.outages))
      ensures sys.pc == Scan(Plan(infos, now), if ok then k else k + 1)
      ensures Progress(old(sys.db), old(inflight), sys.db, inflight, now)
      ensures ok ==> |WaitingOf(sys.db, infos[k].name)| < |WaitingOf(old(sys.db), infos[k].name)|
      ensures !ok ==> sys.db == old(sys.db)
      ensures ok ==> OnlyRow(old(st.deliveries), st.deliveries, w.id)
      ensures ok ==> ClaimedFrom(old(st.deliveries[w.id]), st.deliveries[w.id], infos[k].version, now)
      ensures ok ==> inflight == old(inflight)[infos[k].name := InFlight(old(inflight), infos[k].name) + 1]
      ensures !ok ==> inflight == old(inflight)
    {
      hide Reached;
      hide OnlyRow;
      hide ClaimedFrom;
      ok := st.ClaimDelivery(w.id, infos[k].version, now);
      RecordLaunched(infos, k, now, w, !Failing(old(st.outages)));
      ProgressNone(old(sys.db), old(inflight), now);
      if ok {
        inflight := inflight[infos[k].name := InFlight(inflight, infos[k].name) + 1];
      }
    }

    /** The checks, and the resolve they may call for. Passing leaves everything as it was. */
    method VetWork(infos: seq<ActionInfo>, k: nat, now: Stamp, w: Work) returns (pass: bool)
      requires Valid() && sys.pc == Picked(Plan(infos, now), k, w) && k < |infos| && !IsJoin(infos[k].def)
      modifies this`sys, this`log, this`active, st`deliveries, st`outages
      ensures Valid() && inflight == old(inflight) && Progress(old(sys.db), inflight, sys.db, inflight, now)
      ensures pass <==> Decision(cfg, infos[k], w.msg).Launch?
      ensures pass <==> Admitted(cfg, infos[k], w.msg)
      ensures !pass && !Failing(old(st.outages)) ==> OnlyRow(old(st.deliveries), st.deliveries, w.id)
      ensures !pass && !Failing(old(st.outages)) ==>
        VettedFrom(cfg, infos[k], w.msg, old(st.deliveries[w.id]), st.deliveries[w.id], now)
      ensures pass ==> sys == old(sys) && log == old(log) && st.outages == old(st.outages)
      ensures !pass ==> sys.pc == Scan(Plan(infos, now), k) && st.outages == Rest(old(st.outages))
      ensures Appended(old(log), log)
      ensures !pass && old(st.outages) == [] ==>
        |WaitingOf(sys.db, infos[k].name)| < |WaitingOf(old(sys.db), infos[k].name)|
      ensures !pass && sys.db != old(sys.db) ==>
        |WaitingOf(sys.db, infos[k].name)| < |WaitingOf(old(sys.db), infos[k].name)|
    {
      hide Admitted;
      hide Judged;
      hide ResolvedFrom;
      var v := Check(cfg, infos[k], w.msg);
      pass := v.Launch?;
      if v.Settle? {
        var ok := Settle(infos, k, now, w, v.state, v.error);
        if ok {
          VettedIs(cfg, infos[k], w.msg, old(st.deliveries[w.id]), st.deliveries[w.id], v, now);
        }
      } else {
        ProgressNone(sys.db, inflight, now);
      }
    }

    /** The next delivery of a join, if any, is resolved. */
    method CancelNext(infos: seq<ActionInfo>, k: nat, now: Stamp) returns (more: bool)
      requires Valid() && sys.pc == Scan(Plan(infos, now), k) && k < |infos| && IsJoin(infos[k].def)
      modifies this`sys, this`log, this`active, st`deliveries, st`outages
      ensures Valid() && Appended(old(log), log) && inflight == old(inflight)
      ensures sys.pc == Scan(Plan(infos, now), if more then k else k + 1)
      ensures Progress(old(sys.db), inflight, sys.db, inflight, now)
      ensures more ==> |WaitingOf(sys.db, infos[k].name)| < |WaitingOf(old(sys.db), infos[k].name)|
      ensures old(st.outages) == [] ==> st.outages == [] && (more || Eligible(sys.db, infos[k].name, now) == {})
      ensures OnlySuperseded(old(st.deliveries), st.deliveries, infos[k], now)
    {
      hide Reached;
      hide OnlySuperseded;
      hide OnlyRow;
      hide ResolvedFrom;
      hide NearlyDue;
      NoneSuperseded(st.deliveries, infos[k], now);
      var w := PickNext(infos, k, now);
      if w.None? {
        ProgressNone(sys.db, inflight, now);
        return false;
      }
      more := CancelOne(infos, k, now, w.value);
    }

    method CancelOne(infos: seq<ActionInfo>, k: nat, now: Stamp, w: Work) returns (ok: bool)
      requires Valid() && sys.pc == Picked(Plan(infos, now), k, w) && k < |infos| && IsJoin(infos[k].def)
      requires w.id in st.deliveries && w.row == st.deliveries[w.id]
      requires w.row.action == infos[k].name && NearlyDue(w.row, now)
      modifies this`sys, this`log, this`active, st`deliveries, st`outages
      ensures Valid() && Appended(old(log), log) && inflight == old(inflight)
      ensures sys.pc == Scan(Plan(infos, now), if ok then k else k + 1)
      ensures Progress(old(sys.db), inflight, sys.db, inflight, now)
      ensures ok ==> |WaitingOf(sys.db, infos[k].name)| < |WaitingOf(old(sys.db), infos[k].name)|
      ensures st.outages == Rest(old(st.outages)) && ok == !Failing(old(st.outages))
      ensures OnlySuperseded(old(st.deliveries), st.deliveries, infos[k], now)
    {
      hide Reached;
      hide ResolvedFrom;
      ok := Settle(infos, k, now, w, Cancelled, Some(Superseded(infos[k].version)));
    }

    /** A join cannot claim at all: every eligible delivery is resolved. A failing write ends the loop. */
    method CancelSuperseded(infos: seq<ActionInfo>, k: nat, now: Stamp)
      requires Valid() && sys.pc == Scan(Plan(infos, now), k) && k < |infos| && IsJoin(infos[k].def)
      modifies this`sys, this`log, this`active, st`deliveries, st`outages
      ensures Valid() && Appended(old(log), log) && inflight == old(inflight)
      ensures sys.pc == Scan(Plan(infos, now), k + 1)
      ensures Progress(old(sys.db), inflight, sys.db, inflight, now)
      ensures old(st.outages) == [] ==> st.outages == [] && Served(sys.db, inflight, infos[k], now)
      ensures OnlySuperseded(old(st.deliveries), st.deliveries, infos[k], now)
    {
      ProgressNone(sys.db, inflight, now);
      NoneSuperseded(st.deliveries, infos[k], now);
      hide OnlySuperseded;
      var more := true;
      while more
        invariant Valid() && sys.pc == Scan(Plan(infos, now), if more then k else k + 1)
        invariant Appended(old(log), log) && inflight == old(inflight)
        invariant Progress(old(sys.db), inflight, sys.db, inflight, now)
        invariant old(st.outages) == [] ==> st.outages == [] && (more || Eligible(sys.db, infos[k].name, now) == {})
        invariant OnlySuperseded(old(st.deliveries), st.deliveries, infos[k], now)
        decreases more, |WaitingOf(sys.db, infos[k].name)|
      {
        ghost var db, before, rows := sys.db, log, st.deliveries;
        more := CancelNext(infos, k, now);
        SupersededChain(old(st.deliveries), rows, st.deliveries, infos[k], now);
        AppendedChain(old(log), before, log);
        ProgressChain(old(sys.db), inflight, db, inflight, sys.db, inflight, now);
      }
    }

    /** Vet the delivery and, if it passes, claim and launch it; false when the claim fails. */
    method TryWork(infos: seq<ActionInfo>, k: nat, now: Stamp, w: Work) returns (more: bool)
      requires Valid() && sys.pc == Picked(Plan(infos, now), k, w) && k < |infos| && !IsJoin(infos[k].def)
      modifies this`sys, this`log, this`active, this`inflight, st`deliveries, st`outages
      ensures Valid() && Appended(old(log), log)
      ensures sys.pc == Scan(Plan(infos, now), if more then k else k + 1)
      ensures Progress(old(sys.db), old(inflight), sys.db, inflight, now)
      ensures |WaitingOf(sys.db, infos[k].name)| <= |WaitingOf(old(sys.db), infos[k].name)|
      ensures more && st.outages == [] == old(st.outages) ==>
        |WaitingOf(sys.db, infos[k].name)| < |WaitingOf(old(sys.db), infos[k].name)|
      ensures |st.outages| <= |old(st.outages)| && (|old(st.outages)| > 0 ==> |st.outages| < |old(st.outages)|)
      ensures old(st.outages) == [] ==> more
    {
      more := VetWork(infos, k, now, w);
      if !more {
        return true; // resolved terminally, or not at all: try the next delivery
      }
      more := Launch(infos, k, now, w);
    }

    method LaunchNext(infos: seq<ActionInfo>, k: nat, now: Stamp) returns (more: bool)
      requires Valid() && sys.pc == Scan(Plan(infos, now), k) && k < |infos| && !IsJoin(infos[k].def)
      requires !AtCeiling(inflight, infos[k])
      modifies this`sys, this`log, this`active, this`inflight, st`deliveries, st`outages
      ensures Valid() && Appended(old(log), log)
      ensures sys.pc == Scan(Plan(infos, now), if more then k else k + 1)
      ensures Progress(old(sys.db), old(inflight), sys.db, inflight, now)
      ensures more ==>
        |WaitingOf(sys.db, infos[k].name)| + |st.outages| < |WaitingOf(old(sys.db), infos[k].name)| + |old(st.outages)|
      ensures old(st.outages) == [] ==> st.outages == [] && (more || Eligible(sys.db, infos[k].name, now) == {})
    {
      hide Reached;
      var w := PickNext(infos, k, now);
      if w.None? {
        ProgressNone(sys.db, inflight, now);
        return false;
      }
      ghost var before := log;
      more := TryWork(infos, k, now, w.value);
      AppendedChain(old(log), before, log);
    }

    /** Launch for one action until it is at its ceiling or nothing is eligible. */
    method FillAction(infos: seq<ActionInfo>, k: nat, now: Stamp)
      requires Valid() && sys.pc == Scan(Plan(infos, now), k) && k < |infos| && !IsJoin(infos[k].def)
      modifies this`sys, this`log, this`active, this`inflight, st`deliveries, st`outages
      ensures Valid() && Appended(old(log), log)
      ensures sys.pc == Scan(Plan(infos, now), k + 1)
      ensures Progress(old(sys.db), old(inflight), sys.db, inflight, now)
      ensures old(st.outages) == [] ==> st.outages == [] && Served(sys.db, inflight, infos[k], now)
    {
      ProgressNone(sys.db, inflight, now);
      while InFlight(inflight, infos[k].name) < infos[k].concurrency
        invariant Valid() && sys.pc == Scan(Plan(infos, now), k)
        invariant Appended(old(log), log)
        invariant Progress(old(sys.db), old(inflight), sys.db, inflight, now)
        invariant old(st.outages) == [] ==> st.outages == []
        decreases |WaitingOf(sys.db, infos[k].name)| + |st.outages|
      {
        ghost var db, counts, before := sys.db, inflight, log;
        var more := LaunchNext(infos, k, now);
        AppendedChain(old(log), before, log);
        ProgressChain(old(sys.db), old(inflight), db, counts, sys.db, inflight, now);
        if !more {
          return;
        }
      }
      ghost var before := log;
      RecordNext();
      AppendedChain(old(log), before, log);
    }

    ghost method RecordNext()
      requires Reached(cfg, sys, log) && CanDispatch(sys, Next)
      modifies this`sys, this`log
      ensures Reached(cfg, sys, log) && log == old(log) + [Dispatch(Next)]
      ensures Locals(old(sys), sys) && sys.db == old(sys.db) && sys.inflight == old(sys.inflight)
      ensures sys.pc == Scan(old(sys).pc.plan, old(sys).pc.k + 1)
    {
      Record(Dispatch(Next));
    }

    /** The snapshot dispatch works from. */
    method LoadActions(now: Stamp) returns (ok: bool, infos: seq<ActionInfo>)
      requires Valid() && sys.pc.Top?
      modifies this`sys, this`log, st`outages
      ensures Valid() && log == old(log) + [Dispatch(Load(ok, now))] && sys.db == old(sys.db)
      ensures st.outages == Rest(old(st.outages)) && ok == !Failing(old(st.outages))
      ensures infos == Engine.LoadActions(cfg, st.actions)
      ensures sys.pc == if ok then Scan(Plan(infos, now), 0) else Arming
    {
      ok := st.ListActions();
      infos := DecodeActions(cfg, st.actions);
      Record(Dispatch(Load(ok, now)));
    }

    /**
     * One dispatch, with nothing arriving meanwhile and only finitely many operations failing. Then it ends; a resolve
     * that kept failing, or messages that kept coming, would keep it going (Dispatching.SpinsForever, IngressProlongs).
     * And if nothing fails, it leaves every enabled action at its ceiling or with no eligible delivery.
     */
    method DispatchAll(now: Stamp)
      requires Valid() && sys.pc.Top?
      modifies this`sys, this`log, this`active, this`inflight, st`deliveries, st`outages
      ensures Valid() && sys.pc.Arming? && Appended(old(log), log)
      ensures Progress(old(sys.db), old(inflight), sys.db, inflight, now)
      ensures old(st.outages) == [] ==>
        st.outages == [] && forall i | i in Engine.LoadActions(cfg, old(st.actions)) :: Served(sys.db, inflight, i, now)
      ensures old(st.outages) == [] ==>
        forall n | Enabled(st.actions, n) :: Attended(st.Contents(), inflight, n, now)
    {
      var ok, infos := LoadActions(now);
      ProgressNone(sys.db, inflight, now);
      if !ok {
        return;
      }
      var k := 0;
      while k < |infos|
        invariant 0 <= k <= |infos| && Valid() && sys.pc == Scan(Plan(infos, now), k)
        invariant Appended(old(log), log)
        invariant Progress(old(sys.db), old(inflight), sys.db, inflight, now)
        invariant old(st.outages) == [] ==> st.outages == [] && AllServed(sys.db, inflight, infos[..k], now)
      {
        k := DispatchAction(infos, k, now, old(sys.db), old(inflight), old(log));
      }
      assert infos[..k] == infos;
      ghost var before := log;
      Record(Dispatch(Dispatched));
      AppendedChain(old(log), before, log);
      if old(st.outages) == [] {
        AllAttended(cfg, sys, log, inflight, now);
      }
    }

    /** One action of the snapshot. */
    method DispatchAction(infos: seq<ActionInfo>, k: nat, now: Stamp, ghost db: Db, ghost counts: map<Name, int>,
                          ghost before: seq<Event>)
      returns (next: nat)
      requires Valid() && sys.pc == Scan(Plan(infos, now), k) && k < |infos|
      requires Appended(before, log) && Progress(db, counts, sys.db, inflight, now)
      modifies this`sys, this`log, this`active, this`inflight, st`deliveries, st`outages
      ensures next == k + 1 && Valid() && sys.pc == Scan(Plan(infos, now), next)
      ensures Appended(before, log) && Progress(db, counts, sys.db, inflight, now)
      ensures old(st.outages) == [] && old(AllServed(sys.db, inflight, infos[..k], now)) ==>
        st.outages == [] && AllServed(sys.db, inflight, infos[..next], now)
    {
      ghost var was, held, mid := sys.db, inflight, log;
      if IsJoin(infos[k].def) {
        CancelSuperseded(infos, k, now);
      } else {
        FillAction(infos, k, now);
      }
      AppendedChain(before, mid, log);
      ProgressChain(db, counts, was, held, sys.db, inflight, now);
      if old(st.outages) == [] && old(AllServed(sys.db, inflight, infos[..k], now)) {
        AllServedMore(was, held, sys.db, inflight, infos, k, now);
      }
      next := k + 1;
    }

    // Results.

    ghost method RecordEmit(id: Id, x: Exec, outs: seq<Outgoing>, ok: bool, now: Stamp, gate: Stamp,
                            mids: seq<Id>, ids: seq<Id>, r: Db)
      requires Reached(cfg, sys, log) && id in sys.execs && Emitting(cfg, sys, id, x, outs, now, mids, ids, r)
      modifies this`sys, this`log
      ensures Reached(cfg, sys, log) && log == old(log) + [Receive(id, ok, now, gate, mids, ids)]
      ensures AppliedTo(old(sys), id, sys, if ok then r else old(sys).db,
                        if ok then Adding(|ids| - 1, true, Back(old(sys).pc)) else Back(old(sys).pc))
    {
      EmitStep(cfg, sys, id, x, outs, ok, now, gate, mids, ids, r);
      Record(Receive(id, ok, now, gate, mids, ids));
    }

    ghost method RecordFail(id: Id, x: Exec, ok: bool, now: Stamp, gate: Stamp, mids: seq<Id>, ids: seq<Id>, r: Db)
      requires Reached(cfg, sys, log) && id in sys.execs && Losing(cfg, sys, id, x, gate, now, mids, ids, r)
      modifies this`sys, this`log
      ensures Reached(cfg, sys, log) && log == old(log) + [Receive(id, ok, now, gate, mids, ids)]
      ensures var dead := x.work.row.attempt >= x.info.maxAttempts;
        AppliedTo(old(sys), id, sys, if ok then r else old(sys).db,
          if !ok then Back(old(sys).pc)
          else if dead then Adding(-1, true, Back(old(sys).pc))
          else Poking(Back(old(sys).pc)))
    {
      FailStep(cfg, sys, id, x, ok, now, gate, mids, ids, r);
      Record(Receive(id, ok, now, gate, mids, ids));
    }

    /** The counter's adjustment, when a nudge follows it. */
    ghost method RecordAdjust()
      requires Reached(cfg, sys, log) && sys.pc.Adding? && sys.pc.poke
      modifies this`sys, this`log
      ensures Reached(cfg, sys, log) && log == old(log) + [Loop(Add)]
      ensures sys.db == old(sys.db) && sys.inflight == old(sys.inflight) && sys.nudge == old(sys.nudge)
      ensures sys.execs == old(sys).execs && sys.timer == old(sys.timer)
      ensures sys.active == old(sys.active) + old(sys).pc.adj && sys.pc == Poking(old(sys).pc.next)
    {
      Record(Loop(Add));
    }

    /** The scheduler nudges itself. */
    method Nudge()
      requires Valid() && sys.pc.Poking?
      modifies this`sys, this`log, this`nudge
      ensures Valid() && log == old(log) + [Loop(Poke)]
      ensures sys.db == old(sys.db) && sys.execs == old(sys).execs && sys.pc == old(sys).pc.next && nudge
    {
      nudge := true;
      Record(Loop(Poke));
    }

    method CountAndNudge(delta: int, ghost next: Pc)
      requires Valid() && sys.pc == Adding(delta, true, next)
      modifies this`sys, this`log, this`active, this`nudge
      ensures Valid() && log == old(log) + [Loop(Add)] + [Loop(Poke)]
      ensures sys.db == old(sys.db) && sys.execs == old(sys).execs && sys.pc == next
      ensures nudge && active == old(active) + delta
    {
      active := active + delta;
      RecordAdjust();
      Nudge();
    }

    method CompleteWith(id: Id, x: Exec, outs: seq<Outgoing>, now: Stamp, mids: seq<Id>, ids: seq<Id>, ghost s: Sys,
                        ghost r: Db)
      returns (created: Option<nat>)
      requires Emitting(cfg, s, id, x, outs, now, mids, ids, r) && x.phase.Finished?
      requires s.db == Db(st.messages, st.actions, st.deliveries)
      modifies st`messages, st`deliveries, st`outages
      ensures created == (if Failing(old(st.outages)) then None else Some(|ids|)) && st.outages == Rest(old(st.outages))
      ensures Failing(old(st.outages)) ==> st.messages == old(st.messages) && st.deliveries == old(st.deliveries)
      ensures !Failing(old(st.outages)) ==> r == Db(st.messages, st.actions, st.deliveries)
    {
        created := st.CompleteDelivery(id, x.phase.outcome.stderr, outs, ids, now);
    }

    /** The outbox transaction: done, the outputs and their deliveries, or nothing. */
    method Commit(id: Id, x: Exec, outs: seq<Outgoing>, now: Stamp, gate: Stamp, mids: seq<Id>, ids: seq<Id>,
                  ghost r: Db)
      returns (created: Option<nat>)
      requires Valid() && id in sys.execs && x == sys.execs[id] && x.phase.Finished?
      requires Emitting(cfg, sys, id, x, outs, now, mids, ids, r)
      modifies this`sys, this`log, this`inflight, st`messages, st`deliveries, st`outages
      ensures Valid() && sys.execs == old(sys).execs - {id} && inflight == Freed(old(inflight), x.info.name)
      ensures log == old(log) + [Receive(id, !Failing(old(st.outages)), now, gate, mids, ids)]
      ensures created == (if Failing(old(st.outages)) then None else Some(|ids|)) && st.outages == Rest(old(st.outages))
      ensures sys.pc == if created.Some? then Adding(|ids| - 1, true, Back(old(sys).pc)) else Back(old(sys).pc)
    {
      hide Reached;
      hide Emitting;
      RecordEmit(id, x, outs, !Failing(st.outages), now, gate, mids, ids, r);
      created := CompleteWith(id, x, outs, now, mids, ids, old(sys), r);
      inflight := Freed(inflight, x.info.name);
    }

    /** Success: the outbox transaction, then the counter, then a nudge. */
    method Finish(id: Id, x: Exec, outs: seq<Outgoing>, now: Stamp, gate: Stamp, mids: seq<Id>, ids: seq<Id>,
                  ghost r: Db)
      requires Valid() && id in sys.execs && x == sys.execs[id] && x.phase.Finished?
      requires Emitting(cfg, sys, id, x, outs, now, mids, ids, r)
      modifies this, st`messages, st`deliveries, st`outages
      ensures Valid() && sys.pc == Back(old(sys).pc) && sys.execs == old(sys).execs - {id}
      ensures inflight == Freed(old(inflight), x.info.name)
      ensures AppliedLog(old(log), Receive(id, !Failing(old(st.outages)), now, gate, mids, ids), log)
      ensures st.outages == Rest(old(st.outages))
      ensures !Failing(old(st.outages)) ==> nudge && active == old(active) + |ids| - 1
      ensures Failing(old(st.outages)) ==> active == old(active) && nudge == old(nudge)
    {
      hide Reached;
      hide Emitting;
      var created := Commit(id, x, outs, now, gate, mids, ids, r);
      if created.Some? {
        var n: int := created.value;
        CountAndNudge(n - 1, Back(old(sys).pc));
      } // otherwise still claimed: left for the next daemon's reaper
    }

    method FailWith(id: Id, x: Exec, dead: bool, reason: Reason, now: Stamp, gate: Stamp, mids: seq<Id>, ids: seq<Id>,
                    ghost s: Sys, ghost r: Db) returns (ok: bool)
      requires Losing(cfg, s, id, x, gate, now, mids, ids, r) && x.phase.Finished?
      requires dead == (x.work.row.attempt >= x.info.maxAttempts)
      requires reason == if x.phase.outcome.failed then Execution else BadStdout
      requires s.db == Db(st.messages, st.actions, st.deliveries)
      modifies st`deliveries, st`outages
      ensures ok == !Failing(old(st.outages)) && st.outages == Rest(old(st.outages))
      ensures !ok ==> st.deliveries == old(st.deliveries)
      ensures ok ==> r == Db(st.messages, st.actions, st.deliveries)
    {
        ok := st.FailDelivery(id, dead, gate, reason, x.phase.outcome.stderr, now);
    }

    /** The failing write: the row's new state, or nothing. */
    method Abandon(id: Id, x: Exec, dead: bool, now: Stamp, gate: Stamp, mids: seq<Id>, ids: seq<Id>, ghost r: Db)
      returns (ok: bool)
      requires Valid() && id in sys.execs && x == sys.execs[id] && x.phase.Finished?
      requires Losing(cfg, sys, id, x, gate, now, mids, ids, r) && dead == (x.work.row.attempt >= x.info.maxAttempts)
      modifies this`sys, this`log, this`inflight, st`deliveries, st`outages
      ensures Valid() && sys.execs == old(sys).execs - {id} && inflight == Freed(old(inflight), x.info.name)
      ensures log == old(log) + [Receive(id, ok, now, gate, mids, ids)]
      ensures ok == !Failing(old(st.outages)) && st.outages == Rest(old(st.outages))
      ensures sys.pc ==
        if !ok then Back(old(sys).pc)
        else if dead then Adding(-1, true, Back(old(sys).pc))
        else Poking(Back(old(sys).pc))
    {
      hide Reached;
      hide Losing;
      RecordFail(id, x, !Failing(st.outages), now, gate, mids, ids, r);
      var reason := if x.phase.outcome.failed then Execution else BadStdout;
      ok := FailWith(id, x, dead, reason, now, gate, mids, ids, old(sys), r);
      inflight := Freed(inflight, x.info.name);
    }

    /** Failure: dead once the attempts are used up, otherwise due at the gate. */
    method Retry(id: Id, x: Exec, now: Stamp, gate: Stamp, mids: seq<Id>, ids: seq<Id>, ghost r: Db)
      requires Valid() && id in sys.execs && x == sys.execs[id] && x.phase.Finished?
      requires Losing(cfg, sys, id, x, gate, now, mids, ids, r)
      modifies this, st`deliveries, st`outages
      ensures Valid() && sys.pc == Back(old(sys).pc) && sys.execs == old(sys).execs - {id}
      ensures inflight == Freed(old(inflight), x.info.name)
      ensures AppliedLog(old(log), Receive(id, !Failing(old(st.outages)), now, gate, mids, ids), log)
      ensures st.outages == Rest(old(st.outages))
      ensures !Failing(old(st.outages)) ==>
        nudge && active == old(active) - if x.work.row.attempt >= x.info.maxAttempts then 1 else 0
      ensures Failing(old(st.outages)) ==> active == old(active) && nudge == old(nudge)
    {
      var dead := x.work.row.attempt >= x.info.maxAttempts;
      hide Reached;
      hide Losing;
      var ok := Abandon(id, x, dead, now, gate, mids, ids, r);
      if ok {
        if dead {
          CountAndNudge(-1, Back(old(sys).pc));
        } else {
          Nudge();
        }
      }
    }

    lemma EmitReady(id: Id, x: Exec, outs: seq<Outgoing>, now: Stamp, mids: seq<Id>, ids: seq<Id>) returns (r: Db)
      requires Reached(cfg, sys, log) && CanReceive(cfg, sys, id, now, mids, ids) && x == sys.execs[id]
      requires Emits(cfg, x.info, x.phase.outcome).Some?
      requires outs == BuildOutputs(x, Emits(cfg, x.info, x.phase.outcome).value, mids, now)
      ensures Emitting(cfg, sys, id, x, outs, now, mids, ids, r)
    {
      ReachedExec(cfg, sys, log, id);
      r := Complete(sys.db, id, x.phase.outcome.stderr, outs, ids, now).value;
    }

    lemma FailReady(id: Id, x: Exec, gate: Stamp, now: Stamp, mids: seq<Id>, ids: seq<Id>) returns (r: Db)
      requires Reached(cfg, sys, log) && CanReceive(cfg, sys, id, now, mids, ids) && x == sys.execs[id]
      requires Emits(cfg, x.info, x.phase.outcome).None?
      ensures Losing(cfg, sys, id, x, gate, now, mids, ids, r)
    {
      ReachedExec(cfg, sys, log, id);
      r := Fail(sys.db, id, x.work.row.attempt >= x.info.maxAttempts, gate,
                if x.phase.outcome.failed then Execution else BadStdout, x.phase.outcome.stderr, now).value;
    }

    /**
     * Records one execution's outcome. If the write succeeds the row is closed as the output and the attempts have it
     * (see ClosedBy), with a gate that is the jittered backoff after now; if it fails the tables are as they were.
     * Either way the execution is off the books.
     */
    method Apply(id: Id, x: Exec, now: Stamp, jitter: Jitter, mids: seq<Id>, ids: seq<Id>) returns (ghost gate: Stamp)
      requires Valid() && CanReceive(cfg, sys, id, now, mids, ids) && x == sys.execs[id]
      modifies this, st`messages, st`deliveries, st`outages
      ensures Valid() && sys.pc == Back(old(sys).pc) && sys.execs == old(sys).execs - {id}
      ensures inflight == Freed(old(inflight), x.info.name)
      ensures x.work.row.attempt >= 1 && gate == GateAfter(cfg, x.work.row.attempt, now, jitter)
      ensures AppliedLog(old(log), Receive(id, !Failing(old(st.outages)), now, gate, mids, ids), log)
      ensures st.outages == Rest(old(st.outages))
      ensures id in old(st.deliveries) && id in st.deliveries
      ensures !Failing(old(st.outages)) ==>
        ClosedBy(cfg, x, x.phase.outcome, gate, now, old(st.deliveries[id]), st.deliveries[id])
      ensures !Failing(old(st.outages)) ==> OthersKept(old(st.deliveries), st.deliveries, id)
      ensures !Failing(old(st.outages)) && !Clean(cfg, x.phase.outcome) ==> st.messages == old(st.messages)
      ensures Failing(old(st.outages)) ==> st.Contents() == old(st.Contents())
      ensures !Failing(old(st.outages)) ==> nudge && active == old(active) + Change(cfg, x, ids)
      ensures Failing(old(st.outages)) ==> active == old(active) && nudge == old(nudge)
    {
      AttemptCounts(cfg, sys, log, id);
      var due := GateAfter(cfg, x.work.row.attempt, now, jitter);
      gate := due;
      hide GateAfter;
      hide Change;
      ApplyWith(id, x, now, due, mids, ids);
      AppliedCloses(cfg, old(sys), old(log), id, now, gate, mids, ids, !Failing(old(st.outages)), sys, log);
    }

    /** The same with the gate worked out. */
    method ApplyWith(id: Id, x: Exec, now: Stamp, gate: Stamp, mids: seq<Id>, ids: seq<Id>)
      requires Valid() && CanReceive(cfg, sys, id, now, mids, ids) && x == sys.execs[id]
      modifies this, st`messages, st`deliveries, st`outages
      ensures Valid() && sys.pc == Back(old(sys).pc) && sys.execs == old(sys).execs - {id}
      ensures inflight == Freed(old(inflight), x.info.name)
      ensures AppliedLog(old(log), Receive(id, !Failing(old(st.outages)), now, gate, mids, ids), log)
      ensures st.outages == Rest(old(st.outages))
      ensures !Failing(old(st.outages)) ==> nudge && active == old(active) + Change(cfg, x, ids)
      ensures Failing(old(st.outages)) ==> active == old(active) && nudge == old(nudge)
    {
      hide Clean;
      var payloads := Payloads(cfg, x.info, x.phase.outcome);
      if payloads.Some? {
        var outs := Outputs(x, payloads.value, mids, now);
        ghost var r := EmitReady(id, x, outs, now, mids, ids);
        Finish(id, x, outs, now, gate, mids, ids, r);
      } else {
        ghost var r := FailReady(id, x, gate, now, mids, ids);
        Retry(id, x, now, gate, mids, ids, r);
      }
    }

    /** How many executions run, by the counters. */
    method Running() returns (n: int)
      requires Valid()
      ensures n >= 0 && (n == 0 <==> sys.execs == map[])
    {
      ReachedInv(cfg, sys, log);
      NothingRuns(inflight, sys.execs);
      n := Total(inflight);
    }

    /** A worker's result comes in, unless it is in already. */
    ghost method Report(a: Arrival, rest: seq<Arrival>, ms: set<Id>, ds: set<Id>, last: Id)
      requires Reached(cfg, sys, log) && rest != [] && a == rest[0] && Awaits(sys, rest, ms, ds, last)
      requires MayReport(cfg, a)
      modifies this`sys, this`log
      ensures Reached(cfg, sys, log) && sys == old(sys).(execs := old(sys).execs[a.id := Reported(a)])
      ensures log == old(log) + if a.x.phase.Finished? then [] else [Worker(WorkerEvent.Finish(a.id, a.outcome))]
      ensures Awaits(sys, [In(a)] + rest[1..], ms, ds, last)
    {
      ReportAwaits(sys, rest, ms, ds, last);
      if a.x.phase.Finished? {
        assert sys.execs[a.id := Reported(a)] == sys.execs;
      } else {
        Record(Worker(WorkerEvent.Finish(a.id, a.outcome)));
      }
    }

    /** The next result is waited for and applied. */
    method ApplyNext(a: Arrival, ghost rest: seq<Arrival>, ghost ms: set<Id>, ghost ds: set<Id>, ghost last: Id)
      requires Valid() && rest != [] && a == rest[0] && Awaits(sys, rest, ms, ds, last)
      requires Fits(cfg, sys.db.actions, a, ms, ds, last)
      modifies this, st`messages, st`deliveries, st`outages
      ensures Valid() && sys.db.actions == old(sys.db.actions) && Extended(old(log), log)
      ensures Awaits(sys, rest[1..], ms + Elements(a.mids), ds + Elements(a.ids), LastOf(last, a.ids))
      ensures old(st.outages) == [] ==> st.outages == [] && sys.h.stuck == old(sys).h.stuck
    {
      InFits(cfg, sys.db.actions, a, ms, ds, last);
      Report(a, rest, ms, ds, last);
      ghost var held := [In(a)] + rest[1..];
      assert held[1..] == rest[1..];
      ghost var mid := log;
      ApplyIn(In(a), held, ms, ds, last);
      ExtendedChain(old(log), mid, log);
    }

    /** A result that is in is applied. */
    method ApplyIn(a: Arrival, ghost rest: seq<Arrival>, ghost ms: set<Id>, ghost ds: set<Id>, ghost last: Id)
      requires Valid() && rest != [] && a == rest[0] && Awaits(sys, rest, ms, ds, last)
      requires Fits(cfg, sys.db.actions, a, ms, ds, last) && a.x.phase.Finished? && Reported(a) == a.x
      modifies this, st`messages, st`deliveries, st`outages
      ensures Valid() && sys.db.actions == old(sys.db.actions) && Extended(old(log), log)
      ensures Awaits(sys, rest[1..], ms + Elements(a.mids), ds + Elements(a.ids), LastOf(last, a.ids))
      ensures old(st.outages) == [] ==> st.outages == [] && sys.h.stuck == old(sys).h.stuck
    {
      FirstAwaited(cfg, sys, rest, ms, ds, last);
      hide Awaits;
      hide Fits;
      hide Reached;
      hide CanReceive;
      hide AppliedLog;
      hide Extended;
      ghost var gate := Apply(a.id, a.x, a.now, a.jitter, a.mids, a.ids);
      AppliedExtends(old(log), Receive(a.id, !Failing(old(st.outages)), a.now, gate, a.mids, a.ids), log);
      AppliedConsumes(cfg, old(sys), old(log), a, gate, !Failing(old(st.outages)), sys, log);
      AwaitsFewer(cfg, old(sys), rest, ms, ds, last, sys);
    }

    /**
     * A graceful stop waits for the workers that are still running and records what they report, in whatever order it
     * comes. Then nothing runs, and only rows whose closing write failed are still claimed: none, if no write failed in
     * this process.
     */
    method Drain(results: seq<Arrival>, ghost ms: set<Id>, ghost ds: set<Id>, ghost last: Id)
      requires Valid() && Awaits(sys, results, ms, ds, last) && Arriving(cfg, sys.db.actions, results, ms, ds, last)
      modifies this, st`messages, st`deliveries, st`outages
      ensures Valid() && sys.pc.Draining? && sys.execs == map[] && ClaimedIds(st.Contents()) == sys.h.stuck
      ensures Extended(old(log), log)
      ensures old(st.outages) == [] && old(sys).h.stuck == {} ==> ClaimedIds(st.Contents()) == {}
    {
      var i := 0;
      ghost var m, d, l := ms, ds, last;
      var n := Running();
      while n > 0
        invariant 0 <= i <= |results| && Valid() && Awaits(sys, results[i..], m, d, l) && Extended(old(log), log)
        invariant Arriving(cfg, sys.db.actions, results[i..], m, d, l) && (n == 0 <==> sys.execs == map[]) && n >= 0
        invariant old(st.outages) == [] ==> st.outages == [] && sys.h.stuck == old(sys).h.stuck
        decreases |results| - i
      {
        ghost var rest := results[i..];
        assert rest != [] && rest[0] == results[i] && rest[1..] == results[i + 1..];
        ghost var before := log;
        ApplyNext(results[i], rest, m, d, l);
        ExtendedChain(old(log), before, log);
        m, d, l := m + Elements(results[i].mids), d + Elements(results[i].ids), LastOf(l, results[i].ids);
        i := i + 1;
        n := Running();
      }
      Drained(cfg, sys, log);
    }

    // The rest of the loop.

    /** Cancels every waiting delivery of an action, on behalf of a disable handler, and answers how many. */
    method HandleCtrl(k: nat, name: Name, now: Stamp) returns (n: Option<nat>)
      requires Valid() && sys.pc.Blocked? && k < |sys.disabling| && sys.disabling[k] == name
      modifies this`sys, this`log, this`active, st`deliveries, st`outages
      ensures Valid() && sys.pc.Top? && st.outages == Rest(old(st.outages)) && n.None? == Failing(old(st.outages))
      ensures log == old(log) + [Loop(Control(k, n.Some?, now))] + if n.Some? then [Loop(Add)] else []
      ensures n.Some? ==> n.value == |WaitingOf(old(sys.db), name)| && WaitingOf(sys.db, name) == {}
      ensures n.Some? ==> GivenUpOf(old(st.deliveries), st.deliveries, name, ActionDisabled, now)
      ensures n.Some? ==> active == old(active) - n.value
      ensures n.None? ==> sys.db == old(sys.db)
    {
      RecordControl(k, name, !Failing(st.outages), now);
      n := st.CancelDeliveries(name, ActionDisabled, now);
      if n.Some? {
        var count: int := n.value;
        active := active - count;
        RecordAdd();
      }
    }

    ghost method RecordControl(k: nat, name: Name, ok: bool, now: Stamp)
      requires Reached(cfg, sys, log) && sys.pc.Blocked? && k < |sys.disabling| && sys.disabling[k] == name
      modifies this`sys, this`log
      ensures Reached(cfg, sys, log) && log == old(log) + [Loop(Control(k, ok, now))]
      ensures Locals(old(sys), sys) && sys.inflight == old(sys.inflight)
      ensures sys.db == if ok then CancelAll(old(sys.db), name, ActionDisabled, now) else old(sys.db)
      ensures sys.pc == if ok then Adding(-|WaitingOf(old(sys.db), name)|, false, Top) else Top
      ensures ok ==> WaitingOf(sys.db, name) == {}
    {
      Record(Loop(Control(k, ok, now)));
    }

    /** Points the timer at the earliest retry gate; with none, or none readable, only the safety net is left. */
    method ArmTimer(now: Stamp)
      requires Valid() && sys.pc.Arming?
      modifies this`sys, this`log, this`timer, st`outages
      ensures Valid() && sys.pc.Blocked? && sys.db == old(sys.db) && st.outages == Rest(old(st.outages))
      ensures log == old(log) + [Loop(Arm(!Failing(old(st.outages)), now))]
      ensures timer == Armed(if Failing(old(st.outages)) then None else Tables.NextRetryAt(old(sys.db)), now)
      ensures timer == Idle <==>
        Failing(old(st.outages)) || forall d | d in st.deliveries :: !Gated(st.deliveries[d])
      ensures timer.Set? ==> timer.armedAt == now && WaitsForFirst(st.deliveries, timer.delay, now)
    {
      hide WaitsForFirst;
      hide Reached;
      hide Gated;
      hide Instant;
      RecordArm(!Failing(st.outages), now);
      var gate := NextGate(now);
      timer := Reset(gate, now);
    }

    /** The earliest retry gate, if there is one and it can be read. */
    method NextGate(ghost now: Stamp) returns (gate: Option<Stamp>)
      modifies st`outages
      ensures st.outages == Rest(old(st.outages))
      ensures gate == if Failing(old(st.outages)) then None else Tables.NextRetryAt(st.Contents())
      ensures gate.None? <==> Failing(old(st.outages)) || forall d | d in st.deliveries :: !Gated(st.deliveries[d])
      ensures gate.Some? ==>
        var wait := Instant(gate.value) - Instant(now);
        WaitsForFirst(st.deliveries, if wait < 0 then 0 else wait, now)
    {
      hide WaitsForFirst;
      hide Instant;
      hide Stamps.Format;
      var ok;
      gate, ok := st.NextRetryAt();
      OneEarliest(st.Contents(), ok, gate);
      if gate.Some? {
        FirstIs(st.deliveries, gate.value, now);
      }
    }

    /** The duration to reset the timer to. */
    method Reset(gate: Option<Stamp>, now: Stamp) returns (t: Timer)
      ensures t == Armed(gate, now)
    {
      if gate.None? {
        return Idle;
      }
      var d := Instant(gate.value) - Instant(now);
      if d < 0 {
        d := 0;
      }
      t := Set(now, d);
    }

    ghost method RecordArm(ok: bool, now: Stamp)
      requires Reached(cfg, sys, log) && sys.pc.Arming?
      modifies this`sys, this`log
      ensures Reached(cfg, sys, log) && log == old(log) + [Loop(Arm(ok, now))]
      ensures sys.pc.Blocked? && sys.db == old(sys.db) && sys.inflight == old(sys.inflight)
      ensures sys.active == old(sys.active) && sys.nudge == old(sys.nudge)
      ensures sys.timer == Armed(if ok then Tables.NextRetryAt(old(sys.db)) else None, now)
    {
      Record(Loop(Arm(ok, now)));
    }

    /** One turn of the loop up to its wait: dispatch, then point the timer. */
    method Round(dispatchAt: Stamp, armAt: Stamp)
      requires Valid() && sys.pc.Top?
      modifies this`sys, this`log, this`active, this`inflight, this`timer, st`deliveries, st`outages
      ensures Valid() && sys.pc.Blocked? && Extended(old(log), log)
      ensures old(st.outages) == [] ==>
        && (forall i | i in Engine.LoadActions(cfg, old(st.actions)) :: Served(sys.db, inflight, i, dispatchAt))
        && timer == Armed(Tables.NextRetryAt(sys.db), armAt)
      ensures old(st.outages) == [] ==>
        forall n | Enabled(st.actions, n) :: Attended(st.Contents(), inflight, n, dispatchAt)
    {
      DispatchAll(dispatchAt);
      ArmTimer(armAt);
    }

    /** The wait ends with a nudge, */
    method Wake()
      requires Valid() && sys.pc.Blocked? && nudge
      modifies this`sys, this`log, this`nudge
      ensures Valid() && sys.pc.Top? && !nudge && log == old(log) + [Loop(LoopEvent.Wake)] && sys.db == old(sys.db)
    {
      nudge := false;
      Record(Loop(LoopEvent.Wake));
    }

    /** or with the timer, */
    method Expire()
      requires Valid() && sys.pc.Blocked?
      modifies this`sys, this`log
      ensures Valid() && sys.pc.Top? && log == old(log) + [Loop(LoopEvent.Expire)] && sys.db == old(sys.db)
    {
      Record(Loop(LoopEvent.Expire));
    }

    /** or with a result (Apply), a disable (HandleCtrl), or the order to stop, after which there is only Drain. */
    method Stop()
      requires Valid() && sys.pc.Blocked?
      modifies this`sys, this`log
      ensures Valid() && sys.pc.Draining? && log == old(log) + [Event.Daemon(DaemonEvent.Stop)] && sys.db == old(sys.db)
    {
      Record(Event.Daemon(DaemonEvent.Stop));
    }

    /** The counter starts from the tables; only then is the daemon ready. */
    method Seed()
      requires Valid() && sys.pc.Seeding?
      modifies this`sys, this`log, this`active
      ensures Valid() && sys.pc.Top? && log == old(log) + [Daemon(DaemonEvent.Seed)]
      ensures active == |ActiveIds(sys.db)| && sys.db == old(sys.db)
    {
      active := |ActiveIds(st.Contents())|;
      Record(Daemon(DaemonEvent.Seed));
    }

    /** A handler reports the rows it committed, then nudges. */
    method WorkAdded(ghost k: nat, n: nat)
      requires Valid() && k < |sys.committed| && n == |sys.committed[k]|
      modifies this`sys, this`log, this`active, this`nudge
      ensures Valid() && nudge && active == old(active) + n
      ensures sys.db == old(sys.db) && sys.pc == old(sys).pc && sys.inService == old(sys).inService
      ensures sys.tracker == old(sys).tracker
      ensures log == old(log) + [Request(Count(k))] + [Request(Signal(|old(sys).counted|))]
      ensures sys.committed == old(sys).committed[..k] + old(sys).committed[k + 1..] && sys.counted == old(sys).counted
    {
      RecordCount(k);
      active := active + n;
      RecordSignal();
      nudge := true;
    }

    ghost method RecordCount(k: nat)
      requires Reached(cfg, sys, log) && k < |sys.committed|
      modifies this`sys, this`log
      ensures Reached(cfg, sys, log) && log == old(log) + [Request(Count(k))]
      ensures sys == old(sys).(active := old(sys).active + |old(sys).committed[k]|,
        committed := old(sys).committed[..k] + old(sys).committed[k + 1..],
        counted := old(sys).counted + [old(sys).committed[k]])
    {
      Record(Request(Count(k)));
    }

    ghost method RecordSignal()
      requires Reached(cfg, sys, log) && sys.counted != []
      modifies this`sys, this`log
      ensures Reached(cfg, sys, log) && log == old(log) + [Request(Signal(|old(sys).counted| - 1))]
      ensures sys == old(sys).(nudge := true, counted := old(sys).counted[..|old(sys).counted| - 1])
    {
      var last := |sys.counted| - 1;
      assert sys.counted[..last] + sys.counted[last + 1..] == sys.counted[..last];
      Record(Request(Signal(last)));
    }

    /** Does any delivery still need a running daemon? */
    predicate Busy()
      reads this`active
    {
      active > 0
    }
  }

  predicate AllServed(db: Db, inflight: map<Name, int>, infos: seq<ActionInfo>, now: Stamp) {
    forall i | i in infos :: Served(db, inflight, i, now)
  }

  lemma AllServedMore(db: Db, inflight: map<Name, int>, r: Db, after: map<Name, int>, infos: seq<ActionInfo>, k: nat,
                      now: Stamp)
    requires k < |infos| && AllServed(db, inflight, infos[..k], now) && Progress(db, inflight, r, after, now)
    requires Served(r, after, infos[k], now)
    ensures AllServed(r, after, infos[..k + 1], now)
  {
    forall i | i in infos[..k + 1] ensures Served(r, after, i, now) {
      if i in infos[..k] {
        ServedKept(db, inflight, r, after, i, now);
      }
    }
  }
}
