/**
 * Runs that show where the code promises less than it may seem to: the counter goes negative, a delivery is given up
 * as superseded by an older version, the idle tracker fires under a pending delivery, dispatch is kept going by a
 * resolve that fails or by messages that arrive, and a disable leaves a failed delivery behind.
 */
module Witnesses {
  import opened Bytes
  import opened Keys
  import opened Stamps
  import opened Workflow
  import opened Tables
  import opened Disabling
  import opened Dispatching
  import opened Engine
  import opened Ownership
  import Text

  /** The default policy, under a filter with one answer. */
  function Cfg(f: FilterOutcome): Config {
    Config(100, 3, 4_194_304, 1_000_000_000, 60_000_000_000, (n: Name, v: nat, m: Message) => f, (d: Data) => true)
  }

  /** An action that takes one queue and emits nothing. */
  function On(queue: Queue): Definition {
    Definition([Input(queue, "", "")], "", None, None, SUBPROCESS, Command(["./run.sh"], None), None)
  }

  const V1 := On("a")
  const V2 := On("b")

  /** The state once the daemon serves, with one request in and the action registered. */
  function Serving1(actions: Actions, pc: Pc): Sys {
    START.(db := EMPTY.(actions := actions), pc := pc, inService := 1)
  }

  const ONE: Actions := map["x" := [Version(V1, true)]]
  const TWO: Actions := map["x" := [Version(V1, true), Version(V2, true)]]

  const START_UP := [Daemon(Boot), Daemon(Reaped), Daemon(Seed), Request(Arrive), Request(Register("x", V1))]

  lemma Extend(cfg: Config, es: seq<Event>, e: Event)
    ensures Run(cfg, START, es + [e]) == Step(cfg, Run(cfg, START, es), e)
  {
    assert (es + [e])[..|es + [e]| - 1] == es;
  }

  lemma SortedNone()
    ensures Keys.Sorted({}) == []
  {
  }

  lemma SortedName(n: Name)
    ensures Text.Sorted({n}) == [n]
  {
    var s := Text.Sorted({n});
    SortedLength({n});
    assert s[0] in s;
  }

  lemma Boots(f: FilterOutcome)
    ensures Run(Cfg(f), START, [Daemon(Boot), Daemon(Reaped), Daemon(Seed)]) == START.(pc := Top)
  {
    var one, two := [Daemon(Boot)], [Daemon(Boot), Daemon(Reaped)];
    BootRuns(f);
    Extend(Cfg(f), one, Daemon(Reaped));
    assert two == one + [Daemon(Reaped)];
    SeedRuns(f, two);
    assert two + [Daemon(Seed)] == [Daemon(Boot), Daemon(Reaped), Daemon(Seed)];
  }

  lemma BootRuns(f: FilterOutcome)
    ensures Run(Cfg(f), START, [Daemon(Boot)]) == START.(pc := Reaping([]))
  {
    assert ClaimedIds(EMPTY) == {};
    SortedNone();
    Extend(Cfg(f), [], Daemon(Boot));
    assert [] + [Daemon(Boot)] == [Daemon(Boot)];
  }

  lemma SeedRuns(f: FilterOutcome, es: seq<Event>)
    requires Run(Cfg(f), START, es) == START.(pc := Seeding)
    ensures Run(Cfg(f), START, es + [Daemon(Seed)]) == START.(pc := Top)
  {
    assert ActiveIds(EMPTY) == {};
    Extend(Cfg(f), es, Daemon(Seed));
  }

  lemma OnIsValid(queue: Queue)
    requires queue == "a" || queue == "b"
    ensures Workflow.Valid(On(queue))
  {
    var def := On(queue);
    assert Queues(def.inputs[..0]) == [];
    assert ValidInput(def, 0);
    assert '.' in "./run.sh" && !Space('.');
  }

  lemma StartsUp(f: FilterOutcome)
    ensures Run(Cfg(f), START, START_UP) == Serving1(ONE, Top)
  {
    Boots(f);
    var es := [Daemon(Boot), Daemon(Reaped), Daemon(Seed)];
    Extend(Cfg(f), es, Request(Arrive));
    Extend(Cfg(f), es + [Request(Arrive)], Request(Register("x", V1)));
    OnIsValid("a");
    assert START_UP == es + [Request(Arrive)] + [Request(Register("x", V1))];
  }

  // A message on a queue that the action's current version takes.

  lemma SubscribersOne(actions: Actions, queue: Queue)
    requires actions.Keys == {"x"} && Subscribed(actions, queue, "x")
    ensures Subscribers(actions, queue) == ["x"]
  {
    SortedName("x");
    assert Select(actions, queue, []) == [];
    assert ["x"][..0] == [];
    assert Select(actions, queue, ["x"]) == ["x"];
  }

  function Out(queue: Queue, now: Stamp): Outgoing {
    Outgoing(1, Ingress(queue, [], Hops(0), 0, now))
  }

  /** The state after that message is appended with its one delivery. */
  function Sent(s: Sys, queue: Queue, now: Stamp): Sys
    requires "x" in s.db.actions
  {
    s.(db := Db(map[1 := Ingress(queue, [], Hops(0), 0, now)], s.db.actions, map[1 := Fresh(1, "x")]), lastId := 1,
       committed := s.committed + [{1}],
       h := s.h.(fans := s.h.fans + map[1 := map["x" := |s.db.actions["x"]|]], order := s.h.order + [1]))
  }

  lemma InsertsOne(actions: Actions, queue: Queue, now: Stamp)
    requires actions.Keys == {"x"} && Subscribed(actions, queue, "x")
    ensures Insertable(EMPTY.(actions := actions), [Out(queue, now)], [1])
    ensures Insert(EMPTY.(actions := actions), [Out(queue, now)], [1]) ==
      Db(map[1 := Ingress(queue, [], Hops(0), 0, now)], actions, map[1 := Fresh(1, "x")])
  {
    var outs := [Out(queue, now)];
    SubscribersOne(actions, queue);
    assert outs[..0] == [] && Fan(actions, []) == [];
    assert Fan(actions, outs) == [Target(1, "x")];
    assert InsertMessages(map[], outs) == map[1 := Ingress(queue, [], Hops(0), 0, now)];
    assert InsertRows(map[], Fan(actions, outs), [1]) == map[1 := Fresh(1, "x")];
  }

  lemma BatchOne(actions: Actions, queue: Queue, now: Stamp)
    requires actions.Keys == {"x"} && Subscribed(actions, queue, "x")
    ensures BatchFans(actions, [Out(queue, now)]) == map[1 := map["x" := |actions["x"]|]]
  {
    FanOfOne(actions, queue);
    var outs := [Out(queue, now)];
    assert outs[0].id == 1;
  }

  lemma SendsOne(s: Sys, queue: Queue, now: Stamp)
    requires s.db == EMPTY.(actions := s.db.actions) && s.db.actions.Keys == {"x"} &&
      Subscribed(s.db.actions, queue, "x")
    requires Free(s) && s.lastId == 0
    ensures CanRequest(s, Send(1, queue, [], Hops(0), 0, now, [1]))
    ensures DoSend(s, Out(queue, now), [1]) == Sent(s, queue, now)
  {
    InsertsOne(s.db.actions, queue, now);
    BatchOne(s.db.actions, queue, now);
    var ids: seq<Id> := [1];
    assert Elements(ids) == {1};
  }

  lemma SendRuns(f: FilterOutcome, es: seq<Event>, s: Sys, queue: Queue, now: Stamp)
    requires Run(Cfg(f), START, es) == s
    requires s.db == EMPTY.(actions := s.db.actions) && s.db.actions.Keys == {"x"} &&
      Subscribed(s.db.actions, queue, "x")
    requires Free(s) && s.lastId == 0
    ensures Run(Cfg(f), START, es + [Request(Send(1, queue, [], Hops(0), 0, now, [1]))]) == Sent(s, queue, now)
  {
    SendsOne(s, queue, now);
    var e := Request(Send(1, queue, [], Hops(0), 0, now, [1]));
    assert Can(Cfg(f), s, e) && Do(Cfg(f), s, e) == Sent(s, queue, now);
    Extend(Cfg(f), es, e);
  }

  lemma FanOfOne(actions: Actions, queue: Queue)
    requires actions.Keys == {"x"} && Subscribed(actions, queue, "x")
    ensures FanOf(actions, queue) == map["x" := |actions["x"]|]
  {
  }

  lemma LoadsOne(f: FilterOutcome, actions: Actions)
    requires actions.Keys == {"x"} && Enabled(actions, "x")
    ensures LoadActions(Cfg(f), actions) == [Info(Cfg(f), actions, "x")]
  {
    SortedName("x");
    assert ["x"][..0] == [];
    assert LoadFrom(Cfg(f), actions, []) == [];
  }

  lemma LoadRuns(f: FilterOutcome, es: seq<Event>, s: Sys, now: Stamp)
    requires Run(Cfg(f), START, es) == s && s.pc.Top? && s.db.actions == ONE
    ensures Run(Cfg(f), START, es + [Dispatch(Load(true, now))]) ==
      s.(pc := Scan(Plan([Info(Cfg(f), ONE, "x")], now), 0))
  {
    Extend(Cfg(f), es, Dispatch(Load(true, now)));
    LoadsOne(f, ONE);
  }

  /** The only row is picked. */
  lemma PickRuns(f: FilterOutcome, es: seq<Event>, s: Sys, infos: seq<ActionInfo>, now: Stamp, msg: Message)
    requires Run(Cfg(f), START, es) == s && s.pc == Scan(Plan(infos, now), 0)
    requires |infos| == 1 && infos[0].name == "x" && !AtCeiling(s.inflight, infos[0])
    requires s.db.deliveries == map[1 := Fresh(1, "x")] && s.db.messages == map[1 := msg]
    ensures Run(Cfg(f), START, es + [Dispatch(Pick(true))]) ==
      s.(pc := Picked(Plan(infos, now), 0, Work(1, Fresh(1, "x"), msg)))
  {
    assert Eligible(s.db, "x", now) == {1};
    assert NextEligible(s.db, "x", now) == Some(1);
    Extend(Cfg(f), es, Dispatch(Pick(true)));
  }

  /** And settled. */
  lemma SettleRuns(f: FilterOutcome, es: seq<Event>, s: Sys, infos: seq<ActionInfo>, now: Stamp, msg: Message,
                   state: State, error: Option<Reason>)
    requires Run(Cfg(f), START, es) == s && s.pc == Picked(Plan(infos, now), 0, Work(1, Fresh(1, "x"), msg))
    requires |infos| == 1 && Decision(Cfg(f), infos[0], msg) == Settle(state, error)
    requires s.db.deliveries == map[1 := Fresh(1, "x")]
    ensures var t := Run(Cfg(f), START, es + [Dispatch(Decide(true))]);
      && t.pc == Adding(-1, false, Scan(Plan(infos, now), 0)) && t.active == s.active && t.h.fans == s.h.fans
      && 1 in t.db.deliveries && t.db.deliveries[1].state == state && t.db.deliveries[1].error == error
  {
    Extend(Cfg(f), es, Dispatch(Decide(true)));
    assert Resolve(s.db, 1, state, error, now).Some?;
  }

  // The runs.

  /** Dispatch loads the registry, a new version arrives and takes a message, and dispatch goes on. */
  function Superseding(now: Stamp): seq<Event> {
    START_UP + [Dispatch(Load(true, now))] + [Request(Register("x", V2))] +
    [Request(Send(1, "b", [], Hops(0), 0, now, [1]))] + [Dispatch(Pick(true))] + [Dispatch(Decide(true))]
  }

  /** A delivery created for version 2 is cancelled as superseded by version 1. */
  lemma SupersededByAnOlderVersion(f: FilterOutcome, now: Stamp)
    ensures var s := Run(Cfg(f), START, Superseding(now));
      && 1 in s.db.deliveries && s.db.deliveries[1].state == Cancelled && s.db.deliveries[1].error ==
        Some(Superseded(1))
      && 1 in s.h.fans && s.h.fans[1] == map["x" := 2]
  {
    StartsUp(f);
    var infos := [Info(Cfg(f), ONE, "x")];
    var e1 := START_UP + [Dispatch(Load(true, now))];
    LoadRuns(f, START_UP, Serving1(ONE, Top), now);
    var e2 := e1 + [Request(Register("x", V2))];
    SecondVersion(f, e1, Serving1(ONE, Scan(Plan(infos, now), 0)));
    var s2 := Serving1(TWO, Scan(Plan(infos, now), 0));
    assert TakesFrom(V2.inputs, "b", 0);
    SendRuns(f, e2, s2, "b", now);
    var e3 := e2 + [Request(Send(1, "b", [], Hops(0), 0, now, [1]))];
    var s3 := Sent(s2, "b", now);
    var msg := Ingress("b", [], Hops(0), 0, now);
    PickRuns(f, e3, s3, infos, now, msg);
    assert InputIndex(infos[0].def, "b").None?;
    SettleRuns(f, e3 + [Dispatch(Pick(true))], s3.(pc := Picked(Plan(infos, now), 0, Work(1, Fresh(1, "x"), msg))),
      infos, now,
               msg, Cancelled, Some(Superseded(1)));
  }

  lemma SecondVersion(f: FilterOutcome, es: seq<Event>, s: Sys)
    requires Run(Cfg(f), START, es) == s && s.db == EMPTY.(actions := ONE) && Free(s)
    ensures Run(Cfg(f), START, es + [Request(Register("x", V2))]) == s.(db := EMPTY.(actions := TWO))
  {
    Extend(Cfg(f), es, Request(Register("x", V2)));
    OnIsValid("b");
    assert V1.inputs[0].queue[0] != V2.inputs[0].queue[0];
    assert ONE["x"] + [Version(V2, true)] == TWO["x"];
    assert Apply(ONE, "x", V2) == TWO;
  }

  /** The scheduler settles a delivery before its handler has counted it. */
  function Undercounting(now: Stamp): seq<Event> {
    START_UP + [Request(Send(1, "a", [], Hops(0), 0, now, [1]))] + [Dispatch(Load(true, now))] +
    [Dispatch(Pick(true))] + [Dispatch(Decide(true))] + [Loop(Add)]
  }

  /** The busy counter passes through minus one. */
  lemma CounterGoesNegative(now: Stamp)
    ensures Run(Cfg(Reject), START, Undercounting(now)).active == -1
  {
    StartsUp(Reject);
    var infos, msg := [Info(Cfg(Reject), ONE, "x")], Ingress("a", [], Hops(0), 0, now);
    assert TakesFrom(V1.inputs, "a", 0);
    SendRuns(Reject, START_UP, Serving1(ONE, Top), "a", now);
    var e1 := START_UP + [Request(Send(1, "a", [], Hops(0), 0, now, [1]))];
    var s1 := Sent(Serving1(ONE, Top), "a", now);
    LoadRuns(Reject, e1, s1, now);
    var e2 := e1 + [Dispatch(Load(true, now))];
    var s2 := s1.(pc := Scan(Plan(infos, now), 0));
    PickRuns(Reject, e2, s2, infos, now, msg);
    var e3 := e2 + [Dispatch(Pick(true))];
    assert InputIndex(infos[0].def, "a") == Some(0);
    SettleRuns(Reject, e3, s2.(pc := Picked(Plan(infos, now), 0, Work(1, Fresh(1, "x"), msg))), infos, now, msg,
      Filtered, None);
    AddRuns(Reject, e3 + [Dispatch(Decide(true))]);
  }

  lemma AddRuns(f: FilterOutcome, es: seq<Event>)
    requires Run(Cfg(f), START, es).pc.Adding?
    ensures var s := Run(Cfg(f), START, es); Run(Cfg(f), START, es + [Loop(Add)]).active == s.active + s.pc.adj
  {
    Extend(Cfg(f), es, Loop(Add));
  }

  /** A request arrives and appends between the tracker's two reads. */
  function Idling(now: Stamp): seq<Event> {
    START_UP + [Request(Depart)] + [Track(Glance)] + [Request(Arrive)] +
    [Request(Send(1, "a", [], Hops(0), 0, now, [1]))] + [Track(Judge)]
  }

  /** The tracker fires with a delivery pending; a request did arrive in between. */
  lemma IdleRace(f: FilterOutcome, now: Stamp)
    ensures var s := Run(Cfg(f), START, Idling(now)); s.tracker == Fired(true) && ActiveIds(s.db) == {1}
  {
    StartsUp(f);
    var s0 := Serving1(ONE, Top);
    var e1 := START_UP + [Request(Depart)];
    Extend(Cfg(f), START_UP, Request(Depart));
    var e2 := e1 + [Track(Glance)];
    Extend(Cfg(f), e1, Track(Glance));
    var e3 := e2 + [Request(Arrive)];
    Extend(Cfg(f), e2, Request(Arrive));
    var s3 := s0.(tracker := Quiet(true));
    assert Run(Cfg(f), START, e3) == s3;
    assert TakesFrom(V1.inputs, "a", 0);
    SendRuns(f, e3, s3, "a", now);
    JudgeRuns(f, e3 + [Request(Send(1, "a", [], Hops(0), 0, now, [1]))], Sent(s3, "a", now));
  }

  lemma JudgeRuns(f: FilterOutcome, es: seq<Event>, s: Sys)
    requires Run(Cfg(f), START, es) == s && s.pc.Top? && s.tracker == Quiet(true) && s.active == 0
    requires s.db.deliveries == map[1 := Fresh(1, "x")]
    ensures var t := Run(Cfg(f), START, es + [Track(Judge)]); t.tracker == Fired(true) && ActiveIds(t.db) == {1}
  {
    Extend(Cfg(f), es, Track(Judge));
    assert ActiveIds(s.db) == {1};
  }

  // A failing resolve.

  /** The registered action rejects the message, and the write that says so fails. */
  function Spinning(now: Stamp): seq<Event> {
    START_UP + [Request(Send(1, "a", [], Hops(0), 0, now, [1]))] + [Dispatch(Load(true, now))] +
    [Dispatch(Pick(true))] + [Dispatch(Decide(false))] + [Dispatch(Pick(true))]
  }

  /** The run is in a state that any number of failing resolves leads back to. */
  lemma DispatchCanSpin(now: Stamp)
    ensures Spins(Cfg(Reject), Run(Cfg(Reject), START, Spinning(now)))
  {
    StartsUp(Reject);
    var infos, msg := [Info(Cfg(Reject), ONE, "x")], Ingress("a", [], Hops(0), 0, now);
    assert TakesFrom(V1.inputs, "a", 0);
    SendRuns(Reject, START_UP, Serving1(ONE, Top), "a", now);
    var e1 := START_UP + [Request(Send(1, "a", [], Hops(0), 0, now, [1]))];
    var s1 := Sent(Serving1(ONE, Top), "a", now);
    LoadRuns(Reject, e1, s1, now);
    var e2 := e1 + [Dispatch(Load(true, now))];
    var s2 := s1.(pc := Scan(Plan(infos, now), 0));
    PickRuns(Reject, e2, s2, infos, now, msg);
    var e3 := e2 + [Dispatch(Pick(true))];
    assert InputIndex(infos[0].def, "a") == Some(0);
    var s3 := s2.(pc := Picked(Plan(infos, now), 0, Work(1, Fresh(1, "x"), msg)));
    RefusedRuns(Reject, e3, s3, infos, now, msg);
    var s4 := Touch(s3, 1).(pc := Scan(Plan(infos, now), 0));
    PickRuns(Reject, e3 + [Dispatch(Decide(false))], s4, infos, now, msg);
    assert Eligible(s4.db, "x", now) == {1};
  }

  lemma RefusedRuns(f: FilterOutcome, es: seq<Event>, s: Sys, infos: seq<ActionInfo>, now: Stamp, msg: Message)
    requires Run(Cfg(f), START, es) == s && s.pc == Picked(Plan(infos, now), 0, Work(1, Fresh(1, "x"), msg))
    requires |infos| == 1 && Decision(Cfg(f), infos[0], msg).Settle? && !IsJoin(infos[0].def)
    ensures Run(Cfg(f), START, es + [Dispatch(Decide(false))]) == Touch(s, 1).(pc := Scan(Plan(infos, now), 0))
  {
    Extend(Cfg(f), es, Dispatch(Decide(false)));
  }

  /** The registry is loaded and the registered action has nothing to do. */
  function Prolonging(now: Stamp): seq<Event> {
    START_UP + [Dispatch(Load(true, now))]
  }

  /** The run is in a state in which one message after another, each rejected, keeps the pass going. */
  lemma IngressCanProlong(now: Stamp, n: nat)
    ensures var s, f := Run(Cfg(Reject), START, Prolonging(now)), Draft("a", [], Hops(0), 0, now);
      && Emptied(Cfg(Reject), s, f) && Unused(s, 1)
      && var c := CountAll(Cfg(Reject), s, Refills(s, f, 1, n)); c.steps == 3 * n && c.failed == 0
  {
    StartsUp(Reject);
    LoadRuns(Reject, START_UP, Serving1(ONE, Top), now);
    var infos, f := [Info(Cfg(Reject), ONE, "x")], Draft("a", [], Hops(0), 0, now);
    var s := Serving1(ONE, Scan(Plan(infos, now), 0));
    assert TakesFrom(V1.inputs, "a", 0);
    SubscribersOne(ONE, "a");
    assert InputIndex(infos[0].def, "a") == Some(0);
    RunInv(Cfg(Reject), Prolonging(now));
    IngressProlongs(Cfg(Reject), s, f, 1, n);
  }

  // A disable while an execution runs.

  const OFF: Actions := map["x" := [Version(V1, false)]]
  const FAILED := Outcome([], [], true)

  /** The only delivery is claimed by the only execution. */
  ghost predicate Held(s: Sys, actions: Actions) {
    && s.db.actions == actions && s.db.deliveries.Keys == {1} && s.execs.Keys == {1} && s.inflight == map["x" := 1]
    && s.db.deliveries[1].state.Claimed? && s.db.deliveries[1].action == "x" && s.inService == 1
    && s.execs[1].info == Info(Cfg(Accept), ONE, "x") && s.execs[1].work.row.attempt == 1
  }

  function Launching(now: Stamp): seq<Event> {
    START_UP + [Request(Send(1, "a", [], Hops(0), 0, now, [1]))] + [Dispatch(Load(true, now))] +
    [Dispatch(Pick(true))] + [Dispatch(Decide(true))]
  }

  lemma Launches(now: Stamp)
    ensures var s := Run(Cfg(Accept), START, Launching(now));
      && Held(s, ONE) && s.execs[1].phase.Starting? && s.committed == [{1}] && s.counted == [] && s.disabling == []
      && s.pc == Scan(Plan([Info(Cfg(Accept), ONE, "x")], now), 0)
  {
    StartsUp(Accept);
    var infos, msg := [Info(Cfg(Accept), ONE, "x")], Ingress("a", [], Hops(0), 0, now);
    assert TakesFrom(V1.inputs, "a", 0);
    SendRuns(Accept, START_UP, Serving1(ONE, Top), "a", now);
    var e1 := START_UP + [Request(Send(1, "a", [], Hops(0), 0, now, [1]))];
    var s1 := Sent(Serving1(ONE, Top), "a", now);
    LoadRuns(Accept, e1, s1, now);
    var e2 := e1 + [Dispatch(Load(true, now))];
    var s2 := s1.(pc := Scan(Plan(infos, now), 0));
    PickRuns(Accept, e2, s2, infos, now, msg);
    var e3 := e2 + [Dispatch(Pick(true))];
    assert InputIndex(infos[0].def, "a") == Some(0);
    LaunchRuns(e3, s2.(pc := Picked(Plan(infos, now), 0, Work(1, Fresh(1, "x"), msg))), infos, now, msg);
  }

  lemma LaunchRuns(es: seq<Event>, s: Sys, infos: seq<ActionInfo>, now: Stamp, msg: Message)
    requires Run(Cfg(Accept), START, es) == s && s.pc == Picked(Plan(infos, now), 0, Work(1, Fresh(1, "x"), msg))
    requires infos == [Info(Cfg(Accept), ONE, "x")] && Decision(Cfg(Accept), infos[0], msg).Launch?
    requires s.db.deliveries == map[1 := Fresh(1, "x")] && s.db.actions == ONE && s.execs == map[] &&
      s.inflight == map[]
    requires s.inService == 1
    ensures var t := Run(Cfg(Accept), START, es + [Dispatch(Decide(true))]);
      && Held(t, ONE) && t.execs[1].phase.Starting? && t.pc == Scan(Plan(infos, now), 0)
      && t.committed == s.committed && t.counted == s.counted && t.disabling == s.disabling
  {
    Extend(Cfg(Accept), es, Dispatch(Decide(true)));
    assert Claim(s.db, 1, 1, now).Some?;
  }

  /** What the steps around the held execution leave alone. */
  ghost predicate Alongside(s: Sys, t: Sys) {
    t.db == s.db && t.execs == s.execs && t.inflight == s.inflight && t.inService == s.inService && t.h.quiet ==
      s.h.quiet
  }

  /** From the end of a scan to the block. */
  lemma Blocks(es: seq<Event>, now: Stamp)
    requires var s := Run(Cfg(Accept), START, es); s.pc.Scan? && s.pc.k >= |s.pc.plan.infos|
    ensures var s := Run(Cfg(Accept), START, es);
      var t := Run(Cfg(Accept), START, es + [Dispatch(Dispatched)] + [Loop(Arm(true, now))]);
      && t.pc.Blocked? && Alongside(s, t)
      && t.committed == s.committed && t.counted == s.counted && t.disabling == s.disabling
  {
    var s := Run(Cfg(Accept), START, es);
    Dispatches(es);
    var m := s.(pc := Arming);
    Extend(Cfg(Accept), es + [Dispatch(Dispatched)], Loop(Arm(true, now)));
    assert Step(Cfg(Accept), m, Loop(Arm(true, now))) == DoArm(m, true, now);
  }

  lemma Dispatches(es: seq<Event>)
    requires var s := Run(Cfg(Accept), START, es); s.pc.Scan? && s.pc.k >= |s.pc.plan.infos|
    ensures Run(Cfg(Accept), START, es + [Dispatch(Dispatched)]) == Run(Cfg(Accept), START, es).(pc := Arming)
  {
    Extend(Cfg(Accept), es, Dispatch(Dispatched));
  }

  lemma CeilingHolds(es: seq<Event>, now: Stamp)
    requires var s := Run(Cfg(Accept), START, es);
      Held(s, ONE) && s.pc == Scan(Plan([Info(Cfg(Accept), ONE, "x")], now), 0)
    ensures var s := Run(Cfg(Accept), START, es);
      Run(Cfg(Accept), START, es + [Dispatch(Next)]) == s.(pc := Scan(Plan([Info(Cfg(Accept), ONE, "x")], now), 1))
  {
    Extend(Cfg(Accept), es, Dispatch(Next));
  }

  /** The handler reports its delivery and nudges. */
  lemma Reports(es: seq<Event>)
    requires var s := Run(Cfg(Accept), START, es); s.committed == [{1}] && s.counted == [] && s.pc.Blocked?
    ensures var s := Run(Cfg(Accept), START, es);
      var t := Run(Cfg(Accept), START, es + [Request(Count(0))] + [Request(Signal(0))]);
      t.committed == [] && t.counted == [] && t.disabling == s.disabling && t.pc.Blocked? && Alongside(s, t)
  {
    Extend(Cfg(Accept), es, Request(Count(0)));
    Extend(Cfg(Accept), es + [Request(Count(0))], Request(Signal(0)));
  }

  /** A disable call goes through while the execution runs. */
  lemma Disables(es: seq<Event>, now: Stamp)
    requires var s := Run(Cfg(Accept), START, es);
      Held(s, ONE) && s.pc.Blocked? && s.committed == [] && s.counted == [] && s.disabling == []
    ensures var s := Run(Cfg(Accept), START, es);
      var t := Run(Cfg(Accept), START, es + [Request(Switch("x", false))] + [Loop(Control(0, true, now))]);
      && Held(t, OFF) && t.execs == s.execs && t.disabling == [] && "x" in t.h.quiet && t.pc == Adding(0, false, Top)
  {
    var s := Run(Cfg(Accept), START, es);
    SwitchesOff(es);
    Controls(es + [Request(Switch("x", false))], now);
  }

  lemma SwitchesOff(es: seq<Event>)
    requires var s := Run(Cfg(Accept), START, es); Held(s, ONE) && Free(s) && s.disabling == []
    ensures var s, t := Run(Cfg(Accept), START, es), Run(Cfg(Accept), START, es + [Request(Switch("x", false))]);
      Held(t, OFF) && t.execs == s.execs && t.disabling == ["x"] && t.pc == s.pc
  {
    var s := Run(Cfg(Accept), START, es);
    Extend(Cfg(Accept), es, Request(Switch("x", false)));
    assert SetEnabled(ONE, "x", false)["x"] == OFF["x"];
    assert DoSwitch(s, "x", false).db.actions == OFF;
  }

  lemma Controls(es: seq<Event>, now: Stamp)
    requires var s := Run(Cfg(Accept), START, es); Held(s, OFF) && s.pc.Blocked? && s.disabling == ["x"]
    ensures var s, t := Run(Cfg(Accept), START, es), Run(Cfg(Accept), START, es + [Loop(Control(0, true, now))]);
      && Held(t, OFF) && t.execs == s.execs && t.disabling == [] && "x" in t.h.quiet && t.pc == Adding(0, false, Top)
  {
    var s := Run(Cfg(Accept), START, es);
    Extend(Cfg(Accept), es, Loop(Control(0, true, now)));
    assert WaitingOf(s.db, "x") == {};
    assert Step(Cfg(Accept), s, Loop(Control(0, true, now))) == DoControl(s, 0, true, now);
  }

  /** The loop goes round with nothing enabled and blocks again. */
  lemma GoesRound(es: seq<Event>, now: Stamp)
    requires var s := Run(Cfg(Accept), START, es); s.pc == Adding(0, false, Top) && s.db.actions == OFF
    ensures var s := Run(Cfg(Accept), START, es);
      var t := Run(Cfg(Accept), START, es + [Loop(Add)] + [Dispatch(Load(true, now))]);
      && Alongside(s, t) && t.disabling == s.disabling && t.pc == Scan(Plan([], now), 0)
  {
    Extend(Cfg(Accept), es, Loop(Add));
    NothingEnabled();
    Extend(Cfg(Accept), es + [Loop(Add)], Dispatch(Load(true, now)));
  }

  lemma NothingEnabled()
    ensures LoadActions(Cfg(Accept), OFF) == []
  {
    SortedName("x");
    assert ["x"][..0] == [];
    assert LoadFrom(Cfg(Accept), OFF, []) == [];
  }

  /** The execution fails with attempts to spare. */
  lemma FailsLate(es: seq<Event>, now: Stamp)
    requires var s := Run(Cfg(Accept), START, es);
      Held(s, OFF) && s.pc.Blocked? && s.execs[1].phase.Starting? && "x" in s.h.quiet && s.disabling == []
    ensures var t := Run(Cfg(Accept), START, es + [Worker(Finish(1, FAILED))] + [Receive(1, true, now, now, [], [])]);
      Stranded(t, "x", 1)
  {
    var s := Run(Cfg(Accept), START, es);
    Extend(Cfg(Accept), es, Worker(Finish(1, FAILED)));
    var m := DoWork(Cfg(Accept), s, Finish(1, FAILED));
    assert Emits(Cfg(Accept), m.execs[1].info, FAILED).None?;
    Extend(Cfg(Accept), es + [Worker(Finish(1, FAILED))], Receive(1, true, now, now, [], []));
    assert Fail(m.db, 1, false, now, Execution, [], now).Some?;
  }

  function Stranding(now: Stamp): seq<Event> {
    Launching(now) + [Dispatch(Next)] + [Dispatch(Dispatched)] + [Loop(Arm(true, now))] +
    [Request(Count(0))] + [Request(Signal(0))] + [Request(Switch("x", false))] + [Loop(Control(0, true, now))] +
    [Loop(Add)] + [Dispatch(Load(true, now))] + [Dispatch(Dispatched)] + [Loop(Arm(true, now))] +
    [Worker(Finish(1, FAILED))] + [Receive(1, true, now, now, [], [])]
  }

  /** A delivery claimed when its action's disable returned fails, and is stranded. */
  lemma DisableCanStrand(now: Stamp)
    ensures Stranded(Run(Cfg(Accept), START, Stranding(now)), "x", 1)
  {
    hide Run;
    Launches(now);
    var e1 := Launching(now) + [Dispatch(Next)];
    CeilingHolds(Launching(now), now);
    Blocks(e1, now);
    var e2 := e1 + [Dispatch(Dispatched)] + [Loop(Arm(true, now))];
    Reports(e2);
    var e3 := e2 + [Request(Count(0))] + [Request(Signal(0))];
    Disables(e3, now);
    var e4 := e3 + [Request(Switch("x", false))] + [Loop(Control(0, true, now))];
    GoesRound(e4, now);
    var e5 := e4 + [Loop(Add)] + [Dispatch(Load(true, now))];
    Blocks(e5, now);
    FailsLate(e5 + [Dispatch(Dispatched)] + [Loop(Arm(true, now))], now);
  }
}
