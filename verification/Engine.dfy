/**
 * The delivery engine as a state machine. Every event is one atomic step: a committed (or failed) transaction,
 * a read, a change of one shared variable, or a message between goroutines. Events of the scheduler, of the
 * workers, of request handlers, of the idle tracker and of the daemon's life interleave freely.
 */
module Engine {
  import opened Bytes
  import opened Keys
  import opened Stamps
  import opened Workflow
  import opened Tables
  import Streams
  import Text

  datatype FilterOutcome = Accept | Reject | CompileError | InputError | EvalError

  /** Policy, with the filter language and JSON validity as parameters. */
  datatype Config = Config(
    maxHops: int,
    defaultMaxAttempts: int,
    stdoutCap: int,
    backoffBase: int,                                  // nanoseconds
    backoffCap: int,
    filter: (Name, nat, Message) -> FilterOutcome,
    valid: Data -> bool
  )

  /** Non-positive settings fall back to the documented defaults. */
  function WithDefaults(cfg: Config): (r: Config)
    ensures r.maxHops > 0 && r.defaultMaxAttempts > 0 && r.stdoutCap > 0 && r.backoffBase > 0 && r.backoffCap > 0
    ensures r.maxHops == cfg.maxHops || (cfg.maxHops <= 0 && r.maxHops == 100)
    ensures r.defaultMaxAttempts == cfg.defaultMaxAttempts || (cfg.defaultMaxAttempts <= 0 && r.defaultMaxAttempts == 3)
    ensures r.stdoutCap == cfg.stdoutCap || (cfg.stdoutCap <= 0 && r.stdoutCap == 4 * 1024 * 1024)
    ensures r.backoffBase == cfg.backoffBase || (cfg.backoffBase <= 0 && r.backoffBase == 1_000_000_000)
    ensures r.backoffCap == cfg.backoffCap || (cfg.backoffCap <= 0 && r.backoffCap == 60 * 1_000_000_000)
    ensures r.filter == cfg.filter && r.valid == cfg.valid
  {
    cfg.(maxHops := if cfg.maxHops <= 0 then 100 else cfg.maxHops,
         defaultMaxAttempts := if cfg.defaultMaxAttempts <= 0 then 3 else cfg.defaultMaxAttempts,
         stdoutCap := if cfg.stdoutCap <= 0 then 4_194_304 else cfg.stdoutCap,
         backoffBase := if cfg.backoffBase <= 0 then 1_000_000_000 else cfg.backoffBase,
         backoffCap := if cfg.backoffCap <= 0 then 60_000_000_000 else cfg.backoffCap)
  }

  /** A decoded current version, as dispatch sees it. */
  datatype ActionInfo = ActionInfo(name: Name, version: nat, def: Definition, concurrency: int, maxAttempts: int)

  function Info(cfg: Config, actions: Actions, name: Name): ActionInfo
    requires Registered(actions, name)
  {
    var def := Current(actions, name).def;
    ActionInfo(name, |actions[name]|, def, Concurrency(def),
               if def.maxAttempts.Some? then def.maxAttempts.value else cfg.defaultMaxAttempts)
  }

  function LoadFrom(cfg: Config, actions: Actions, names: seq<Name>): (r: seq<ActionInfo>)
    ensures forall i :: i in r ==> Enabled(actions, i.name) && i.name in names && i == Info(cfg, actions, i.name)
    ensures forall n :: n in names && Enabled(actions, n) ==> Info(cfg, actions, n) in r
  {
    if names == [] then []
    else
      var n := |names| - 1;
      LoadFrom(cfg, actions, names[..n]) +
      if Enabled(actions, names[n]) then [Info(cfg, actions, names[n])] else []
  }

  /** The current version of every enabled action, by name. */
  function LoadActions(cfg: Config, actions: Actions): (r: seq<ActionInfo>)
    ensures forall i :: i in r ==> Enabled(actions, i.name) && i == Info(cfg, actions, i.name)
    ensures forall n :: Enabled(actions, n) ==> Info(cfg, actions, n) in r
  {
    LoadFrom(cfg, actions, Text.Sorted(actions.Keys))
  }

  /** What one dispatch works from: a snapshot of the registry and a reading of the clock. */
  datatype Plan = Plan(infos: seq<ActionInfo>, now: Stamp)

  /** A delivery as read by NextEligible, with its message. */
  datatype Work = Work(id: Id, row: Row, msg: Message)

  datatype Outcome = Outcome(stdout: Data, stderr: Data, failed: bool)

  datatype Phase = Starting | Running | Finished(outcome: Outcome)

  /** A launched execution; work.row.attempt is the in-memory count. */
  datatype Exec = Exec(info: ActionInfo, work: Work, phase: Phase)

  /** Where the scheduler goroutine is. */
  datatype Pc =
    | Down
    | Reaping(todo: seq<Id>)
    | Seeding
    | Top
    | Scan(plan: Plan, k: nat)
    | Picked(plan: Plan, k: nat, work: Work)
    | Arming
    | Blocked
    | Draining
    | Adding(adj: int, poke: bool, next: Pc)
    | Poking(next: Pc)

  /** The idle tracker between its reads: has a request arrived since InFlight read zero? */
  datatype Tracker = Watching | Quiet(arrived: bool) | Fired(arrived: bool)

  /** What the retry timer was last set to, in nanoseconds from the reading armedAt. */
  datatype Timer = Idle | Set(armedAt: Stamp, delay: int)

  /** What a successful completion emitted. */
  datatype Emission = Emission(stdout: Data, mids: seq<Id>)

  datatype Tally = Tally(claims: nat, reaps: nat)

  /** History variables: no step reads them. */
  datatype History = History(
    outbox: map<Id, Emission>,        // per completed delivery
    fans: map<Id, map<Name, nat>>,    // per message: subscribers at append, with the version materialised against
    tallies: map<Id, Tally>,          // per delivery: claims and reaps since creation or the last replay
    order: seq<Id>,                   // deliveries of this process, in commit order
    touched: set<Id>,                 // deliveries vetted or cancelled
    stuck: set<Id>,                   // claimed rows whose completing or failing write failed, this process
    quiet: set<Name>                  // actions whose disable has returned, not enabled since
  )

  datatype Sys = Sys(
    db: Db,
    pc: Pc,
    active: int,
    inflight: map<Name, int>,
    execs: map<Id, Exec>,
    nudge: bool,
    timer: Timer,
    inService: nat,
    committed: seq<set<Id>>,   // handlers that committed these rows and have not added them to active
    counted: seq<set<Id>>,     // handlers that added theirs and have not nudged
    disabling: seq<Name>,      // disable handlers waiting for the scheduler
    tracker: Tracker,
    lastId: Id,
    h: History
  )

  datatype DaemonEvent = Crash | Boot | Reap(ok: bool, now: Stamp) | Reaped | Seed | Stop | Exit

  /** One pass of dispatch. */
  datatype DispatchEvent = Load(ok: bool, now: Stamp) | Next | Pick(ok: bool) | Decide(ok: bool) | Dispatched

  /** The loop outside dispatch, other than applying a result. */
  datatype LoopEvent =
    | Arm(ok: bool, now: Stamp) | Add | Poke | Wake | Expire | Control(k: nat, ok: bool, now: Stamp)

  datatype WorkerEvent = Record(id: Id, ok: bool, pgid: int) | Finish(id: Id, outcome: Outcome)

  datatype RequestEvent =
    | Arrive | Depart
    | Send(mid: Id, queue: Queue, payload: Data, headers: Headers, trace: Id, now: Stamp, ids: seq<Id>)
    | ReplayRow(id: Id) | Count(k: nat) | Signal(k: nat)
    | Register(name: Name, def: Definition) | Switch(name: Name, on: bool) | Abandon(k: nat)

  datatype TrackerEvent = Glance | Judge

  datatype Event =
    | Daemon(d: DaemonEvent)
    | Dispatch(p: DispatchEvent)
    | Loop(l: LoopEvent)
    | Receive(id: Id, ok: bool, now: Stamp, gate: Stamp, mids: seq<Id>, ids: seq<Id>)
    | Worker(w: WorkerEvent)
    | Request(q: RequestEvent)
    | Track(t: TrackerEvent)

  const NO_HISTORY := History(map[], map[], map[], [], {}, {}, {})

  const START := Sys(EMPTY, Down, 0, map[], map[], false, Idle, 0, [], [], [], Watching, 0, NO_HISTORY)

  // Decisions.

  datatype Verdict = Launch | Settle(state: State, error: Option<Reason>)

  /** The pre-execution checks, in order. */
  function Vet(cfg: Config, info: ActionInfo, msg: Message): Verdict {
    if InputIndex(info.def, msg.queue).None? then Settle(Cancelled, Some(Superseded(info.version)))
    else if msg.headers.Undecodable? then Settle(Dead, Some(BadHeaders))
    else if MessageHops(msg.headers) >= cfg.maxHops then Settle(Dead, Some(HopLimit))
    else
      match cfg.filter(info.name, info.version, msg)
      case CompileError => Settle(Dead, Some(BadDefinition))
      case InputError => Settle(Dead, Some(BadInput))
      case EvalError => Settle(Dead, Some(FilterError))
      case Reject => Settle(Filtered, None)
      case Accept => Launch
  }

  /** Absent means zero; undecodable headers read as zero where the error is ignored. */
  function MessageHops(headers: Headers): int {
    if headers.Hops? then headers.n else 0
  }

  /** A join's waiting deliveries are all superseded. */
  function Decision(cfg: Config, info: ActionInfo, msg: Message): Verdict {
    if IsJoin(info.def) then Settle(Cancelled, Some(Superseded(info.version))) else Vet(cfg, info, msg)
  }

  /** Payloads a finished execution emits; None when it counts as failed. */
  function Emits(cfg: Config, info: ActionInfo, o: Outcome): Option<seq<Data>> {
    if o.failed then None
    else
      var lines := Streams.Parse(cfg.valid, o.stdout);
      if lines.None? then None else Some(if info.def.output == "" then [] else lines.value)
  }

  function OutputMessage(x: Exec, payload: Data, now: Stamp): Message {
    Message(x.info.def.output, payload, Hops(MessageHops(x.work.msg.headers) + 1), x.work.msg.trace,
            Some(Origin(x.info.name, x.info.version, x.work.row.msg)), now)
  }

  function BuildOutputs(x: Exec, payloads: seq<Data>, mids: seq<Id>, now: Stamp): (outs: seq<Outgoing>)
    requires |mids| == |payloads|
    ensures |outs| == |payloads|
    ensures forall i | 0 <= i < |outs| :: outs[i] == Outgoing(mids[i], OutputMessage(x, payloads[i], now))
  {
    seq(|payloads|, i requires 0 <= i < |payloads| => Outgoing(mids[i], OutputMessage(x, payloads[i], now)))
  }

  /** The headers are the caller's own, stamped; Stamping says what becomes of the hops. */
  function Ingress(queue: Queue, payload: Data, headers: Headers, trace: Id, now: Stamp): Message {
    Message(queue, payload, headers, trace, None, now)
  }

  function InFlight(inflight: map<Name, int>, name: Name): int {
    if name in inflight then inflight[name] else 0
  }

  // Guards.

  predicate Serving(pc: Pc) {
    !pc.Down? && !pc.Reaping? && !pc.Seeding?
  }

  /** A handler in service that is not in the middle of something else. */
  predicate Free(s: Sys) {
    Serving(s.pc) && |s.committed| + |s.counted| + |s.disabling| < s.inService
  }

  /** NewID within one process only moves forward. */
  predicate Later(last: Id, ids: seq<Id>) {
    Increasing(ids) && (ids != [] ==> last < ids[0])
  }

  function LastOf(last: Id, ids: seq<Id>): Id {
    if ids == [] then last else ids[|ids| - 1]
  }

  predicate Receivable(s: Sys, id: Id) {
    (s.pc.Blocked? || s.pc.Draining?) && id in s.execs && s.execs[id].phase.Finished?
  }

  ghost predicate CanReceive(cfg: Config, s: Sys, id: Id, now: Stamp, mids: seq<Id>, ids: seq<Id>) {
    && Receivable(s, id)
    && var x := s.execs[id];
       var emits := Emits(cfg, x.info, x.phase.outcome);
       && emits.Some? ==> |mids| == |emits.value| && Increasing(mids) && Later(s.lastId, ids) &&
                          Insertable(s.db, BuildOutputs(x, emits.value, mids, now), ids)
  }

  predicate CanDaemon(s: Sys, d: DaemonEvent) {
    match d
    case Crash => true
    case Boot => s.pc.Down?
    case Reap(_, _) => s.pc.Reaping? && s.pc.todo != []
    case Reaped => s.pc.Reaping? && s.pc.todo == []
    case Seed => s.pc.Seeding?
    case Stop => s.pc.Blocked?
    case Exit => s.pc.Draining? && (forall n | n in s.inflight :: s.inflight[n] <= 0)
  }

  predicate CanDispatch(s: Sys, p: DispatchEvent) {
    match p
    case Load(_, _) => s.pc.Top?
    case Next => s.pc.Scan? && s.pc.k < |s.pc.plan.infos| && AtCeiling(s.inflight, s.pc.plan.infos[s.pc.k])
    case Pick(_) => s.pc.Scan? && s.pc.k < |s.pc.plan.infos| && !AtCeiling(s.inflight, s.pc.plan.infos[s.pc.k])
    case Decide(_) => s.pc.Picked? && s.pc.k < |s.pc.plan.infos|
    case Dispatched => s.pc.Scan? && s.pc.k >= |s.pc.plan.infos|
  }

  predicate CanLoop(s: Sys, l: LoopEvent) {
    match l
    case Arm(_, _) => s.pc.Arming?
    case Add => s.pc.Adding?
    case Poke => s.pc.Poking?
    case Wake => s.pc.Blocked? && s.nudge
    case Expire => s.pc.Blocked?
    case Control(k, _, _) => s.pc.Blocked? && k < |s.disabling|
  }

  predicate CanWork(cfg: Config, s: Sys, w: WorkerEvent) {
    match w
    case Record(id, _, _) => id in s.execs && s.execs[id].phase.Starting?
    case Finish(id, o) =>
      id in s.execs && !s.execs[id].phase.Finished? && (!o.failed ==> |o.stdout| <= cfg.stdoutCap)
  }

  ghost predicate CanRequest(s: Sys, q: RequestEvent) {
    match q
    case Arrive => Serving(s.pc)
    case Depart => Free(s)
    case Send(mid, queue, payload, headers, trace, now, ids) =>
      Free(s) && Later(s.lastId, ids) &&
      Insertable(s.db, [Outgoing(mid, Ingress(queue, payload, headers, trace, now))], ids)
    case ReplayRow(id) => Free(s) && Replay(s.db, id).Replayed?
    case Count(k) => k < |s.committed|
    case Signal(k) => k < |s.counted|
    case Register(name, def) => Free(s) && Valid(def)
    case Switch(name, _) => Free(s) && Registered(s.db.actions, name)
    case Abandon(k) => k < |s.disabling|
  }

  predicate CanTrack(s: Sys, t: TrackerEvent) {
    match t
    case Glance => Serving(s.pc) && s.tracker.Watching? && s.inService == 0
    case Judge => Serving(s.pc) && s.tracker.Quiet?
  }

  ghost predicate Can(cfg: Config, s: Sys, e: Event) {
    match e
    case Daemon(d) => CanDaemon(s, d)
    case Dispatch(p) => CanDispatch(s, p)
    case Loop(l) => CanLoop(s, l)
    case Receive(id, _, now, _, mids, ids) => CanReceive(cfg, s, id, now, mids, ids)
    case Worker(w) => CanWork(cfg, s, w)
    case Request(q) => CanRequest(s, q)
    case Track(t) => CanTrack(s, t)
  }

  /** Joins are never held back by the ceiling. */
  predicate AtCeiling(inflight: map<Name, int>, info: ActionInfo) {
    !IsJoin(info.def) && InFlight(inflight, info.name) >= info.concurrency
  }

  // Steps.

  /** Everything but the tables and their history is lost. */
  function Lose(s: Sys): Sys {
    START.(db := s.db, h := s.h.(order := [], stuck := {}))
  }

  function TallyOf(h: History, id: Id): Tally {
    if id in h.tallies then h.tallies[id] else Tally(0, 0)
  }

  function DoReap(s: Sys, ok: bool, now: Stamp): Sys
    requires s.pc.Reaping? && s.pc.todo != []
  {
    var id := s.pc.todo[0];
    if !ok then Lose(s)
    else
      var t := TallyOf(s.h, id);
      s.(pc := Reaping(s.pc.todo[1..]), db := ResetOrphan(s.db, id, now),
         h := if id in ClaimedIds(s.db) then s.h.(tallies := s.h.tallies[id := t.(reaps := t.reaps + 1)]) else s.h)
  }

  function DoPick(s: Sys, ok: bool): Sys
    requires s.pc.Scan? && s.pc.k < |s.pc.plan.infos|
  {
    var plan, k := s.pc.plan, s.pc.k;
    var found := NextEligible(s.db, plan.infos[k].name, plan.now);
    if !ok || found.None? then s.(pc := Scan(plan, k + 1))
    else
      var row := s.db.deliveries[found.value];
      s.(pc := Picked(plan, k, Work(found.value, row, s.db.messages[row.msg])))
  }

  /** The scheduler has looked at this row; its state may not change. */
  function Touch(s: Sys, id: Id): Sys {
    s.(h := s.h.(touched := s.h.touched + {id}))
  }

  /** A terminal state without an execution; the counter is adjusted next. */
  function DoSettle(s: Sys, db: Db, plan: Plan, k: nat, id: Id): Sys {
    s.(db := db, pc := Adding(-1, false, Scan(plan, k)), h := s.h.(touched := s.h.touched + {id}))
  }

  function Launched(info: ActionInfo, w: Work): Exec {
    Exec(info, w.(row := w.row.(attempt := w.row.attempt + 1)), Starting)
  }

  /** The claim has committed: count the execution and hand it to a worker. */
  function DoLaunch(s: Sys, db: Db, plan: Plan, k: nat, info: ActionInfo, w: Work): Sys {
    var tally := TallyOf(s.h, w.id);
    s.(db := db, pc := Scan(plan, k),
       inflight := s.inflight[info.name := InFlight(s.inflight, info.name) + 1],
       execs := s.execs[w.id := Launched(info, w)],
       h := s.h.(touched := s.h.touched + {w.id}, tallies := s.h.tallies[w.id := tally.(claims := tally.claims + 1)]))
  }

  function DoDecide(cfg: Config, s: Sys, ok: bool): Sys
    requires s.pc.Picked? && s.pc.k < |s.pc.plan.infos|
  {
    var plan, k, w := s.pc.plan, s.pc.k, s.pc.work;
    var info := plan.infos[k];
    match Decision(cfg, info, w.msg)
    case Settle(state, error) =>
      var r := if ok then Resolve(s.db, w.id, state, error, plan.now) else None;
      if r.Some? then DoSettle(s, r.value, plan, k, w.id)
      else Touch(s, w.id).(pc := Scan(plan, if IsJoin(info.def) then k + 1 else k))
    case Launch =>
      var r := if ok then Claim(s.db, w.id, info.version, plan.now) else None;
      if r.Some? then DoLaunch(s, r.value, plan, k, info, w)
      else Touch(s, w.id).(pc := Scan(plan, k + 1))
  }

  function DoArm(s: Sys, ok: bool, now: Stamp): Sys {
    var next := if ok then NextRetryAt(s.db) else None;
    if next.None? then s.(pc := Blocked, timer := Idle)
    else
      var d := Instant(next.value) - Instant(now);
      s.(pc := Blocked, timer := Set(now, if d < 0 then 0 else d))
  }

  /** The subscribers of a queue, each with its current version. */
  function FanOf(actions: Actions, queue: Queue): map<Name, nat> {
    map n | n in actions && Subscribed(actions, queue, n) :: |actions[n]|
  }

  /** The fans of a batch, as fixed by the registry it is inserted under. */
  ghost function BatchFans(actions: Actions, outs: seq<Outgoing>): (r: map<Id, map<Name, nat>>)
    requires DistinctIds(outs)
    ensures forall m :: m in r <==> Among(outs, m)
    ensures forall i | 0 <= i < |outs| :: outs[i].id in r && r[outs[i].id] == FanOf(actions, outs[i].msg.queue)
  {
    map i | 0 <= i < |outs| :: outs[i].id := FanOf(actions, outs[i].msg.queue)
  }

  ghost function RecordInsert(h: History, actions: Actions, outs: seq<Outgoing>, ids: seq<Id>): History
    requires DistinctIds(outs)
  {
    h.(fans := h.fans + BatchFans(actions, outs), order := h.order + ids)
  }

  function Back(pc: Pc): Pc {
    if pc.Draining? then Draining else Top
  }

  /** The execution is off the books. */
  function Release(s: Sys, id: Id): Sys
    requires id in s.execs
  {
    var name := s.execs[id].info.name;
    s.(inflight := s.inflight[name := InFlight(s.inflight, name) - 1], execs := s.execs - {id})
  }

  /** The closing write failed: the row stays claimed for the next daemon's reaper. */
  function DoLose(s: Sys, id: Id): Sys
    requires id in s.execs
  {
    Release(s, id).(pc := Back(s.pc), h := s.h.(stuck := s.h.stuck + {id}))
  }

  ghost function DoEmit(s: Sys, db: Db, id: Id, emission: Emission, outs: seq<Outgoing>, ids: seq<Id>): Sys
    requires id in s.execs && DistinctIds(outs)
  {
    Release(s, id).(db := db, pc := Adding(|ids| - 1, true, Back(s.pc)), lastId := LastOf(s.lastId, ids),
      h := RecordInsert(s.h.(outbox := s.h.outbox[id := emission]), s.db.actions, outs, ids))
  }

  function DoFail(s: Sys, db: Db, id: Id, dead: bool): Sys
    requires id in s.execs
  {
    Release(s, id).(db := db, pc := if dead then Adding(-1, true, Back(s.pc)) else Poking(Back(s.pc)))
  }

  ghost function DoReceive(cfg: Config, s: Sys, id: Id, ok: bool, now: Stamp, gate: Stamp, mids: seq<Id>,
                           ids: seq<Id>): Sys
    requires CanReceive(cfg, s, id, now, mids, ids)
  {
    var x := s.execs[id];
    var o := x.phase.outcome;
    var emits := Emits(cfg, x.info, o);
    if emits.Some? then
      var outs := BuildOutputs(x, emits.value, mids, now);
      var r := if ok then Complete(s.db, id, o.stderr, outs, ids, now) else None;
      if r.Some? then DoEmit(s, r.value, id, Emission(o.stdout, mids), outs, ids) else DoLose(s, id)
    else
      var dead := x.work.row.attempt >= x.info.maxAttempts;
      var reason := if o.failed then Execution else BadStdout;
      var r := if ok then Fail(s.db, id, dead, gate, reason, o.stderr, now) else None;
      if r.Some? then DoFail(s, r.value, id, dead) else DoLose(s, id)
  }

  /** Cancels inside the scheduler goroutine and answers the waiting handler. */
  function DoControl(s: Sys, k: nat, ok: bool, now: Stamp): Sys
    requires k < |s.disabling|
  {
    var name := s.disabling[k];
    var t := s.(disabling := s.disabling[..k] + s.disabling[k + 1..]);
    if !ok then t.(pc := Top)
    else
      var gone := WaitingOf(s.db, name);
      t.(db := CancelAll(s.db, name, ActionDisabled, now), pc := Adding(-|gone|, false, Top),
         h := s.h.(touched := s.h.touched + gone,
                   quiet := if Enabled(s.db.actions, name) then s.h.quiet else s.h.quiet + {name}))
  }

  ghost function DoSend(s: Sys, out: Outgoing, ids: seq<Id>): Sys
    requires Insertable(s.db, [out], ids)
  {
    s.(db := Insert(s.db, [out], ids), lastId := LastOf(s.lastId, ids),
       committed := if ids == [] then s.committed else s.committed + [Elements(ids)],
       h := RecordInsert(s.h, s.db.actions, [out], ids))
  }

  function DoReplay(s: Sys, id: Id): Sys
    requires Replay(s.db, id).Replayed?
  {
    s.(db := Replay(s.db, id).db, committed := s.committed + [{id}],
       h := s.h.(tallies := s.h.tallies[id := Tally(0, 0)]))
  }

  function DoSwitch(s: Sys, name: Name, on: bool): Sys
    requires Registered(s.db.actions, name)
  {
    s.(db := s.db.(actions := SetEnabled(s.db.actions, name, on)),
       disabling := if on then s.disabling else s.disabling + [name],
       h := if on then s.h.(quiet := s.h.quiet - {name}) else s.h)
  }

  function DoDaemon(s: Sys, d: DaemonEvent): Sys
    requires CanDaemon(s, d)
  {
    match d
    case Crash => Lose(s)
    case Boot => Lose(s).(pc := Reaping(Keys.Sorted(ClaimedIds(s.db))))
    case Reap(ok, now) => DoReap(s, ok, now)
    case Reaped => s.(pc := Seeding)
    case Seed => s.(pc := Top, active := |ActiveIds(s.db)|)
    case Stop => s.(pc := Draining)
    case Exit => Lose(s)
  }

  function DoDispatch(cfg: Config, s: Sys, p: DispatchEvent): Sys
    requires CanDispatch(s, p)
  {
    match p
    case Load(ok, now) => s.(pc := if ok then Scan(Plan(LoadActions(cfg, s.db.actions), now), 0) else Arming)
    case Next => s.(pc := Scan(s.pc.plan, s.pc.k + 1))
    case Pick(ok) => DoPick(s, ok)
    case Decide(ok) => DoDecide(cfg, s, ok)
    case Dispatched => s.(pc := Arming)
  }

  function DoLoop(s: Sys, l: LoopEvent): Sys
    requires CanLoop(s, l)
  {
    match l
    case Arm(ok, now) => DoArm(s, ok, now)
    case Add => s.(active := s.active + s.pc.adj, pc := if s.pc.poke then Poking(s.pc.next) else s.pc.next)
    case Poke => s.(nudge := true, pc := s.pc.next)
    case Wake => s.(nudge := false, pc := Top)
    case Expire => s.(pc := Top)
    case Control(k, ok, now) => DoControl(s, k, ok, now)
  }

  function DoWork(cfg: Config, s: Sys, w: WorkerEvent): Sys
    requires CanWork(cfg, s, w)
  {
    match w
    case Record(id, ok, pgid) =>
      s.(db := if ok then SetPgid(s.db, id, pgid) else s.db, execs := s.execs[id := s.execs[id].(phase := Running)])
    case Finish(id, o) => s.(execs := s.execs[id := s.execs[id].(phase := Finished(o))])
  }

  ghost function DoRequest(s: Sys, q: RequestEvent): Sys
    requires CanRequest(s, q)
  {
    match q
    case Arrive => s.(inService := s.inService + 1, tracker := if s.tracker.Quiet? then Quiet(true) else s.tracker)
    case Depart => s.(inService := s.inService - 1)
    case Send(mid, queue, payload, headers, trace, now, ids) =>
      DoSend(s, Outgoing(mid, Ingress(queue, payload, headers, trace, now)), ids)
    case ReplayRow(id) => DoReplay(s, id)
    case Count(k) =>
      s.(active := s.active + |s.committed[k]|, committed := s.committed[..k] + s.committed[k + 1..],
         counted := s.counted + [s.committed[k]])
    case Signal(k) => s.(nudge := true, counted := s.counted[..k] + s.counted[k + 1..])
    case Register(name, def) => s.(db := s.db.(actions := Apply(s.db.actions, name, def)))
    case Switch(name, on) => DoSwitch(s, name, on)
    case Abandon(k) => s.(disabling := s.disabling[..k] + s.disabling[k + 1..])
  }

  function DoTrack(s: Sys, t: TrackerEvent): Sys
    requires CanTrack(s, t)
  {
    match t
    case Glance => s.(tracker := Quiet(false))
    case Judge => s.(tracker := if s.active > 0 then Watching else Fired(s.tracker.arrived))
  }

  ghost function Do(cfg: Config, s: Sys, e: Event): Sys
    requires Can(cfg, s, e)
  {
    match e
    case Daemon(d) => DoDaemon(s, d)
    case Dispatch(p) => DoDispatch(cfg, s, p)
    case Loop(l) => DoLoop(s, l)
    case Receive(id, ok, now, gate, mids, ids) => DoReceive(cfg, s, id, ok, now, gate, mids, ids)
    case Worker(w) => DoWork(cfg, s, w)
    case Request(q) => DoRequest(s, q)
    case Track(t) => DoTrack(s, t)
  }

  // Runs.

  /** An event that is not enabled does not happen. */
  ghost function Step(cfg: Config, s: Sys, e: Event): Sys {
    if Can(cfg, s, e) then Do(cfg, s, e) else s
  }

  /** The state after any sequence of events. */
  ghost function Run(cfg: Config, s: Sys, es: seq<Event>): Sys {
    if es == [] then s else Step(cfg, Run(cfg, s, es[..|es| - 1]), es[|es| - 1])
  }

  lemma {:induction false} RunAppend(cfg: Config, s: Sys, es: seq<Event>, fs: seq<Event>)
    ensures Run(cfg, s, es + fs) == Run(cfg, Run(cfg, s, es), fs)
  {
    if fs == [] {
      assert es + fs == es;
    } else {
      var n := |fs| - 1;
      assert (es + fs)[..|es + fs| - 1] == es + fs[..n];
      RunAppend(cfg, s, es, fs[..n]);
    }
  }
}
