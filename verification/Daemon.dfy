/**
 * The daemon around the scheduler: its startup order, the reaper, the request handlers and the idle tracker, in
 * place. As in Scheduler, every method takes the engine from one reachable state to another.
 */
module Daemon {
  import opened Bytes
  import opened Keys
  import opened Stamps
  import opened Workflow
  import opened Tables
  import opened Columns
  import opened Engine
  import opened Ownership
  import opened Database
  import B = Busy
  import Frames
  import O = Outcomes
  import S = Scheduler
  import Stamping

  // Startup.

  /** One orphan more: its row is reset, or the daemon gives up. */
  lemma ReapStep(cfg: Config, s: Sys, es: seq<Event>, ok: bool, now: Stamp)
    requires S.Reached(cfg, s, es) && s.pc.Reaping? && s.pc.todo != []
    ensures var t := DoReap(s, ok, now);
      && S.Reached(cfg, t, es + [Event.Daemon(Reap(ok, now))])
      && t.db == (if ok then ResetOrphan(s.db, s.pc.todo[0], now) else s.db)
      && t.pc == (if ok then Reaping(s.pc.todo[1..]) else Pc.Down)
      && t.active == (if ok then s.active else 0) && t.inflight == (if ok then s.inflight else map[])
      && t.nudge == (ok && s.nudge) && t.timer == (if ok then s.timer else Idle)
  {
    S.ReachedNext(cfg, s, es, Event.Daemon(Reap(ok, now)));
  }

  /** A fresh process: everything but the tables is at its start. */
  predicate Blank(s: Sys) {
    s.active == 0 && s.inflight == map[] && !s.nudge && s.timer == Idle
  }

  lemma BootStep(cfg: Config, s: Sys, es: seq<Event>)
    requires S.Reached(cfg, s, es) && s.pc.Down?
    ensures var t := DoDaemon(s, Boot);
      && S.Reached(cfg, t, es + [Event.Daemon(Boot)]) && t.db == s.db && Blank(t)
      && t.pc == Reaping(Keys.Sorted(ClaimedIds(s.db)))
  {
    S.ReachedNext(cfg, s, es, Event.Daemon(Boot));
  }

  lemma ReapedStep(cfg: Config, s: Sys, es: seq<Event>)
    requires S.Reached(cfg, s, es) && s.pc == Reaping([])
    ensures var t := s.(pc := Seeding);
      S.Reached(cfg, t, es + [Event.Daemon(Reaped)]) && ClaimedIds(t.db) == {}
  {
    S.ReachedInv(cfg, s, es);
    S.ReachedNext(cfg, s, es, Event.Daemon(Reaped));
  }

  /** Resets every claimed row, oldest first, and stops at the first write that fails. */
  method ReapOrphans(cfg: Config, st: Store, nows: seq<Stamp>, ghost s: Sys, ghost log: seq<Event>)
    returns (ok: bool, ghost t: Sys, ghost es: seq<Event>)
    requires S.Reached(cfg, s, log) && s.db == st.Contents() && Blank(s)
    requires s.pc == Reaping(Keys.Sorted(ClaimedIds(st.Contents())))
    requires |nows| == |Keys.Sorted(ClaimedIds(st.Contents()))|
    modifies st`deliveries, st`outages
    ensures S.Reached(cfg, t, es) && t.db == st.Contents() && Blank(t)
    ensures t.pc == if ok then Reaping([]) else Pc.Down
    ensures old(st.outages) == [] ==> ok
  {
    var orphans := Keys.Sorted(ClaimedIds(st.Contents()));
    t, es, ok := s, log, true;
    var i := 0;
    while i < |orphans|
      invariant 0 <= i <= |orphans| && S.Reached(cfg, t, es) && t.db == st.Contents() && Blank(t)
      invariant t.pc == Reaping(orphans[i..]) && (old(st.outages) == [] ==> st.outages == [])
    {
      ReapStep(cfg, t, es, !Failing(st.outages), nows[i]);
      t, es := DoReap(t, !Failing(st.outages), nows[i]), es + [Event.Daemon(Reap(!Failing(st.outages), nows[i]))];
      assert orphans[i..][0] == orphans[i] && orphans[i..][1..] == orphans[i + 1..];
      ok := st.ResetOrphanRow(orphans[i], nows[i]);
      if !ok {
        return;
      }
      i := i + 1;
    }
    assert orphans[i..] == [];
  }

  /**
   * The startup order: reap, build, seed. Only then is there a scheduler for the handlers to talk to, and from the
   * tables alone it starts with no row claimed and a counter equal to the number of active rows.
   */
  method StartUp(cfg: Config, st: Store, nows: seq<Stamp>, ghost s: Sys, ghost log: seq<Event>)
    returns (sched: S.Scheduler?)
    requires S.Reached(WithDefaults(cfg), s, log) && s.pc.Down? && s.db == st.Contents()
    requires |nows| == |Keys.Sorted(ClaimedIds(st.Contents()))|
    modifies st`deliveries, st`outages
    ensures old(st.outages) == [] ==> sched != null
    ensures sched != null ==> fresh(sched) && sched.Valid() && sched.st == st && sched.cfg == WithDefaults(cfg)
    ensures sched != null ==> sched.sys.pc.Top? && ClaimedIds(st.Contents()) == {}
    ensures sched != null ==> sched.active == |ActiveIds(st.Contents())|
  {
    BootStep(WithDefaults(cfg), s, log);
    var ok;
    ghost var t, es;
    ok, t, es := ReapOrphans(WithDefaults(cfg), st, nows, DoDaemon(s, Boot), log + [Event.Daemon(Boot)]);
    if !ok {
      return null;
    }
    ReapedStep(WithDefaults(cfg), t, es);
    sched := new S.Scheduler(cfg, st, t.(pc := Seeding), es + [Event.Daemon(Reaped)]);
    sched.Seed();
  }

  // Requests.

  datatype Reply = Accepted | Invalid | NotFoundReply | Conflict | Unavailable

  const NULL_LITERAL: Data := [110, 117, 108, 108]

  class Server {
    const sched: S.Scheduler
    const idle: IdleTracker
    var inFlight: int

    constructor (sched: S.Scheduler, idle: IdleTracker)
      requires sched.Valid() && sched.sys.inService == 0 && sched.sys.tracker.Watching?
      requires idle.Valid() && !idle.looking && !idle.probing && !idle.fired
      ensures Valid() && this.sched == sched && this.idle == idle && inFlight == 0
    {
      this.sched, this.idle, inFlight := sched, idle, 0;
    }

    ghost predicate Valid()
      reads this, sched, sched.st, idle
    {
      && sched.Valid() && idle.Valid() && inFlight == sched.sys.inService
      && Watches(sched.sys.tracker, idle.probing, idle.fired, |idle.touches| > idle.seen)
    }

    /** A request arrives, and the idle tracker learns of it. */
    method Begin(now: int)
      requires Valid() && Serving(sched.sys.pc) && now >= idle.last
      modifies this, idle, sched`sys, sched`log
      ensures Valid() && inFlight == old(inFlight) + 1 && sched.log == old(sched.log) + [Request(Arrive)]
      ensures idle.touches == old(idle.touches) + [now]
      ensures idle.before == old(idle.before) && idle.seen == old(idle.seen)
      ensures idle.looking == old(idle.looking) && idle.probing == old(idle.probing) && idle.fired == old(idle.fired)
    {
      RecordArrive();
      inFlight := inFlight + 1;
      idle.Touch(now);
    }

    ghost method RecordArrive()
      requires S.Reached(sched.cfg, sched.sys, sched.log) && Serving(sched.sys.pc)
      modifies sched`sys, sched`log
      ensures S.Reached(sched.cfg, sched.sys, sched.log) && sched.log == old(sched.log) + [Request(Arrive)]
      ensures sched.sys == old(sched.sys).(inService := old(sched.sys).inService + 1,
        tracker := if old(sched.sys).tracker.Quiet? then Tracker.Quiet(true) else old(sched.sys).tracker)
    {
      sched.Record(Request(Arrive));
    }

    method End()
      requires Valid() && Free(sched.sys)
      modifies this, sched`sys, sched`log
      ensures Valid() && inFlight == old(inFlight) - 1 && sched.log == old(sched.log) + [Request(Depart)]
    {
      sched.Record(Request(Depart));
      inFlight := inFlight - 1;
    }

    // The idle tracker's tick, at its three reads. Anything may happen between them.

    /** Quiet for long enough? Then the requests in service are worth reading. */
    method Look(now: int)
      requires Valid() && !idle.looking && !idle.probing && !idle.fired && now >= idle.last
      modifies idle
      ensures Valid() && !idle.probing && !idle.fired && idle.touches == old(idle.touches)
      ensures idle.looking <==> now - old(idle.last) >= idle.timeout
      ensures idle.looking ==> idle.before == |idle.touches| && idle.looked == now
    {
      if now - idle.last < idle.timeout {
        return;
      }
      idle.See(now);
    }

    /** No request in service? Then the busy counter is. Requests may have come and gone since the first read. */
    method Glance(now: int)
      requires Valid() && Serving(sched.sys.pc) && idle.looking && now >= idle.last
      modifies idle, sched`sys, sched`log
      ensures Valid() && !idle.looking && !idle.fired && (idle.probing <==> inFlight <= 0)
      ensures idle.probing ==> sched.log == old(sched.log) + [Track(TrackerEvent.Glance)]
      ensures idle.probing ==> idle.touches == old(idle.touches) && idle.seen == |idle.touches|
      ensures idle.probing ==> idle.before == old(idle.before) && idle.looked == old(idle.looked)
      ensures !idle.probing ==> sched.log == old(sched.log) && idle.touches == old(idle.touches) + [now]
    {
      if inFlight > 0 {
        idle.Touch(now); // still working: the countdown restarts
        idle.Leave();
        return;
      }
      RecordGlance();
      idle.Probe();
    }

    ghost method RecordGlance()
      requires S.Reached(sched.cfg, sched.sys, sched.log) && CanTrack(sched.sys, TrackerEvent.Glance)
      modifies sched`sys, sched`log
      ensures S.Reached(sched.cfg, sched.sys, sched.log) && sched.log == old(sched.log) + [Track(TrackerEvent.Glance)]
      ensures sched.sys == old(sched.sys).(tracker := Tracker.Quiet(false))
    {
      sched.Record(Track(TrackerEvent.Glance));
    }

    /**
     * Reads the counter and fires or goes back to watching. When it fires, every request before the first read was a
     * full timeout old by then; and unless a request has arrived since the second and has work to report, no delivery
     * is pending, failed or claimed.
     */
    method Judge(now: int)
      requires Valid() && Serving(sched.sys.pc) && idle.probing && now >= idle.last
      modifies idle, sched`sys, sched`log
      ensures Valid() && !idle.probing && sched.log == old(sched.log) + [Track(TrackerEvent.Judge)]
      ensures idle.fired <==> !sched.Busy()
      ensures idle.fired ==> idle.touches == old(idle.touches)
      ensures idle.fired ==> idle.before == old(idle.before) && idle.looked == old(idle.looked)
      ensures idle.fired ==> forall i | 0 <= i < idle.before :: idle.looked - idle.touches[i] >= idle.timeout
      ensures idle.fired && (old(idle.seen) == |idle.touches| || B.Owed(sched.sys.committed) == 0) ==>
        ActiveIds(sched.st.Contents()) == {}
    {
      RecordJudge(|idle.touches| > idle.seen);
      if sched.Busy() {
        idle.Touch(now); // still working: the countdown restarts once the work drains
      }
      idle.Decide(!sched.Busy());
    }

    ghost method RecordJudge(arrived: bool)
      requires S.Reached(sched.cfg, sched.sys, sched.log) && CanTrack(sched.sys, TrackerEvent.Judge)
      requires sched.sys.tracker == Tracker.Quiet(arrived)
      modifies sched`sys, sched`log
      ensures S.Reached(sched.cfg, sched.sys, sched.log) && sched.log == old(sched.log) + [Track(TrackerEvent.Judge)]
      ensures sched.sys == old(sched.sys).(tracker := if old(sched.sys).active > 0 then Watching else Fired(arrived))
      ensures sched.sys.tracker.Fired? && (!arrived || B.Owed(sched.sys.committed) == 0) ==>
        ActiveIds(sched.sys.db) == {}
    {
      JudgeSound(sched.cfg, sched.sys, sched.log, arrived);
      sched.Record(Track(TrackerEvent.Judge));
    }

    /** Replays a dead delivery, then reports it. */
    method DeliveryReplay(id: Id) returns (r: Reply)
      requires Valid() && Free(sched.sys)
      modifies sched, sched.st`deliveries, sched.st`outages
      ensures Valid()
      ensures r.Accepted? <==> !Failing(old(sched.st.outages)) && Replay(old(sched.st.Contents()), id).Replayed?
      ensures r.NotFoundReply? <==> !Failing(old(sched.st.outages)) && id !in old(sched.st.deliveries)
      ensures r.Conflict? <==>
        && !Failing(old(sched.st.outages))
        && id in old(sched.st.deliveries) && !old(sched.st.deliveries[id].state.Dead?)
      ensures r.Unavailable? <==> Failing(old(sched.st.outages))
      ensures r.Accepted? ==> OnlyRow(old(sched.st.deliveries), sched.st.deliveries, id)
      ensures r.Accepted? ==> ReplayedFrom(old(sched.st.deliveries[id]), sched.st.deliveries[id])
      ensures r.Accepted? ==> sched.st.Contents() == Replay(old(sched.st.Contents()), id).db
      ensures !r.Accepted? ==> sched.st.Contents() == old(sched.st.Contents()) && sched.log == old(sched.log)
    {
      var problem, ok := sched.st.ReplayDelivery(id);
      if ok {
        RecordReplay(id);
        sched.WorkAdded(|sched.sys.committed| - 1, 1);
        return Accepted;
      }
      match problem
      case None => r := Unavailable;
      case Some(NotFound) => r := NotFoundReply;
      case Some(NotDead(_)) => r := Conflict;
    }

    ghost method RecordReplay(id: Id)
      requires S.Reached(sched.cfg, sched.sys, sched.log) && Free(sched.sys) && Replay(sched.sys.db, id).Replayed?
      modifies sched`sys, sched`log
      ensures S.Reached(sched.cfg, sched.sys, sched.log) && sched.log == old(sched.log) + [Request(ReplayRow(id))]
      ensures sched.sys.db == Replay(old(sched.sys.db), id).db && Unmoved(old(sched.sys), sched.sys)
      ensures sched.sys.committed == old(sched.sys).committed + [{id}]
    {
      sched.Record(Request(ReplayRow(id)));
    }

    /** Registers a definition that validates. */
    method ActionApply(name: Name, def: Definition, compiles: Definition -> bool) returns (r: Reply, a: Option<Applied>)
      requires Valid() && Free(sched.sys)
      modifies sched`sys, sched`log, sched.st`actions, sched.st`outages
      ensures Valid() && a.Some? == r.Accepted?
      ensures r.Invalid? <==> !Registrable(name, def, compiles)
      ensures r.Accepted? <==> Registrable(name, def, compiles) && !Failing(old(sched.st.outages))
      ensures sched.st.Contents() ==
        if !r.Accepted? then old(sched.st.Contents())
        else old(sched.st.Contents()).(actions := Apply(old(sched.st.actions), name, def))
      ensures r.Accepted? ==> AppliedFrom(old(sched.st.actions), sched.st.actions, name, def)
      ensures r.Accepted? ==>
        && Registered(sched.st.actions, name) && a.value.version == |sched.st.actions[name]|
        && a.value.changed == (sched.st.actions != old(sched.st.actions))
        && a.value.enabled == Enabled(sched.st.actions, name)
    {
      a := None;
      var problem := Workflow.Validate(name, def, compiles);
      if problem.Some? {
        return Invalid, None;
      }
      a := sched.st.ApplyAction(name, def);
      if a.None? {
        return Unavailable, None;
      }
      RecordRegister(name, def);
      r := Accepted;
    }

    ghost method RecordRegister(name: Name, def: Definition)
      requires S.Reached(sched.cfg, sched.sys, sched.log) && Free(sched.sys) && Workflow.Valid(def)
      modifies sched`sys, sched`log
      ensures S.Reached(sched.cfg, sched.sys, sched.log) && sched.log == old(sched.log) + [Request(Register(name, def))]
      ensures sched.sys.db == old(sched.sys.db).(actions := Apply(old(sched.sys.db.actions), name, def))
      ensures Unmoved(old(sched.sys), sched.sys)
    {
      sched.Record(Request(Register(name, def)));
    }

    /** The flag first; a disable then queues for the scheduler to cancel what is waiting. */
    method SetActionEnabled(name: Name, enabled: bool) returns (r: Reply)
      requires Valid() && Free(sched.sys)
      modifies sched`sys, sched`log, sched.st`actions, sched.st`outages
      ensures Valid()
      ensures r.Accepted? <==> !Failing(old(sched.st.outages)) && name != "" && Registered(old(sched.st.actions), name)
      ensures r.Invalid? <==> name == ""
      ensures r.Unavailable? <==> name != "" && Failing(old(sched.st.outages))
      ensures r.NotFoundReply? <==>
        name != "" && !Failing(old(sched.st.outages)) && !Registered(old(sched.st.actions), name)
      ensures r.Accepted? ==> sched.st.actions == SetEnabled(old(sched.st.actions), name, enabled)
      ensures r.Accepted? ==> (Enabled(sched.st.actions, name) <==> enabled)
      ensures r.Accepted? ==> Flipped(old(sched.st.actions), sched.st.actions, name, enabled)
      ensures r.Accepted? && !enabled ==> sched.sys.disabling == old(sched.sys).disabling + [name]
      ensures !r.Accepted? ==> sched.st.actions == old(sched.st.actions) && sched.sys == old(sched.sys)
    {
      if name == "" {
        return Invalid;
      }
      var down := sched.st.outages != [] && sched.st.outages[0];
      var ok := sched.st.SetActionEnabled(name, enabled);
      if !ok {
        return if down then Unavailable else NotFoundReply;
      }
      RecordSwitch(name, enabled);
      r := Accepted;
    }

    ghost method RecordSwitch(name: Name, on: bool)
      requires S.Reached(sched.cfg, sched.sys, sched.log) && Free(sched.sys) && Registered(sched.sys.db.actions, name)
      modifies sched`sys, sched`log
      ensures S.Reached(sched.cfg, sched.sys, sched.log) && sched.log == old(sched.log) + [Request(Switch(name, on))]
      ensures sched.sys.db == old(sched.sys.db).(actions := SetEnabled(old(sched.sys.db.actions), name, on))
      ensures Unmoved(old(sched.sys), sched.sys)
      ensures sched.sys.disabling == if on then old(sched.sys).disabling else old(sched.sys).disabling + [name]
    {
      sched.Record(Request(Switch(name, on)));
    }

    /** Stamps and appends a message, then reports the deliveries that came of it. */
    method MessageSend(queue: Queue, payload: Data, user: map<string, Stamping.Value>, mid: Id, trace: Id, now: Stamp,
                       ids: seq<Id>)
      returns (r: Reply)
      requires Valid() && CanRequest(sched.sys, Sent(queue, payload, user, mid, trace, now, ids))
      modifies sched, sched.st`messages, sched.st`deliveries, sched.st`outages
      ensures Valid()
      ensures r.Invalid? <==> queue == "" || payload == [] || payload == NULL_LITERAL || !sched.cfg.valid(payload)
      ensures r.Accepted? <==> !r.Invalid? && !Failing(old(sched.st.outages))
      ensures !r.Accepted? ==> sched.log == old(sched.log)
      ensures r.Accepted? ==> old(sched.log) < sched.log
      ensures r.Accepted? ==> sched.log[|old(sched.log)|] == Request(Sent(queue, payload, user, mid, trace, now, ids))
      ensures r.Accepted? && ids != [] ==> sched.nudge && sched.active == old(sched.active) + |ids|
      ensures r.Accepted? ==>
        && mid !in old(sched.st.messages)
        && sched.st.messages ==
           old(sched.st.messages)[mid := Message(queue, payload, HopsRead(user), trace, None, now)]
      ensures r.Accepted? ==>
        InsertedBy(old(sched.st.Contents()), sched.st.Contents(),
                   [Outgoing(mid, Stored(queue, payload, user, trace, now))])
      ensures !r.Accepted? ==> sched.st.Contents() == old(sched.st.Contents())
    {
      if queue == "" || payload == [] || payload == NULL_LITERAL || !sched.cfg.valid(payload) {
        return Invalid;
      }
      var headers := Stamping.Stamp(user);
      SendLeaves(sched.sys, queue, payload, user, mid, trace, now, ids);
      var out := Outgoing(mid, Ingress(queue, payload, Stamping.Decode(headers), trace, now));
      r := Deliver(out, ids, Sent(queue, payload, user, mid, trace, now, ids), Insert(sched.sys.db, [out], ids));
    }

    /** The append, then the report if deliveries came of it. */
    method Deliver(out: Outgoing, ids: seq<Id>, ghost e: RequestEvent, ghost after: Db) returns (r: Reply)
      requires Valid() && Sending(sched.sys, out, ids, e, after)
      modifies sched, sched.st`messages, sched.st`deliveries, sched.st`outages
      ensures Valid() && !r.Invalid?
      ensures r.Accepted? <==> !Failing(old(sched.st.outages))
      ensures !r.Accepted? ==> sched.log == old(sched.log)
      ensures r.Accepted? ==> old(sched.log) < sched.log && sched.log[|old(sched.log)|] == Request(e)
      ensures r.Accepted? && ids != [] ==> sched.nudge && sched.active == old(sched.active) + |ids|
      ensures sched.st.Contents() == if r.Accepted? then after else old(sched.st.Contents())
    {
      hide Sending;
      hide S.Reached;
      var created := Append(out, ids, e, after);
      if created.None? {
        return Unavailable;
      }
      if created.value > 0 {
        sched.WorkAdded(|sched.sys.committed| - 1, created.value);
      }
      r := Accepted;
    }

    /** The append and its event. */
    method Append(out: Outgoing, ids: seq<Id>, ghost e: RequestEvent, ghost after: Db) returns (created: Option<nat>)
      requires Valid() && Sending(sched.sys, out, ids, e, after)
      modifies sched`sys, sched`log, sched.st`messages, sched.st`deliveries, sched.st`outages
      ensures Valid() && created == if Failing(old(sched.st.outages)) then None else Some(|ids|)
      ensures created.None? ==> sched.log == old(sched.log) && sched.sys == old(sched.sys)
      ensures created.Some? ==> sched.log == old(sched.log) + [Request(e)]
      ensures sched.st.Contents() == if created.Some? then after else old(sched.st.Contents())
      ensures created.Some? && ids != [] ==>
        sched.sys.committed != [] && |sched.sys.committed[|sched.sys.committed| - 1]| == |ids|
    {
      hide Sending;
      hide S.Reached;
      created := AppendWith(out, ids, sched.sys, e, after);
      if created.Some? {
        RecordSend(out, ids, e, after);
      }
    }

    method AppendWith(out: Outgoing, ids: seq<Id>, ghost s: Sys, ghost e: RequestEvent, ghost after: Db)
      returns (created: Option<nat>)
      requires Sending(s, out, ids, e, after) && s.db == sched.st.Contents()
      modifies sched.st`messages, sched.st`deliveries, sched.st`outages
      ensures created == if Failing(old(sched.st.outages)) then None else Some(|ids|)
      ensures sched.st.Contents() == if created.None? then old(sched.st.Contents()) else after
    {
      created := sched.st.AppendMessage(out, ids);
    }

    ghost method RecordSend(out: Outgoing, ids: seq<Id>, e: RequestEvent, after: Db)
      requires S.Reached(sched.cfg, sched.sys, sched.log) && Sending(sched.sys, out, ids, e, after)
      modifies sched`sys, sched`log
      ensures S.Reached(sched.cfg, sched.sys, sched.log) && sched.log == old(sched.log) + [Request(e)]
      ensures sched.sys.db == after && Unmoved(old(sched.sys), sched.sys)
      ensures ids != [] ==>
        sched.sys.committed != [] && |sched.sys.committed[|sched.sys.committed| - 1]| == |ids|
    {
      IncreasingCardinality(ids);
      sched.Record(Request(e));
    }
  }

  /** The append of a caller's message: its headers count for what dispatch will decode once they are stamped. */
  function Sent(queue: Queue, payload: Data, user: map<string, Stamping.Value>, mid: Id, trace: Id, now: Stamp,
                ids: seq<Id>): RequestEvent {
    Send(mid, queue, payload, Stamping.Decode(Stamping.Stamp(user)), trace, now, ids)
  }

  /** What dispatch will read of the hops once the caller's headers are stamped: see StampedHops. */
  function HopsRead(user: map<string, Stamping.Value>): Headers {
    if Stamping.Spoils(user) then Undecodable
    else if Stamping.LONG in user then Stamping.Meaning(user[Stamping.LONG])
    else Hops(0)
  }

  /** The message as it is stored. */
  function Stored(queue: Queue, payload: Data, user: map<string, Stamping.Value>, trace: Id, now: Stamp): Message {
    Message(queue, payload, HopsRead(user), trace, None, now)
  }

  lemma SendLeaves(s: Sys, queue: Queue, payload: Data, user: map<string, Stamping.Value>, mid: Id, trace: Id,
                   now: Stamp, ids: seq<Id>)
    requires CanRequest(s, Sent(queue, payload, user, mid, trace, now, ids))
    ensures var headers := Stamping.Decode(Stamping.Stamp(user));
      var out := Outgoing(mid, Ingress(queue, payload, headers, trace, now));
      && headers == HopsRead(user) && Insertable(s.db, [out], ids)
      && var r := Insert(s.db, [out], ids);
         && mid !in s.db.messages && InsertedBy(s.db, r, [Outgoing(mid, Stored(queue, payload, user, trace, now))])
         && r.messages == s.db.messages[mid := Message(queue, payload, HopsRead(user), trace, None, now)]
  {
    Stamping.StampedHops(user);
    var headers := Stamping.Decode(Stamping.Stamp(user));
    O.OneInserted(s.db, Outgoing(mid, Ingress(queue, payload, headers, trace, now)), ids);
  }

  /** A message ready to be appended, and the tables that leaves. */
  ghost predicate Sending(s: Sys, out: Outgoing, ids: seq<Id>, e: RequestEvent, after: Db) {
    && e.Send? && CanRequest(s, e) && ids == e.ids
    && out == Outgoing(e.mid, Ingress(e.queue, e.payload, e.headers, e.trace, e.now))
      && Insertable(s.db, [out], ids) && after == Insert(s.db, [out], ids)
  }

  /** What a handler's commit leaves alone in the scheduler and among the requests. */
  predicate Unmoved(s: Sys, t: Sys) {
    && t.active == s.active && t.inflight == s.inflight && t.nudge == s.nudge && t.timer == s.timer
    && t.inService == s.inService && t.pc == s.pc && t.counted == s.counted && t.tracker == s.tracker
  }

  // Idle.

  /** The tracker's own variables against where the engine has it. */
  predicate Watches(t: Tracker, probing: bool, fired: bool, arrived: bool) {
    match t
    case Watching => !probing && !fired
    case Quiet(a) => probing && !fired && a == arrived
    case Fired(_) => !probing && fired
  }

  lemma JudgeSound(cfg: Config, s: Sys, es: seq<Event>, arrived: bool)
    requires S.Reached(cfg, s, es) && CanTrack(s, TrackerEvent.Judge) && s.tracker == Tracker.Quiet(arrived)
    ensures s.active <= 0 && (!arrived || B.Owed(s.committed) == 0) ==> ActiveIds(s.db) == {}
  {
    if s.active > 0 {
    } else if !arrived {
      B.FiresOnlyWhenIdle(cfg, es);
    } else if B.Owed(s.committed) == 0 {
      B.FiresOnlyWhenNothingIsOwed(cfg, es);
    }
  }

  /** The scheduler's own events, and the workers', touch neither the tracker nor the requests in service. */
  lemma SchedulerStepKeeps(cfg: Config, s: Sys, e: Event)
    requires S.OfScheduler(e)
    ensures Step(cfg, s, e).tracker == s.tracker && Step(cfg, s, e).inService == s.inService
  {
    if Can(cfg, s, e) {
      match e
      case Dispatch(p) => Frames.DispatchFrame(cfg, s, p);
      case Loop(l) => Frames.LoopFrame(s, l);
      case Receive(id, ok, now, gate, mids, ids) => Frames.ReceiveFrame(cfg, s, id, ok, now, gate, mids, ids);
      case Worker(w) => Frames.WorkFrame(cfg, s, w);
    }
  }

  /** So a server stays valid across them. */
  lemma {:induction false} SchedulerKeepsRequests(cfg: Config, s: Sys, more: seq<Event>)
    requires forall i | 0 <= i < |more| :: S.OfScheduler(more[i])
    ensures Run(cfg, s, more).tracker == s.tracker && Run(cfg, s, more).inService == s.inService
  {
    hide Step;
    if more != [] {
      var n := |more| - 1;
      SchedulerKeepsRequests(cfg, s, more[..n]);
      SchedulerStepKeeps(cfg, Run(cfg, s, more[..n]), more[n]);
    }
  }

  /** When activity was last seen, and where in its tick the tracker is. Times are nanoseconds. */
  class IdleTracker {
    const timeout: int
    var last: int
    var looking: bool             // between its first read, of last, and its second, of the requests in service
    var probing: bool             // between its second read and its third, of the busy counter
    var fired: bool
    ghost var touches: seq<int>   // when activity was seen, in order
    ghost var before: nat         // how many of them when the first read was made
    ghost var looked: int         // and when that was
    ghost var seen: nat           // how many of them when the second read was made

    ghost predicate Valid()
      reads this
    {
      && touches != [] && last == touches[|touches| - 1]
      && (forall i, j | 0 <= i < j < |touches| :: touches[i] <= touches[j])
      && !(looking && (probing || fired))
      && (looking || probing || fired ==>
            before <= |touches| && forall i | 0 <= i < before :: looked - touches[i] >= timeout)
      && (probing || fired ==> before <= seen <= |touches|)
    }

    constructor (timeout: int, now: int)
      ensures Valid() && !looking && !probing && !fired && this.timeout == timeout && touches == [now]
    {
      this.timeout, last, looking, probing, fired, touches := timeout, now, false, false, false, [now];
    }

    method Touch(now: int)
      requires Valid() && now >= last
      modifies this`last, this`touches
      ensures Valid() && last == now && touches == old(touches) + [now]
    {
      last := now;
      touches := touches + [now];
    }

    method See(now: int)
      requires Valid() && !probing && !fired && now - last >= timeout
      modifies this`looking, this`before, this`looked
      ensures Valid() && looking && before == |touches| && looked == now
    {
      looking, before, looked := true, |touches|, now;
    }

    method Probe()
      requires Valid() && looking
      modifies this`looking, this`probing, this`seen
      ensures Valid() && !looking && probing && seen == |touches|
    {
      looking, probing, seen := false, true, |touches|;
    }

    method Leave()
      requires Valid() && looking
      modifies this`looking
      ensures Valid() && !looking
    {
      looking := false;
    }

    method Decide(fire: bool)
      requires Valid() && probing && !fired
      modifies this`probing, this`fired
      ensures Valid() && !probing && fired == fire
    {
      probing, fired := false, fire;
    }
  }
}
