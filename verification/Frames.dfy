/** What each group of steps leaves alone. */
module Frames {
  import Bytes
  import opened Keys
  import opened Stamps
  import opened Tables
  import opened Engine

  /** The state shared with handlers and the tracker. */
  predicate SameShared(s: Sys, t: Sys) {
    && t.inService == s.inService && t.committed == s.committed && t.counted == s.counted
    && t.disabling == s.disabling && t.tracker == s.tracker
  }

  /** What deciding on a delivery may change. */
  predicate Decided(s: Sys, t: Sys)
    requires s.pc.Picked?
  {
    && SameShared(s, t) && t.active == s.active && t.nudge == s.nudge && t.lastId == s.lastId && t.timer == s.timer
    && t.db.messages == s.db.messages && t.db.actions == s.db.actions
    && t.h == s.h.(touched := s.h.touched + {s.pc.work.id}, tallies := t.h.tallies)
    && (t.pc.Scan? || (t.pc.Adding? && t.pc.next == Scan(s.pc.plan, s.pc.k)))
  }

  lemma SettleFrame(s: Sys, db: Db)
    requires s.pc.Picked? && db.messages == s.db.messages && db.actions == s.db.actions
    ensures Decided(s, DoSettle(s, db, s.pc.plan, s.pc.k, s.pc.work.id))
  {
  }

  lemma LaunchFrame(s: Sys, db: Db, info: ActionInfo)
    requires s.pc.Picked? && db.messages == s.db.messages && db.actions == s.db.actions
    ensures Decided(s, DoLaunch(s, db, s.pc.plan, s.pc.k, info, s.pc.work))
  {
  }

  lemma DecideFrame(cfg: Config, s: Sys, ok: bool)
    requires CanDispatch(s, Decide(ok))
    ensures var t := DoDecide(cfg, s, ok);
      && SameShared(s, t) && t.active == s.active && t.nudge == s.nudge && t.lastId == s.lastId && t.timer == s.timer
      && t.db.messages == s.db.messages && t.db.actions == s.db.actions
      && t.h == s.h.(touched := s.h.touched + {s.pc.work.id}, tallies := t.h.tallies)
      && (t.pc.Scan? || (t.pc.Adding? && t.pc.next == Scan(s.pc.plan, s.pc.k)))
  {
    var w, info := s.pc.work, s.pc.plan.infos[s.pc.k];
    var d := Decision(cfg, info, w.msg);
    hide Decision;
    if !ok {
      assert Decided(s, DoDecide(cfg, s, ok));
    } else if d.Settle? {
      var r := Resolve(s.db, w.id, d.state, d.error, s.pc.plan.now);
      if r.Some? { SettleFrame(s, r.value); }
    } else {
      var r := Claim(s.db, w.id, info.version, s.pc.plan.now);
      if r.Some? { LaunchFrame(s, r.value, info); }
    }
  }

  lemma DispatchFrame(cfg: Config, s: Sys, p: DispatchEvent)
    requires CanDispatch(s, p)
    ensures var t := DoDispatch(cfg, s, p);
      && SameShared(s, t) && t.active == s.active && t.nudge == s.nudge && t.lastId == s.lastId && t.timer == s.timer
      && t.db.messages == s.db.messages && t.db.actions == s.db.actions
      && t.h == s.h.(touched := t.h.touched, tallies := t.h.tallies)
      && (p.Decide? || (t.db == s.db && t.execs == s.execs && t.inflight == s.inflight && t.h == s.h))
      && (t.pc.Scan? || t.pc.Picked? || t.pc.Arming? || t.pc.Adding?)
  {
    if p.Decide? {
      DecideFrame(cfg, s, p.ok);
    }
  }

  ghost predicate Received(s: Sys, id: Id, t: Sys)
    requires id in s.execs
  {
    && SameShared(s, t) && t.active == s.active && t.nudge == s.nudge && t.timer == s.timer
    && t.execs == Release(s, id).execs && t.inflight == Release(s, id).inflight && t.db.actions == s.db.actions
    && t.h.touched == s.h.touched && t.h.quiet == s.h.quiet && t.h.tallies == s.h.tallies
    && (t.pc == Back(s.pc) || ((t.pc.Adding? || t.pc.Poking?) && t.pc.next == Back(s.pc)))
  }

  lemma ReceiveFrame(cfg: Config, s: Sys, id: Id, ok: bool, now: Stamp, gate: Stamp, mids: seq<Id>, ids: seq<Id>)
    requires CanReceive(cfg, s, id, now, mids, ids)
    ensures Received(s, id, DoReceive(cfg, s, id, ok, now, gate, mids, ids))
  {
    var x := s.execs[id];
    var o := x.phase.outcome;
    var emits := Emits(cfg, x.info, o);
    if emits.Some? {
      var outs := BuildOutputs(x, emits.value, mids, now);
      SuccessFrame(s, id, o, mids, outs, ids, now);
    } else {
      FailureFrame(s, id, x.work.row.attempt >= x.info.maxAttempts, gate,
                   if o.failed then Execution else BadStdout, o.stderr, now);
    }
    LoseFrame(s, id);
  }

  lemma LoseFrame(s: Sys, id: Id)
    requires id in s.execs
    ensures Received(s, id, DoLose(s, id))
  {
  }

  lemma FailureFrame(s: Sys, id: Id, dead: bool, gate: Stamp, reason: Reason, stderr: Bytes.Data, now: Stamp)
    requires id in s.execs
    ensures var r := Fail(s.db, id, dead, gate, reason, stderr, now);
      r.Some? ==> Received(s, id, DoFail(s, r.value, id, dead))
  {
  }

  lemma SuccessFrame(s: Sys, id: Id, o: Outcome, mids: seq<Id>, outs: seq<Outgoing>, ids: seq<Id>, now: Stamp)
    requires id in s.execs && Insertable(s.db, outs, ids)
    ensures var r := Complete(s.db, id, o.stderr, outs, ids, now);
      r.Some? ==> Received(s, id, DoEmit(s, r.value, id, Emission(o.stdout, mids), outs, ids))
  {
    var r := Complete(s.db, id, o.stderr, outs, ids, now);
    if r.Some? {
      EmitFrame(s, r.value, id, Emission(o.stdout, mids), outs, ids);
    }
  }

  lemma EmitFrame(s: Sys, db: Db, id: Id, emission: Emission, outs: seq<Outgoing>, ids: seq<Id>)
    requires id in s.execs && DistinctIds(outs)
    requires db.actions == s.db.actions
    ensures Received(s, id, DoEmit(s, db, id, emission, outs, ids))
  {
  }

  lemma LoopFrame(s: Sys, l: LoopEvent)
    requires CanLoop(s, l)
    ensures var t := DoLoop(s, l);
      && t.inService == s.inService && t.committed == s.committed && t.counted == s.counted && t.tracker == s.tracker
      && (l.Control? || t == s.(pc := t.pc, active := t.active, nudge := t.nudge, timer := t.timer))
      && |t.disabling| <= |s.disabling| && (t.disabling == s.disabling || l.Control?)
      && t.execs == s.execs && t.inflight == s.inflight && t.lastId == s.lastId
      && t.db.messages == s.db.messages && t.db.actions == s.db.actions
      && t.h == s.h.(touched := t.h.touched, quiet := t.h.quiet)
  {
  }

  lemma WorkFrame(cfg: Config, s: Sys, w: WorkerEvent)
    requires CanWork(cfg, s, w)
    ensures var t := DoWork(cfg, s, w);
      && t == s.(db := t.db, execs := t.execs) && t.db == s.db.(deliveries := t.db.deliveries)
  {
  }
}
