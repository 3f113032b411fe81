/**
 * First service in commit order: within one daemon process, when the scheduler has picked a delivery of an action,
 * every delivery of that action committed earlier has already been vetted or cancelled.
 */
module Order {
  import opened Bytes
  import opened Keys
  import opened Stamps
  import opened Workflow
  import opened Tables
  import opened Engine
  import opened Integrity
  import opened Ownership
  import Frames

  /** A delivery of this process that nobody has looked at is still as it was created. */
  ghost predicate Untouched(deliveries: map<Id, Row>, touched: set<Id>, d: Id) {
    d in deliveries && (d in touched || deliveries[d].state.Pending?)
  }

  ghost predicate Ordered(db: Db, lastId: Id, order: seq<Id>, touched: set<Id>) {
    && Increasing(order) && (order != [] ==> order[|order| - 1] <= lastId)
    && forall d {:trigger Untouched(db.deliveries, touched, d)} | d in order :: Untouched(db.deliveries, touched, d)
  }

  /** Every delivery of the action committed before id in this process has been vetted or cancelled. */
  ghost predicate Served(deliveries: map<Id, Row>, order: seq<Id>, touched: set<Id>, id: Id, name: Name) {
    id in order ==> forall d | d in order && d < id && d in deliveries && deliveries[d].action == name :: d in touched
  }

  ghost predicate FirstServed(s: Sys) {
    && Ordered(s.db, s.lastId, s.h.order, s.h.touched)
    && (s.pc.Picked? && s.pc.k < |s.pc.plan.infos| ==>
          Served(s.db.deliveries, s.h.order, s.h.touched, s.pc.work.id, s.pc.plan.infos[s.pc.k].name))
  }

  /** The oldest eligible row has no untouched elder: an untouched row is pending, so it would have been eligible. */
  lemma PickServes(db: Db, lastId: Id, order: seq<Id>, touched: set<Id>, name: Name, now: Stamp)
    requires References(db) && Ordered(db, lastId, order, touched) && NextEligible(db, name, now).Some?
    ensures Served(db.deliveries, order, touched, NextEligible(db, name, now).value, name)
  {
    var id := NextEligible(db, name, now).value;
    forall d | d in order && d < id && d in db.deliveries && db.deliveries[d].action == name ensures d in touched {
      assert Untouched(db.deliveries, touched, d);
      assert Refers(db, d);
      assert d !in Eligible(db, name, now);
    }
  }

  /** Fresh rows join the tables. */
  ghost predicate Joined(before: map<Id, Row>, after: map<Id, Row>, ids: seq<Id>) {
    && (forall d | d in before :: d in after && after[d] == before[d])
    && (forall d | d in ids :: d in after && after[d].state.Pending?)
  }

  lemma InsertJoins(db: Db, outs: seq<Outgoing>, ids: seq<Id>)
    requires Insertable(db, outs, ids)
    ensures Joined(db.deliveries, Insert(db, outs, ids).deliveries, ids)
  {
    var r := Insert(db, outs, ids).deliveries;
    forall d | d in ids ensures d in r && r[d].state.Pending? {
      InsertedRow(db, outs, ids, d);
    }
  }

  /** New rows come after every row of this process. */
  lemma Appended(db: Db, r: Db, lastId: Id, order: seq<Id>, touched: set<Id>, ids: seq<Id>)
    requires Joined(db.deliveries, r.deliveries, ids) && Later(lastId, ids) && Ordered(db, lastId, order, touched)
    ensures Ordered(r, LastOf(lastId, ids), order + ids, touched)
  {
    LastIsGreatest(lastId, order);
    forall d | d in order + ids ensures Untouched(r.deliveries, touched, d) {
      if d in order {
        assert Untouched(db.deliveries, touched, d);
      }
    }
    AppendIncreasing(lastId, order, ids);
  }

  lemma AppendIncreasing(lastId: Id, order: seq<Id>, ids: seq<Id>)
    requires Increasing(order) && (order != [] ==> order[|order| - 1] <= lastId) && Later(lastId, ids)
    ensures Increasing(order + ids)
  {
    LastIsGreatest(lastId, order);
    var all := order + ids;
    forall i, j | 0 <= i < j < |all| ensures all[i] < all[j] {
      if i < |order| <= j {
        assert order[i] in order && order[i] <= lastId < ids[0] <= ids[j - |order|];
      }
    }
  }

  lemma AllLater(lastId: Id, ids: seq<Id>)
    requires Later(lastId, ids)
    ensures forall d | d in ids :: lastId < d
  {
    forall d | d in ids ensures lastId < d {
      var k :| 0 <= k < |ids| && ids[k] == d;
      assert ids[0] <= ids[k];
    }
  }

  lemma AppendedServed(db: Db, r: Db, lastId: Id, order: seq<Id>, touched: set<Id>, ids: seq<Id>, id: Id, name: Name)
    requires Joined(db.deliveries, r.deliveries, ids) && Later(lastId, ids) && Ordered(db, lastId, order, touched)
    requires id !in ids && Served(db.deliveries, order, touched, id, name)
    ensures Served(r.deliveries, order + ids, touched, id, name)
  {
    if id in order {
      LastIsGreatest(lastId, order);
      AllLater(lastId, ids);
      forall d | d in order + ids && d < id && d in r.deliveries && r.deliveries[d].action == name
        ensures d in touched
      {
        assert d in order;
        assert Untouched(db.deliveries, touched, d);
      }
    }
  }

  lemma LastIsGreatest(lastId: Id, order: seq<Id>)
    requires Increasing(order) && (order != [] ==> order[|order| - 1] <= lastId)
    ensures forall d | d in order :: d <= lastId
  {
    forall d | d in order ensures d <= lastId {
      var i :| 0 <= i < |order| && order[i] == d;
    }
  }

  /** Rewriting rows, each of them touched or still pending, under the same action. */
  lemma Rewritten(db: Db, r: Db, lastId: Id, order: seq<Id>, touched: set<Id>, after: set<Id>)
    requires Ordered(db, lastId, order, touched) && touched <= after && db.deliveries.Keys <= r.deliveries.Keys
    requires forall d | d in db.deliveries :: SamePair(db.deliveries[d], r.deliveries[d])
    requires forall d | d in db.deliveries && d !in after ::
      db.deliveries[d].state.Pending? ==> r.deliveries[d].state.Pending?
    ensures Ordered(r, lastId, order, after)
    ensures forall id, name | Served(db.deliveries, order, touched, id, name) ::
      Served(r.deliveries, order, after, id, name)
  {
    forall d | d in order ensures Untouched(r.deliveries, after, d) {
      assert Untouched(db.deliveries, touched, d);
    }
    forall id, name | Served(db.deliveries, order, touched, id, name)
      ensures Served(r.deliveries, order, after, id, name)
    {
      forall d | d in order && d < id && d in r.deliveries && r.deliveries[d].action == name && id in order
        ensures d in after
      {
        assert Untouched(db.deliveries, touched, d);
        assert SamePair(db.deliveries[d], r.deliveries[d]);
      }
    }
  }

  // Steps.

  lemma DecideServes(cfg: Config, s: Sys, ok: bool)
    requires Inv(cfg, s) && CanDispatch(s, Decide(ok)) && FirstServed(s)
    ensures FirstServed(DoDecide(cfg, s, ok))
  {
    var t := DoDecide(cfg, s, ok);
    Frames.DecideFrame(cfg, s, ok);
    DecideKeepsOthers(cfg, s, ok);
    Rewritten(s.db, t.db, s.lastId, s.h.order, s.h.touched, t.h.touched);
  }

  ghost predicate OnlyRow(db: Db, r: Db, id: Id) {
    && r.deliveries.Keys == db.deliveries.Keys
    && forall d | d in db.deliveries ::
         SamePair(db.deliveries[d], r.deliveries[d]) && (d == id || r.deliveries[d] == db.deliveries[d])
  }

  lemma ResolveOnly(db: Db, id: Id, state: State, error: Option<Reason>, now: Stamp)
    ensures var r := Resolve(db, id, state, error, now); r.Some? ==> OnlyRow(db, r.value, id)
  {
  }

  lemma ClaimOnly(db: Db, id: Id, version: nat, now: Stamp)
    ensures var r := Claim(db, id, version, now); r.Some? ==> OnlyRow(db, r.value, id)
  {
  }

  lemma DecideKeepsOthers(cfg: Config, s: Sys, ok: bool)
    requires CanDispatch(s, Decide(ok))
    ensures OnlyRow(s.db, DoDecide(cfg, s, ok).db, s.pc.work.id)
  {
    var info, id := s.pc.plan.infos[s.pc.k], s.pc.work.id;
    var d := Decision(cfg, info, s.pc.work.msg);
    if d.Settle? {
      ResolveOnly(s.db, id, d.state, d.error, s.pc.plan.now);
    } else {
      ClaimOnly(s.db, id, info.version, s.pc.plan.now);
    }
  }

  lemma DispatchServes(cfg: Config, s: Sys, p: DispatchEvent)
    requires Inv(cfg, s) && CanDispatch(s, p) && FirstServed(s)
    ensures FirstServed(DoDispatch(cfg, s, p))
  {
    if p.Decide? {
      DecideServes(cfg, s, p.ok);
    } else {
      Frames.DispatchFrame(cfg, s, p);
      if p.Pick? {
        var name := s.pc.plan.infos[s.pc.k].name;
        if NextEligible(s.db, name, s.pc.plan.now).Some? {
          PickServes(s.db, s.lastId, s.h.order, s.h.touched, name, s.pc.plan.now);
        }
      }
    }
  }

  lemma CompleteServes(s: Sys, id: Id, stderr: Data, outs: seq<Outgoing>, ids: seq<Id>, now: Stamp)
    requires Insertable(s.db, outs, ids) && id in s.db.deliveries && s.db.deliveries[id].state.Claimed?
    requires FirstServed(s) && Later(s.lastId, ids)
    ensures var r := Complete(s.db, id, stderr, outs, ids, now).value;
      Ordered(r, LastOf(s.lastId, ids), s.h.order + ids, s.h.touched)
  {
    var mid := MarkDone(s.db, id, stderr, now);
    Rewritten(s.db, mid, s.lastId, s.h.order, s.h.touched, s.h.touched);
    InsertJoins(mid, outs, ids);
    Appended(mid, Insert(mid, outs, ids), s.lastId, s.h.order, s.h.touched, ids);
  }

  lemma FailServes(s: Sys, id: Id, dead: bool, gate: Stamp, reason: Reason, stderr: Data, now: Stamp)
    requires id in s.db.deliveries && s.db.deliveries[id].state.Claimed? && FirstServed(s)
    ensures Ordered(Fail(s.db, id, dead, gate, reason, stderr, now).value, s.lastId, s.h.order, s.h.touched)
  {
    var r := Fail(s.db, id, dead, gate, reason, stderr, now).value;
    Rewritten(s.db, r, s.lastId, s.h.order, s.h.touched, s.h.touched);
  }

  lemma ReceiveServes(cfg: Config, s: Sys, id: Id, ok: bool, now: Stamp, gate: Stamp, mids: seq<Id>, ids: seq<Id>)
    requires Inv(cfg, s) && CanReceive(cfg, s, id, now, mids, ids) && FirstServed(s)
    ensures FirstServed(DoReceive(cfg, s, id, ok, now, gate, mids, ids))
  {
    var x := s.execs[id];
    var o := x.phase.outcome;
    assert ExecOk(cfg, s.db, id, x);
    var emits := Emits(cfg, x.info, o);
    if emits.Some? {
      CompleteServes(s, id, o.stderr, BuildOutputs(x, emits.value, mids, now), ids, now);
    } else {
      FailServes(s, id, x.work.row.attempt >= x.info.maxAttempts, gate, if o.failed then Execution else BadStdout,
                 o.stderr, now);
    }
  }

  lemma LoopServes(s: Sys, l: LoopEvent)
    requires CanLoop(s, l) && FirstServed(s)
    requires s.pc.Adding? ==> !s.pc.next.Picked?
    requires s.pc.Poking? ==> !s.pc.next.Picked?
    ensures FirstServed(DoLoop(s, l))
  {
    var t := DoLoop(s, l);
    Rewritten(s.db, t.db, s.lastId, s.h.order, s.h.touched, t.h.touched);
  }

  lemma WorkServes(cfg: Config, s: Sys, w: WorkerEvent)
    requires CanWork(cfg, s, w) && FirstServed(s)
    ensures FirstServed(DoWork(cfg, s, w))
  {
    var t := DoWork(cfg, s, w);
    Rewritten(s.db, t.db, s.lastId, s.h.order, s.h.touched, t.h.touched);
  }

  lemma SendServes(cfg: Config, s: Sys, out: Outgoing, ids: seq<Id>)
    requires PcOk(cfg, s.db, s.inflight, s.pc) && FirstServed(s) && Insertable(s.db, [out], ids) && Later(s.lastId, ids)
    ensures FirstServed(DoSend(s, out, ids))
  {
    var r := Insert(s.db, [out], ids);
    InsertJoins(s.db, [out], ids);
    Appended(s.db, r, s.lastId, s.h.order, s.h.touched, ids);
    if s.pc.Picked? {
      AppendedServed(s.db, r, s.lastId, s.h.order, s.h.touched, ids, s.pc.work.id, s.pc.plan.infos[s.pc.k].name);
    }
  }

  lemma RequestServes(cfg: Config, s: Sys, q: RequestEvent)
    requires Inv(cfg, s) && CanRequest(s, q) && FirstServed(s)
    ensures FirstServed(DoRequest(s, q))
  {
    if q.Send? {
      SendServes(cfg, s, Outgoing(q.mid, Ingress(q.queue, q.payload, q.headers, q.trace, q.now)), q.ids);
    } else {
      var t := DoRequest(s, q);
      Rewritten(s.db, t.db, s.lastId, s.h.order, s.h.touched, t.h.touched);
    }
  }

  lemma DaemonServes(cfg: Config, s: Sys, d: DaemonEvent)
    requires Inv(cfg, s) && CanDaemon(s, d) && FirstServed(s)
    ensures FirstServed(DoDaemon(s, d))
  {
  }

  lemma StepServes(cfg: Config, s: Sys, e: Event)
    requires Inv(cfg, s) && Can(cfg, s, e) && FirstServed(s)
    ensures FirstServed(Do(cfg, s, e))
  {
    match e
    case Daemon(d) => DaemonServes(cfg, s, d);
    case Dispatch(p) => DispatchServes(cfg, s, p);
    case Loop(l) => LoopServes(s, l);
    case Receive(id, ok, now, gate, mids, ids) => ReceiveServes(cfg, s, id, ok, now, gate, mids, ids);
    case Worker(w) => WorkServes(cfg, s, w);
    case Request(q) => RequestServes(cfg, s, q);
    case Track(t) =>
  }

  lemma {:induction false} RunServes(cfg: Config, es: seq<Event>)
    ensures FirstServed(Run(cfg, START, es))
  {
    if es != [] {
      var n := |es| - 1;
      RunServes(cfg, es[..n]);
      RunInv(cfg, es[..n]);
      if Can(cfg, Run(cfg, START, es[..n]), es[n]) {
        StepServes(cfg, Run(cfg, START, es[..n]), es[n]);
      }
    }
  }

  /**
   * Whatever appends, replays and retries interleave: when a delivery of this process is about to be claimed or
   * resolved, every delivery of the same action that was committed before it has been vetted or cancelled already.
   */
  lemma FirstServiceInOrder(cfg: Config, es: seq<Event>, d: Id)
    requires var s := Run(cfg, START, es); s.pc.Picked? && s.pc.work.id in s.h.order
    requires var s := Run(cfg, START, es); d in s.h.order && d < s.pc.work.id
    ensures var s := Run(cfg, START, es);
      && d in s.db.deliveries && s.pc.work.id in s.db.deliveries
      && (s.db.deliveries[d].action == s.db.deliveries[s.pc.work.id].action ==> d in s.h.touched)
  {
    RunServes(cfg, es);
    RunInv(cfg, es);
    var s := Run(cfg, START, es);
    assert Untouched(s.db.deliveries, s.h.touched, d);
  }
}
