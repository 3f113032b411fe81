/**
 * The store, updated in place. Each method is one write transaction or one read; what it leaves in the tables is
 * the corresponding function of what it found. Whether the database answers at all is the environment's choice:
 * outages says which of the coming operations fail, only finitely many of them; a failed one changes nothing.
 */
module Database {
  import opened Bytes
  import opened Keys
  import opened Stamps
  import opened Workflow
  import opened Tables
  import opened Columns
  import Text

  // Inserting rows one at a time.

  /** The table after a loop of single-row inserts. */
  function AddRows(deliveries: map<Id, Row>, fan: seq<Target>, ids: seq<Id>): (r: map<Id, Row>)
    requires |fan| == |ids|
  {
    if ids == [] then deliveries
    else
      var n := |ids| - 1;
      AddRows(deliveries, fan[..n], ids[..n])[ids[n] := Fresh(fan[n].msg, fan[n].action)]
  }

  lemma AddRowsNext(deliveries: map<Id, Row>, fan: seq<Target>, ids: seq<Id>, n: nat)
    requires |fan| == |ids| && n < |ids|
    ensures AddRows(deliveries, fan[..n + 1], ids[..n + 1]) ==
      AddRows(deliveries, fan[..n], ids[..n])[ids[n] := Fresh(fan[n].msg, fan[n].action)]
  {
    assert fan[..n + 1][..n] == fan[..n] && ids[..n + 1][..n] == ids[..n];
  }

  lemma {:induction false} AddedRows(deliveries: map<Id, Row>, fan: seq<Target>, ids: seq<Id>)
    requires Increasing(ids) && |ids| == |fan| && (forall k | 0 <= k < |ids| :: ids[k] !in deliveries)
    ensures AddRows(deliveries, fan, ids) == InsertRows(deliveries, fan, ids)
  {
    if ids != [] {
      AddedRows(deliveries, fan[..|ids| - 1], ids[..|ids| - 1]);
    }
  }

  /** One batch after another. */
  lemma {:induction false} AddRowsAppend(deliveries: map<Id, Row>, a: seq<Target>, b: seq<Target>, ids: seq<Id>)
    requires |ids| == |a| + |b|
    ensures AddRows(AddRows(deliveries, a, ids[..|a|]), b, ids[|a|..]) == AddRows(deliveries, a + b, ids)
    decreases |b|
  {
    if b == [] {
      assert a + b == a && ids[..|a|] == ids;
    } else {
      var n := |b| - 1;
      assert ids[..|a| + n][..|a|] == ids[..|a|] && ids[..|a| + n][|a|..] == ids[|a|..][..n];
      assert (a + b)[..|a| + n] == a + b[..n];
      AddRowsAppend(deliveries, a, b[..n], ids[..|a| + n]);
    }
  }

  function AddMessages(messages: map<Id, Message>, outs: seq<Outgoing>): map<Id, Message> {
    if outs == [] then messages
    else
      var n := |outs| - 1;
      AddMessages(messages, outs[..n])[outs[n].id := outs[n].msg]
  }

  lemma {:induction false} AddedMessages(messages: map<Id, Message>, outs: seq<Outgoing>)
    requires DistinctIds(outs) && forall j | 0 <= j < |outs| :: outs[j].id !in messages
    ensures AddMessages(messages, outs) == InsertMessages(messages, outs)
  {
    if outs != [] {
      AddedMessages(messages, outs[..|outs| - 1]);
    }
  }

  lemma FirstOutput(actions: Actions, messages: map<Id, Message>, deliveries: map<Id, Row>)
    ensures Fan(actions, []) == [] && AddMessages(messages, []) == messages && AddRows(deliveries, [], []) == deliveries
  {
  }

  /** One output more: its message, then the rows of its subscribers. */
  lemma OutputNext(actions: Actions, messages: map<Id, Message>, deliveries: map<Id, Row>, done: seq<Outgoing>,
                   out: Outgoing,
                   fan: seq<Target>, targets: seq<Target>, used: seq<Id>, batch: seq<Id>)
    requires fan == Fan(actions, done) && targets == Targets(actions, out) && |used| == |fan| && |batch| == |targets|
    ensures fan + targets == Fan(actions, done + [out])
    ensures AddMessages(messages, done + [out]) == AddMessages(messages, done)[out.id := out.msg]
    ensures AddRows(deliveries, fan + targets, used + batch) == AddRows(AddRows(deliveries, fan, used), targets, batch)
  {
    assert (done + [out])[..|done|] == done;
    assert (used + batch)[..|fan|] == used && (used + batch)[|fan|..] == batch;
    AddRowsAppend(deliveries, fan, targets, used + batch);
  }

  /** The ids of the next output's rows are there. */
  lemma EnoughIds(actions: Actions, done: seq<Outgoing>, out: Outgoing, todo: seq<Outgoing>, fan: seq<Target>,
                  targets: seq<Target>)
    requires fan == Fan(actions, done) && targets == Targets(actions, out)
    ensures |fan| + |targets| <= |Fan(actions, done + [out] + todo)|
  {
    assert (done + [out])[..|done|] == done;
    assert Fan(actions, done + [out]) == fan + targets;
    FanGrows(actions, done + [out], todo);
  }

  lemma OneMore<T>(done: seq<T>, all: seq<T>, i: nat)
    requires i < |all| && done + all[i..] == all
    ensures done + [all[i]] + all[i + 1..] == all
  {
    assert all[i..] == [all[i]] + all[i + 1..];
  }

  lemma Regroup<T>(used: seq<T>, rest: seq<T>, k: nat)
    requires k <= |rest|
    ensures used + rest[..k] + rest[k..] == used + rest
  {
    assert rest[..k] + rest[k..] == rest;
  }

  lemma AllDone<T>(done: seq<T>, rest: seq<T>, all: seq<T>)
    requires done + rest == all && (rest == [] || |done| == |all|)
    ensures done == all
  {
  }

  lemma SelectNext(actions: Actions, queue: Queue, all: seq<Name>, i: nat)
    requires i < |all|
    ensures Select(actions, queue, all[..i + 1]) ==
      Select(actions, queue, all[..i]) + if Subscribed(actions, queue, all[i]) then [all[i]] else []
  {
    assert all[..i + 1][..i] == all[..i];
  }

  // Cancelling and querying row by row.

  function GivenUp(row: Row, reason: Reason, now: Stamp): Row {
    row.(state := Cancelled, error := Some(reason), notBefore := None, completedAt := Some(now))
  }

  predicate WaitsFor(row: Row, action: Name) {
    row.action == action && Waiting(row.state)
  }

  /** Part of the way through: the rows still to do are as they were. */
  ghost predicate Cancelling(was: map<Id, Row>, rows: map<Id, Row>, todo: set<Id>, action: Name, reason: Reason,
                             now: Stamp) {
    && rows.Keys == was.Keys
    && forall d | d in was ::
         rows[d] == if d !in todo && WaitsFor(was[d], action) then GivenUp(was[d], reason, now) else was[d]
  }

  /** And so many have been cancelled. */
  ghost predicate Sweeping(was: Db, rows: map<Id, Row>, todo: set<Id>, n: nat, action: Name, reason: Reason,
                           now: Stamp) {
    && todo <= was.deliveries.Keys && Cancelling(was.deliveries, rows, todo, action, reason, now)
    && n == |WaitingOf(was, action) - todo|
  }

  lemma SweepNone(was: Db, action: Name, reason: Reason, now: Stamp)
    ensures Sweeping(was, was.deliveries, was.deliveries.Keys, 0, action, reason, now)
  {
    assert WaitingOf(was, action) - was.deliveries.Keys == {};
  }

  lemma SweepNext(was: Db, rows: map<Id, Row>, todo: set<Id>, n: nat, id: Id, action: Name, reason: Reason, now: Stamp)
    requires id in todo && Sweeping(was, rows, todo, n, action, reason, now)
    ensures id in rows && rows[id] == was.deliveries[id]
    ensures var waits := WaitsFor(rows[id], action);
      Sweeping(was, if waits then rows[id := GivenUp(rows[id], reason, now)] else rows, todo - {id},
               n + if waits then 1 else 0, action, reason, now)
  {
    CountNext(was, todo, id, action);
    CancelNext(was.deliveries, rows, todo, id, action, reason, now);
    hide Cancelling;
    hide WaitingOf;
    hide WaitsFor;
  }

  lemma CancelNext(was: map<Id, Row>, rows: map<Id, Row>, todo: set<Id>, id: Id, action: Name, reason: Reason,
                   now: Stamp)
    requires id in todo && todo <= was.Keys && Cancelling(was, rows, todo, action, reason, now)
    ensures id in rows && rows[id] == was[id]
    ensures var after := if WaitsFor(rows[id], action) then rows[id := GivenUp(rows[id], reason, now)] else rows;
      Cancelling(was, after, todo - {id}, action, reason, now)
  {
  }

  lemma CountNext(was: Db, todo: set<Id>, id: Id, action: Name)
    requires id in todo && todo <= was.deliveries.Keys
    ensures |WaitingOf(was, action) - (todo - {id})| ==
      |WaitingOf(was, action) - todo| + if WaitsFor(was.deliveries[id], action) then 1 else 0
  {
    var a, b := WaitingOf(was, action) - todo, WaitingOf(was, action) - (todo - {id});
    assert b == if WaitsFor(was.deliveries[id], action) then a + {id} else a;
  }

  lemma AllCancelled(was: Db, r: Db, n: nat, action: Name, reason: Reason, now: Stamp)
    requires r.messages == was.messages && r.actions == was.actions
    requires Sweeping(was, r.deliveries, {}, n, action, reason, now)
    ensures r == CancelAll(was, action, reason, now) && n == |WaitingOf(was, action)|
    ensures WaitingOf(r, action) == {} && ClaimedIds(r) == ClaimedIds(was)
    ensures |ActiveIds(r)| + n == |ActiveIds(was)|
    ensures GivenUpOf(was.deliveries, r.deliveries, action, reason, now)
  {
    assert WaitingOf(was, action) - {} == WaitingOf(was, action);
    assert r.deliveries == CancelAll(was, action, reason, now).deliveries;
    CancelledSets(was, r, action, reason, now);
  }

  /** The sets of rows afterwards. */
  lemma CancelledSets(was: Db, r: Db, action: Name, reason: Reason, now: Stamp)
    requires Cancelling(was.deliveries, r.deliveries, {}, action, reason, now)
    ensures WaitingOf(r, action) == {} && ClaimedIds(r) == ClaimedIds(was)
    ensures |ActiveIds(r)| + |WaitingOf(was, action)| == |ActiveIds(was)|
  {
    forall d | d in was.deliveries
      ensures d in ActiveIds(r) <==> d in ActiveIds(was) && d !in WaitingOf(was, action)
      ensures d !in WaitingOf(r, action) && (d in ClaimedIds(r) <==> d in ClaimedIds(was))
    {
    }
    assert ActiveIds(was) == ActiveIds(r) + WaitingOf(was, action);
    assert ActiveIds(r) !! WaitingOf(was, action);
  }

  /** A failed row has a gate. */
  predicate Gated(row: Row) {
    row.state.Failed? && row.notBefore.Some?
  }

  /** MIN over one row more. */
  method EarlierOf(gate: Option<Stamp>, row: Row) returns (r: Option<Stamp>)
    ensures r == gate || (Gated(row) && r == row.notBefore)
    ensures gate.Some? ==> r.Some? && Passed(r.value, gate.value)
    ensures Gated(row) ==> r.Some? && Passed(r.value, row.notBefore.value)
  {
    r := gate;
    if row.state == Failed && row.notBefore.Some? {
      if gate.None? || !Passed(gate.value, row.notBefore.value) {
        r := row.notBefore;
      }
    }
    if gate.Some? {
      Text.LeqTotal(Format(gate.value), Format(gate.value));
      if Gated(row) {
        Text.LeqTotal(Format(gate.value), Format(row.notBefore.value));
      }
    }
    if Gated(row) {
      Text.LeqTotal(Format(row.notBefore.value), Format(row.notBefore.value));
    }
  }

  ghost predicate LeastSoFar(gate: Option<Stamp>, db: Db, todo: set<Id>) {
    && (gate.Some? ==> gate.value in Gates(db))
    && forall d | d in db.deliveries && d !in todo && Gated(db.deliveries[d]) ::
         gate.Some? && Passed(gate.value, db.deliveries[d].notBefore.value)
  }

  lemma EarlierKept(gate: Option<Stamp>, next: Option<Stamp>, db: Db, todo: set<Id>, id: Id)
    requires id in todo && id in db.deliveries && LeastSoFar(gate, db, todo)
    requires next == gate || (Gated(db.deliveries[id]) && next == db.deliveries[id].notBefore)
    requires gate.Some? ==> next.Some? && Passed(next.value, gate.value)
    requires Gated(db.deliveries[id]) ==> next.Some? && Passed(next.value, db.deliveries[id].notBefore.value)
    ensures LeastSoFar(next, db, todo - {id})
  {
    hide Format;
    forall d | d in db.deliveries && d !in todo - {id} && Gated(db.deliveries[d])
      ensures next.Some? && Passed(next.value, db.deliveries[d].notBefore.value)
    {
      if d != id {
        Text.LeqTransitive(Format(next.value), Format(gate.value), Format(db.deliveries[d].notBefore.value));
      }
    }
  }

  lemma LeastOfAll(gate: Option<Stamp>, db: Db)
    requires LeastSoFar(gate, db, {})
    ensures gate.None? ==> Gates(db) == {}
    ensures gate.Some? ==> forall g | g in Gates(db) ::
      Text.Leq(Format(gate.value), Format(g)) && Instant(gate.value) - Instant(g) < NANOS_PER_SECOND
  {
    hide Format;
    hide Instant;
    forall g | gate.Some? && g in Gates(db)
      ensures Passed(gate.value, g) && Instant(gate.value) - Instant(g) < NANOS_PER_SECOND
    {
      GateWithinASecond(gate.value, g);
    }
  }

  /** Fan-out asks each input in turn and gives up at the first correlated one. */
  method SubscribesTo(inputs: seq<Input>, queue: Queue) returns (r: bool)
    ensures r == TakesFrom(inputs, queue, 0)
  {
    var i := 0;
    while i < |inputs|
      invariant 0 <= i <= |inputs|
      invariant TakesFrom(inputs, queue, 0) == TakesFrom(inputs, queue, i)
    {
      if inputs[i].correlateOn != "" {
        return false;
      }
      if inputs[i].queue == queue {
        return true;
      }
      i := i + 1;
    }
    return false;
  }

  datatype Applied = Applied(version: nat, changed: bool, enabled: bool)

  /** Does the next operation fail? Once the list is used up, the store works again. */
  predicate Failing(outages: seq<bool>) {
    outages != [] && outages[0]
  }

  function Rest(outages: seq<bool>): seq<bool> {
    if outages == [] then [] else outages[1..]
  }

  class Store {
    var messages: map<Id, Message>
    var actions: Actions
    var deliveries: map<Id, Row>
    var outages: seq<bool>

    /** The committed tables. */
    function Contents(): Db
      reads this`messages, this`actions, this`deliveries
    {
      Db(messages, actions, deliveries)
    }

    constructor (db: Db, outages: seq<bool>)
      ensures Contents() == db && this.outages == outages
    {
      messages, actions, deliveries := db.messages, db.actions, db.deliveries;
      this.outages := outages;
    }

    /** One operation is attempted. */
    method Attempt() returns (ok: bool)
      modifies this`outages
      ensures ok == !Failing(old(outages)) && outages == Rest(old(outages))
    {
      ok := outages == [] || !outages[0];
      if outages != [] { outages := outages[1..]; }
    }

    method InsertMessage(out: Outgoing)
      modifies this`messages
      ensures messages == old(messages)[out.id := out.msg]
    {
      messages := messages[out.id := out.msg];
    }

    /** Is this registered action enabled, not a join and subscribed? */
    method Subscribes(name: Name, queue: Queue) returns (r: bool)
      requires name in actions
      ensures r == Subscribed(actions, queue, name)
    {
      var versions := actions[name];
      r := versions != [] && versions[|versions| - 1].enabled;
      if r {
        r := SubscribesTo(versions[|versions| - 1].def.inputs, queue);
      }
    }

    /** The subscribers of a queue, by name. */
    method LoadSubscribers(queue: Queue) returns (names: seq<Name>)
      ensures names == Subscribers(actions, queue)
    {
      var all := Text.Sorted(actions.Keys);
      names := [];
      var i := 0;
      while i < |all|
        invariant 0 <= i <= |all| && names == Select(actions, queue, all[..i])
      {
        SelectNext(actions, queue, all, i);
        assert all[i] in all;
        var takes := Subscribes(all[i], queue);
        if takes {
          names := names + [all[i]];
        }
        i := i + 1;
      }
      assert all[..|all|] == all;
    }

    /** One pending row per subscriber of the message's queue. */
    method MaterializeDeliveries(out: Outgoing, ids: seq<Id>) returns (n: nat)
      requires |ids| == |Subscribers(actions, out.msg.queue)|
      modifies this`deliveries
      ensures n == |ids| && deliveries == AddRows(old(deliveries), Targets(actions, out), ids)
    {
      var names := LoadSubscribers(out.msg.queue);
      ghost var fan := Targets(actions, out);
      n := 0;
      while n < |names|
        invariant 0 <= n <= |names| == |ids| && deliveries == AddRows(old(deliveries), fan[..n], ids[..n])
      {
        AddRowsNext(old(deliveries), fan, ids, n);
        deliveries := deliveries[ids[n] := Fresh(out.id, names[n])];
        n := n + 1;
      }
      assert fan[..n] == fan && ids[..n] == ids;
    }

    /** A message and, in the same transaction, its deliveries. */
    method AppendMessage(out: Outgoing, ids: seq<Id>) returns (created: Option<nat>)
      requires Insertable(Contents(), [out], ids)
      modifies this`messages, this`deliveries, this`outages
      ensures outages == Rest(old(outages))
      ensures created == if Failing(old(outages)) then None else Some(|ids|)
      ensures Contents() == if Failing(old(outages)) then old(Contents()) else Insert(old(Contents()), [out], ids)
      ensures created.Some? ==> InsertedBy(old(Contents()), Contents(), [out])
    {
      var ok := Attempt();
      if !ok { return None; }
      FanOne(out);
      InsertLaw(Contents(), [out], ids);
      AddedMessages(messages, [out]);
      AddedRows(deliveries, Targets(actions, out), ids);
      assert AddMessages(messages, [out][..0]) == messages;
      InsertMessage(out);
      var n := MaterializeDeliveries(out, ids);
      created := Some(n);
    }

    lemma FanOne(out: Outgoing)
      ensures Fan(actions, [out]) == Targets(actions, out)
    {
      assert [out][..0] == [] && Fan(actions, []) == [];
    }

    method ClaimDelivery(id: Id, version: nat, now: Stamp) returns (ok: bool)
      modifies this`deliveries, this`outages
      ensures outages == Rest(old(outages))
      ensures var r := if Failing(old(outages)) then None else Claim(old(Contents()), id, version, now);
        ok == r.Some? && Contents() == if ok then r.value else old(Contents())
      ensures ok <==> !Failing(old(outages)) && id in old(deliveries) && old(Waits(deliveries[id]))
      ensures ok ==> OnlyRow(old(deliveries), deliveries, id)
      ensures ok ==> ClaimedFrom(old(deliveries[id]), deliveries[id], version, now)
    {
      ok := Attempt();
      if !ok { return; }
      if id !in deliveries || (deliveries[id].state != Pending && deliveries[id].state != Failed) {
        return false;
      }
      var row := deliveries[id];
      deliveries := deliveries[id := row.(state := Claimed, version := Some(version), attempt := row.attempt + 1,
                                          claimedAt := Some(now), notBefore := None)];
    }

    method ResolveDelivery(id: Id, state: State, error: Option<Reason>, now: Stamp) returns (ok: bool)
      modifies this`deliveries, this`outages
      ensures outages == Rest(old(outages))
      ensures var r := if Failing(old(outages)) then None else Resolve(old(Contents()), id, state, error, now);
        ok == r.Some? && Contents() == if ok then r.value else old(Contents())
      ensures ok <==> !Failing(old(outages)) && id in old(deliveries)
      ensures ok ==> OnlyRow(old(deliveries), deliveries, id)
      ensures ok ==> ResolvedFrom(old(deliveries[id]), deliveries[id], state, error, now)
    {
      ok := Attempt();
      if !ok { return; }
      if id !in deliveries { return false; }
      deliveries := deliveries[id :=
        deliveries[id].(state := state, error := error, completedAt := Some(now), pgid := None)];
    }

    method SetDeliveryPgid(id: Id, pgid: int) returns (ok: bool)
      modifies this`deliveries, this`outages
      ensures outages == Rest(old(outages)) && ok == !Failing(old(outages))
      ensures Contents() == if ok then SetPgid(old(Contents()), id, pgid) else old(Contents())
      ensures ok && id in old(deliveries) && old(deliveries[id].state.Claimed?) ==>
        OnlyRow(old(deliveries), deliveries, id) && GroupedFrom(old(deliveries[id]), deliveries[id], pgid)
      ensures id !in old(deliveries) || !old(deliveries[id].state.Claimed?) ==> deliveries == old(deliveries)
    {
      ok := Attempt();
      if ok && id in deliveries && deliveries[id].state == Claimed {
        deliveries := deliveries[id := deliveries[id].(pgid := Some(pgid))];
      }
    }

    /** The transactional outbox. */
    method CompleteDelivery(id: Id, stderr: Data, outs: seq<Outgoing>, ids: seq<Id>, now: Stamp)
      returns (created: Option<nat>)
      requires Insertable(Contents(), outs, ids)
      modifies this`messages, this`deliveries, this`outages
      ensures outages == Rest(old(outages))
      ensures var r := if Failing(old(outages)) then None else Complete(old(Contents()), id, stderr, outs, ids, now);
        && created == (if r.Some? then Some(|ids|) else None)
        && Contents() == if r.Some? then r.value else old(Contents())
      ensures created.Some? <==> !Failing(old(outages)) && id in old(deliveries) && old(deliveries[id].state.Claimed?)
      ensures created.Some? ==> id in deliveries && DoneFrom(old(deliveries[id]), deliveries[id], stderr, now)
      ensures created.Some? ==>
        InsertedBy(old(Contents()).(deliveries := old(deliveries)[id := deliveries[id]]), Contents(), outs)
    {
      var ok := Attempt();
      if !ok { return None; }
      if id !in deliveries || deliveries[id].state != Claimed { return None; }
      deliveries := deliveries[id :=
        deliveries[id].(state := Done, stderr := Nullable(stderr), completedAt := Some(now), pgid := None)];
      InsertLaw(Contents(), outs, ids);
      AddedMessages(messages, outs);
      AddedRows(deliveries, Fan(actions, outs), ids);
      var n := AppendOutputs(outs, ids);
      created := Some(n);
    }

    /** Each output in turn, with its deliveries. */
    method AppendOutputs(outs: seq<Outgoing>, ids: seq<Id>) returns (n: nat)
      requires |ids| == |Fan(actions, outs)|
      modifies this`messages, this`deliveries
      ensures n == |ids|
      ensures messages == AddMessages(old(messages), outs)
      ensures deliveries == AddRows(old(deliveries), Fan(actions, outs), ids)
    {
      n := 0;
      var rest, i := ids, 0;
      ghost var done, fan, used := [], [], [];
      FirstOutput(actions, messages, deliveries);
      hide *;
      while i < |outs|
        invariant 0 <= i <= |outs| && done + outs[i..] == outs && used + rest == ids
        invariant fan == Fan(actions, done) && n == |used| == |fan|
        invariant messages == AddMessages(old(messages), done)
        invariant deliveries == AddRows(old(deliveries), fan, used)
      {
        ghost var targets := Targets(actions, outs[i]);
        OneMore(done, outs, i);
        EnoughIds(actions, done, outs[i], outs[i + 1..], fan, targets);
        var batch := rest[..|Targets(actions, outs[i])|];
        Regroup(used, rest, |batch|);
        OutputNext(actions, old(messages), old(deliveries), done, outs[i], fan, targets, used, batch);
        var k := AppendOutput(outs[i], batch);
        done, fan, used := done + [outs[i]], fan + targets, used + batch;
        rest := rest[k..];
        n, i := n + k, i + 1;
      }
      AllDone(done, outs[i..], outs);
      AllDone(used, rest, ids);
    }

    /** One message with its deliveries, inside a transaction. */
    method AppendOutput(out: Outgoing, ids: seq<Id>) returns (k: nat)
      requires |ids| == |Targets(actions, out)|
      modifies this`messages, this`deliveries
      ensures k == |ids| && messages == old(messages)[out.id := out.msg]
      ensures deliveries == AddRows(old(deliveries), Targets(actions, out), ids)
    {
      InsertMessage(out);
      k := MaterializeDeliveries(out, ids);
    }

    method FailDelivery(id: Id, dead: bool, gate: Stamp, error: Reason, stderr: Data, now: Stamp) returns (ok: bool)
      modifies this`deliveries, this`outages
      ensures outages == Rest(old(outages))
      ensures var r :=
        if Failing(old(outages)) then None else Fail(old(Contents()), id, dead, gate, error, stderr, now);
        ok == r.Some? && Contents() == if ok then r.value else old(Contents())
      ensures ok <==> !Failing(old(outages)) && id in old(deliveries) && old(deliveries[id].state.Claimed?)
      ensures ok ==> OnlyRow(old(deliveries), deliveries, id)
      ensures ok ==> FailedFrom(old(deliveries[id]), deliveries[id], dead, gate, error, stderr, now)
    {
      var state, notBefore := Failed, Some(gate);
      if dead {
        state, notBefore := Dead, None;
      }
      ok := Attempt();
      if !ok { return; }
      if id !in deliveries || deliveries[id].state != Claimed { return false; }
      deliveries := deliveries[id := deliveries[id].(state := state, notBefore := notBefore, error := Some(error),
                                                     stderr := Nullable(stderr), completedAt := Some(now),
                                                       pgid := None)];
    }

    method ReplayDelivery(id: Id) returns (r: Option<ReplayError>, ok: bool)
      modifies this`deliveries, this`outages
      ensures outages == Rest(old(outages)) && ok == (!Failing(old(outages)) && r.None?)
      ensures var replayed := Replay(old(Contents()), id);
        && r == (if Failing(old(outages)) || replayed.Replayed? then None else Some(replayed.error))
        && Contents() == if ok then replayed.db else old(Contents())
      ensures ok <==> !Failing(old(outages)) && id in old(deliveries) && old(deliveries[id].state.Dead?)
      ensures ok ==> OnlyRow(old(deliveries), deliveries, id)
      ensures ok ==> ReplayedFrom(old(deliveries[id]), deliveries[id])
      ensures r == Some(NotFound) <==> !Failing(old(outages)) && id !in old(deliveries)
      ensures r.Some? && r.value.NotDead? ==> id in deliveries && r.value.state == deliveries[id].state
    {
      r := None;
      ok := Attempt();
      if !ok { return; }
      if id in deliveries && deliveries[id].state == Dead {
        deliveries := deliveries[id := deliveries[id].(state := Pending, attempt := 0, error := None, stderr := None,
                                       notBefore := None, version := None, claimedAt := None, completedAt := None)];
      } else if id !in deliveries {
        r, ok := Some(NotFound), false;
      } else {
        r, ok := Some(NotDead(deliveries[id].state)), false;
      }
    }

    /**
     * Every waiting row of an action is cancelled, and only those: a claimed one is left to finish. The number answered
     * is by how much the active rows, and so the busy counter, go down.
     */
    method CancelDeliveries(action: Name, reason: Reason, now: Stamp) returns (n: Option<nat>)
      modifies this`deliveries, this`outages
      ensures outages == Rest(old(outages)) && (n.None? <==> Failing(old(outages)))
      ensures Contents() == if n.None? then old(Contents()) else CancelAll(old(Contents()), action, reason, now)
      ensures n.Some? ==> n.value == |old(WaitingOf(Contents(), action))| && WaitingOf(Contents(), action) == {}
      ensures n.Some? ==> GivenUpOf(old(deliveries), deliveries, action, reason, now)
      ensures n.Some? ==> ClaimedIds(Contents()) == old(ClaimedIds(Contents()))
      ensures n.Some? ==> |ActiveIds(Contents())| + n.value == |old(ActiveIds(Contents()))|
    {
      var ok := Attempt();
      if !ok { return None; }
      var count := CancelRows(action, reason, now);
      n := Some(count);
    }

    /** The rows one by one. */
    method CancelRows(action: Name, reason: Reason, now: Stamp) returns (n: nat)
      modifies this`deliveries
      ensures Contents() == CancelAll(old(Contents()), action, reason, now)
      ensures n == |old(WaitingOf(Contents(), action))| && WaitingOf(Contents(), action) == {}
      ensures GivenUpOf(old(deliveries), deliveries, action, reason, now)
      ensures ClaimedIds(Contents()) == old(ClaimedIds(Contents()))
      ensures |ActiveIds(Contents())| + n == |old(ActiveIds(Contents()))|
    {
      ghost var was := Contents();
      var todo := deliveries.Keys;
      n := 0;
      SweepNone(was, action, reason, now);
      hide *;
      while todo != {}
        invariant Sweeping(was, deliveries, todo, n, action, reason, now)
        decreases |todo|
      {
        var id :| id in todo;
        SweepNext(was, deliveries, todo, n, id, action, reason, now);
        var k := CancelRow(id, action, reason, now);
        todo, n := todo - {id}, n + k;
      }
      AllCancelled(was, Contents(), n, action, reason, now);
    }

    method CancelRow(id: Id, action: Name, reason: Reason, now: Stamp) returns (k: nat)
      requires id in deliveries
      modifies this`deliveries
      ensures k == if old(WaitsFor(deliveries[id], action)) then 1 else 0
      ensures deliveries ==
        if old(WaitsFor(deliveries[id], action)) then old(deliveries[id := GivenUp(deliveries[id], reason, now)])
        else old(deliveries)
    {
      var row := deliveries[id];
      k := 0;
      if row.action == action && (row.state == Pending || row.state == Failed) {
        deliveries := deliveries[id := GivenUp(row, reason, now)];
        k := 1;
      }
    }

    method ResetOrphanRow(id: Id, now: Stamp) returns (ok: bool)
      modifies this`deliveries, this`outages
      ensures outages == Rest(old(outages)) && ok == !Failing(old(outages))
      ensures Contents() == if ok then ResetOrphan(old(Contents()), id, now) else old(Contents())
      ensures ok && id in old(deliveries) && old(deliveries[id].state.Claimed?) ==>
        OnlyRow(old(deliveries), deliveries, id) && OrphanedFrom(old(deliveries[id]), deliveries[id], now)
      ensures id !in old(deliveries) || !old(deliveries[id].state.Claimed?) ==> deliveries == old(deliveries)
    {
      ok := Attempt();
      if ok && id in deliveries && deliveries[id].state == Claimed {
        deliveries := deliveries[id := deliveries[id].(state := Failed, notBefore := Some(now),
                                                       error := Some(DaemonRestarted), pgid := None)];
      }
    }

    /** A new version unless the definition is the current one. */
    method ApplyAction(name: Name, def: Definition) returns (a: Option<Applied>)
      modifies this`actions, this`outages
      ensures outages == Rest(old(outages)) && (a.None? <==> Failing(old(outages)))
      ensures Contents() ==
        if Failing(old(outages)) then old(Contents()) else old(Contents()).(actions := Apply(old(actions), name, def))
      ensures a.Some? ==> AppliedFrom(old(actions), actions, name, def)
      ensures a.Some? ==> Registered(actions, name) && a.value.version == |actions[name]| &&
                          a.value.enabled == Enabled(actions, name) && a.value.changed == (actions != old(actions))
    {
      var ok := Attempt();
      if !ok { return None; }
      var versions, enabled := [], true;
      if name in actions && actions[name] != [] {
        versions := actions[name];
        var cur := versions[|versions| - 1];
        if cur.def == def {
          return Some(Applied(|versions|, false, cur.enabled));
        }
        enabled := cur.enabled;
      }
      assert versions + [Version(def, enabled)] == Apply(actions, name, def)[name];
      actions := actions[name := versions + [Version(def, enabled)]];
      return Some(Applied(|versions| + 1, true, enabled));
    }

    /** Flips the flag on the governing version. */
    method SetActionEnabled(name: Name, enabled: bool) returns (ok: bool)
      modifies this`actions, this`outages
      ensures outages == Rest(old(outages)) && ok == (!Failing(old(outages)) && Registered(old(actions), name))
      ensures Contents() ==
        if ok then old(Contents()).(actions := SetEnabled(old(actions), name, enabled)) else old(Contents())
      ensures ok ==> Flipped(old(actions), actions, name, enabled) && (Enabled(actions, name) <==> enabled)
    {
      ok := Attempt();
      if !ok { return; }
      if name !in actions || actions[name] == [] { return false; }
      var last := |actions[name]| - 1;
      actions := actions[name := actions[name][last := actions[name][last].(enabled := enabled)]];
    }

    // Reads see the last committed state.

    /** A row of the action, joined with its message. */
    predicate Asks(row: Row, action: Name)
      reads this`messages
    {
      row.action == action && row.msg in messages
    }

    /** The oldest claimable delivery of an action; not found and not readable are different answers. */
    method NextEligible(action: Name, now: Stamp) returns (ok: bool, id: Option<Id>)
      modifies this`outages
      ensures outages == Rest(old(outages)) && ok == !Failing(old(outages)) && (!ok ==> id.None?)
      ensures id.Some? ==> id.value in Eligible(Contents(), action, now)
      ensures id.Some? ==> forall d | d in Eligible(Contents(), action, now) :: id.value <= d
      ensures ok && id.None? ==> Eligible(Contents(), action, now) == {}
      ensures ok ==> forall d | d in deliveries && Asks(deliveries[d], action) && LongDue(deliveries[d], now) ::
        id.Some? && id.value <= d
      ensures id.Some? ==>
        id.value in deliveries && Asks(deliveries[id.value], action) && NearlyDue(deliveries[id.value], now)
    {
      ok := Attempt();
      id := None;
      if !ok { return; }
      var todo := deliveries.Keys;
      while todo != {}
        invariant todo <= deliveries.Keys && outages == Rest(old(outages))
        invariant id.Some? ==> id.value in Eligible(Contents(), action, now)
        invariant forall d | d in Eligible(Contents(), action, now) && d !in todo :: id.Some? && id.value <= d
        decreases |todo|
      {
        var d :| d in todo;
        var due := Due(d, action, now);
        if due && (id.None? || d < id.value) {
          id := Some(d);
        }
        todo := todo - {d};
      }
      forall d | d in deliveries
        ensures d in Eligible(Contents(), action, now) ==>
          Asks(deliveries[d], action) && NearlyDue(deliveries[d], now)
        ensures Asks(deliveries[d], action) && LongDue(deliveries[d], now) ==> d in Eligible(Contents(), action, now)
      {
        EligibleIsDue(Contents(), action, now, d);
      }
    }

    /** The WHERE clause of the query, for one row. */
    method Due(d: Id, action: Name, now: Stamp) returns (r: bool)
      requires d in deliveries
      ensures r <==> d in Eligible(Contents(), action, now)
    {
      var row := deliveries[d];
      if row.action != action || row.msg !in messages {
        return false;
      }
      if row.state == Pending {
        return true;
      }
      r := row.state == Failed && row.notBefore.Some? && Passed(row.notBefore.value, now);
    }

    /** Is the registry readable? */
    method ListActions() returns (ok: bool)
      modifies this`outages
      ensures outages == Rest(old(outages)) && ok == !Failing(old(outages))
    {
      ok := Attempt();
    }

    /** The least gate text among failed rows; no gate is a second or more before it. */
    method NextRetryAt() returns (gate: Option<Stamp>, ok: bool)
      modifies this`outages
      ensures outages == Rest(old(outages)) && ok == !Failing(old(outages)) && (!ok ==> gate.None?)
      ensures gate.Some? ==> gate.value in Gates(Contents())
      ensures gate.Some? ==> forall g | g in Gates(Contents()) :: Text.Leq(Format(gate.value), Format(g))
      ensures gate.Some? ==> forall g | g in Gates(Contents()) :: Instant(gate.value) - Instant(g) < NANOS_PER_SECOND
      ensures ok && gate.None? ==> Gates(Contents()) == {}
      ensures ok ==> forall d | d in deliveries && Gated(deliveries[d]) ::
        gate.Some? && Text.Leq(Format(gate.value), Format(deliveries[d].notBefore.value))
      ensures gate.Some? ==>
        exists d | d in deliveries :: deliveries[d].state.Failed? && deliveries[d].notBefore == gate
    {
      ok := Attempt();
      gate := None;
      if !ok { return; }
      var todo := deliveries.Keys;
      while todo != {}
        invariant outages == Rest(old(outages)) && todo <= deliveries.Keys && LeastSoFar(gate, Contents(), todo)
        decreases |todo|
      {
        var d :| d in todo;
        var next := EarlierOf(gate, deliveries[d]);
        EarlierKept(gate, next, Contents(), todo, d);
        gate := next;
        todo := todo - {d};
      }
      LeastOfAll(gate, Contents());
    }
  }

  lemma {:induction false} FanGrows(actions: Actions, a: seq<Outgoing>, b: seq<Outgoing>)
    ensures |Fan(actions, a)| <= |Fan(actions, a + b)|
    decreases |b|
  {
    if b == [] {
      assert a + b == a;
    } else {
      assert (a + b)[..|a + b| - 1] == a + b[..|b| - 1];
      FanGrows(actions, a, b[..|b| - 1]);
    }
  }

  /** There is only one oldest delivery, so the query finds the one the engine picks; */
  lemma OneOldest(db: Db, action: Name, now: Stamp, ok: bool, id: Option<Id>)
    requires !ok ==> id.None?
    requires id.Some? ==> id.value in Eligible(db, action, now)
    requires id.Some? ==> forall d | d in Eligible(db, action, now) :: id.value <= d
    requires ok && id.None? ==> Eligible(db, action, now) == {}
    ensures id == if ok then Tables.NextEligible(db, action, now) else None
  {
  }

  /** and only one gate with the least text. */
  lemma OneEarliest(db: Db, ok: bool, gate: Option<Stamp>)
    requires !ok ==> gate.None?
    requires gate.Some? ==> gate.value in Gates(db)
    requires gate.Some? ==> forall g | g in Gates(db) :: Text.Leq(Format(gate.value), Format(g))
    requires ok && gate.None? ==> Gates(db) == {}
    ensures gate == if ok then Tables.NextRetryAt(db) else None
  {
    if gate.Some? {
      var least := Earliest(Gates(db));
      hide Format;
      assert Passed(least, gate.value);
      Text.LeqAntisymmetric(Format(gate.value), Format(least));
      FormatInjective(gate.value, least);
    }
  }
}
