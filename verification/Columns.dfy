/**
 * What each statement on the deliveries table does to a row, column by column. These say what the statements are for;
 * Tables says what they compute.
 */
module Columns {
  import opened Bytes
  import opened Keys
  import opened Stamps
  import opened Workflow
  import opened Tables

  /** No row but this one is touched. */
  predicate OnlyRow(was: map<Id, Row>, now: map<Id, Row>, id: Id) {
    id in was && now.Keys == was.Keys && forall d | d in was && d != id :: now[d] == was[d]
  }

  /** A row keeps what it was created for. */
  predicate SameTarget(a: Row, b: Row) {
    b.msg == a.msg && b.action == a.action
  }

  predicate ClaimedFrom(a: Row, b: Row, version: nat, now: Stamp) {
    && (a.state.Pending? || a.state.Failed?) && b.state.Claimed?
    && SameTarget(a, b) && b.version == Some(version) && b.attempt == a.attempt + 1
    && b.claimedAt == Some(now) && b.notBefore == None
    && b.pgid == a.pgid && b.stderr == a.stderr && b.error == a.error && b.completedAt == a.completedAt
  }

  predicate ResolvedFrom(a: Row, b: Row, state: State, error: Option<Reason>, now: Stamp) {
    && b.state == state && b.error == error && b.completedAt == Some(now) && b.pgid == None
    && SameTarget(a, b) && b.version == a.version && b.attempt == a.attempt && b.notBefore == a.notBefore
    && b.claimedAt == a.claimedAt && b.stderr == a.stderr
  }

  predicate GroupedFrom(a: Row, b: Row, pgid: int) {
    && a.state.Claimed? && b.state.Claimed? && b.pgid == Some(pgid)
    && SameTarget(a, b) && b.version == a.version && b.attempt == a.attempt && b.notBefore == a.notBefore
    && b.claimedAt == a.claimedAt && b.completedAt == a.completedAt && b.stderr == a.stderr && b.error == a.error
  }

  /** Empty output is stored as none. */
  predicate Keeps(column: Option<Data>, text: Data) {
    if text == [] then column == None else column == Some(text)
  }

  predicate DoneFrom(a: Row, b: Row, stderr: Data, now: Stamp) {
    && a.state.Claimed? && b.state.Done? && Keeps(b.stderr, stderr) && b.completedAt == Some(now) && b.pgid == None
    && SameTarget(a, b) && b.version == a.version && b.attempt == a.attempt && b.notBefore == a.notBefore
    && b.claimedAt == a.claimedAt && b.error == a.error
  }

  /** Dead rows have no gate; others are due again at theirs. */
  predicate FailedFrom(a: Row, b: Row, dead: bool, gate: Stamp, error: Reason, stderr: Data, now: Stamp) {
    && a.state.Claimed?
    && (if dead then b.state.Dead? && b.notBefore == None else b.state.Failed? && b.notBefore == Some(gate))
    && b.error == Some(error) && Keeps(b.stderr, stderr) && b.completedAt == Some(now) && b.pgid == None
    && SameTarget(a, b) && b.version == a.version && b.attempt == a.attempt && b.claimedAt == a.claimedAt
  }

  /** Only the process group survives, and a dead row has none. */
  predicate ReplayedFrom(a: Row, b: Row) {
    && a.state.Dead? && b.state.Pending? && SameTarget(a, b) && b.pgid == a.pgid
    && b.attempt == 0 && b.version == None && b.notBefore == None && b.error == None && b.stderr == None
    && b.claimedAt == None && b.completedAt == None
  }

  predicate CancelledFrom(a: Row, b: Row, reason: Reason, now: Stamp) {
    && (a.state.Pending? || a.state.Failed?) && b.state.Cancelled?
    && b.error == Some(reason) && b.notBefore == None && b.completedAt == Some(now)
    && SameTarget(a, b) && b.version == a.version && b.attempt == a.attempt && b.pgid == a.pgid
    && b.claimedAt == a.claimedAt && b.stderr == a.stderr
  }

  predicate OrphanedFrom(a: Row, b: Row, now: Stamp) {
    && a.state.Claimed? && b.state.Failed? && b.notBefore == Some(now) && b.error == Some(DaemonRestarted)
    && b.pgid == None && SameTarget(a, b) && b.version == a.version && b.attempt == a.attempt
    && b.claimedAt == a.claimedAt && b.completedAt == a.completedAt && b.stderr == a.stderr
  }

  predicate Waits(row: Row) {
    row.state.Pending? || row.state.Failed?
  }

  /** The action's pending and failed rows are cancelled for the reason; every other row is as it was. */
  ghost predicate GivenUpOf(was: map<Id, Row>, now: map<Id, Row>, action: Name, reason: Reason, at: Stamp) {
    && now.Keys == was.Keys
    && forall d | d in was ::
         if was[d].action == action && Waits(was[d]) then CancelledFrom(was[d], now[d], reason, at)
         else now[d] == was[d]
  }

  /** As inserted: waiting, and nothing has happened to it. */
  predicate Untouched(row: Row, msg: Id, action: Name) {
    && row.msg == msg && row.action == action && row.state.Pending? && row.attempt == 0
    && row.version == None && row.notBefore == None && row.pgid == None && row.stderr == None && row.error == None
    && row.claimedAt == None && row.completedAt == None
  }

  /** The messages are in with the rows of their subscribers, just created, and all else is as it was. */
  ghost predicate InsertedBy(was: Db, now: Db, outs: seq<Outgoing>) {
    && now.actions == was.actions
    && (forall m | m in was.messages :: m in now.messages && now.messages[m] == was.messages[m])
    && (forall i | 0 <= i < |outs| :: outs[i].id in now.messages && now.messages[outs[i].id] == outs[i].msg)
    && (forall m | m in now.messages && m !in was.messages :: Among(outs, m))
    && (forall d | d in was.deliveries :: d in now.deliveries && now.deliveries[d] == was.deliveries[d])
    && (forall d | d in now.deliveries && d !in was.deliveries ::
          Untouched(now.deliveries[d], now.deliveries[d].msg, now.deliveries[d].action))
  }

  lemma InsertLaw(db: Db, outs: seq<Outgoing>, ids: seq<Id>)
    requires Insertable(db, outs, ids)
    ensures InsertedBy(db, Insert(db, outs, ids), outs)
  {
    var r := Insert(db, outs, ids);
    forall d | d in r.deliveries && d !in db.deliveries
      ensures Untouched(r.deliveries[d], r.deliveries[d].msg, r.deliveries[d].action)
    {
      var k :| 0 <= k < |ids| && ids[k] == d;
      assert r.deliveries[ids[k]] == Fresh(Fan(db.actions, outs)[k].msg, Fan(db.actions, outs)[k].action);
    }
  }

  /** The next version with the flag of the one before, unless nothing changes. */
  ghost predicate AppliedFrom(was: Actions, now: Actions, name: Name, def: Definition) {
    && (forall n | n in was && n != name :: n in now && now[n] == was[n]) && now.Keys == was.Keys + {name}
    && if !Registered(was, name) then now[name] == [Version(def, true)]
       else if was[name][|was[name]| - 1].def == def then now[name] == was[name]
       else now[name] == was[name] + [Version(def, was[name][|was[name]| - 1].enabled)]
  }

  /** The current version has the flag; every older version and every other action is as it was. */
  ghost predicate Flipped(was: Actions, now: Actions, name: Name, enabled: bool) {
    && Registered(was, name) && Registered(now, name) && (Enabled(now, name) <==> enabled)
    && Current(now, name).def == Current(was, name).def
    && |now[name]| == |was[name]| && (forall v | 0 <= v < |was[name]| - 1 :: now[name][v] == was[name][v])
    && now.Keys == was.Keys && forall n | n in was && n != name :: now[n] == was[n]
  }

  /** The row is waiting, and whatever gate it has was due by a whole second or more. */
  predicate LongDue(row: Row, now: Stamp) {
    row.state.Pending? || (row.state.Failed? && row.notBefore.Some? && Second(row.notBefore.value) < Second(now))
  }

  /** The row is waiting, and no gate of it is a second or more ahead. */
  predicate NearlyDue(row: Row, now: Stamp) {
    || row.state.Pending?
    || (row.state.Failed? && row.notBefore.Some? &&
        Instant(row.notBefore.value) - Instant(now) < NANOS_PER_SECOND)
  }

  /** Between the two lies what the query finds. */
  lemma EligibleIsDue(db: Db, action: Name, now: Stamp, d: Id)
    requires d in db.deliveries
    ensures var row := db.deliveries[d];
      && (d in Eligible(db, action, now) ==> row.action == action && row.msg in db.messages && NearlyDue(row, now))
      && (row.action == action && row.msg in db.messages && LongDue(row, now) ==> d in Eligible(db, action, now))
  {
    hide Passed;
    if db.deliveries[d].notBefore.Some? {
      GateWithinASecond(db.deliveries[d].notBefore.value, now);
    }
  }
}
