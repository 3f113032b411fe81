/**
 * The database: messages, versioned actions and deliveries, with every write transaction as a function of the
 * whole database. A transaction whose guarded UPDATE misses its row has no result; it changes nothing.
 */
module Tables {
  import opened Bytes
  import opened Keys
  import opened Stamps
  import opened Workflow
  import Text

  datatype State = Pending | Claimed | Done | Failed | Filtered | Dead | Cancelled

  /** The states that keep the daemon alive. */
  predicate Active(s: State) {
    s.Pending? || s.Failed? || s.Claimed?
  }

  /** The states the scheduler may claim or resolve from. */
  predicate Waiting(s: State) {
    s.Pending? || s.Failed?
  }

  datatype Reason =
    | Superseded(version: nat)
    | BadHeaders
    | HopLimit
    | BadDefinition
    | BadInput
    | FilterError
    | ActionDisabled
    | DaemonRestarted
    | Execution
    | BadStdout

  datatype Row = Row(
    msg: Id,
    action: Name,
    version: Option<nat>,
    state: State,
    attempt: nat,
    notBefore: Option<Stamp>,
    pgid: Option<int>,
    stderr: Option<Data>,
    error: Option<Reason>,
    claimedAt: Option<Stamp>,
    completedAt: Option<Stamp>
  )

  /** What the headers say about hops. */
  datatype Headers = NoHops | Hops(n: int) | Undecodable

  datatype Origin = Origin(action: Name, version: nat, msg: Id)

  datatype Message = Message(
    queue: Queue,
    payload: Data,
    headers: Headers,
    trace: Id,
    origin: Option<Origin>,
    createdAt: Stamp
  )

  /** One immutable version; the flag of the last one governs. */
  datatype Version = Version(def: Definition, enabled: bool)

  type Actions = map<Name, seq<Version>>

  datatype Db = Db(messages: map<Id, Message>, actions: Actions, deliveries: map<Id, Row>)

  const EMPTY := Db(map[], map[], map[])

  predicate Registered(actions: Actions, name: Name) {
    name in actions && actions[name] != []
  }

  function Current(actions: Actions, name: Name): Version
    requires Registered(actions, name)
  {
    actions[name][|actions[name]| - 1]
  }

  predicate Enabled(actions: Actions, name: Name) {
    Registered(actions, name) && Current(actions, name).enabled
  }

  // Fan-out.

  /** Does the current version of name accrue a delivery for a message on queue? */
  predicate Subscribed(actions: Actions, queue: Queue, name: Name) {
    Enabled(actions, name) && Takes(Current(actions, name).def, queue)
  }

  function Select(actions: Actions, queue: Queue, names: seq<Name>): (r: seq<Name>)
    ensures |r| <= |names|
  {
    if names == [] then []
    else Select(actions, queue, names[..|names| - 1]) +
         if Subscribed(actions, queue, names[|names| - 1]) then [names[|names| - 1]] else []
  }

  /** The subscribers of a queue, by name. */
  function Subscribers(actions: Actions, queue: Queue): (r: seq<Name>)
    ensures |r| <= |actions|
  {
    SortedLength(actions.Keys);
    Select(actions, queue, Text.Sorted(actions.Keys))
  }

  lemma {:induction false} Selected(actions: Actions, queue: Queue, names: seq<Name>)
    ensures forall n :: n in Select(actions, queue, names) <==> n in names && Subscribed(actions, queue, n)
  {
    if names != [] {
      var k := |names| - 1;
      Selected(actions, queue, names[..k]);
      assert names == names[..k] + [names[k]];
    }
  }

  lemma SubscribersAre(actions: Actions, queue: Queue)
    ensures forall n :: n in Subscribers(actions, queue) <==> Subscribed(actions, queue, n)
  {
    Selected(actions, queue, Text.Sorted(actions.Keys));
  }

  lemma {:induction false} SortedLength(names: set<Name>)
    ensures |Text.Sorted(names)| == |names|
    decreases |names|
  {
    if names != {} {
      SortedLength(names - {Text.Least(names)});
    }
  }

  predicate Distinct<T(==)>(xs: seq<T>) {
    forall i, j | 0 <= i < j < |xs| :: xs[i] != xs[j]
  }

  lemma {:induction false} SelectDistinct(actions: Actions, queue: Queue, names: seq<Name>)
    requires Distinct(names)
    ensures Distinct(Select(actions, queue, names))
  {
    if names != [] {
      var n := |names| - 1;
      SelectDistinct(actions, queue, names[..n]);
      Selected(actions, queue, names[..n]);
      assert names[n] !in names[..n];
    }
  }

  lemma SubscribersDistinct(actions: Actions, queue: Queue)
    ensures Distinct(Subscribers(actions, queue))
  {
    var names := Text.Sorted(actions.Keys);
    forall i, j | 0 <= i < j < |names| ensures names[i] != names[j] {
      assert Text.Less(names[i], names[j]);
    }
    SelectDistinct(actions, queue, names);
  }

  /** A fresh delivery. */
  function Fresh(msg: Id, action: Name): Row {
    Row(msg, action, None, Pending, 0, None, None, None, None, None, None)
  }

  /** A message about to be inserted under its id. */
  datatype Outgoing = Outgoing(id: Id, msg: Message)

  datatype Target = Target(msg: Id, action: Name)

  function Targets(actions: Actions, out: Outgoing): (r: seq<Target>)
    ensures |r| == |Subscribers(actions, out.msg.queue)|
  {
    var names := Subscribers(actions, out.msg.queue);
    seq(|names|, k requires 0 <= k < |names| => Target(out.id, names[k]))
  }

  /** The deliveries a batch of messages implies, in insertion order. */
  function Fan(actions: Actions, outs: seq<Outgoing>): seq<Target> {
    if outs == [] then []
    else Fan(actions, outs[..|outs| - 1]) + Targets(actions, outs[|outs| - 1])
  }

  predicate DistinctIds(outs: seq<Outgoing>) {
    forall i, j | 0 <= i < j < |outs| :: outs[i].id != outs[j].id
  }

  predicate Among(outs: seq<Outgoing>, m: Id) {
    exists i | 0 <= i < |outs| :: outs[i].id == m
  }

  /** The ids a transaction is about to use: new to the tables and increasing, as NewID issues them. */
  ghost predicate Insertable(db: Db, outs: seq<Outgoing>, ids: seq<Id>) {
    && DistinctIds(outs) && (forall i | 0 <= i < |outs| :: outs[i].id !in db.messages)
    && Increasing(ids) && (forall k | 0 <= k < |ids| :: ids[k] !in db.deliveries)
    && |ids| == |Fan(db.actions, outs)|
  }

  function InsertMessages(messages: map<Id, Message>, outs: seq<Outgoing>): (r: map<Id, Message>)
    requires DistinctIds(outs) && (forall i | 0 <= i < |outs| :: outs[i].id !in messages)
    ensures forall m :: m in r <==> m in messages || Among(outs, m)
    ensures forall m | m in messages :: r[m] == messages[m]
    ensures forall i | 0 <= i < |outs| :: outs[i].id in r && r[outs[i].id] == outs[i].msg
  {
    if outs == [] then messages
    else
      var n := |outs| - 1;
      var r := InsertMessages(messages, outs[..n]);
      LastInserted(messages, r, outs);
      r[outs[n].id := outs[n].msg]
  }

  lemma LastInserted(messages: map<Id, Message>, r: map<Id, Message>, outs: seq<Outgoing>)
    requires outs != [] && DistinctIds(outs) && (forall i | 0 <= i < |outs| :: outs[i].id !in messages)
    requires var n := |outs| - 1;
      && (forall m :: m in r <==> m in messages || Among(outs[..n], m))
      && (forall m | m in messages :: r[m] == messages[m])
      && forall i | 0 <= i < n :: outs[..n][i].id in r && r[outs[..n][i].id] == outs[..n][i].msg
    ensures var after := r[outs[|outs| - 1].id := outs[|outs| - 1].msg];
      && (forall m :: m in after <==> m in messages || Among(outs, m))
      && (forall m | m in messages :: after[m] == messages[m])
      && forall i | 0 <= i < |outs| :: outs[i].id in after && after[outs[i].id] == outs[i].msg
  {
    var n := |outs| - 1;
    AmongLast(outs);
    hide Among;
    forall i | 0 <= i < n ensures outs[i].id in r && r[outs[i].id] == outs[i].msg {
      assert outs[..n][i] == outs[i];
    }
  }

  lemma AmongLast(outs: seq<Outgoing>)
    requires outs != []
    ensures forall m :: Among(outs, m) <==> Among(outs[..|outs| - 1], m) || m == outs[|outs| - 1].id
  {
    var n := |outs| - 1;
    forall m ensures Among(outs, m) <==> Among(outs[..n], m) || m == outs[n].id {
      if Among(outs, m) && m != outs[n].id {
        var j :| 0 <= j < |outs| && outs[j].id == m;
        assert outs[..n][j].id == m;
      }
      if Among(outs[..n], m) {
        var j :| 0 <= j < n && outs[..n][j].id == m;
        assert outs[j].id == m;
      }
    }
  }

  /** Single-row inserts, in order. */
  function InsertRows(deliveries: map<Id, Row>, fan: seq<Target>, ids: seq<Id>): (r: map<Id, Row>)
    requires Increasing(ids) && |ids| == |fan| && (forall k | 0 <= k < |ids| :: ids[k] !in deliveries)
    ensures forall d :: d in r <==> d in deliveries || d in ids
    ensures forall d | d in deliveries :: r[d] == deliveries[d]
    ensures forall k | 0 <= k < |ids| :: ids[k] in r && r[ids[k]] == Fresh(fan[k].msg, fan[k].action)
  {
    if ids == [] then deliveries
    else
      var n := |ids| - 1;
      assert ids == ids[..n] + [ids[n]];
      InsertRows(deliveries, fan[..n], ids[..n])[ids[n] := Fresh(fan[n].msg, fan[n].action)]
  }

  /** Messages and, in the same transaction, their deliveries. */
  function Insert(db: Db, outs: seq<Outgoing>, ids: seq<Id>): Db
    requires Insertable(db, outs, ids)
  {
    Db(InsertMessages(db.messages, outs), db.actions, InsertRows(db.deliveries, Fan(db.actions, outs), ids))
  }

  // What fan-out contains.

  lemma {:induction false} FanTargets(actions: Actions, outs: seq<Outgoing>)
    ensures forall t | t in Fan(actions, outs) ::
      exists i | 0 <= i < |outs| :: t.msg == outs[i].id && Subscribed(actions, outs[i].msg.queue, t.action)
  {
    if outs != [] {
      var n := |outs| - 1;
      FanTargets(actions, outs[..n]);
      forall t | t in Fan(actions, outs)
        ensures exists i | 0 <= i < |outs| :: t.msg == outs[i].id && Subscribed(actions, outs[i].msg.queue, t.action)
      {
        if t in Fan(actions, outs[..n]) {
          var i :| 0 <= i < n && t.msg == outs[..n][i].id && Subscribed(actions, outs[..n][i].msg.queue, t.action);
          assert outs[i] == outs[..n][i];
        } else {
          assert t in Targets(actions, outs[n]);
          SubscribersAre(actions, outs[n].msg.queue);
          assert t.msg == outs[n].id && Subscribed(actions, outs[n].msg.queue, t.action);
        }
      }
    }
  }

  lemma {:induction false} FanCovers(actions: Actions, outs: seq<Outgoing>, i: nat, name: Name)
    requires i < |outs| && Subscribed(actions, outs[i].msg.queue, name)
    ensures Target(outs[i].id, name) in Fan(actions, outs)
  {
    var n := |outs| - 1;
    if i == n {
      var names := Subscribers(actions, outs[n].msg.queue);
      SubscribersAre(actions, outs[n].msg.queue);
      var k :| 0 <= k < |names| && names[k] == name;
      assert Targets(actions, outs[n])[k] == Target(outs[i].id, name);
    } else {
      FanCovers(actions, outs[..n], i, name);
    }
  }

  lemma {:induction false} FanDistinct(actions: Actions, outs: seq<Outgoing>)
    requires DistinctIds(outs)
    ensures Distinct(Fan(actions, outs))
  {
    if outs != [] {
      var n := |outs| - 1;
      FanDistinct(actions, outs[..n]);
      FanTargets(actions, outs[..n]);
      SubscribersDistinct(actions, outs[n].msg.queue);
      var before, last := Fan(actions, outs[..n]), Targets(actions, outs[n]);
      forall i, j | 0 <= i < j < |before + last| ensures (before + last)[i] != (before + last)[j] {
        if i < |before| <= j {
          assert before[i] in before;
          var k :| 0 <= k < n && before[i].msg == outs[..n][k].id;
          assert last[j - |before|].msg == outs[n].id && outs[k].id != outs[n].id;
        } else if |before| <= i {
          assert last[i - |before|] != last[j - |before|];
        }
      }
    }
  }

  // Transactions.

  /** `UPDATE ... WHERE id = ? AND state IN ('pending','failed')`: pins the version and counts the attempt. */
  function Claim(db: Db, id: Id, version: nat, now: Stamp): Option<Db> {
    if id in db.deliveries && Waiting(db.deliveries[id].state) then
      var row := db.deliveries[id];
      Some(db.(deliveries := db.deliveries[id :=
        row.(state := Claimed, version := Some(version), attempt := row.attempt + 1,
             claimedAt := Some(now), notBefore := None)]))
    else None
  }

  /** `UPDATE ... WHERE id = ?`: no guard on the state. */
  function Resolve(db: Db, id: Id, state: State, error: Option<Reason>, now: Stamp): Option<Db> {
    if id in db.deliveries then
      Some(db.(deliveries := db.deliveries[id :=
        db.deliveries[id].(state := state, error := error, completedAt := Some(now), pgid := None)]))
    else None
  }

  /** A miss is not an error here. */
  function SetPgid(db: Db, id: Id, pgid: int): Db {
    if id in db.deliveries && db.deliveries[id].state.Claimed? then
      db.(deliveries := db.deliveries[id := db.deliveries[id].(pgid := Some(pgid))])
    else db
  }

  function Nullable(s: Data): Option<Data> {
    if s == [] then None else Some(s)
  }

  /** The transactional outbox: done, the outputs and their deliveries, together. */
  ghost function Complete(db: Db, id: Id, stderr: Data, outs: seq<Outgoing>, ids: seq<Id>, now: Stamp): Option<Db>
    requires Insertable(db, outs, ids)
  {
    if id in db.deliveries && db.deliveries[id].state.Claimed? then
      Some(Insert(MarkDone(db, id, stderr, now), outs, ids))
    else None
  }

  /** The first statement of Complete. */
  function MarkDone(db: Db, id: Id, stderr: Data, now: Stamp): Db
    requires id in db.deliveries
  {
    db.(deliveries := db.deliveries[id :=
      db.deliveries[id].(state := Done, stderr := Nullable(stderr), completedAt := Some(now), pgid := None)])
  }

  function Fail(db: Db, id: Id, dead: bool, gate: Stamp, error: Reason, stderr: Data, now: Stamp): Option<Db> {
    if id in db.deliveries && db.deliveries[id].state.Claimed? then
      Some(db.(deliveries := db.deliveries[id :=
        db.deliveries[id].(state := if dead then Dead else Failed, notBefore := if dead then None else Some(gate),
          error := Some(error), stderr := Nullable(stderr), completedAt := Some(now), pgid := None)]))
    else None
  }

  datatype ReplayError = NotFound | NotDead(state: State)

  datatype Replayed = Replayed(db: Db) | Refused(error: ReplayError)

  function Replay(db: Db, id: Id): Replayed {
    if id !in db.deliveries then Refused(NotFound)
    else if !db.deliveries[id].state.Dead? then Refused(NotDead(db.deliveries[id].state))
    else
      Replayed(db.(deliveries := db.deliveries[id :=
        db.deliveries[id].(state := Pending, attempt := 0, error := None, stderr := None, notBefore := None,
          version := None, claimedAt := None, completedAt := None)]))
  }

  function WaitingOf(db: Db, name: Name): set<Id> {
    set id | id in db.deliveries && db.deliveries[id].action == name && Waiting(db.deliveries[id].state)
  }

  /** Every waiting row of one action, in one statement; the result counts them. */
  function CancelAll(db: Db, name: Name, reason: Reason, now: Stamp): Db {
    db.(deliveries := map id | id in db.deliveries ::
      if db.deliveries[id].action == name && Waiting(db.deliveries[id].state) then
        db.deliveries[id].(state := Cancelled, error := Some(reason), notBefore := None, completedAt := Some(now))
      else db.deliveries[id])
  }

  function ResetOrphan(db: Db, id: Id, now: Stamp): Db {
    if id in db.deliveries && db.deliveries[id].state.Claimed? then
      db.(deliveries := db.deliveries[id :=
        db.deliveries[id].(state := Failed, notBefore := Some(now), error := Some(DaemonRestarted), pgid := None)])
    else db
  }

  /** A new version unless the definition is the current one; it inherits the flag. */
  function Apply(actions: Actions, name: Name, def: Definition): Actions {
    if !Registered(actions, name) then actions[name := [Version(def, true)]]
    else if Current(actions, name).def == def then actions
    else actions[name := actions[name] + [Version(def, Current(actions, name).enabled)]]
  }

  function SetEnabled(actions: Actions, name: Name, enabled: bool): Actions
    requires Registered(actions, name)
  {
    var last := |actions[name]| - 1;
    actions[name := actions[name][last := actions[name][last].(enabled := enabled)]]
  }

  // Queries.

  /** Rows an action may claim now; the join with messages needs the row's message. */
  function Eligible(db: Db, name: Name, now: Stamp): set<Id> {
    set id | id in db.deliveries && db.deliveries[id].msg in db.messages && db.deliveries[id].action == name &&
             (db.deliveries[id].state.Pending? ||
              (db.deliveries[id].state.Failed? && db.deliveries[id].notBefore.Some? &&
               Passed(db.deliveries[id].notBefore.value, now)))
  }

  /** The oldest claimable delivery of an action. */
  function NextEligible(db: Db, name: Name, now: Stamp): (r: Option<Id>)
    ensures r.None? <==> Eligible(db, name, now) == {}
    ensures r.Some? ==> r.value in Eligible(db, name, now)
    ensures r.Some? ==> forall id | id in Eligible(db, name, now) :: r.value <= id
  {
    var ids := Eligible(db, name, now);
    if ids == {} then None else Some(Keys.Least(ids))
  }

  function ClaimedIds(db: Db): set<Id> {
    set id | id in db.deliveries && db.deliveries[id].state.Claimed?
  }

  function ActiveIds(db: Db): set<Id> {
    set id | id in db.deliveries && Active(db.deliveries[id].state)
  }

  function Gates(db: Db): set<Stamp> {
    set id | id in db.deliveries && db.deliveries[id].state.Failed? && db.deliveries[id].notBefore.Some?
      :: db.deliveries[id].notBefore.value
  }

  /** The earliest gate among failed rows, by text. */
  function NextRetryAt(db: Db): Option<Stamp> {
    if Gates(db) == {} then None else Some(Earliest(Gates(db)))
  }
}
