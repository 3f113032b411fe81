/** What every transaction keeps true of the tables, whoever runs it. */
module Integrity {
  import opened Bytes
  import opened Keys
  import opened Stamps
  import opened Workflow
  import opened Tables

  /** What each state implies about the other columns. */
  predicate Shape(row: Row) {
    && (row.pgid.Some? ==> row.state.Claimed?)
    && (row.state.Failed? ==> row.notBefore.Some?)
    && (row.state.Pending? ==> row.attempt == 0 && row.version.None? && row.notBefore.None?)
    && (row.state.Claimed? || row.state.Done? || row.state.Failed? ==> row.version.Some? && row.attempt >= 1)
    && (row.state.Claimed? ==> row.notBefore.None?)
  }

  predicate Refers(db: Db, d: Id)
    requires d in db.deliveries
  {
    db.deliveries[d].msg in db.messages && Registered(db.actions, db.deliveries[d].action)
  }

  ghost predicate References(db: Db) {
    forall d {:trigger Refers(db, d)} | d in db.deliveries :: Refers(db, d)
  }

  predicate SamePair(a: Row, b: Row) {
    a.msg == b.msg && a.action == b.action
  }

  /** `UNIQUE (message_id, action_name)`. */
  ghost predicate UniquePairs(db: Db) {
    forall c, d {:trigger SamePair(db.deliveries[c], db.deliveries[d])} |
      c in db.deliveries && d in db.deliveries && c != d :: !SamePair(db.deliveries[c], db.deliveries[d])
  }

  ghost predicate Shapes(db: Db) {
    forall d {:trigger Shape(db.deliveries[d])} | d in db.deliveries :: Shape(db.deliveries[d])
  }

  ghost predicate ValidVersions(versions: seq<Version>) {
    versions != [] && forall v | 0 <= v < |versions| :: Workflow.Valid(versions[v].def)
  }

  ghost predicate ValidRegistry(actions: Actions) {
    forall n {:trigger ValidVersions(actions[n])} | n in actions :: ValidVersions(actions[n])
  }

  ghost predicate Sound(db: Db) {
    References(db) && UniquePairs(db) && Shapes(db) && ValidRegistry(db.actions)
  }

  /** What soundness says of one row. */
  lemma RowSound(db: Db, d: Id)
    requires Sound(db) && d in db.deliveries
    ensures Refers(db, d) && Shape(db.deliveries[d])
  {
  }

  /** A statement that rewrites rows within their message and action, and leaves the registry sound. */
  lemma RewriteSound(db: Db, r: Db)
    requires Sound(db) && r.messages == db.messages && r.deliveries.Keys == db.deliveries.Keys
    requires forall d | d in db.deliveries :: SamePair(r.deliveries[d], db.deliveries[d]) && Shape(r.deliveries[d])
    requires ValidRegistry(r.actions) && (forall n | Registered(db.actions, n) :: Registered(r.actions, n))
    ensures Sound(r)
  {
    forall d | d in r.deliveries ensures Refers(r, d) {
      assert Refers(db, d);
      assert SamePair(r.deliveries[d], db.deliveries[d]);
    }
    forall c, d | c in r.deliveries && d in r.deliveries && c != d
      ensures !SamePair(r.deliveries[c], r.deliveries[d])
    {
      assert !SamePair(db.deliveries[c], db.deliveries[d]);
      assert SamePair(r.deliveries[c], db.deliveries[c]) && SamePair(r.deliveries[d], db.deliveries[d]);
    }
  }

  lemma UpdateSound(db: Db, id: Id, row: Row)
    requires Sound(db) && id in db.deliveries && SamePair(row, db.deliveries[id]) && Shape(row)
    ensures Sound(db.(deliveries := db.deliveries[id := row]))
  {
    var r := db.(deliveries := db.deliveries[id := row]);
    forall d | d in db.deliveries ensures SamePair(r.deliveries[d], db.deliveries[d]) && Shape(r.deliveries[d]) {
      assert Shape(db.deliveries[d]);
    }
    RewriteSound(db, r);
  }

  lemma InsertSound(db: Db, outs: seq<Outgoing>, ids: seq<Id>)
    requires Sound(db) && Insertable(db, outs, ids)
    ensures Sound(Insert(db, outs, ids))
  {
    var r := Insert(db, outs, ids);
    forall d | d in r.deliveries ensures Refers(r, d) && Shape(r.deliveries[d]) {
      if d in db.deliveries {
        RowSound(db, d);
      } else {
        InsertedRow(db, outs, ids, d);
      }
    }
    forall c, d | c in r.deliveries && d in r.deliveries && c != d
      ensures !SamePair(r.deliveries[c], r.deliveries[d])
    {
      InsertedPairs(db, outs, ids, c, d);
    }
  }

  lemma InsertedPairs(db: Db, outs: seq<Outgoing>, ids: seq<Id>, c: Id, d: Id)
    requires References(db) && UniquePairs(db) && Insertable(db, outs, ids) && c != d
    requires var r := Insert(db, outs, ids); c in r.deliveries && d in r.deliveries
    ensures var r := Insert(db, outs, ids); !SamePair(r.deliveries[c], r.deliveries[d])
  {
    if c in db.deliveries && d in db.deliveries {
      assert !SamePair(db.deliveries[c], db.deliveries[d]);
    } else if c in ids && d in ids {
      InsertedDiffer(db, outs, ids, c, d);
    } else if c in db.deliveries {
      OldAndNew(db, outs, ids, c, d);
    } else {
      OldAndNew(db, outs, ids, d, c);
    }
  }

  /** An inserted row is for a message that no row referred to before. */
  lemma OldAndNew(db: Db, outs: seq<Outgoing>, ids: seq<Id>, c: Id, d: Id)
    requires References(db) && Insertable(db, outs, ids) && c in db.deliveries && d in ids
    ensures var r := Insert(db, outs, ids).deliveries; c in r && d in r && r[c].msg != r[d].msg
  {
    InsertedRow(db, outs, ids, d);
    assert Refers(db, c);
  }

  lemma InsertedDiffer(db: Db, outs: seq<Outgoing>, ids: seq<Id>, c: Id, d: Id)
    requires Insertable(db, outs, ids) && c != d && c in ids && d in ids
    ensures var r := Insert(db, outs, ids).deliveries; c in r && d in r && !SamePair(r[c], r[d])
  {
    var fan := Fan(db.actions, outs);
    FanDistinct(db.actions, outs);
    var rows := InsertRows(db.deliveries, fan, ids);
    var j :| 0 <= j < |ids| && ids[j] == c;
    var k :| 0 <= k < |ids| && ids[k] == d;
    assert fan[j] != fan[k];
    assert rows[ids[j]] == Fresh(fan[j].msg, fan[j].action) && rows[ids[k]] == Fresh(fan[k].msg, fan[k].action);
  }

  /** An inserted row is pending, for a subscriber of a message inserted with it. */
  lemma InsertedRow(db: Db, outs: seq<Outgoing>, ids: seq<Id>, d: Id)
    requires Insertable(db, outs, ids) && d in ids
    ensures d in Insert(db, outs, ids).deliveries
    ensures var row := Insert(db, outs, ids).deliveries[d];
      && row == Fresh(row.msg, row.action) && row.msg !in db.messages && Enabled(db.actions, row.action)
      && exists i | 0 <= i < |outs| :: row.msg == outs[i].id && Subscribed(db.actions, outs[i].msg.queue, row.action)
  {
    var k :| 0 <= k < |ids| && ids[k] == d;
    FanTargets(db.actions, outs);
    assert Fan(db.actions, outs)[k] in Fan(db.actions, outs);
  }

  lemma CancelAllSound(db: Db, name: Name, reason: Reason, now: Stamp)
    requires Sound(db)
    ensures Sound(CancelAll(db, name, reason, now))
  {
    var r := CancelAll(db, name, reason, now);
    forall d | d in db.deliveries ensures SamePair(r.deliveries[d], db.deliveries[d]) && Shape(r.deliveries[d]) {
      RowSound(db, d);
    }
    RewriteSound(db, r);
  }

  /** Registry changes leave every row alone. */
  lemma RegistrySound(db: Db, actions: Actions)
    requires Sound(db) && ValidRegistry(actions)
    requires forall n | Registered(db.actions, n) :: Registered(actions, n)
    ensures Sound(db.(actions := actions))
  {
    forall d | d in db.deliveries ensures Shape(db.deliveries[d]) {
      RowSound(db, d);
    }
    RewriteSound(db, db.(actions := actions));
  }

  lemma ApplySound(db: Db, name: Name, def: Definition)
    requires Sound(db) && Workflow.Valid(def)
    ensures Sound(db.(actions := Apply(db.actions, name, def)))
  {
    var r := Apply(db.actions, name, def);
    forall n | n in r ensures ValidVersions(r[n]) {
      if n in db.actions { assert ValidVersions(db.actions[n]); }
    }
    RegistrySound(db, r);
  }

  lemma SetEnabledSound(db: Db, name: Name, on: bool)
    requires Sound(db) && Registered(db.actions, name)
    ensures Sound(db.(actions := SetEnabled(db.actions, name, on)))
  {
    var r := SetEnabled(db.actions, name, on);
    forall n | n in r ensures ValidVersions(r[n]) {
      assert ValidVersions(db.actions[n]);
    }
    RegistrySound(db, r);
  }

  /** A version that some registry held: still there, with the same definition. */
  ghost predicate HasVersion(actions: Actions, name: Name, version: nat, def: Definition) {
    name in actions && 1 <= version <= |actions[name]| && actions[name][version - 1].def == def
  }

  /** Versions are immutable: applying and flipping the flag keep every version's definition. */
  lemma VersionsStay(actions: Actions, name: Name, version: nat, def: Definition, other: Name, new_: Definition,
                     on: bool)
    requires HasVersion(actions, name, version, def)
    ensures HasVersion(Apply(actions, other, new_), name, version, def)
    ensures Registered(actions, other) ==> HasVersion(SetEnabled(actions, other, on), name, version, def)
  {
  }

  /** A new version is dense, current, and inherits the flag; re-applying the current definition changes nothing. */
  lemma ApplyInherits(actions: Actions, name: Name, def: Definition)
    requires Registered(actions, name)
    ensures var r := Apply(actions, name, def);
      && Registered(r, name) && Current(r, name).def == def
      && (Enabled(r, name) <==> Enabled(actions, name))
      && |r[name]| == |actions[name]| + (if Current(actions, name).def == def then 0 else 1)
      && Apply(r, name, def) == r
  {
  }
}
