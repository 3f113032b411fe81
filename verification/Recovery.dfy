/**
 * Crash recovery. Whatever two committed steps a crash falls between, inside an earlier reap included, reaping and
 * seeding restore the whole invariant from the tables alone.
 */
module Recovery {
  import opened Bytes
  import opened Keys
  import opened Stamps
  import opened Tables
  import opened Engine
  import opened Integrity
  import opened Ownership
  import opened Transitions

  /** The reaper's writes, one per orphan, at the given clock readings. */
  function Reaps(nows: seq<Stamp>): (r: seq<Event>)
    ensures |r| == |nows|
  {
    if nows == [] then [] else Reaps(nows[..|nows| - 1]) + [Daemon(Reap(true, nows[|nows| - 1]))]
  }

  /** A restart after a crash: list the orphans, reset each, seed the counter. */
  function Restart(nows: seq<Stamp>): seq<Event> {
    [Daemon(Crash), Daemon(Boot)] + Reaps(nows) + [Daemon(Reaped), Daemon(Seed)]
  }

  /** What the reaper makes of one row, at one of the given readings. */
  predicate Orphaned(row: Row, after: Row, nows: seq<Stamp>) {
    && after.notBefore.Some? && after.notBefore.value in nows
    && after == row.(state := Failed, notBefore := after.notBefore, error := Some(DaemonRestarted), pgid := None)
  }

  /** Some rows reset, the others untouched. */
  ghost predicate Reset(was: map<Id, Row>, now: map<Id, Row>, done: set<Id>, nows: seq<Stamp>) {
    && now.Keys == was.Keys
    && forall d {:trigger d in done} {:trigger now[d]} | d in was ::
         if d in done then Orphaned(was[d], now[d], nows) else now[d] == was[d]
  }

  lemma ResetOne(was: map<Id, Row>, now: map<Id, Row>, done: set<Id>, nows: seq<Stamp>, id: Id, row: Row)
    requires nows != [] && Reset(was, now, done, nows[..|nows| - 1]) && id in was && id !in done
    requires Orphaned(was[id], row, [nows[|nows| - 1]])
    ensures Reset(was, now[id := row], done + {id}, nows)
  {
    var after := now[id := row];
    forall d | d in was ensures if d in done + {id} then Orphaned(was[d], after[d], nows) else after[d] == was[d] {
      assert d in done || d !in done;
    }
  }

  /** No execution, no handler and no request is left over. */
  predicate NoneLeft(s: Sys) {
    s.execs == map[] && s.committed == [] && s.counted == [] && s.disabling == [] && s.inService == 0
  }

  /** The orphans in id order, the first n of them reset. */
  ghost predicate Midway(was: Db, todo: seq<Id>, nows: seq<Stamp>, t: Sys)
    requires |nows| <= |todo|
  {
    && t.pc == Reaping(todo[|nows|..]) && NoneLeft(t) && t.db.messages == was.messages && t.db.actions == was.actions
    && Reset(was.deliveries, t.db.deliveries, Elements(todo[..|nows|]), nows)
  }

  lemma {:induction false} ReapsAll(cfg: Config, s: Sys, todo: seq<Id>, nows: seq<Stamp>)
    requires s.pc == Reaping(todo) && Increasing(todo) && Elements(todo) == ClaimedIds(s.db) && |nows| <= |todo|
    requires NoneLeft(s)
    ensures Midway(s.db, todo, nows, Run(cfg, s, Reaps(nows)))
  {
    if nows == [] {
      assert todo[0..] == todo && Elements(todo[..0]) == {};
    } else {
      var n := |nows| - 1;
      ReapsAll(cfg, s, todo, nows[..n]);
      assert Reaps(nows)[..|Reaps(nows)| - 1] == Reaps(nows[..n]);
      ReapsOne(cfg, Run(cfg, s, Reaps(nows[..n])), s.db, todo, nows);
    }
  }

  lemma ReapsOne(cfg: Config, m: Sys, was: Db, todo: seq<Id>, nows: seq<Stamp>)
    requires nows != [] && |nows| <= |todo| && Increasing(todo) && Elements(todo) == ClaimedIds(was)
    requires Midway(was, todo, nows[..|nows| - 1], m)
    ensures Midway(was, todo, nows, Step(cfg, m, Daemon(Reap(true, nows[|nows| - 1]))))
  {
    var n := |nows| - 1;
    var id := todo[n];
    assert m.pc.todo == todo[n..] && m.pc.todo[1..] == todo[n + 1..] && m.pc.todo[0] == id;
    ReapedRow(m.db, was, todo, nows);
    assert Step(cfg, m, Daemon(Reap(true, nows[n]))) == DoReap(m, true, nows[n]);
  }

  lemma ReapedRow(db: Db, was: Db, todo: seq<Id>, nows: seq<Stamp>)
    requires nows != [] && |nows| <= |todo| && Increasing(todo) && Elements(todo) == ClaimedIds(was)
    requires Reset(was.deliveries, db.deliveries, Elements(todo[..|nows| - 1]), nows[..|nows| - 1])
    ensures var r := ResetOrphan(db, todo[|nows| - 1], nows[|nows| - 1]);
      Reset(was.deliveries, r.deliveries, Elements(todo[..|nows|]), nows)
  {
    var n := |nows| - 1;
    var id := todo[n];
    assert id in Elements(todo) && id !in Elements(todo[..n]);
    var r := ResetOrphan(db, id, nows[n]);
    ResetOne(was.deliveries, db.deliveries, Elements(todo[..n]), nows, id, r.deliveries[id]);
    assert Elements(todo[..n]) + {id} == Elements(todo[..n + 1]);
  }

  lemma SortedSize(ids: set<Id>)
    ensures |Keys.Sorted(ids)| == |ids|
  {
    IncreasingCardinality(Keys.Sorted(ids));
    assert Elements(Keys.Sorted(ids)) == ids;
  }

  lemma Booted(cfg: Config, s: Sys)
    ensures var b := Run(cfg, s, [Daemon(Crash), Daemon(Boot)]);
      b == Lose(Lose(s)).(pc := Reaping(Keys.Sorted(ClaimedIds(s.db))))
  {
    var boot := [Daemon(Crash), Daemon(Boot)];
    assert boot[..1] == [Daemon(Crash)];
    assert Run(cfg, s, []) == s;
    assert Run(cfg, s, boot[..1]) == Step(cfg, s, Daemon(Crash));
  }

  lemma Seeded(cfg: Config, m: Sys)
    requires m.pc == Reaping([])
    ensures Run(cfg, m, [Daemon(Reaped), Daemon(Seed)]) == m.(pc := Top, active := |ActiveIds(m.db)|)
  {
    var last := [Daemon(Reaped), Daemon(Seed)];
    assert last[..1] == [Daemon(Reaped)];
    assert Run(cfg, m, []) == m;
    assert Run(cfg, m, last[..1]) == Step(cfg, m, Daemon(Reaped));
  }

  lemma Restarted(cfg: Config, s: Sys, b: Sys, nows: seq<Stamp>)
    requires |nows| == |ClaimedIds(s.db)| && b.db == s.db && b.pc == Reaping(Keys.Sorted(ClaimedIds(s.db)))
    requires NoneLeft(b)
    ensures var t := Run(cfg, Run(cfg, b, Reaps(nows)), [Daemon(Reaped), Daemon(Seed)]);
      && t.pc.Top? && NoneLeft(t) && t.active == |ActiveIds(t.db)|
      && t.db.messages == s.db.messages && t.db.actions == s.db.actions
      && Reset(s.db.deliveries, t.db.deliveries, ClaimedIds(s.db), nows)
  {
    var todo := Keys.Sorted(ClaimedIds(s.db));
    SortedSize(ClaimedIds(s.db));
    assert Elements(todo) == ClaimedIds(s.db) && todo[..|todo|] == todo && todo[|todo|..] == [];
    ReapsAll(cfg, b, todo, nows);
    Seeded(cfg, Run(cfg, b, Reaps(nows)));
  }

  lemma RestartSplits(cfg: Config, s: Sys, nows: seq<Stamp>)
    ensures Run(cfg, s, Restart(nows)) ==
      Run(cfg, Run(cfg, Run(cfg, s, [Daemon(Crash), Daemon(Boot)]), Reaps(nows)), [Daemon(Reaped), Daemon(Seed)])
  {
    var boot := [Daemon(Crash), Daemon(Boot)];
    RunAppend(cfg, s, boot + Reaps(nows), [Daemon(Reaped), Daemon(Seed)]);
    RunAppend(cfg, s, boot, Reaps(nows));
  }

  /** With every orphan reset, nothing is claimed and the same rows are active. */
  lemma ResetAll(was: Db, now: Db, nows: seq<Stamp>)
    requires Reset(was.deliveries, now.deliveries, ClaimedIds(was), nows)
    ensures ClaimedIds(now) == {} && ActiveIds(now) == ActiveIds(was)
  {
    forall d | d in was.deliveries
      ensures !now.deliveries[d].state.Claimed? && Active(now.deliveries[d].state) == Active(was.deliveries[d].state)
    {
      assert d in ClaimedIds(was) || d !in ClaimedIds(was);
    }
  }

  /**
   * From any reachable state, a crash and a restart leave no row claimed and no process group recorded; the orphans
   * are failed and due at once, every other row is untouched, the active rows are the same ones and the counter is
   * their number; and the loop is about to dispatch with the whole invariant in force and nothing left over.
   */
  lemma CrashRecovery(cfg: Config, es: seq<Event>, nows: seq<Stamp>)
    requires |nows| == |ClaimedIds(Run(cfg, START, es).db)|
    ensures var was, t := Run(cfg, START, es).db, Run(cfg, START, es + Restart(nows));
      && Inv(cfg, t) && t.pc.Top? && NoneLeft(t) && t.db.messages == was.messages && t.db.actions == was.actions
      && Reset(was.deliveries, t.db.deliveries, ClaimedIds(was), nows)
      && ClaimedIds(t.db) == {} && (forall d | d in t.db.deliveries :: t.db.deliveries[d].pgid.None?)
      && ActiveIds(t.db) == ActiveIds(was) && t.active == |ActiveIds(t.db)|
  {
    var s := Run(cfg, START, es);
    RunAppend(cfg, START, es, Restart(nows));
    Booted(cfg, s);
    RestartSplits(cfg, s, nows);
    Restarted(cfg, s, Run(cfg, s, [Daemon(Crash), Daemon(Boot)]), nows);
    var t := Run(cfg, START, es + Restart(nows));
    ResetAll(s.db, t.db, nows);
    RunInv(cfg, es + Restart(nows));
    forall d | d in t.db.deliveries ensures t.db.deliveries[d].pgid.None? {
      RowSound(t.db, d);
      assert d !in ClaimedIds(t.db);
    }
  }
}
