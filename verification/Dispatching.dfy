/**
 * How long one dispatch can take. A failing resolve leaves its delivery where it was, and dispatch tries the same one
 * again at once; and a delivery committed while dispatch runs is picked up by it. Either can keep it going for ever,
 * and nothing else can.
 */
module Dispatching {
  import opened Bytes
  import opened Keys
  import opened Stamps
  import opened Workflow
  import opened Tables
  import opened Engine
  import opened Integrity
  import opened Ownership
  import Frames

  // A resolve that keeps failing.

  /** About to settle a delivery that has been tried before, and that the next read would pick again. */
  ghost predicate Spins(cfg: Config, s: Sys) {
    && s.pc.Picked? && s.pc.k < |s.pc.plan.infos|
    && var info, w := s.pc.plan.infos[s.pc.k], s.pc.work;
       && !IsJoin(info.def) && !AtCeiling(s.inflight, info) && Decision(cfg, info, w.msg).Settle?
       && w.id in s.h.touched && NextEligible(s.db, info.name, s.pc.plan.now) == Some(w.id)
       && w.row == s.db.deliveries[w.id] && w.msg == s.db.messages[w.row.msg]
  }

  /** One failing resolve and the read after it change nothing at all. */
  lemma OneTurn(cfg: Config, s: Sys)
    requires Spins(cfg, s)
    ensures Step(cfg, Step(cfg, s, Dispatch(Decide(false))), Dispatch(Pick(true))) == s
  {
    var t := DoDecide(cfg, s, false);
    assert t.db == s.db && t.inflight == s.inflight && t.pc == Scan(s.pc.plan, s.pc.k);
    assert s.h.touched + {s.pc.work.id} == s.h.touched;
    assert DoPick(t, true) == s;
  }

  function Turns(n: nat): (r: seq<Event>)
    ensures |r| == 2 * n
  {
    if n == 0 then [] else Turns(n - 1) + [Dispatch(Decide(false))] + [Dispatch(Pick(true))]
  }

  /** So any number of failing resolves in a row leaves dispatch exactly where it was. */
  lemma {:induction false} SpinsForever(cfg: Config, s: Sys, n: nat)
    requires Spins(cfg, s)
    ensures Run(cfg, s, Turns(n)) == s
  {
    hide Step;
    if n > 0 {
      SpinsForever(cfg, s, n - 1);
      OneTurn(cfg, s);
      var before := Turns(n - 1) + [Dispatch(Decide(false))];
      assert before[..|before| - 1] == Turns(n - 1);
      assert Turns(n)[..|Turns(n)| - 1] == before;
    }
  }

  /** The goroutine is inside its pass over the loaded actions. */
  predicate InPass(pc: Pc) {
    match pc
    case Scan(_, _) => true
    case Picked(_, _, _) => true
    case Adding(_, _, next) => InPass(next)
    case Poking(next) => InPass(next)
    case _ => false
  }

  /** The actions it has still to serve, the present one first. */
  function Ahead(pc: Pc): seq<ActionInfo> {
    match pc
    case Scan(plan, k) => if k < |plan.infos| then plan.infos[k..] else []
    case Picked(plan, k, _) => if k < |plan.infos| then plan.infos[k..] else []
    case Adding(_, _, next) => Ahead(next)
    case Poking(next) => Ahead(next)
    case _ => []
  }

  predicate Includes(ahead: seq<ActionInfo>, n: Name) {
    exists i | 0 <= i < |ahead| :: ahead[i].name == n
  }

  /** The rows waiting for an action the pass has still to serve. */
  function Unserved(s: Sys): set<Id> {
    set id | id in s.db.deliveries && Waiting(s.db.deliveries[id].state) &&
             Includes(Ahead(s.pc), s.db.deliveries[id].action)
  }

  /** How far through the pass the goroutine is. */
  function Remaining(pc: Pc): nat {
    match pc
    case Scan(_, _) => 3 * |Ahead(pc)| + 2
    case Picked(_, _, _) => 3 * |Ahead(pc)| + 1
    case Adding(_, poke, next) => if InPass(next) then Remaining(next) + (if poke then 2 else 1) else 0
    case Poking(next) => if InPass(next) then Remaining(next) + 1 else 0
    case _ => 0
  }

  function Budget(s: Sys): nat {
    4 * |Unserved(s)| + Remaining(s.pc)
  }

  /** A step of the goroutine inside its pass. */
  predicate GoesOn(s: Sys, e: Event) {
    InPass(s.pc) && (e.Dispatch? || e.Loop?)
  }

  /** A resolve of a delivery that no join can claim, and it fails. */
  predicate FailedResolve(cfg: Config, s: Sys, e: Event) {
    && e == Dispatch(Decide(false)) && s.pc.Picked? && s.pc.k < |s.pc.plan.infos|
    && !IsJoin(s.pc.plan.infos[s.pc.k].def)
    && Decision(cfg, s.pc.plan.infos[s.pc.k], s.pc.work.msg).Settle?
  }

  /** Steps of the pass, failed resolves among them, and rows that came to wait for an action still to be served. */
  datatype Counts = Counts(steps: nat, failed: nat, arrived: nat)

  ghost function Counted(cfg: Config, s: Sys, e: Event): Counts {
    if !Can(cfg, s, e) then Counts(0, 0, 0)
    else Counts(if GoesOn(s, e) then 1 else 0, if FailedResolve(cfg, s, e) then 1 else 0,
                |Unserved(Do(cfg, s, e)) - Unserved(s)|)
  }

  function Plus(a: Counts, b: Counts): Counts {
    Counts(a.steps + b.steps, a.failed + b.failed, a.arrived + b.arrived)
  }

  ghost function CountAll(cfg: Config, s: Sys, fs: seq<Event>): Counts {
    if fs == [] then Counts(0, 0, 0)
    else
      var n := |fs| - 1;
      Plus(CountAll(cfg, s, fs[..n]), Counted(cfg, Run(cfg, s, fs[..n]), fs[n]))
  }

  lemma CountMore(cfg: Config, s: Sys, fs: seq<Event>, e: Event)
    ensures Run(cfg, s, fs + [e]) == Step(cfg, Run(cfg, s, fs), e)
    ensures CountAll(cfg, s, fs + [e]) == Plus(CountAll(cfg, s, fs), Counted(cfg, Run(cfg, s, fs), e))
  {
    hide Step;
    hide Counted;
    assert (fs + [e])[..|fs + [e]| - 1] == fs;
  }

  lemma {:induction false} CountAppend(cfg: Config, s: Sys, fs: seq<Event>, gs: seq<Event>)
    ensures CountAll(cfg, s, fs + gs) == Plus(CountAll(cfg, s, fs), CountAll(cfg, Run(cfg, s, fs), gs))
    decreases |gs|
  {
    hide Step;
    hide Counted;
    hide Run;
    hide CountAll;
    CountNothing(cfg, Run(cfg, s, fs));
    if gs == [] {
      assert fs + gs == fs;
    } else {
      var n := |gs| - 1;
      CountAppend(cfg, s, fs, gs[..n]);
      RunAppend(cfg, s, fs, gs[..n]);
      CountMore(cfg, s, fs + gs[..n], gs[n]);
      CountMore(cfg, Run(cfg, s, fs), gs[..n], gs[n]);
      assert fs + gs == fs + gs[..n] + [gs[n]] && gs == gs[..n] + [gs[n]];
    }
  }

  lemma CountNothing(cfg: Config, s: Sys)
    ensures Run(cfg, s, []) == s && CountAll(cfg, s, []) == Counts(0, 0, 0)
  {
  }

  // Deliveries that keep coming.

  /** A message a client may send. */
  datatype Draft = Draft(queue: Queue, payload: Data, headers: Headers, trace: Id, at: Stamp)

  function DraftMessage(f: Draft): Message {
    Ingress(f.queue, f.payload, f.headers, f.trace, f.at)
  }

  /**
   * Below its ceiling and with nothing eligible: one more read and dispatch would move on to the next action. Only this
   * action takes the client's message, and it settles it.
   */
  ghost predicate Emptied(cfg: Config, s: Sys, f: Draft) {
    && s.pc.Scan? && s.pc.k < |s.pc.plan.infos| && Free(s)
    && var info := s.pc.plan.infos[s.pc.k];
       && !IsJoin(info.def) && !AtCeiling(s.inflight, info) && Eligible(s.db, info.name, s.pc.plan.now) == {}
       && Subscribers(s.db.actions, f.queue) == [info.name] && Decision(cfg, info, DraftMessage(f)).Settle?
  }

  /** A client's message and what becomes of it: picked, settled, the counter adjusted, and then reported. */
  function Refill(s: Sys, f: Draft, id: Id): seq<Event> {
    [Request(Send(id, f.queue, f.payload, f.headers, f.trace, f.at, [id]))] + [Dispatch(Pick(true))] +
    [Dispatch(Decide(true))] + [Loop(Add)] + [Request(Count(|s.committed|))] + [Request(Signal(|s.counted|))]
  }

  /** An id no row and no message has yet, as NewID would issue it next. */
  ghost predicate Unused(s: Sys, id: Id) {
    s.lastId < id && (forall m | m in s.db.messages :: m < id) && forall d | d in s.db.deliveries :: d < id
  }

  lemma InsertsOne(db: Db, f: Draft, id: Id, name: Name)
    requires Subscribers(db.actions, f.queue) == [name] && id !in db.messages && id !in db.deliveries
    ensures Insertable(db, [Outgoing(id, DraftMessage(f))], [id])
    ensures Insert(db, [Outgoing(id, DraftMessage(f))], [id]) ==
      Db(db.messages[id := DraftMessage(f)], db.actions, db.deliveries[id := Fresh(id, name)])
  {
    var outs := [Outgoing(id, DraftMessage(f))];
    assert outs[..0] == [] && Fan(db.actions, []) == [];
    assert Fan(db.actions, outs) == Targets(db.actions, outs[0]) == [Target(id, name)];
    assert InsertMessages(db.messages, outs[..0]) == db.messages;
    var ids: seq<Id> := [id];
    assert ids[..0] == [] && [Target(id, name)][..0] == [];
    assert InsertRows(db.deliveries, [], []) == db.deliveries;
  }

  /** What a refill leaves alone all along. */
  ghost predicate Kept(s: Sys, t: Sys) {
    && t.inflight == s.inflight && t.execs == s.execs && t.disabling == s.disabling && t.inService == s.inService
    && t.db.actions == s.db.actions
  }

  lemma RefillSent(cfg: Config, s: Sys, f: Draft, id: Id)
    requires Inv(cfg, s) && Emptied(cfg, s, f) && Unused(s, id)
    ensures var e := Request(Send(id, f.queue, f.payload, f.headers, f.trace, f.at, [id]));
      var m := Step(cfg, s, e);
      && Can(cfg, s, e) && Kept(s, m) && m.pc == s.pc && m.lastId == id && m.counted == s.counted
      && m.committed == s.committed + [{id}]
      && m.db.messages == s.db.messages[id := DraftMessage(f)]
      && m.db.deliveries == s.db.deliveries[id := Fresh(id, s.pc.plan.infos[s.pc.k].name)]
  {
    InsertsOne(s.db, f, id, s.pc.plan.infos[s.pc.k].name);
    var ids: seq<Id> := [id];
    assert Elements(ids) == {id};
  }

  /** The only eligible delivery is the new one. */
  lemma RefillPicked(cfg: Config, s: Sys, m: Sys, f: Draft, id: Id)
    requires Inv(cfg, s) && Emptied(cfg, s, f) && Unused(s, id) && Kept(s, m) && m.pc == s.pc
    requires m.db.messages == s.db.messages[id := DraftMessage(f)]
    requires m.db.deliveries == s.db.deliveries[id := Fresh(id, s.pc.plan.infos[s.pc.k].name)]
    ensures var t := Step(cfg, m, Dispatch(Pick(true)));
      && Can(cfg, m, Dispatch(Pick(true)))
      && t == m.(pc := Picked(s.pc.plan, s.pc.k, Work(id, m.db.deliveries[id], DraftMessage(f))))
  {
    var info := s.pc.plan.infos[s.pc.k];
    forall d | d in s.db.deliveries ensures d !in Eligible(m.db, info.name, s.pc.plan.now) {
      RowSound(s.db, d);
      assert d !in Eligible(s.db, info.name, s.pc.plan.now);
    }
    assert id in Eligible(m.db, info.name, s.pc.plan.now);
  }

  lemma RefillSettled(cfg: Config, p: Sys, f: Draft, id: Id, plan: Plan, k: nat)
    requires k < |plan.infos| && !IsJoin(plan.infos[k].def) && Decision(cfg, plan.infos[k], DraftMessage(f)).Settle?
    requires id in p.db.deliveries && p.pc == Picked(plan, k, Work(id, p.db.deliveries[id], DraftMessage(f)))
    ensures var d := Step(cfg, p, Dispatch(Decide(true)));
      var t := Step(cfg, d, Loop(Add));
      && Can(cfg, p, Dispatch(Decide(true))) && InPass(p.pc) && InPass(d.pc) && Can(cfg, d, Loop(Add))
      && Kept(p, t) && t.pc == Scan(plan, k) && t.lastId == p.lastId
      && t.committed == p.committed && t.counted == p.counted && t.db.messages == p.db.messages
      && t.db.deliveries.Keys == p.db.deliveries.Keys && !Waiting(t.db.deliveries[id].state)
      && forall c | c in p.db.deliveries && c != id :: t.db.deliveries[c] == p.db.deliveries[c]
  {
    SettlesTerminal(cfg, plan.infos[k], DraftMessage(f));
    var v := Decision(cfg, plan.infos[k], DraftMessage(f));
    assert Resolve(p.db, id, v.state, v.error, plan.now).Some?;
  }

  lemma RefillReported(cfg: Config, s: Sys, id: Id, t: Sys)
    requires t.committed == s.committed + [{id}] && t.counted == s.counted
    ensures var c := Step(cfg, t, Request(Count(|s.committed|)));
      var u := Step(cfg, c, Request(Signal(|s.counted|)));
      u == t.(active := t.active + 1, nudge := true, committed := s.committed, counted := s.counted)
  {
    assert t.committed[..|s.committed|] + t.committed[|s.committed| + 1..] == s.committed;
    var counted := t.counted + [{id}];
    assert counted[..|s.counted|] + counted[|s.counted| + 1..] == s.counted;
  }

  /** The six steps in a row, and what they count for. */
  lemma RefillCounts(cfg: Config, s: Sys, q: RequestEvent, i: nat, j: nat)
    requires var m := Step(cfg, s, Request(q));
      var p := Step(cfg, m, Dispatch(Pick(true)));
      var d := Step(cfg, p, Dispatch(Decide(true)));
      && Can(cfg, m, Dispatch(Pick(true))) && InPass(m.pc) && Can(cfg, p, Dispatch(Decide(true))) && InPass(p.pc)
      && Can(cfg, d, Loop(Add)) && InPass(d.pc)
    ensures var m := Step(cfg, s, Request(q));
      var d := Step(cfg, Step(cfg, m, Dispatch(Pick(true))), Dispatch(Decide(true)));
      var fs := [Request(q)] + [Dispatch(Pick(true))] + [Dispatch(Decide(true))] + [Loop(Add)] + [Request(Count(i))] +
        [Request(Signal(j))];
      && Run(cfg, s, fs) == Step(cfg, Step(cfg, Step(cfg, d, Loop(Add)), Request(Count(i))), Request(Signal(j)))
      && CountAll(cfg, s, fs).steps == 3 && CountAll(cfg, s, fs).failed == 0
  {
    hide *;
    var one := [Request(q)];
    var two := one + [Dispatch(Pick(true))];
    var three := two + [Dispatch(Decide(true))];
    var four := three + [Loop(Add)];
    CountNothing(cfg, s);
    assert [] + one == one;
    NoStep(cfg, s, [], Request(q));
    PassStep(cfg, s, one, Dispatch(Pick(true)));
    PassStep(cfg, s, two, Dispatch(Decide(true)));
    PassStep(cfg, s, three, Loop(Add));
    NoStep(cfg, s, four, Request(Count(i)));
    NoStep(cfg, s, four + [Request(Count(i))], Request(Signal(j)));
  }

  lemma NoStep(cfg: Config, s: Sys, fs: seq<Event>, e: Event)
    requires e.Request?
    ensures Run(cfg, s, fs + [e]) == Step(cfg, Run(cfg, s, fs), e)
    ensures var c, d := CountAll(cfg, s, fs), CountAll(cfg, s, fs + [e]); d.steps == c.steps && d.failed == c.failed
  {
    CountMore(cfg, s, fs, e);
  }

  lemma PassStep(cfg: Config, s: Sys, fs: seq<Event>, e: Event)
    requires Can(cfg, Run(cfg, s, fs), e) && InPass(Run(cfg, s, fs).pc) && (e.Dispatch? || e.Loop?)
    requires e != Dispatch(Decide(false))
    ensures Run(cfg, s, fs + [e]) == Step(cfg, Run(cfg, s, fs), e)
    ensures var c, d := CountAll(cfg, s, fs), CountAll(cfg, s, fs + [e]);
      d.steps == c.steps + 1 && d.failed == c.failed
  {
    CountMore(cfg, s, fs, e);
  }

  /** One refill takes three steps of the pass, none of which fails, and leaves the pass where it was. */
  lemma OneRefill(cfg: Config, s: Sys, f: Draft, id: Id)
    requires Inv(cfg, s) && Emptied(cfg, s, f) && Unused(s, id)
    ensures var t := Run(cfg, s, Refill(s, f, id));
      && Emptied(cfg, t, f) && Unused(t, id + 1) && t.pc == s.pc && t.inflight == s.inflight
      && t.committed == s.committed && t.counted == s.counted
    ensures var c := CountAll(cfg, s, Refill(s, f, id)); c.steps == 3 && c.failed == 0
  {
    hide Step;
    hide Can;
    hide Do;
    hide Run;
    hide CountAll;
    hide Inv;
    var e1 := Request(Send(id, f.queue, f.payload, f.headers, f.trace, f.at, [id]));
    RefillSent(cfg, s, f, id);
    var m := Step(cfg, s, e1);
    RefillPicked(cfg, s, m, f, id);
    var p := Step(cfg, m, Dispatch(Pick(true)));
    RefillSettled(cfg, p, f, id, s.pc.plan, s.pc.k);
    var d := Step(cfg, p, Dispatch(Decide(true)));
    var t := Step(cfg, d, Loop(Add));
    RefillReported(cfg, s, id, t);
    var u := Step(cfg, Step(cfg, t, Request(Count(|s.committed|))), Request(Signal(|s.counted|)));
    RefillCounts(cfg, s, e1.q, |s.committed|, |s.counted|);
    StillEmptied(cfg, s, u, f, id);
  }

  lemma StillEmptied(cfg: Config, s: Sys, u: Sys, f: Draft, id: Id)
    requires Inv(cfg, s) && Emptied(cfg, s, f) && Unused(s, id) && Kept(s, u) && u.pc == s.pc
    requires u.committed == s.committed && u.counted == s.counted && u.lastId == id
    requires u.db.messages.Keys == s.db.messages.Keys + {id} && u.db.deliveries.Keys == s.db.deliveries.Keys + {id}
    requires !Waiting(u.db.deliveries[id].state)
    requires forall d | d in s.db.deliveries :: u.db.deliveries[d] == s.db.deliveries[d]
    ensures Emptied(cfg, u, f) && Unused(u, id + 1)
  {
    var info := s.pc.plan.infos[s.pc.k];
    forall d | d in u.db.deliveries ensures d !in Eligible(u.db, info.name, s.pc.plan.now) {
      if d in s.db.deliveries {
        RowSound(s.db, d);
        assert d !in Eligible(s.db, info.name, s.pc.plan.now);
      }
    }
  }

  function Refills(s: Sys, f: Draft, first: Id, n: nat): seq<Event> {
    if n == 0 then [] else Refills(s, f, first, n - 1) + Refill(s, f, first + n - 1)
  }

  lemma {:induction false} StaysSound(cfg: Config, s: Sys, fs: seq<Event>)
    requires Inv(cfg, s)
    ensures Inv(cfg, Run(cfg, s, fs))
  {
    hide Inv;
    hide Can;
    hide Do;
    if fs != [] {
      var n := |fs| - 1;
      StaysSound(cfg, s, fs[..n]);
      if Can(cfg, Run(cfg, s, fs[..n]), fs[n]) {
        StepInv(cfg, Run(cfg, s, fs[..n]), fs[n]);
      }
    }
  }

  /**
   * A client that keeps sending holds up dispatch without any write failing: after any number of messages the pass is
   * where it was, three steps for each message later, with the same executions running and nothing eligible.
   */
  lemma {:induction false} IngressProlongs(cfg: Config, s: Sys, f: Draft, first: Id, n: nat)
    requires Inv(cfg, s) && Emptied(cfg, s, f) && Unused(s, first)
    ensures var t := Run(cfg, s, Refills(s, f, first, n));
      && Inv(cfg, t) && Emptied(cfg, t, f) && Unused(t, first + n) && t.pc == s.pc && t.inflight == s.inflight
      && t.committed == s.committed && t.counted == s.counted
    ensures var c := CountAll(cfg, s, Refills(s, f, first, n)); c.steps == 3 * n && c.failed == 0
  {
    hide Emptied;
    hide Inv;
    hide Step;
    hide Counted;
    hide Run;
    hide CountAll;
    CountNothing(cfg, s);
    if n > 0 {
      var before := Refills(s, f, first, n - 1);
      IngressProlongs(cfg, s, f, first, n - 1);
      var m := Run(cfg, s, before);
      assert Refill(m, f, first + n - 1) == Refill(s, f, first + n - 1);
      OneRefill(cfg, m, f, first + n - 1);
      CountAppend(cfg, s, before, Refill(m, f, first + n - 1));
      RunAppend(cfg, s, before, Refill(m, f, first + n - 1));
      StaysSound(cfg, m, Refill(m, f, first + n - 1));
    }
  }

  // Nothing else can hold it up.

  lemma Shrinks(a: set<Id>, b: set<Id>)
    ensures a <= b ==> |a| <= |b|
    ensures |a| <= |b| + |a - b|
  {
    assert a == (a * b) + (a - b);
    SubsetSize(a * b, b);
    if a <= b {
      SubsetSize(a, b);
    }
  }

  lemma SubsetSize(a: set<Id>, b: set<Id>)
    requires a <= b
    ensures |a| <= |b|
  {
    assert b == a + (b - a);
  }

  /** Where the pass is over there is nothing left to pay for. */
  lemma {:induction false} OutOfPass(s: Sys)
    requires !InPass(s.pc)
    ensures Budget(s) == 0
  {
    AheadOutside(s.pc);
    assert Unserved(s) == {};
  }

  lemma {:induction false} AheadOutside(pc: Pc)
    requires !InPass(pc)
    ensures Ahead(pc) == [] && Remaining(pc) == 0
  {
    if pc.Adding? || pc.Poking? {
      AheadOutside(pc.next);
    }
  }

  /** A row of the present action stops waiting. */
  lemma RowLeaves(s: Sys, id: Id, t: Sys)
    requires id in s.db.deliveries && id in t.db.deliveries && t.db.deliveries.Keys == s.db.deliveries.Keys
    requires forall d | d in s.db.deliveries && d != id :: t.db.deliveries[d] == s.db.deliveries[d]
    requires Waiting(s.db.deliveries[id].state) && !Waiting(t.db.deliveries[id].state)
    requires Includes(Ahead(s.pc), s.db.deliveries[id].action) && Ahead(t.pc) == Ahead(s.pc)
    ensures |Unserved(t)| < |Unserved(s)| && Unserved(t) <= Unserved(s)
  {
    assert id in Unserved(s) && id !in Unserved(t);
    assert Unserved(t) == Unserved(s) - {id};
  }

  /** Or the pass gets on to the next action. */
  lemma ActionPassed(s: Sys, t: Sys)
    requires t.db.deliveries == s.db.deliveries && Ahead(s.pc) != [] && Ahead(t.pc) == Ahead(s.pc)[1..]
    ensures Unserved(t) <= Unserved(s) && |Unserved(t)| <= |Unserved(s)|
  {
    var a, b := Ahead(s.pc), Ahead(t.pc);
    forall id | id in Unserved(t) ensures id in Unserved(s) {
      var i :| 0 <= i < |b| && b[i].name == t.db.deliveries[id].action;
      assert a[i + 1] == b[i];
    }
    SubsetSize(Unserved(t), Unserved(s));
  }

  lemma NextAhead(plan: Plan, k: nat)
    requires k < |plan.infos|
    ensures Ahead(Scan(plan, k)) != [] && Ahead(Scan(plan, k)) == plan.infos[k..]
    ensures Ahead(Scan(plan, k + 1)) == Ahead(Scan(plan, k))[1..]
    ensures Includes(Ahead(Scan(plan, k)), plan.infos[k].name)
  {
    assert plan.infos[k..][0] == plan.infos[k] && plan.infos[k..][1..] == plan.infos[k + 1..];
  }

  /** The row of the present action leaves the waiting ones, and nothing else happens to the rows. */
  ghost predicate Leaves(s: Sys, id: Id, db: Db) {
    && s.pc.Picked? && s.pc.k < |s.pc.plan.infos| && id in s.db.deliveries && id in db.deliveries
    && s.db.deliveries[id].action == s.pc.plan.infos[s.pc.k].name && db.deliveries.Keys == s.db.deliveries.Keys
    && (forall d | d in s.db.deliveries && d != id :: db.deliveries[d] == s.db.deliveries[d])
    && Waiting(s.db.deliveries[id].state) && !Waiting(db.deliveries[id].state)
  }

  lemma SettlePays(s: Sys, db: Db, id: Id)
    requires Leaves(s, id, db)
    ensures var t := DoSettle(s, db, s.pc.plan, s.pc.k, id); Budget(t) + 1 <= Budget(s) && Unserved(t) <= Unserved(s)
  {
    NextAhead(s.pc.plan, s.pc.k);
    var t := DoSettle(s, db, s.pc.plan, s.pc.k, id);
    assert InPass(t.pc.next) && Ahead(t.pc) == Ahead(t.pc.next) && Remaining(t.pc) == Remaining(t.pc.next) + 1;
    RowLeaves(s, id, t);
  }

  lemma LaunchPays(s: Sys, db: Db, info: ActionInfo, w: Work)
    requires Leaves(s, w.id, db)
    ensures var t := DoLaunch(s, db, s.pc.plan, s.pc.k, info, w);
      Budget(t) + 1 <= Budget(s) && Unserved(t) <= Unserved(s)
  {
    NextAhead(s.pc.plan, s.pc.k);
    RowLeaves(s, w.id, DoLaunch(s, db, s.pc.plan, s.pc.k, info, w));
  }

  lemma TakenPays(cfg: Config, s: Sys)
    requires PcOk(cfg, s.db, s.inflight, s.pc) && CanDispatch(s, Decide(true))
    ensures var t := DoDecide(cfg, s, true); Budget(t) + 1 <= Budget(s) && Unserved(t) <= Unserved(s)
  {
    hide Budget;
    hide Unserved;
    var info, w := s.pc.plan.infos[s.pc.k], s.pc.work;
    SettlesTerminal(cfg, info, w.msg);
    var v := Decision(cfg, info, w.msg);
    if v.Settle? {
      SettlePays(s, Resolve(s.db, w.id, v.state, v.error, s.pc.plan.now).value, w.id);
    } else {
      LaunchPays(s, Claim(s.db, w.id, info.version, s.pc.plan.now).value, info, w);
    }
  }

  /** A failed write costs the action its turn, but for a resolve of a non-join. */
  lemma RefusedPays(cfg: Config, s: Sys)
    requires CanDispatch(s, Decide(false))
    ensures var t := DoDecide(cfg, s, false);
      && Budget(t) + 1 <= Budget(s) + (if FailedResolve(cfg, s, Dispatch(Decide(false))) then 2 else 0)
      && Unserved(t) <= Unserved(s)
  {
    NextAhead(s.pc.plan, s.pc.k);
    var t := DoDecide(cfg, s, false);
    if FailedResolve(cfg, s, Dispatch(Decide(false))) {
      assert Unserved(t) == Unserved(s);
    } else {
      ActionPassed(s, t);
    }
  }

  lemma PickPays(s: Sys, ok: bool)
    requires CanDispatch(s, Pick(ok))
    ensures var t := DoPick(s, ok); Budget(t) + 1 <= Budget(s) && Unserved(t) <= Unserved(s)
  {
    NextAhead(s.pc.plan, s.pc.k);
    var t := DoPick(s, ok);
    if t.pc.Picked? {
      assert Unserved(t) == Unserved(s);
    } else {
      ActionPassed(s, t);
    }
  }

  lemma DispatchPays(cfg: Config, s: Sys, p: DispatchEvent)
    requires PcOk(cfg, s.db, s.inflight, s.pc) && CanDispatch(s, p) && !p.Load?
    ensures var t := DoDispatch(cfg, s, p);
      && Budget(t) + 1 <= Budget(s) + (if FailedResolve(cfg, s, Dispatch(p)) then 2 else 0)
      && Unserved(t) <= Unserved(s)
  {
    match p
    case Pick(ok) => PickPays(s, ok);
    case Decide(ok) =>
      if ok { TakenPays(cfg, s); } else { RefusedPays(cfg, s); }
    case Next =>
      NextAhead(s.pc.plan, s.pc.k);
      ActionPassed(s, DoDispatch(cfg, s, p));
    case Dispatched =>
      OutOfPass(DoDispatch(cfg, s, p));
  }

  /** The adjustment and the nudge inside a pass. */
  lemma TailPays(s: Sys, l: LoopEvent)
    requires CanLoop(s, l) && InPass(s.pc)
    ensures Budget(DoLoop(s, l)) + 1 <= Budget(s) && Unserved(DoLoop(s, l)) == Unserved(s)
  {
    var t := DoLoop(s, l);
    assert Ahead(t.pc) == Ahead(s.pc) && t.db == s.db;
    assert Unserved(t) == Unserved(s);
  }

  /** Only loading the registry starts a pass. */
  lemma StaysOut(cfg: Config, s: Sys, e: Event)
    requires Can(cfg, s, e) && !InPass(s.pc) && !(e.Dispatch? && e.p.Load?)
    ensures !InPass(Do(cfg, s, e).pc)
  {
    match e
    case Daemon(d) =>
    case Dispatch(p) =>
    case Loop(l) => LoopStaysOut(s, l);
    case Receive(id, ok, now, gate, mids, ids) => Frames.ReceiveFrame(cfg, s, id, ok, now, gate, mids, ids);
    case Worker(w) => Frames.WorkFrame(cfg, s, w);
    case Request(q) =>
    case Track(t) =>
  }

  lemma LoopStaysOut(s: Sys, l: LoopEvent)
    requires CanLoop(s, l) && !InPass(s.pc)
    ensures !InPass(DoLoop(s, l).pc)
  {
  }

  /** What other parties do while the pass goes on leaves the goroutine where it is, or it is a crash. */
  lemma OthersPass(cfg: Config, s: Sys, e: Event)
    requires Can(cfg, s, e) && InPass(s.pc) && !e.Dispatch? && !e.Loop?
    ensures Do(cfg, s, e).pc == s.pc || Do(cfg, s, e).pc == Pc.Down
  {
    match e
    case Daemon(d) =>
    case Receive(id, ok, now, gate, mids, ids) =>
    case Worker(w) => Frames.WorkFrame(cfg, s, w);
    case Request(q) =>
    case Track(t) =>
  }

  /** Every step of the pass uses the budget up; a failed resolve gives back its own two steps, an arrival four. */
  lemma StepPays(cfg: Config, s: Sys, e: Event)
    requires Inv(cfg, s) && Can(cfg, s, e) && !(e.Dispatch? && e.p.Load?)
    ensures var c := Counted(cfg, s, e);
      c.steps + Budget(Do(cfg, s, e)) <= Budget(s) + 2 * c.failed + 4 * c.arrived
  {
    var t := Do(cfg, s, e);
    if !InPass(s.pc) {
      StaysOut(cfg, s, e);
      OutOfPass(t);
    } else if e.Dispatch? {
      DispatchPays(cfg, s, e.p);
    } else if e.Loop? {
      TailPays(s, e.l);
    } else {
      OthersPass(cfg, s, e);
      if t.pc == s.pc {
        Shrinks(Unserved(t), Unserved(s));
      } else {
        OutOfPass(t);
      }
    }
  }

  /**
   * One dispatch, from any reachable state and whatever every other party does meanwhile: its steps are at most a
   * budget of the rows waiting and the actions loaded, two more for each resolve that fails, and four for each row that
   * comes to wait, during the pass, for an action it has still to serve.
   */
  lemma {:induction false} DispatchIsBounded(cfg: Config, es: seq<Event>, fs: seq<Event>)
    requires forall i | 0 <= i < |fs| :: !(fs[i].Dispatch? && fs[i].p.Load?)
    ensures var s := Run(cfg, START, es); var c := CountAll(cfg, s, fs);
      c.steps + Budget(Run(cfg, s, fs)) <= Budget(s) + 2 * c.failed + 4 * c.arrived
    decreases |fs|
  {
    hide Can;
    hide Do;
    hide Budget;
    hide Counted;
    var s := Run(cfg, START, es);
    if fs != [] {
      var n := |fs| - 1;
      DispatchIsBounded(cfg, es, fs[..n]);
      RunAppend(cfg, START, es, fs[..n]);
      OneMoreStep(cfg, es + fs[..n], fs[n]);
    }
  }

  lemma OneMoreStep(cfg: Config, es: seq<Event>, e: Event)
    requires !(e.Dispatch? && e.p.Load?)
    ensures var s := Run(cfg, START, es); var c := Counted(cfg, s, e);
      c.steps + Budget(Step(cfg, s, e)) <= Budget(s) + 2 * c.failed + 4 * c.arrived
  {
    hide Budget;
    hide Do;
    RunInv(cfg, es);
    if Can(cfg, Run(cfg, START, es), e) {
      StepPays(cfg, Run(cfg, START, es), e);
    }
  }

  /** Rows arrive only with a message that is sent and a delivery that is replayed, and no more than those commit. */
  lemma OnlyIngressArrives(cfg: Config, s: Sys, e: Event)
    requires Inv(cfg, s) && Can(cfg, s, e) && !(e.Dispatch? && e.p.Load?)
    ensures var n := Counted(cfg, s, e).arrived;
      n <= if e.Request? && e.q.Send? then |e.q.ids| else if e.Request? && e.q.ReplayRow? then 1 else 0
  {
    var t := Do(cfg, s, e);
    if !InPass(s.pc) {
      StaysOut(cfg, s, e);
      OutOfPass(t);
    } else if e.Dispatch? {
      DispatchPays(cfg, s, e.p);
    } else if e.Loop? {
      TailPays(s, e.l);
    } else if e.Request? {
      RequestBrings(s, e.q);
    } else {
      OthersPass(cfg, s, e);
      OthersBringNothing(cfg, s, e);
    }
  }

  lemma RequestBrings(s: Sys, q: RequestEvent)
    requires CanRequest(s, q)
    ensures |Unserved(DoRequest(s, q)) - Unserved(s)| <=
      if q.Send? then |q.ids| else if q.ReplayRow? then 1 else 0
  {
    var t := DoRequest(s, q);
    var new_ := Unserved(t) - Unserved(s);
    if q.Send? {
      assert new_ <= Elements(q.ids);
      IncreasingCardinality(q.ids);
      SubsetSize(new_, Elements(q.ids));
    } else if q.ReplayRow? {
      assert new_ <= {q.id};
      SubsetSize(new_, {q.id});
    } else {
      assert new_ == {};
    }
  }

  lemma OthersBringNothing(cfg: Config, s: Sys, e: Event)
    requires Can(cfg, s, e) && InPass(s.pc) && !e.Dispatch? && !e.Loop? && !e.Request?
    ensures Unserved(Do(cfg, s, e)) - Unserved(s) == {}
  {
  }
}
