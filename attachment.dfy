/** The attachment resolver: after each physics step the queued puck/biscuit
    pairs are drained, last in first out, and each free biscuit becomes a sensor
    fixture of the puck that touched it. */
module Attachment {
  import opened KlaskConstants
  import opened KlaskTypes

  /** The part of the simulator state the rules read and write: the pieces on
      the board (pucks, ball and free biscuits; walls are not modelled), the free biscuits the magnets pull, and the bodies
      drawn each frame. */
  datatype Table = Table(bodies: map<string, Body>, magnetBodies: seq<string>, renderBodies: seq<string>)

  function PuckFixture(p: string, ls: real): Fixture {
    Fixture(p, Some(UserData(p, PuckColor)), PuckRadius * ls, Centre, false)
  }

  function BallFixture(ls: real): Fixture {
    Fixture(Ball, Some(UserData(Ball, BallColor)), BallRadius * ls, Centre, false)
  }

  function BiscuitFixture(n: string, ls: real): Fixture {
    Fixture(n, Some(UserData(n, BiscuitColor)), BiscuitRadius * ls, Centre, false)
  }

  /** A captured biscuit fixed to puck `p`: a sensor of the biscuit's size and
      colour, on the puck's rim. */
  predicate IsAttachedFixture(f: Fixture, p: string, ls: real) {
    && f.body == p && f.sensor && f.userData.Some? && f.userData.value.color == BiscuitColor
    && f.radius == BiscuitRadius * ls
    && f.pos.Toward? && f.pos.distance == PuckRadius * ls + BiscuitRadius * ls
  }

  /** A puck's fixture list: its own fixture first, then captured biscuits. */
  predicate PuckValid(b: Body, p: string, ls: real) {
    && |b.fixtures| >= 1 && b.fixtures[0] == PuckFixture(p, ls)
    && forall i :: 1 <= i < |b.fixtures| ==> IsAttachedFixture(b.fixtures[i], p, ls)
  }

  function Names(fs: seq<Fixture>): (r: seq<string>)
    ensures |r| == |fs|
  {
    if fs == [] then [] else Names(fs[..|fs| - 1]) + [NameOf(fs[|fs| - 1])]
  }

  /** The names of the biscuits captured by a puck. */
  function Attached(b: Body): seq<string>
    requires |b.fixtures| >= 1
  {
    Names(b.fixtures[1..])
  }

  /** The invariant from `reset` on: the two pucks and the ball are present, the
      only other pieces are the free biscuits, the render list is the pucks,
      the ball and the free biscuits, and every biscuit is either free or
      captured by exactly one puck. */
  ghost predicate WorldValid(t: Table, ls: real) {
    PiecesValid(t, ls) && ListsValid(t, ls) && Conserved(t)
  }

  ghost predicate PiecesValid(t: Table, ls: real) {
    && Puck1 in t.bodies && Puck2 in t.bodies && Ball in t.bodies
    && PuckValid(t.bodies[Puck1], Puck1, ls) && PuckValid(t.bodies[Puck2], Puck2, ls)
    && t.bodies[Ball].fixtures == [BallFixture(ls)]
  }

  ghost predicate ListsValid(t: Table, ls: real) {
    && (forall n :: n in t.bodies <==> n == Puck1 || n == Puck2 || n == Ball || n in t.magnetBodies)
    && (forall n :: n in t.magnetBodies ==> n in t.bodies && t.bodies[n].fixtures == [BiscuitFixture(n, ls)])
    && t.renderBodies == [Puck1, Puck2, Ball] + t.magnetBodies
  }

  /** Every biscuit is free or captured, exactly once. */
  ghost predicate Conserved(t: Table)
    requires Puck1 in t.bodies && Puck2 in t.bodies
    requires |t.bodies[Puck1].fixtures| >= 1 && |t.bodies[Puck2].fixtures| >= 1
  {
    multiset(t.magnetBodies) + multiset(Attached(t.bodies[Puck1])) + multiset(Attached(t.bodies[Puck2]))
    == multiset(Biscuits)
  }

  /** What the contact listener queues in a valid world: a puck's own fixture
      and a biscuit's own fixture. */
  predicate EntryValid(e: Collision, ls: real) {
    && IsPuck(e.puck.body) && e.puck == PuckFixture(e.puck.body, ls)
    && e.biscuit.body in Biscuits && e.biscuit == BiscuitFixture(e.biscuit.body, ls)
  }

  predicate QueueValid(q: seq<Collision>, ls: real) {
    forall e :: e in q ==> EntryValid(e, ls)
  }

  /** The fixture that records the capture of `e.biscuit` on `e.puck`'s body:
      the biscuit's size and identity, placed along the puck-to-biscuit
      direction at the sum of the two radii, as a sensor. */
  function NewFixture(t: Table, e: Collision): (f: Fixture)
    requires e.puck.body in t.bodies && e.biscuit.body in t.bodies
    ensures f.body == e.puck.body && f.sensor
    ensures f.userData == e.biscuit.userData && f.radius == e.biscuit.radius
    ensures f.pos.Toward? && f.pos.distance == e.puck.radius + e.biscuit.radius
    ensures f.pos.direction == Sub(t.bodies[e.biscuit.body].position, t.bodies[e.puck.body].position)
  {
    var direction := Sub(t.bodies[e.biscuit.body].position, t.bodies[e.puck.body].position);
    Fixture(e.puck.body, e.biscuit.userData, e.biscuit.radius,
            Toward(direction, e.puck.radius + e.biscuit.radius), true)
  }

  /** One queue entry: attach the biscuit to the puck, take its name out of both
      lists and destroy its body. A name missing from a list is Python's
      ValueError. */
  function Attach(t: Table, e: Collision): (r: Result<Table>)
    requires e.biscuit.userData.Some?
    ensures r.Success? <==>
      && NameOf(e.biscuit) in t.magnetBodies && NameOf(e.biscuit) in t.renderBodies
      && e.puck.body in t.bodies && e.biscuit.body in t.bodies
    ensures r.Failure? && NameOf(e.biscuit) !in t.magnetBodies ==> r.error == NotInList(NameOf(e.biscuit))
    ensures r.Success? ==>
      && |r.value.magnetBodies| == |t.magnetBodies| - 1 && |r.value.renderBodies| == |t.renderBodies| - 1
      && e.biscuit.body !in r.value.bodies
      && (e.puck.body != e.biscuit.body ==>
            && e.puck.body in r.value.bodies
            && r.value.bodies[e.puck.body].fixtures == t.bodies[e.puck.body].fixtures + [NewFixture(t, e)])
  {
    var name := e.biscuit.userData.value.name;
    if name !in t.magnetBodies then Failure(NotInList(name))
    else if e.puck.body !in t.bodies then Failure(NoSuchBody(e.puck.body))
    else if e.biscuit.body !in t.bodies then Failure(NoSuchBody(e.biscuit.body))
    else if name !in t.renderBodies then Failure(NotInList(name))
    else
      var puck := t.bodies[e.puck.body];
      var bodies := t.bodies[e.puck.body := puck.(fixtures := puck.fixtures + [NewFixture(t, e)])];
      Success(Table(bodies - {e.biscuit.body}, Remove(t.magnetBodies, name), Remove(t.renderBodies, name)))
  }

  /** Drain the queue from its end (Python's `pop()`), stopping at the first
      exception. */
  function Drain(t: Table, q: seq<Collision>): (r: Result<Table>)
    requires Named(q)
    ensures q == [] ==> r == Success(t)
    ensures r.Success? ==> |r.value.magnetBodies| == |t.magnetBodies| - |q|
    ensures r.Success? ==> |r.value.renderBodies| == |t.renderBodies| - |q|
    decreases |q|
  {
    if q == [] then Success(t)
    else
      match Attach(t, q[|q| - 1])
      case Failure(err) => Failure(err)
      case Success(t') => Drain(t', q[..|q| - 1])
  }

  /** No biscuit is queued twice. */
  predicate DistinctBiscuits(q: seq<Collision>) {
    forall i, j :: 0 <= i < j < |q| ==> NameOf(q[i].biscuit) != NameOf(q[j].biscuit)
  }

  /** Every queued biscuit is still free in `t`. */
  predicate AllFree(t: Table, q: seq<Collision>) {
    forall e :: e in q ==> NameOf(e.biscuit) in t.magnetBodies
  }

  /** The number of queue entries for puck `p`. */
  function EntriesFor(q: seq<Collision>, p: string): nat {
    if q == [] then 0
    else EntriesFor(q[..|q| - 1], p) + (if q[|q| - 1].puck.body == p then 1 else 0)
  }

  lemma {:induction false} NamesAppend(fs: seq<Fixture>, f: Fixture)
    ensures Names(fs + [f]) == Names(fs) + [NameOf(f)]
  {
    assert (fs + [f])[..|fs|] == fs;
  }

  /** In a valid world each free biscuit is free once and a biscuit name. */
  lemma FreeBiscuitOnce(t: Table, ls: real, n: string)
    requires WorldValid(t, ls) && n in t.magnetBodies
    ensures n in Biscuits && multiset(t.magnetBodies)[n] == 1
    ensures multiset(Attached(t.bodies[Puck1]))[n] == 0 && multiset(Attached(t.bodies[Puck2]))[n] == 0
  {
    var total := multiset(t.magnetBodies) + multiset(Attached(t.bodies[Puck1])) + multiset(Attached(t.bodies[Puck2]));
    assert total[n] == multiset(t.magnetBodies)[n] + multiset(Attached(t.bodies[Puck1]))[n]
                       + multiset(Attached(t.bodies[Puck2]))[n];
    assert multiset(t.magnetBodies)[n] >= 1;
    assert n in multiset(Biscuits);
  }

  /** In a valid world an entry succeeds exactly when its biscuit is free. */
  lemma AttachSucceedsIffFree(t: Table, e: Collision, ls: real)
    requires WorldValid(t, ls) && EntryValid(e, ls)
    ensures Attach(t, e).Success? <==> NameOf(e.biscuit) in t.magnetBodies
  {
    assert NameOf(e.biscuit) == e.biscuit.body;
  }

  /** The bodies after one entry: the puck gains the new fixture, the biscuit's
      body is destroyed, every other body stays as it was. */
  lemma AttachBodies(t: Table, e: Collision)
    requires e.biscuit.userData.Some? && NameOf(e.biscuit) == e.biscuit.body
    requires e.puck.body in t.bodies && e.biscuit.body in t.bodies && e.puck.body != e.biscuit.body
    requires NameOf(e.biscuit) in t.magnetBodies && NameOf(e.biscuit) in t.renderBodies
    ensures Attach(t, e).Success?
    ensures
      var t' := Attach(t, e).value;
      var p, n := e.puck.body, NameOf(e.biscuit);
      && p in t'.bodies && t'.bodies[p] == t.bodies[p].(fixtures := t.bodies[p].fixtures + [NewFixture(t, e)])
      && (forall m :: m in t'.bodies <==> m in t.bodies && m != n)
      && (forall m :: m in t'.bodies && m != p ==> t'.bodies[m] == t.bodies[m])
  {
  }

  /** The lists after one entry: the biscuit's name leaves both lists, order
      and every other name kept. */
  lemma AttachLists(t: Table, e: Collision, ls: real)
    requires WorldValid(t, ls) && EntryValid(e, ls) && NameOf(e.biscuit) in t.magnetBodies
    ensures Attach(t, e).Success?
    ensures
      var t' := Attach(t, e).value;
      var n := NameOf(e.biscuit);
      && t'.magnetBodies == Remove(t.magnetBodies, n)
      && t'.renderBodies == [Puck1, Puck2, Ball] + t'.magnetBodies
      && (forall m :: m in t'.magnetBodies <==> m in t.magnetBodies && m != n)
  {
    var n := NameOf(e.biscuit);
    assert n == e.biscuit.body;
    FreeBiscuitOnce(t, ls, n);
    assert n !in [Puck1, Puck2, Ball];
    RemoveAfterPrefix([Puck1, Puck2, Ball], t.magnetBodies, n);
    var magnet' := Remove(t.magnetBodies, n);
    assert multiset(magnet')[n] == 0;
    forall m ensures m in magnet' <==> m in t.magnetBodies && m != n {
      assert m in magnet' <==> multiset(magnet')[m] > 0;
    }
  }

  /** Everything one successful entry does in a valid world. */
  lemma AttachStep(t: Table, e: Collision, ls: real)
    requires WorldValid(t, ls) && EntryValid(e, ls) && NameOf(e.biscuit) in t.magnetBodies
    ensures Attach(t, e).Success?
    ensures
      var t' := Attach(t, e).value;
      var p, n := e.puck.body, NameOf(e.biscuit);
      && p in t'.bodies && t'.bodies[p] == t.bodies[p].(fixtures := t.bodies[p].fixtures + [NewFixture(t, e)])
      && (forall m :: m in t'.bodies <==> m in t.bodies && m != n)
      && (forall m :: m in t'.bodies && m != p ==> t'.bodies[m] == t.bodies[m])
      && t'.magnetBodies == Remove(t.magnetBodies, n)
      && t'.renderBodies == [Puck1, Puck2, Ball] + t'.magnetBodies
      && (forall m :: m in t'.magnetBodies <==> m in t.magnetBodies && m != n)
  {
    var n := NameOf(e.biscuit);
    FreeBiscuitOnce(t, ls, n);
    assert n in t.bodies && n in t.renderBodies;
    AttachBodies(t, e);
    AttachLists(t, e, ls);
  }

  lemma AttachKeepsPieces(t: Table, e: Collision, ls: real, t': Table)
    requires PiecesValid(t, ls) && EntryValid(e, ls)
    requires e.biscuit.body in t.bodies
    requires e.puck.body in t'.bodies
    requires t'.bodies[e.puck.body] == t.bodies[e.puck.body].(fixtures := t.bodies[e.puck.body].fixtures + [NewFixture(t, e)])
    requires forall m :: m in t'.bodies <==> m in t.bodies && m != e.biscuit.body
    requires forall m :: m in t'.bodies && m != e.puck.body ==> t'.bodies[m] == t.bodies[m]
    ensures PiecesValid(t', ls)
    ensures Attached(t'.bodies[e.puck.body]) == Attached(t.bodies[e.puck.body]) + [NameOf(e.biscuit)]
  {
    var p := e.puck.body;
    var fs := t.bodies[p].fixtures;
    var f := NewFixture(t, e);
    assert IsAttachedFixture(f, p, ls);
    assert (fs + [f])[1..] == fs[1..] + [f];
    NamesAppend(fs[1..], f);
  }

  lemma MoveOne(m: multiset<string>, m': multiset<string>, a1: multiset<string>, a1': multiset<string>,
                a2: multiset<string>, a2': multiset<string>, n: string)
    requires m' + multiset{n} == m
    requires (a1' == a1 + multiset{n} && a2' == a2) || (a2' == a2 + multiset{n} && a1' == a1)
    ensures m' + a1' + a2' == m + a1 + a2
  {
  }

  lemma AttachKeepsConserved(t: Table, e: Collision, t': Table)
    requires Puck1 in t.bodies && Puck2 in t.bodies && Puck1 in t'.bodies && Puck2 in t'.bodies
    requires |t.bodies[Puck1].fixtures| >= 1 && |t.bodies[Puck2].fixtures| >= 1
    requires |t'.bodies[Puck1].fixtures| >= 1 && |t'.bodies[Puck2].fixtures| >= 1
    requires Conserved(t) && IsPuck(e.puck.body)
    requires var n := NameOf(e.biscuit);
      && n in t.magnetBodies && t'.magnetBodies == Remove(t.magnetBodies, n)
      && Attached(t'.bodies[e.puck.body]) == Attached(t.bodies[e.puck.body]) + [n]
      && (e.puck.body == Puck1 ==> t'.bodies[Puck2] == t.bodies[Puck2])
      && (e.puck.body == Puck2 ==> t'.bodies[Puck1] == t.bodies[Puck1])
    ensures Conserved(t')
  {
    var n := NameOf(e.biscuit);
    var m, a1, a2 := multiset(t.magnetBodies), multiset(Attached(t.bodies[Puck1])), multiset(Attached(t.bodies[Puck2]));
    var m', a1', a2' := multiset(t'.magnetBodies), multiset(Attached(t'.bodies[Puck1])), multiset(Attached(t'.bodies[Puck2]));
    assert m' + multiset{n} == m;
    assert (a1' == a1 + multiset{n} && a2' == a2) || (a2' == a2 + multiset{n} && a1' == a1);
    MoveOne(m, m', a1, a1', a2, a2', n);
  }

  /** A second entry for a biscuit that has just been attached fails: its name
      has already left the free list, so `list.remove` raises. */
  lemma AttachTwiceFails(t: Table, e: Collision, e2: Collision, ls: real)
    requires WorldValid(t, ls) && EntryValid(e, ls) && EntryValid(e2, ls)
    requires NameOf(e.biscuit) in t.magnetBodies && NameOf(e2.biscuit) == NameOf(e.biscuit)
    ensures Attach(t, e).Success?
    ensures Attach(Attach(t, e).value, e2) == Failure(NotInList(NameOf(e.biscuit)))
  {
    AttachStep(t, e, ls);
  }

  /** Attaching keeps the world invariant: the biscuit moves from the free list
      to the puck's captured list. */
  lemma AttachKeepsWorld(t: Table, e: Collision, ls: real)
    requires WorldValid(t, ls) && EntryValid(e, ls) && NameOf(e.biscuit) in t.magnetBodies
    ensures Attach(t, e).Success? && WorldValid(Attach(t, e).value, ls)
  {
    AttachStep(t, e, ls);
    var t' := Attach(t, e).value;
    AttachKeepsPieces(t, e, ls, t');
    AttachKeepsConserved(t, e, t');
    assert ListsValid(t', ls);
  }

  lemma QueueValidNamed(q: seq<Collision>, ls: real)
    requires QueueValid(q, ls)
    ensures Named(q)
  {
    forall e | e in q ensures e.puck.userData.Some? && e.biscuit.userData.Some? {
      assert EntryValid(e, ls);
    }
  }

  lemma QueueValidFront(q: seq<Collision>, ls: real)
    requires q != [] && QueueValid(q, ls)
    ensures QueueValid(q[..|q| - 1], ls) && EntryValid(q[|q| - 1], ls)
  {
    forall e | e in q[..|q| - 1] ensures EntryValid(e, ls) {
      assert e in q;
    }
  }

  /** How "distinct and all free" splits at the last entry, once that entry's
      biscuit has left the free list. */
  lemma {:induction false} DistinctFreeSplit(t: Table, t1: Table, q: seq<Collision>)
    requires q != []
    requires forall m :: m in t1.magnetBodies <==> m in t.magnetBodies && m != NameOf(q[|q| - 1].biscuit)
    ensures DistinctBiscuits(q) && AllFree(t, q) <==>
            NameOf(q[|q| - 1].biscuit) in t.magnetBodies && DistinctBiscuits(q[..|q| - 1]) && AllFree(t1, q[..|q| - 1])
  {
    var front, e := q[..|q| - 1], q[|q| - 1];
    if DistinctBiscuits(q) && AllFree(t, q) {
      forall i, j | 0 <= i < j < |front| ensures NameOf(front[i].biscuit) != NameOf(front[j].biscuit) {
        assert front[i] == q[i] && front[j] == q[j];
      }
      forall f | f in front ensures NameOf(f.biscuit) in t1.magnetBodies {
        var i :| 0 <= i < |front| && front[i] == f;
        assert q[i] == f && q[|q| - 1] == e;
      }
    }
    if NameOf(e.biscuit) in t.magnetBodies && DistinctBiscuits(front) && AllFree(t1, front) {
      forall i, j | 0 <= i < j < |q| ensures NameOf(q[i].biscuit) != NameOf(q[j].biscuit) {
        if j < |q| - 1 {
          assert front[i] == q[i] && front[j] == q[j];
        } else {
          assert q[i] in front;
        }
      }
      forall f | f in q ensures NameOf(f.biscuit) in t.magnetBodies {
        if f != e {
          var i :| 0 <= i < |q| && q[i] == f;
          assert f in front;
        }
      }
    }
    if !(NameOf(e.biscuit) in t.magnetBodies) {
      assert e in q;
    }
  }

  /** In a valid world, draining succeeds exactly when every queued biscuit is
      still free and none is queued twice; the world stays valid. */
  lemma {:induction false} DrainSucceedsIff(t: Table, q: seq<Collision>, ls: real)
    requires WorldValid(t, ls) && QueueValid(q, ls)
    ensures Named(q)
    ensures Drain(t, q).Success? <==> DistinctBiscuits(q) && AllFree(t, q)
    ensures Drain(t, q).Success? ==> WorldValid(Drain(t, q).value, ls)
    decreases |q|
  {
    if q != [] {
      QueueValidFront(q, ls);
      var front, e := q[..|q| - 1], q[|q| - 1];
      AttachSucceedsIffFree(t, e, ls);
      if NameOf(e.biscuit) in t.magnetBodies {
        AttachKeepsWorld(t, e, ls);
        AttachStep(t, e, ls);
        var t1 := Attach(t, e).value;
        DrainSucceedsIff(t1, front, ls);
        DistinctFreeSplit(t, t1, q);
      } else {
        assert e in q;
      }
    }
  }

  /** The names of the queued biscuits. */
  function QueuedNames(q: seq<Collision>): set<string> {
    set e | e in q :: NameOf(e.biscuit)
  }

  /** The first step of a successful drain in a valid world: the last entry's
      biscuit was free, attaching it keeps the world valid, and the rest of the
      queue is drained from there. */
  lemma DrainFirstStep(t: Table, q: seq<Collision>, ls: real)
    requires WorldValid(t, ls) && QueueValid(q, ls) && q != [] && Drain(t, q).Success?
    ensures QueueValid(q[..|q| - 1], ls) && Named(q[..|q| - 1]) && EntryValid(q[|q| - 1], ls)
    ensures NameOf(q[|q| - 1].biscuit) in t.magnetBodies
    ensures Attach(t, q[|q| - 1]).Success? && WorldValid(Attach(t, q[|q| - 1]).value, ls)
    ensures Drain(t, q) == Drain(Attach(t, q[|q| - 1]).value, q[..|q| - 1])
  {
    QueueValidFront(q, ls);
    QueueValidNamed(q[..|q| - 1], ls);
    DrainSucceedsIff(t, q, ls);
    assert q[|q| - 1] in q;
    AttachKeepsWorld(t, q[|q| - 1], ls);
  }

  lemma QueuedNamesSplit(q: seq<Collision>)
    requires q != []
    ensures QueuedNames(q) == QueuedNames(q[..|q| - 1]) + {NameOf(q[|q| - 1].biscuit)}
  {
    assert q == q[..|q| - 1] + [q[|q| - 1]];
  }

  /** After a successful drain each queued biscuit has left the free list and
      nothing else has: one name per entry. */
  lemma {:induction false} DrainFreesQueued(t: Table, q: seq<Collision>, ls: real)
    requires WorldValid(t, ls) && QueueValid(q, ls) && Named(q) && Drain(t, q).Success?
    ensures |Drain(t, q).value.magnetBodies| == |t.magnetBodies| - |q|
    ensures forall m :: m in Drain(t, q).value.magnetBodies <==> m in t.magnetBodies && m !in QueuedNames(q)
    decreases |q|
  {
    if q != [] {
      var front, e := q[..|q| - 1], q[|q| - 1];
      DrainFirstStep(t, q, ls);
      var t1 := Attach(t, e).value;
      assert |t1.magnetBodies| == |t.magnetBodies| - 1
          && forall m :: m in t1.magnetBodies <==> m in t.magnetBodies && m != NameOf(e.biscuit) by {
        AttachStep(t, e, ls);
      }
      DrainFreesQueued(t1, front, ls);
      QueuedNamesSplit(q);
    }
  }

  /** One successful entry seen from a puck: it keeps its fixtures and its
      position, and gains one fixture if the entry is its own. */
  lemma AttachPuck(t: Table, e: Collision, ls: real, p: string)
    requires EntryValid(e, ls) && Attach(t, e).Success? && IsPuck(p) && p in t.bodies
    ensures var t1 := Attach(t, e).value;
      && p in t1.bodies && t.bodies[p].fixtures <= t1.bodies[p].fixtures
      && |t1.bodies[p].fixtures| == |t.bodies[p].fixtures| + (if e.puck.body == p then 1 else 0)
      && t1.bodies[p].position == t.bodies[p].position
  {
    assert e.biscuit.body != p;
  }

  /** After a successful drain a puck keeps its fixtures and its position and
      has gained one fixture per entry queued for it. */
  lemma {:induction false} DrainGrowsPuck(t: Table, q: seq<Collision>, ls: real, p: string)
    requires QueueValid(q, ls) && Named(q) && Drain(t, q).Success? && IsPuck(p) && p in t.bodies
    ensures p in Drain(t, q).value.bodies
    ensures t.bodies[p].fixtures <= Drain(t, q).value.bodies[p].fixtures
    ensures |Drain(t, q).value.bodies[p].fixtures| == |t.bodies[p].fixtures| + EntriesFor(q, p)
    ensures Drain(t, q).value.bodies[p].position == t.bodies[p].position
    decreases |q|
  {
    if q != [] {
      var front, e := q[..|q| - 1], q[|q| - 1];
      QueueValidFront(q, ls);
      QueueValidNamed(front, ls);
      assert Attach(t, e).Success?;
      var t1 := Attach(t, e).value;
      assert Drain(t, q) == Drain(t1, front);
      AttachPuck(t, e, ls, p);
      DrainGrowsPuck(t1, front, ls, p);
    }
  }

  /** The ball is never touched by the resolver. */
  lemma {:induction false} DrainKeepsBall(t: Table, q: seq<Collision>, ls: real)
    requires WorldValid(t, ls) && QueueValid(q, ls) && Named(q) && Drain(t, q).Success?
    ensures Ball in Drain(t, q).value.bodies && Drain(t, q).value.bodies[Ball] == t.bodies[Ball]
    decreases |q|
  {
    DrainSucceedsIff(t, q, ls);
    if q != [] {
      var front, e := q[..|q| - 1], q[|q| - 1];
      DrainFirstStep(t, q, ls);
      AttachStep(t, e, ls);
      DrainKeepsBall(Attach(t, e).value, front, ls);
    }
  }

  /** Last in, first out: the entry queued last is attached first, so its
      fixture directly follows the puck's earlier fixtures. */
  lemma LastQueuedAttachedFirst(t: Table, q: seq<Collision>, ls: real)
    requires WorldValid(t, ls) && QueueValid(q, ls) && Named(q) && q != [] && Drain(t, q).Success?
    ensures var e := q[|q| - 1];
      && e.puck.body in t.bodies && e.biscuit.body in t.bodies && e.puck.body in Drain(t, q).value.bodies
      && |t.bodies[e.puck.body].fixtures| < |Drain(t, q).value.bodies[e.puck.body].fixtures|
      && Drain(t, q).value.bodies[e.puck.body].fixtures[|t.bodies[e.puck.body].fixtures|] == NewFixture(t, e)
  {
    var front, e := q[..|q| - 1], q[|q| - 1];
    DrainFirstStep(t, q, ls);
    AttachStep(t, e, ls);
    var t1 := Attach(t, e).value;
    DrainGrowsPuck(t1, front, ls, e.puck.body);
    assert t1.bodies[e.puck.body].fixtures[|t.bodies[e.puck.body].fixtures|] == NewFixture(t, e);
  }

  /** Three biscuits in all: the free ones plus those captured by each puck,
      a puck's captures being its fixtures after its own. */
  lemma BiscuitCount(t: Table, ls: real)
    requires WorldValid(t, ls)
    ensures |t.magnetBodies| + (|t.bodies[Puck1].fixtures| - 1) + (|t.bodies[Puck2].fixtures| - 1) == |Biscuits|
  {
    var a1, a2 := Attached(t.bodies[Puck1]), Attached(t.bodies[Puck2]);
    assert |multiset(t.magnetBodies) + multiset(a1) + multiset(a2)| == |multiset(Biscuits)|;
  }
}
