/** The simulator object: `reset` builds the world, `step` pulls the free
    biscuits, lets the engine move the pieces and report contacts, then drains
    the capture queue. */
module Simulator {
  import opened KlaskConstants
  import opened KlaskTypes
  import opened Contact
  import opened Attachment
  import opened Rules
  import opened Setup

  /** The physics engine's contract with the listener: it reports contacts
      between fixtures of bodies in the world (sensors never reach PreSolve),
      or with the unnamed walls and ground. */
  ghost predicate LiveFixture(t: Table, f: Fixture) {
    f.userData.None? || (f.body in t.bodies && f in t.bodies[f.body].fixtures && !f.sensor)
  }

  ghost predicate EngineReports(t: Table, contacts: seq<EngineContact>) {
    forall c :: c in contacts ==> LiveFixture(t, c.fixtureA) && LiveFixture(t, c.fixtureB)
  }

  /** The engine moves bodies and nothing else. */
  function MoveBodies(bodies: map<string, Body>, moved: map<string, Vec>): map<string, Body> {
    map n | n in bodies :: if n in moved then bodies[n].(position := moved[n]) else bodies[n]
  }

  function Moved(t: Table, moved: map<string, Vec>): Table {
    Table(MoveBodies(t.bodies, moved), t.magnetBodies, t.renderBodies)
  }

  /** Moving bodies keeps the world invariant and which fixtures are live. */
  lemma MoveKeepsWorld(t: Table, moved: map<string, Vec>, ls: real, contacts: seq<EngineContact>)
    requires WorldValid(t, ls) && EngineReports(t, contacts)
    ensures WorldValid(Moved(t, moved), ls) && EngineReports(Moved(t, moved), contacts)
    ensures Moved(t, moved).bodies[Puck1].fixtures == t.bodies[Puck1].fixtures
    ensures Moved(t, moved).bodies[Puck2].fixtures == t.bodies[Puck2].fixtures
  {
    var t' := Moved(t, moved);
    assert forall n :: n in t.bodies ==> n in t'.bodies && t'.bodies[n].fixtures == t.bodies[n].fixtures;
    assert PiecesValid(t', ls);
    assert Attached(t'.bodies[Puck1]) == Attached(t.bodies[Puck1]);
    assert Attached(t'.bodies[Puck2]) == Attached(t.bodies[Puck2]);
  }

  /** In a valid world the magnet loop finds every body it looks up, and each
      body it pulls is a free biscuit: a single biscuit fixture, carried by
      neither puck. */
  lemma MagnetTargetsFree(t: Table, ls: real)
    requires WorldValid(t, ls)
    ensures Puck1 in t.bodies && Puck2 in t.bodies
    ensures forall n :: n in t.magnetBodies ==>
      && n in t.bodies && n in Biscuits && t.bodies[n].fixtures == [BiscuitFixture(n, ls)]
      && n !in Attached(t.bodies[Puck1]) && n !in Attached(t.bodies[Puck2])
  {
    forall n | n in t.magnetBodies
      ensures n in Biscuits && n !in Attached(t.bodies[Puck1]) && n !in Attached(t.bodies[Puck2])
    {
      FreeBiscuitOnce(t, ls, n);
    }
  }

  /** A fixture the engine may report, in a valid world, is a wall, a puck's
      own fixture, the ball or a free biscuit. */
  lemma LivePiece(t: Table, ls: real, f: Fixture)
    requires WorldValid(t, ls) && LiveFixture(t, f)
    ensures IsPieceFixture(f)
    ensures IsPieceFixture(f) && KindOf(f) == PuckPiece ==> IsPuck(f.body) && f == PuckFixture(f.body, ls)
    ensures IsPieceFixture(f) && KindOf(f) == BiscuitPiece ==>
      f.body in Biscuits && f == BiscuitFixture(f.body, ls) && f.body in t.magnetBodies
  {
    if f.userData.Some? {
      var fs := t.bodies[f.body].fixtures;
      var i :| 0 <= i < |fs| && fs[i] == f;
      if IsPuck(f.body) {
        assert i == 0;
      } else if f.body != Ball {
        FreeBiscuitOnce(t, ls, f.body);
      }
    }
  }

  /** What the listener queues from the engine's reports in a valid world is a
      well-formed queue. */
  lemma LiveCaptureValid(t: Table, ls: real, fa: Fixture, fb: Fixture)
    requires WorldValid(t, ls) && LiveFixture(t, fa) && LiveFixture(t, fb)
    ensures Captured(fa, fb).Some? ==> EntryValid(Captured(fa, fb).value, ls)
    ensures Captured(fa, fb).Some? ==> NameOf(Captured(fa, fb).value.biscuit) in t.magnetBodies
  {
    LivePiece(t, ls, fa);
    LivePiece(t, ls, fb);
    CapturedByKind(fa, fb);
  }

  /** From the engine's reports on a valid world the listener queues only
      well-formed entries, and every queued biscuit is still free. */
  lemma {:induction false} QueuedAllValid(t: Table, ls: real, contacts: seq<EngineContact>)
    requires WorldValid(t, ls) && EngineReports(t, contacts)
    ensures QueueValid(QueuedAll(contacts), ls)
    ensures AllFree(t, QueuedAll(contacts))
    decreases |contacts|
  {
    if contacts != [] {
      var front, last := contacts[..|contacts| - 1], contacts[|contacts| - 1];
      assert forall c :: c in front ==> c in contacts;
      QueuedAllValid(t, ls, front);
      assert last in contacts;
      LiveCaptureValid(t, ls, last.fixtureA, last.fixtureB);
    }
  }

  /** What one step does to a valid world, as a function of the engine's
      moves and reports: every queued biscuit is free, the step succeeds exactly
      when no biscuit is queued twice, and then the world is valid again, one name has left the free
      list per entry, and each puck has only gained fixtures. */
  lemma StepTable(t0: Table, moved: map<string, Vec>, contacts: seq<EngineContact>, ls: real)
    requires WorldValid(t0, ls) && EngineReports(t0, contacts)
    ensures var t, q := Moved(t0, moved), QueuedAll(contacts);
      && WorldValid(t, ls) && QueueValid(q, ls)
      && AllFree(t, q)
      && (Drain(t, q).Success? <==> DistinctBiscuits(q))
      && (Drain(t, q).Success? ==>
            && WorldValid(Drain(t, q).value, ls)
            && Puck1 in Drain(t, q).value.bodies && Puck2 in Drain(t, q).value.bodies && Ball in Drain(t, q).value.bodies
            && |Drain(t, q).value.magnetBodies| == |t0.magnetBodies| - |q|
            && t0.bodies[Puck1].fixtures <= Drain(t, q).value.bodies[Puck1].fixtures
            && t0.bodies[Puck2].fixtures <= Drain(t, q).value.bodies[Puck2].fixtures)
  {
    var t, q := Moved(t0, moved), QueuedAll(contacts);
    MoveKeepsWorld(t0, moved, ls, contacts);
    QueuedAllValid(t, ls, contacts);
    DrainSucceedsIff(t, q, ls);
    if Drain(t, q).Success? {
      DrainFreesQueued(t, q, ls);
      DrainGrowsPuck(t, q, ls, Puck1);
      DrainGrowsPuck(t, q, ls, Puck2);
    }
  }

  /** Captures are permanent: once a puck carries two biscuits, every later
      successful step still has its player losing, so the game is never again
      in play until the next reset. */
  lemma BiscuitLossPersists(t0: Table, moved: map<string, Vec>, contacts: seq<EngineContact>, ls: real)
    requires WorldValid(t0, ls) && EngineReports(t0, contacts)
    requires NumBiscuitsOnPuck(t0.bodies[Puck1]) >= 2 || NumBiscuitsOnPuck(t0.bodies[Puck2]) >= 2
    requires Drain(Moved(t0, moved), QueuedAll(contacts)).Success?
    ensures var t1 := Drain(Moved(t0, moved), QueuedAll(contacts)).value;
      && Puck1 in t1.bodies && Puck2 in t1.bodies && Ball in t1.bodies
      && (NumBiscuitsOnPuck(t0.bodies[Puck1]) >= 2 ==> P2Win in DetermineGameState(t1.bodies, ls))
      && (NumBiscuitsOnPuck(t0.bodies[Puck2]) >= 2 ==> P1Win in DetermineGameState(t1.bodies, ls))
      && DetermineGameState(t1.bodies, ls) != [Playing]
  {
    StepTable(t0, moved, contacts, ls);
    var t1 := Drain(Moved(t0, moved), QueuedAll(contacts)).value;
    assert |t0.bodies[Puck1].fixtures| <= |t1.bodies[Puck1].fixtures|;
    assert |t0.bodies[Puck2].fixtures| <= |t1.bodies[Puck2].fixtures|;
  }

  /** The engine hands every contact it found, in order, to the listener's
      pre-solve callback. */
  method ReportContacts(listener: ContactListener, contacts: seq<EngineContact>)
    modifies listener, set c | c in contacts
    ensures listener.collisionList == old(listener.collisionList) + QueuedAll(contacts)
    ensures forall c :: c in contacts ==> c.enabled == (old(c.enabled) && Captured(c.fixtureA, c.fixtureB).None?)
  {
    var i := 0;
    assert contacts[..0] == [];
    while i < |contacts|
      invariant 0 <= i <= |contacts|
      invariant listener.collisionList == old(listener.collisionList) + QueuedAll(contacts[..i])
      invariant forall c :: c in contacts[..i] ==> c.enabled == (old(c.enabled) && Captured(c.fixtureA, c.fixtureB).None?)
      invariant forall c :: c in contacts && c !in contacts[..i] ==> c.enabled == old(c.enabled)
    {
      var contact := contacts[i];
      listener.PreSolve(contact);
      assert contacts[..i + 1] == contacts[..i] + [contact];
      QueuedAllSnoc(contacts[..i], contact);
      i := i + 1;
    }
    assert contacts[..|contacts|] == contacts;
  }

  class KlaskSimulator {
    /** The lengths of klask_constants.py are multiplied by this, because the engine handles
        metre-sized bodies better than centimetre-sized ones. */
    const lengthScaler: real
    /** The pieces on the board (pucks, ball, free biscuits), by name; the static walls, dividers and ground are not modelled. */
    var bodies: map<string, Body>
    /** The free biscuits, which the magnets pull. */
    var magnetBodies: seq<string>
    /** The bodies drawn each frame. */
    var renderBodies: seq<string>
    /** The world's contact listener, which holds the capture queue. */
    var listener: ContactListener

    constructor (lengthScaler: real)
      ensures this.lengthScaler == lengthScaler
      ensures bodies == map[] && magnetBodies == [] && renderBodies == []
      ensures fresh(listener) && listener.collisionList == []
    {
      this.lengthScaler := lengthScaler;
      bodies, magnetBodies, renderBodies := map[], [], [];
      listener := new ContactListener();
    }

    function Snapshot(): Table
      reads this
    {
      Table(bodies, magnetBodies, renderBodies)
    }

    /** The state between calls: a valid world and an empty queue. */
    ghost predicate Valid()
      reads this, listener
    {
      WorldValid(Snapshot(), lengthScaler) && listener.collisionList == []
    }

    /** The rest of `reset` once the ball start is known: the ball, the three
        biscuits and the groupings, which make a valid world. */
    method PlacePieces(ballStart: Vec)
      requires listener.collisionList == []
      modifies this`bodies, this`magnetBodies, this`renderBodies
      ensures Snapshot() == InitialTable(lengthScaler, ballStart)
      ensures Valid()
    {
      var world := InitialTable(lengthScaler, ballStart);
      InitialTableValid(lengthScaler, ballStart);
      bodies, magnetBodies, renderBodies := world.bodies, world.magnetBodies, world.renderBodies;
    }

    /** A new world: the pucks, the ball at the chosen start, the three
        biscuits and the groupings. An unknown start name fails after the pucks
        are created, leaving the previous groupings. */
    method Reset(ballStartPosition: string) returns (outcome: Outcome)
      modifies this
      ensures fresh(listener) && listener.collisionList == []
      ensures outcome.Pass? <==> ballStartPosition == RandomStart || ballStartPosition in BallStartPositions(lengthScaler)
      ensures outcome.Pass? ==> Valid()
      ensures outcome.Pass? ==> Ball in bodies && bodies[Ball].position in BallStartPositions(lengthScaler).Values
      ensures outcome.Pass? ==> Snapshot() == InitialTable(lengthScaler, bodies[Ball].position)
      ensures ballStartPosition in BallStartPositions(lengthScaler) ==>
        Snapshot() == InitialTable(lengthScaler, BallStartPositions(lengthScaler)[ballStartPosition])
      ensures outcome.Fail? ==>
        && outcome.error == UnknownStart(ballStartPosition) && bodies == PuckBodies(lengthScaler)
        && magnetBodies == old(magnetBodies) && renderBodies == old(renderBodies)
    {
      var ls := lengthScaler;
      listener := new ContactListener();
      // The pucks are created before the ball start is looked up.
      bodies := PuckBodies(ls);
      var start := SelectBallStart(ballStartPosition, ls);
      if start.Failure? {
        return Fail(start.error);
      }
      PlacePieces(start.value);
      if ballStartPosition != RandomStart {
        StartIsCorner(ballStartPosition, ls, start.value);
      }
      return Pass;
    }

    /** The magnet loop: for each free biscuit, a pull towards puck 1 and then
        one towards puck 2. A name without a body is a lookup error. */
    method MagnetForceTargets() returns (r: Result<seq<(string, string)>>)
      ensures r.Success? <==> forall n :: n in magnetBodies ==> Puck1 in bodies && Puck2 in bodies && n in bodies
      ensures r.Failure? ==> r.error.NoSuchBody?
      ensures r.Success? ==> |r.value| == 2 * |magnetBodies|
      ensures r.Success? ==> forall i :: 0 <= i < |magnetBodies| ==>
        r.value[2 * i] == (Puck1, magnetBodies[i]) && r.value[2 * i + 1] == (Puck2, magnetBodies[i])
      ensures r.Success? ==> forall k :: 0 <= k < |r.value| ==> IsPuck(r.value[k].0) && r.value[k].1 in magnetBodies
    {
      var pairs: seq<(string, string)> := [];
      var i := 0;
      while i < |magnetBodies|
        invariant 0 <= i <= |magnetBodies|
        invariant |pairs| == 2 * i
        invariant forall j :: 0 <= j < i ==> Puck1 in bodies && Puck2 in bodies && magnetBodies[j] in bodies
        invariant forall j :: 0 <= j < i ==>
          pairs[2 * j] == (Puck1, magnetBodies[j]) && pairs[2 * j + 1] == (Puck2, magnetBodies[j])
      {
        var name := magnetBodies[i];
        assert name in magnetBodies;
        if Puck1 !in bodies {
          return Failure(NoSuchBody(Puck1));
        }
        if name !in bodies {
          return Failure(NoSuchBody(name));
        }
        if Puck2 !in bodies {
          return Failure(NoSuchBody(Puck2));
        }
        pairs := pairs + [(Puck1, name), (Puck2, name)];
        i := i + 1;
      }
      forall k | 0 <= k < |pairs| ensures IsPuck(pairs[k].0) && pairs[k].1 in magnetBodies {
        assert pairs[k].1 == magnetBodies[k / 2];
      }
      return Success(pairs);
    }

    /** The engine's step: bodies move to `moved` and every reported contact
        goes through the listener, in order. */
    method WorldStep(moved: map<string, Vec>, contacts: seq<EngineContact>)
      modifies this, listener, set c | c in contacts
      ensures listener == old(listener)
      ensures bodies == MoveBodies(old(bodies), moved)
      ensures magnetBodies == old(magnetBodies) && renderBodies == old(renderBodies)
      ensures listener.collisionList == old(listener.collisionList) + QueuedAll(contacts)
      ensures forall c :: c in contacts ==> c.enabled == (old(c.enabled) && Captured(c.fixtureA, c.fixtureB).None?)
    {
      ReportContacts(listener, contacts);
      // The bodies come to rest where the engine moved them.
      bodies := MoveBodies(bodies, moved);
    }

    /** One capture: attach the biscuit to the puck, take its name out of both
        lists and destroy its body. A name missing from a list is the
        ValueError of `list.remove`; a destroyed body is a failed lookup. */
    method Capture(entry: Collision) returns (outcome: Outcome)
      requires entry.biscuit.userData.Some?
      modifies this
      ensures listener == old(listener)
      ensures outcome.Pass? <==> Attach(old(Snapshot()), entry).Success?
      ensures outcome.Pass? ==> Snapshot() == Attach(old(Snapshot()), entry).value
      ensures outcome.Fail? ==> outcome.error == Attach(old(Snapshot()), entry).error
    {
      var puck, biscuit := entry.puck, entry.biscuit;
      var name := biscuit.userData.value.name;
      if name !in magnetBodies {
        return Fail(NotInList(name));
      }
      if puck.body !in bodies {
        return Fail(NoSuchBody(puck.body));
      }
      if biscuit.body !in bodies {
        return Fail(NoSuchBody(biscuit.body));
      }
      if name !in renderBodies {
        return Fail(NotInList(name));
      }
      var position := Sub(bodies[biscuit.body].position, bodies[puck.body].position);
      var newBiscuit := Fixture(puck.body, biscuit.userData, biscuit.radius,
                                Toward(position, puck.radius + biscuit.radius), true);
      var puckBody := bodies[puck.body];
      bodies := bodies[puck.body := puckBody.(fixtures := puckBody.fixtures + [newBiscuit])];
      magnetBodies := Remove(magnetBodies, name);
      renderBodies := Remove(renderBodies, name);
      bodies := bodies - {biscuit.body};
      return Pass;
    }

    /** The capture loop: pop entries until the queue is empty, attaching each
        biscuit to its puck and taking it out of play. */
    method ResolveCollisions() returns (outcome: Outcome)
      requires Named(listener.collisionList)
      modifies this, listener
      ensures listener == old(listener)
      ensures outcome.Pass? <==> Drain(old(Snapshot()), old(listener.collisionList)).Success?
      ensures outcome.Pass? ==> Snapshot() == Drain(old(Snapshot()), old(listener.collisionList)).value
      ensures outcome.Pass? ==> listener.collisionList == []
      ensures outcome.Fail? ==> outcome.error == Drain(old(Snapshot()), old(listener.collisionList)).error
    {
      ghost var target := Drain(Snapshot(), listener.collisionList);
      while listener.collisionList != []
        invariant listener == old(listener)
        invariant Named(listener.collisionList)
        invariant Drain(Snapshot(), listener.collisionList) == target
        decreases |listener.collisionList|
      {
        ghost var before, q := Snapshot(), listener.collisionList;
        var entry := listener.collisionList[|listener.collisionList| - 1];
        listener.collisionList := listener.collisionList[..|listener.collisionList| - 1];
        assert entry in q;
        outcome := Capture(entry);
        if outcome.Fail? {
          return;
        }
      }
      return Pass;
    }

    /** The part of a step before the captures: pull every free biscuit
        towards both pucks, then let the engine move the pieces and report its
        contacts. In a valid world every body the magnet loop looks up exists. */
    method PullAndStepWorld(moved: map<string, Vec>, contacts: seq<EngineContact>) returns (forces: Result<seq<(string, string)>>)
      requires Valid()
      modifies this, listener, set c | c in contacts
      ensures listener == old(listener)
      ensures forces.Success? && |forces.value| == 2 * |old(magnetBodies)|
      ensures Snapshot() == Moved(old(Snapshot()), moved)
      ensures listener.collisionList == QueuedAll(contacts)
      ensures forall c :: c in contacts ==> c.enabled == (old(c.enabled) && Captured(c.fixtureA, c.fixtureB).None?)
    {
      assert forall n :: n in magnetBodies ==> Puck1 in bodies && Puck2 in bodies && n in bodies by {
        MagnetTargetsFree(Snapshot(), lengthScaler);
      }
      forces := MagnetForceTargets();
      WorldStep(moved, contacts);
    }

    /** One simulation step. Every queued biscuit is free when the queue is
        drained, so the step fails exactly when the queue names a biscuit twice
        (the ValueError of `list.remove`); otherwise the world stays valid, the
        free list loses one name per entry and the pucks only gain fixtures. */
    method Step(moved: map<string, Vec>, contacts: seq<EngineContact>) returns (outcome: Outcome)
      requires Valid() && EngineReports(Snapshot(), contacts)
      modifies this, listener, set c | c in contacts
      ensures listener == old(listener)
      ensures outcome.Pass? <==> DistinctBiscuits(QueuedAll(contacts))
      ensures var t := Moved(old(Snapshot()), moved);
        outcome.Pass? ==> Drain(t, QueuedAll(contacts)).Success? && Snapshot() == Drain(t, QueuedAll(contacts)).value
      ensures outcome.Pass? ==> Valid()
      ensures forall c :: c in contacts ==> c.enabled == (old(c.enabled) && Captured(c.fixtureA, c.fixtureB).None?)
    {
      ghost var t0 := Snapshot();
      ghost var t, q := Moved(t0, moved), QueuedAll(contacts);
      var forces := PullAndStepWorld(moved, contacts);
      outcome := ResolveCollisions();
      assert outcome.Pass? <==> DistinctBiscuits(q) by {
        StepTable(t0, moved, contacts, lengthScaler);
      }
      if outcome.Pass? {
        assert Valid() && Puck1 in bodies && Puck2 in bodies && Ball in bodies by {
          StepTable(t0, moved, contacts, lengthScaler);
        }
        var states := DetermineGameState(bodies, lengthScaler);
      }
    }
  }
}
