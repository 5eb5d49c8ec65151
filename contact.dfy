/** The contact listener: before the engine resolves a contact it asks the
    listener, which turns a puck/biscuit contact off and queues the pair. */
module Contact {
  import opened KlaskTypes

  /** Python's `min(keys, key=len)`. */
  function ShortestKey(keys: seq<string>): string
    requires |keys| > 0
  {
    if |keys| == 1 then keys[0]
    else
      var m := ShortestKey(keys[1..]);
      if |keys[0]| <= |m| then keys[0] else m
  }

  /** Python's `max(keys, key=len)`. */
  function LongestKey(keys: seq<string>): string
    requires |keys| > 0
  {
    if |keys| == 1 then keys[0]
    else
      var m := LongestKey(keys[1..]);
      if |keys[0]| >= |m| then keys[0] else m
  }

  /** `min` with a key returns the first element of least length. */
  lemma {:induction false} ShortestKeyIsFirstShortest(keys: seq<string>)
    requires |keys| > 0
    ensures ShortestKey(keys) in keys
    ensures forall k :: k in keys ==> |ShortestKey(keys)| <= |k|
    ensures exists i :: 0 <= i < |keys| && keys[i] == ShortestKey(keys)
                        && forall j :: 0 <= j < i ==> |keys[j]| > |ShortestKey(keys)|
  {
    if |keys| == 1 {
      assert keys[0] == ShortestKey(keys);
    } else {
      var rest := keys[1..];
      ShortestKeyIsFirstShortest(rest);
      var m := ShortestKey(rest);
      assert keys == [keys[0]] + rest;
      if |keys[0]| <= |m| {
        assert keys[0] == ShortestKey(keys);
      } else {
        var i :| 0 <= i < |rest| && rest[i] == m && forall j :: 0 <= j < i ==> |rest[j]| > |m|;
        assert keys[i + 1] == m && forall j :: 0 <= j < i + 1 ==> |keys[j]| > |m|;
      }
    }
  }

  /** `max` with a key returns the first element of greatest length. */
  lemma {:induction false} LongestKeyIsFirstLongest(keys: seq<string>)
    requires |keys| > 0
    ensures LongestKey(keys) in keys
    ensures forall k :: k in keys ==> |LongestKey(keys)| >= |k|
    ensures exists i :: 0 <= i < |keys| && keys[i] == LongestKey(keys)
                        && forall j :: 0 <= j < i ==> |keys[j]| < |LongestKey(keys)|
  {
    if |keys| == 1 {
      assert keys[0] == LongestKey(keys);
    } else {
      var rest := keys[1..];
      LongestKeyIsFirstLongest(rest);
      var m := LongestKey(rest);
      assert keys == [keys[0]] + rest;
      if |keys[0]| >= |m| {
        assert keys[0] == LongestKey(keys);
      } else {
        var i :| 0 <= i < |rest| && rest[i] == m && forall j :: 0 <= j < i ==> |rest[j]| < |m|;
        assert keys[i + 1] == m && forall j :: 0 <= j < i + 1 ==> |keys[j]| < |m|;
      }
    }
  }

  /** Python's `any([sub in k for k in keys])`. */
  predicate AnyContains(keys: seq<string>, sub: string) {
    exists k :: k in keys && Contains(k, sub)
  }

  /** The pair the listener queues for a contact between `fa` and `fb`, if any.
      Fixtures are keyed by name (a second fixture of the same name replaces the
      first); the contact is a capture when some name contains "puck" and some
      name contains "biscuit", and then the shorter name gives the puck and the
      longer the biscuit. */
  function Captured(fa: Fixture, fb: Fixture): (r: Option<Collision>)
    ensures r.Some? ==> fa.userData.Some? && fb.userData.Some?
    ensures r.Some? ==> (r.value.puck == fa || r.value.puck == fb) && (r.value.biscuit == fa || r.value.biscuit == fb)
  {
    if fa.userData.None? || fb.userData.None? then None
    else
      var a, b := fa.userData.value.name, fb.userData.value.name;
      var names := map[a := fa][b := fb];
      var keys := if a == b then [a] else [a, b];
      if AnyContains(keys, "puck") && AnyContains(keys, "biscuit") then
        ShortestKeyIsFirstShortest(keys);
        LongestKeyIsFirstLongest(keys);
        Some(Collision(names[ShortestKey(keys)], names[LongestKey(keys)]))
      else
        None
  }

  /** The entries a contact adds to the queue: none or one. */
  function Queued(fa: Fixture, fb: Fixture): seq<Collision> {
    match Captured(fa, fb)
    case None => []
    case Some(c) => [c]
  }

  /** The role of a fixture of the game, told by an explicit tag instead of by
      substrings of its name. */
  datatype Kind = PuckPiece | BiscuitPiece | BallPiece | Boundary

  /** Fixtures the world holds: unnamed walls and ground, or a piece. */
  predicate IsPieceFixture(f: Fixture) {
    f.userData.None? || IsPuck(NameOf(f)) || NameOf(f) == Ball || NameOf(f) in Biscuits
  }

  function KindOf(f: Fixture): Kind
    requires IsPieceFixture(f)
  {
    if f.userData.None? then Boundary
    else if IsPuck(NameOf(f)) then PuckPiece
    else if NameOf(f) == Ball then BallPiece
    else BiscuitPiece
  }

  /** Reference classification: only a puck meeting a biscuit is a capture, and
      the puck comes first whichever fixture it is. */
  function CaptureByKind(fa: Fixture, fb: Fixture): Option<Collision>
    requires IsPieceFixture(fa) && IsPieceFixture(fb)
  {
    match (KindOf(fa), KindOf(fb))
    case (PuckPiece, BiscuitPiece) => Some(Collision(fa, fb))
    case (BiscuitPiece, PuckPiece) => Some(Collision(fb, fa))
    case _ => None
  }

  lemma AnyContainsOfKeys(a: string, b: string, sub: string)
    ensures AnyContains([a], sub) == Contains(a, sub)
    ensures AnyContains([a, b], sub) == (Contains(a, sub) || Contains(b, sub))
  {
    assert [a][0] == a;
    assert [a, b][0] == a && [a, b][1] == b;
  }

  lemma ShortestOfKeys(a: string, b: string)
    ensures ShortestKey([a]) == a
    ensures ShortestKey([a, b]) == (if |b| < |a| then b else a)
  {
    assert [a, b][1..] == [b];
  }

  lemma LongestOfKeys(a: string, b: string)
    ensures LongestKey([a]) == a
    ensures LongestKey([a, b]) == (if |b| > |a| then b else a)
  {
    assert [a, b][1..] == [b];
  }

  lemma CapturePuckBiscuit(fa: Fixture, fb: Fixture)
    requires IsPieceFixture(fa) && IsPieceFixture(fb)
    requires KindOf(fa) == PuckPiece && KindOf(fb) == BiscuitPiece
    ensures Captured(fa, fb) == Some(Collision(fa, fb))
  {
    var a, b := NameOf(fa), NameOf(fb);
    PuckAndBallSubstrings();
    BiscuitSubstrings(b);
    AnyContainsOfKeys(a, b, "puck");
    AnyContainsOfKeys(a, b, "biscuit");
    ShortestOfKeys(a, b);
    LongestOfKeys(a, b);
    assert |a| == 5 && |b| == 8;
  }

  lemma CaptureBiscuitPuck(fa: Fixture, fb: Fixture)
    requires IsPieceFixture(fa) && IsPieceFixture(fb)
    requires KindOf(fa) == BiscuitPiece && KindOf(fb) == PuckPiece
    ensures Captured(fa, fb) == Some(Collision(fb, fa))
  {
    var a, b := NameOf(fa), NameOf(fb);
    PuckAndBallSubstrings();
    BiscuitSubstrings(a);
    AnyContainsOfKeys(a, b, "puck");
    AnyContainsOfKeys(a, b, "biscuit");
    ShortestOfKeys(a, b);
    LongestOfKeys(a, b);
    assert |a| == 8 && |b| == 5;
  }

  lemma CaptureOtherPairs(fa: Fixture, fb: Fixture)
    requires IsPieceFixture(fa) && IsPieceFixture(fb)
    requires !(KindOf(fa) == PuckPiece && KindOf(fb) == BiscuitPiece)
    requires !(KindOf(fa) == BiscuitPiece && KindOf(fb) == PuckPiece)
    ensures Captured(fa, fb) == None
  {
    if fa.userData.Some? && fb.userData.Some? {
      var a, b := NameOf(fa), NameOf(fb);
      PuckAndBallSubstrings();
      if a in Biscuits { BiscuitSubstrings(a); }
      if b in Biscuits { BiscuitSubstrings(b); }
      AnyContainsOfKeys(a, b, "puck");
      AnyContainsOfKeys(a, b, "biscuit");
      assert !(Contains(a, "puck") && Contains(b, "biscuit"));
      assert !(Contains(b, "puck") && Contains(a, "biscuit"));
      assert !(Contains(a, "puck") && Contains(a, "biscuit"));
      assert !(Contains(b, "puck") && Contains(b, "biscuit"));
    }
  }

  /** On the game's own fixtures, the name-substring test and the shorter-name
      rule agree with the tagged classification. */
  lemma CapturedByKind(fa: Fixture, fb: Fixture)
    requires IsPieceFixture(fa) && IsPieceFixture(fb)
    ensures Captured(fa, fb) == CaptureByKind(fa, fb)
  {
    if KindOf(fa) == PuckPiece && KindOf(fb) == BiscuitPiece {
      CapturePuckBiscuit(fa, fb);
    } else if KindOf(fa) == BiscuitPiece && KindOf(fb) == PuckPiece {
      CaptureBiscuitPuck(fa, fb);
    } else {
      CaptureOtherPairs(fa, fb);
    }
  }

  /** Which fixture the engine reports as A and which as B does not matter. */
  lemma CaptureIgnoresOrder(fa: Fixture, fb: Fixture)
    requires IsPieceFixture(fa) && IsPieceFixture(fb)
    ensures Captured(fa, fb) == Captured(fb, fa)
  {
    CapturedByKind(fa, fb);
    CapturedByKind(fb, fa);
  }

  /** A contact reported by the physics engine. Box2D enables every contact
      before it asks the listener. */
  class EngineContact {
    const fixtureA: Fixture
    const fixtureB: Fixture
    var enabled: bool

    constructor (a: Fixture, b: Fixture)
      ensures fixtureA == a && fixtureB == b && enabled
    {
      fixtureA, fixtureB, enabled := a, b, true;
    }
  }

  /** The entries a sequence of contact reports adds to the queue, in order. */
  function QueuedAll(contacts: seq<EngineContact>): (r: seq<Collision>)
    ensures |r| <= |contacts|
    ensures Named(r)
  {
    if contacts == [] then []
    else
      var last := contacts[|contacts| - 1];
      QueuedAll(contacts[..|contacts| - 1]) + Queued(last.fixtureA, last.fixtureB)
  }

  lemma QueuedAllSnoc(contacts: seq<EngineContact>, c: EngineContact)
    ensures QueuedAll(contacts + [c]) == QueuedAll(contacts) + Queued(c.fixtureA, c.fixtureB)
  {
    assert (contacts + [c])[..|contacts|] == contacts;
  }

  class ContactListener {
    /** Puck/biscuit contacts seen since the queue was last drained. */
    var collisionList: seq<Collision>

    constructor ()
      ensures collisionList == []
    {
      collisionList := [];
    }

    /** Called by the engine before it resolves `contact`. */
    method PreSolve(contact: EngineContact)
      modifies this, contact
      ensures collisionList == old(collisionList) + Queued(contact.fixtureA, contact.fixtureB)
      ensures contact.enabled == (old(contact.enabled) && Captured(contact.fixtureA, contact.fixtureB).None?)
    {
      var fa, fb := contact.fixtureA, contact.fixtureB;
      // A wall or the ground carries no user data
      if fa.userData.None? || fb.userData.None? {
        return;
      }
      var names := map[fa.userData.value.name := fa][fb.userData.value.name := fb];
      var keys := if fa.userData.value.name == fb.userData.value.name then [fa.userData.value.name]
                  else [fa.userData.value.name, fb.userData.value.name];
      if AnyContains(keys, "puck") && AnyContains(keys, "biscuit") {
        ShortestKeyIsFirstShortest(keys);
        LongestKeyIsFirstLongest(keys);
        var puck := names[ShortestKey(keys)];
        var biscuit := names[LongestKey(keys)];
        contact.enabled := false;
        collisionList := collisionList + [Collision(puck, biscuit)];
      }
    }
  }
}
