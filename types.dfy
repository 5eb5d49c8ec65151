/** The world state the game rules work on: bodies with positions and fixture
    lists, fixtures with their identity data, and the names of the pieces. */
module KlaskTypes {
  import opened KlaskConstants

  datatype Option<+T> = None | Some(value: T)

  /** The exceptions the rule layer can raise. */
  datatype Error =
    | NotInList(name: string)      // list.remove of a name that is not in the list (ValueError)
    | NoSuchBody(name: string)     // use of a body that is no longer in the world
    | UnknownStart(name: string)   // lookup of an unknown ball start position (KeyError)

  datatype Outcome = Pass | Fail(error: Error)

  datatype Result<+T> = Success(value: T) | Failure(error: Error)

  datatype Vec = Vec(x: real, y: real)

  function Sub(a: Vec, b: Vec): Vec {
    Vec(a.x - b.x, a.y - b.y)
  }

  /** The identity carried by a named fixture. */
  datatype UserData = UserData(name: string, color: Color)

  /** Where a circle fixture sits in its body's frame. `Toward(d, l)` is the point
      reached by normalising `d` and scaling it by `l`; it is kept in this form
      because the normalisation needs a square root. */
  datatype Placement = Centre | Toward(direction: Vec, distance: real)

  /** A circle fixture of the body named `body`; walls and the ground carry no
      user data. */
  datatype Fixture = Fixture(body: string, userData: Option<UserData>, radius: real,
                             pos: Placement, sensor: bool)

  datatype Body = Body(position: Vec, fixtures: seq<Fixture>)

  /** A queued puck/biscuit contact, puck first. */
  datatype Collision = Collision(puck: Fixture, biscuit: Fixture)

  /** Every entry joins two named fixtures. */
  predicate Named(q: seq<Collision>) {
    forall e :: e in q ==> e.puck.userData.Some? && e.biscuit.userData.Some?
  }

  const Puck1: string := "puck1"
  const Puck2: string := "puck2"
  const Ball: string := "ball"
  const Biscuit1: string := "biscuit1"
  const Biscuit2: string := "biscuit2"
  const Biscuit3: string := "biscuit3"
  const Biscuits: seq<string> := [Biscuit1, Biscuit2, Biscuit3]

  predicate IsPuck(name: string) {
    name == Puck1 || name == Puck2
  }

  /** The name of a fixture, or "" for a wall or the ground. */
  function NameOf(f: Fixture): string {
    if f.userData.Some? then f.userData.value.name else ""
  }

  /** Python's `sub in s` on strings. */
  predicate Contains(s: string, sub: string)
    decreases |s|
  {
    (|sub| <= |s| && s[..|sub|] == sub) || (|s| > 0 && Contains(s[1..], sub))
  }

  lemma {:induction false} ContainsNeedsRoom(s: string, sub: string)
    requires |sub| > |s|
    ensures !Contains(s, sub)
    decreases |s|
  {
    if |s| > 0 { ContainsNeedsRoom(s[1..], sub); }
  }

  lemma {:induction false} ContainsNeedsFirstChar(s: string, sub: string)
    requires |sub| > 0 && sub[0] !in s
    ensures !Contains(s, sub)
    decreases |s|
  {
    if |s| > 0 {
      assert sub[0] !in s[1..];
      ContainsNeedsFirstChar(s[1..], sub);
    }
  }

  /** Which of the piece names the substring tests of the contact listener see
      as "puck" and which as "biscuit". */
  lemma PuckAndBallSubstrings()
    ensures Contains(Puck1, "puck") && !Contains(Puck1, "biscuit")
    ensures Contains(Puck2, "puck") && !Contains(Puck2, "biscuit")
    ensures !Contains(Ball, "puck") && !Contains(Ball, "biscuit")
  {
    ContainsNeedsRoom(Puck1, "biscuit");
    ContainsNeedsRoom(Puck2, "biscuit");
    ContainsNeedsFirstChar(Ball, "puck");
    ContainsNeedsRoom(Ball, "biscuit");
  }

  lemma BiscuitSubstrings(n: string)
    requires n in Biscuits
    ensures Contains(n, "biscuit") && !Contains(n, "puck")
  {
    ContainsNeedsFirstChar(n, "puck");
  }

  /** The index of the first occurrence of `x` in `s`, where `list.remove`
      stops its scan. */
  function FirstIndex<T(==)>(s: seq<T>, x: T): (i: nat)
    requires x in s
    ensures i < |s| && s[i] == x && x !in s[..i]
  {
    if s[0] == x then 0
    else
      assert x in s[1..] by { assert s == [s[0]] + s[1..]; }
      var k := FirstIndex(s[1..], x);
      assert s[..k + 1] == [s[0]] + s[1..][..k];
      k + 1
  }

  /** Any index that holds `x` and has no `x` before it is the first one. */
  lemma FirstIndexUnique<T>(s: seq<T>, x: T, j: nat)
    requires j < |s| && s[j] == x && x !in s[..j]
    ensures FirstIndex(s, x) == j
  {
  }

  /** Python's `list.remove(x)`: drop the first occurrence of `x`, keeping the
      other elements in order. */
  function Remove<T(==)>(s: seq<T>, x: T): (r: seq<T>)
    requires x in s
    ensures exists i :: 0 <= i < |s| && s[i] == x && x !in s[..i] && r == s[..i] + s[i + 1..]
    ensures multiset(r) == multiset(s) - multiset{x}
    ensures |r| == |s| - 1
  {
    var i := FirstIndex(s, x);
    assert s == s[..i] + [x] + s[i + 1..];
    s[..i] + s[i + 1..]
  }

  lemma RemoveAfterPrefix<T>(a: seq<T>, b: seq<T>, x: T)
    requires x !in a && x in b
    ensures Remove(a + b, x) == a + Remove(b, x)
  {
    var k := FirstIndex(b, x);
    var s := a + b;
    assert s[|a| + k] == x;
    assert s[..|a| + k] == a + b[..k];
    assert x !in s[..|a| + k];
    FirstIndexUnique(s, x, |a| + k);
    assert s[|a| + k + 1..] == b[k + 1..];
    assert Remove(b, x) == b[..k] + b[k + 1..];
    assert Remove(s, x) == (a + b[..k]) + b[k + 1..];
  }
}
