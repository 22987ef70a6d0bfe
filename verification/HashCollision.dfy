/** A pair of bodies on which a hash collision hides the longest common substring. */
module HashCollision {
  import opened Arithmetic
  import opened Utf8
  import opened RollingHash
  import opened CommonSubstring

  /** p0<P]000j */
  const IMPOSTOR: Text := [112, 48, 60, 80, 93, 48, 48, 48, 106]

  /** <0000:Fa0 */
  const SHARED: Text := [60, 48, 48, 48, 48, 58, 70, 97, 48]

  /** A<0000:Fa0B and Cp0<P]000j-<0000:Fa0D */
  const BODIES: Bodies := [[65] + SHARED + [66], [67] + IMPOSTOR + [45] + SHARED + [68]]

  const LO: seq<nat> := [0, 0]
  const HI: seq<nat> := [11, 21]

  /** One byte more: the hash of n bytes and the next byte give the hash of n + 1. */
  lemma HashStep(s: Text, n: nat, h: int, q: int, r: int)
    requires n < |s| && Hash(s[..n]) == h && h * BASE + s[n] == q * WORDS + r && 0 <= r < WORDS
    ensures Hash(s[..n + 1]) == r
  {
    PolyLast(s[..n], s[n]);
    WrapStep(Poly(s[..n]), s[n]);
    assert s[..n + 1] == s[..n] + [s[n]];
    WrapShift(r, q);
  }

  const COLLIDING := 17694526539295872563

  lemma ImpostorHash()
    ensures Hash(IMPOSTOR) == COLLIDING
  {
    assert IMPOSTOR[..0] == [];
    HashStep(IMPOSTOR, 0, 0, 0, 112);
    HashStep(IMPOSTOR, 1, 112, 0, 123145302359680);
    HashStep(IMPOSTOR, 2, 123145302359680, 7340032, 107189189589840828);
    HashStep(IMPOSTOR, 3, 107189189589840828, 6388973571, 14612258853720058052);
    HashStep(IMPOSTOR, 4, 14612258853720058052, 870958498686, 11402704854375728489);
    HashStep(IMPOSTOR, 5, 11402704854375728489, 679654172592, 10686115199852294555);
    HashStep(IMPOSTOR, 6, 10686115199852294555, 636942100768, 1696007910050450065);
    HashStep(IMPOSTOR, 7, 1696007910050450065, 101089949054, 14830588466877412499);
    HashStep(IMPOSTOR, 8, 14830588466877412499, 883971957727, 17694526539295872563);
    assert IMPOSTOR[..9] == IMPOSTOR;
  }

  lemma SharedHash()
    ensures Hash(SHARED) == COLLIDING
  {
    assert SHARED[..0] == [];
    HashStep(SHARED, 0, 0, 0, 60);
    HashStep(SHARED, 1, 60, 0, 65970697692708);
    HashStep(SHARED, 2, 65970697692708, 3932160, 57447283539414876);
    HashStep(SHARED, 3, 57447283539414876, 3424124930, 602396037527280004);
    HashStep(SHARED, 4, 602396037527280004, 35905601845, 2245803030570261372);
    HashStep(SHARED, 5, 2245803030570261372, 133860291925, 10981991984943264750);
    HashStep(SHARED, 6, 10981991984943264750, 654577731447, 12931170953708993968);
    HashStep(SHARED, 7, 12931170953708993968, 770757851530, 11231706442658058865);
    HashStep(SHARED, 8, 11231706442658058865, 669461873000, 17694526539295872563);
    assert SHARED[..9] == SHARED;
  }

  lemma Layout()
    ensures RegionOk(BODIES, LO, HI) && |BODIES| == 2 && |BODIES[0]| == 11 && |BODIES[1]| == 21
    ensures Gram(BODIES[0], 1, 9) == SHARED && Gram(BODIES[1], 1, 9) == IMPOSTOR && Gram(BODIES[1], 11, 9) == SHARED
    ensures BODIES[0][0] == 65 && BODIES[0][10] == 66 && IMPOSTOR != SHARED
    ensures forall k :: 0 <= k < 21 ==> BODIES[1][k] != 65 && BODIES[1][k] != 66
  {
    assert BODIES[0][1..10] == SHARED;
    assert BODIES[1][1..10] == IMPOSTOR;
    assert BODIES[1][11..20] == SHARED;
    assert IMPOSTOR[0] != SHARED[0];
  }

  lemma SharedIsCommon()
    ensures RegionOk(BODIES, LO, HI) && HasCommon(BODIES, LO, HI, 9)
  {
    Layout();
    assert Common(BODIES, LO, HI, [1, 11], 9);
  }

  /** A window of body 0 that covers its first or last byte is not in body 1. */
  lemma EdgesAreUnique(s: nat, t: nat, length: nat)
    requires length >= 9 && Window(BODIES[0], 0, 11, s, length) && Window(BODIES[1], 0, 21, t, length) &&
             !(s == 1 && length == 9)
    ensures Gram(BODIES[0], s, length) != Gram(BODIES[1], t, length)
  {
    Layout();
    var x, y := Gram(BODIES[0], s, length), Gram(BODIES[1], t, length);
    if s == 0 {
      assert x[0] == 65 && y[0] == BODIES[1][t];
    } else {
      var k := 10 - s;
      assert x[k] == BODIES[0][10] && y[k] == BODIES[1][t + k];
    }
  }

  /** The shared window does not lead its hash in body 1: the impostor does, or a window
      further left. */
  lemma SharedDoesNotLead()
    ensures !Leads(BODIES[1], 0, 21, SHARED)
  {
    Layout();
    ImpostorHash();
    SharedHash();
    forall t: nat | Leftmost(BODIES[1], 0, 21, 9, Hash(SHARED), t)
      ensures Gram(BODIES[1], t, 9) != SHARED
    {
      assert Window(BODIES[1], 0, 21, 1, 9);
      if t == 0 {
        assert Gram(BODIES[1], 0, 9)[0] == 67;
      }
    }
  }

  /** The search at length 9 misses the common window. */
  lemma CollisionHidesCommon()
    ensures RegionOk(BODIES, LO, HI) && HasCommon(BODIES, LO, HI, 9) && !Findable(BODIES, LO, HI, 9)
  {
    Layout();
    SharedIsCommon();
    SharedDoesNotLead();
    forall s: nat | Window(BODIES[0], 0, 11, s, 9)
      ensures !Leads(BODIES[1], 0, 21, Gram(BODIES[0], s, 9))
    {
      if s != 1 && Leads(BODIES[1], 0, 21, Gram(BODIES[0], s, 9)) {
        var gram := Gram(BODIES[0], s, 9);
        var t: nat :| Leftmost(BODIES[1], 0, 21, 9, Hash(gram), t) && Gram(BODIES[1], t, 9) == gram;
        EdgesAreUnique(s, t, 9);
      }
    }
  }

  lemma NothingLonger()
    ensures RegionOk(BODIES, LO, HI) && NoneFrom(BODIES, LO, HI, 10)
  {
    Layout();
    forall starts: seq<nat>
      ensures !Common(BODIES, LO, HI, starts, 10)
    {
      if Common(BODIES, LO, HI, starts, 10) {
        CommonAt(BODIES, LO, HI, starts, 10, 0);
        CommonAt(BODIES, LO, HI, starts, 10, 1);
        EdgesAreUnique(starts[0], starts[1], 10);
      }
    }
    NoneBeyond(BODIES, LO, HI, 10);
  }

  /** So the search does not return the longest common substring, which has length 9. */
  lemma CollisionHidesLongest()
    ensures RegionOk(BODIES, LO, HI) && Longest(BODIES, LO, HI, 9) && !PathFindable(BODIES, LO, HI, MIN_ANCHOR, 11, 9)
  {
    CollisionHidesCommon();
    NothingLonger();
    assert !PathFindable(BODIES, LO, HI, 8, 11, 9);
  }

  lemma ShortestHere(high: int)
    requires IsShortest(LO, HI, high)
    ensures high == 11
  {
    assert LO[0] + high <= HI[0] && LO[1] + high <= HI[1];
  }

  /** The search itself, on these bodies, does not return that length. */
  method MissesTheLongest() returns (starts: seq<nat>, length: nat)
    ensures length != 9
  {
    CollisionHidesLongest();
    ghost var longest, high;
    starts, length, longest, high := LongestCommonSubstring(BODIES, LO, HI);
    ShortestHere(high);
    HiddenIsMissed(BODIES, LO, HI, length, longest, high, 9);
  }

  /** A search whose path is blocked does not return the longest length. */
  lemma HiddenIsMissed(bodies: Bodies, lo: seq<nat>, hi: seq<nat>, length: nat, longest: nat, high: int, hidden: nat)
    requires RegionOk(bodies, lo, hi) && Longest(bodies, lo, hi, longest) && Longest(bodies, lo, hi, hidden)
    requires length == (if longest < MIN_ANCHOR then 0 else longest) <==>
             PathFindable(bodies, lo, hi, MIN_ANCHOR, high, longest)
    requires hidden >= MIN_ANCHOR && !PathFindable(bodies, lo, hi, MIN_ANCHOR, high, hidden)
    ensures length != hidden
  {
    assert longest == hidden;
  }
}
