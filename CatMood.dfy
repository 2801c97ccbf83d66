/**
  The cat-mood engine of the C backend (backend/library.c).

  The backend keeps one process-wide array of cats, each with a position and
  a mood, together with the cat count, the map size and the fight radius.
  `Init` allocates and places the cats, `UpdateState` moves them and
  reclassifies their moods, `Dispose` frees and clears everything.

  Distances are exact: the C code compares `hypot(dx, dy) <= fight_radius`,
  which for real numbers is `r >= 0 && dx*dx + dy*dy <= r*r`.
  The random draws of `rand_ud` are oracle functions whose values lie in
  [0, 1]; `rand_d` (used by `move_cats`) is an oracle of unknown range.
 */
module CatMood {

  /** The three moods a cat can have after a classification round. */
  const Calm := 0
  const Hisses := 1
  const WantsToFight := 2

  /** Speed factor applied to every random step of `move_cats`. */
  const MaxCatSpeed: real := 2.0

  /** One element of the backend's cat array: a position and a mood code. */
  datatype Cat = Cat(x: real, y: real, mood: int)

  /** Squared Euclidean distance between two cats. */
  function Dist2(a: Cat, b: Cat): real
  {
    (a.x - b.x) * (a.x - b.x) + (a.y - b.y) * (a.y - b.y)
  }

  /** `hypot(a - b) <= r`, stated without a square root. */
  predicate Close(a: Cat, b: Cat, r: real)
  {
    r >= 0.0 && Dist2(a, b) <= r * r
  }

  /**
    The hiss test `rand_ud() <= 1.0 / dist * dist` evaluated in exact reals:
    by precedence the right-hand side is `(1.0 / dist) * dist`, which is 1
    for a nonzero distance; for distance zero it is infinity times zero, NaN
    in C, so the comparison is false.
   */
  predicate HissTest(draw: real, a: Cat, b: Cat)
  {
    Dist2(a, b) != 0.0 && draw <= 1.0
  }

  /** Some other cat is within the fight radius of cat `i`. */
  predicate HasFightNeighbour(cats: seq<Cat>, r: real, i: int)
    requires 0 <= i < |cats|
  {
    exists j :: 0 <= j < |cats| && j != i && Close(cats[i], cats[j], r)
  }

  /** Some other cat stands at a nonzero distance from cat `i`. */
  predicate HasDistinctNeighbour(cats: seq<Cat>, i: int)
    requires 0 <= i < |cats|
  {
    exists j :: 0 <= j < |cats| && j != i && Dist2(cats[i], cats[j]) != 0.0
  }

  /** The mood cat `i` ends a classification round with. */
  function MoodOf(cats: seq<Cat>, r: real, i: int): int
    requires 0 <= i < |cats|
  {
    if HasFightNeighbour(cats, r, i) then WantsToFight
    else if HasDistinctNeighbour(cats, i) then Hisses
    else Calm
  }

  /** The cat array after one classification round: positions kept, moods recomputed. */
  function Reclassified(cats: seq<Cat>, r: real): seq<Cat>
  {
    seq(|cats|, i requires 0 <= i < |cats| => cats[i].(mood := MoodOf(cats, r, i)))
  }

  /** The cat array right after `place_cats` on zero-initialised memory. */
  function Placed(count: nat, width: real, height: real, rand: nat -> real): seq<Cat>
  {
    seq(count, i requires 0 <= i < count => Cat(width * rand(2 * i), height * rand(2 * i + 1), Calm))
  }

  /** The cat array after `move_cats`: every coordinate takes one random step. */
  function Moved(cats: seq<Cat>, step: nat -> real): seq<Cat>
  {
    seq(|cats|, i requires 0 <= i < |cats| =>
      cats[i].(x := cats[i].x + MaxCatSpeed * step(2 * i), y := cats[i].y + MaxCatSpeed * step(2 * i + 1)))
  }

  /** Two cat arrays of equal length whose cats stand at the same places. */
  predicate SamePositions(s: seq<Cat>, t: seq<Cat>)
  {
    |s| == |t| && forall k :: 0 <= k < |s| ==> s[k].x == t[k].x && s[k].y == t[k].y
  }

  /** The process-wide state of library.c: the cat array and its parameters. */
  class Backend {
    var state: array?<Cat>
    var catCount: nat
    var mapWidth: real
    var mapHeight: real
    var fightRadius: real

    /** The array, when there is one, holds exactly `catCount` cats. */
    ghost predicate Valid()
      reads this
    {
      (state == null ==> catCount == 0) && (state != null ==> state.Length == catCount)
    }

    /** The static initialisers: no array, every parameter zero. */
    constructor ()
      ensures Valid()
      ensures state == null && catCount == 0
      ensures mapWidth == 0.0 && mapHeight == 0.0 && fightRadius == 0.0
    {
      state := null;
      catCount := 0;
      mapWidth := 0.0;
      mapHeight := 0.0;
      fightRadius := 0.0;
    }

    /**
      `backend_init`: allocate zeroed storage for `count` cats; when the
      allocation fails (`allocOk` false) nothing changes and null is returned;
      otherwise record the parameters, place the cats and compute their moods.
     */
    method Init(count: nat, width: real, height: real, radius: real, allocOk: bool,
                rand: nat -> real, hissDraw: (nat, nat) -> real)
      returns (p: array?<Cat>)
      requires Valid()
      requires forall i, j :: 0.0 <= hissDraw(i, j) <= 1.0
      modifies this
      ensures Valid()
      ensures !allocOk ==> p == null && unchanged(this)
      ensures allocOk ==> p != null && fresh(p) && state == p
      ensures allocOk ==> catCount == count && mapWidth == width && mapHeight == height && fightRadius == radius
      ensures allocOk ==> p[..] == Reclassified(Placed(count, width, height, rand), radius)
    {
      if !allocOk {
        return null;
      }
      var a := new Cat[count](_ => Cat(0.0, 0.0, Calm));
      state := a;
      catCount := count;
      mapWidth := width;
      mapHeight := height;
      fightRadius := radius;
      PlaceCats(rand);
      assert forall k :: 0 <= k < count ==> a[k] == Placed(count, width, height, rand)[k];
      assert a[..] == Placed(count, width, height, rand);
      UpdateCatsMood(hissDraw);
      p := a;
    }

    /** `backend_update_state`: move every cat, then reclassify. */
    method UpdateState(step: nat -> real, hissDraw: (nat, nat) -> real)
      requires Valid()
      requires forall i, j :: 0.0 <= hissDraw(i, j) <= 1.0
      modifies state
      ensures Valid()
      ensures state != null ==> state[..] == Reclassified(Moved(old(state[..]), step), fightRadius)
    {
      MoveCats(step);
      UpdateCatsMood(hissDraw);
    }

    /** `backend_dispose`: release the array and zero every parameter. */
    method Dispose()
      modifies this
      ensures Valid()
      ensures state == null && catCount == 0
      ensures mapWidth == 0.0 && mapHeight == 0.0 && fightRadius == 0.0
    {
      state := null;
      catCount := 0;
      mapWidth := 0.0;
      mapHeight := 0.0;
      fightRadius := 0.0;
    }

    /** `place_cats`: cat `i` goes to (width * rand(2i), height * rand(2i+1)). */
    method PlaceCats(rand: nat -> real)
      requires Valid() && state != null
      modifies state
      ensures forall k :: 0 <= k < catCount ==>
        state[k] == old(state[k]).(x := mapWidth * rand(2 * k), y := mapHeight * rand(2 * k + 1))
    {
      var a := state;
      for i := 0 to catCount
        invariant forall k :: 0 <= k < i ==>
          a[k] == old(a[k]).(x := mapWidth * rand(2 * k), y := mapHeight * rand(2 * k + 1))
        invariant forall k :: i <= k < catCount ==> a[k] == old(a[k])
      {
        a[i] := a[i].(x := mapWidth * rand(2 * i));
        a[i] := a[i].(y := mapHeight * rand(2 * i + 1));
      }
    }

    /** `move_cats`: each coordinate moves by `MaxCatSpeed` times a draw of `rand_d`. */
    method MoveCats(step: nat -> real)
      requires Valid()
      modifies state
      ensures state != null ==> state[..] == Moved(old(state[..]), step)
    {
      if state == null {
        return;
      }
      var a := state;
      for i := 0 to catCount
        invariant forall k :: 0 <= k < i ==>
          a[k] == old(a[k]).(x := old(a[k]).x + MaxCatSpeed * step(2 * k), y := old(a[k]).y + MaxCatSpeed * step(2 * k + 1))
        invariant forall k :: i <= k < catCount ==> a[k] == old(a[k])
      {
        a[i] := a[i].(x := a[i].x + MaxCatSpeed * step(2 * i));
        a[i] := a[i].(y := a[i].y + MaxCatSpeed * step(2 * i + 1));
      }
    }

    /**
      `update_cats_mood`: every mood is reset to calm, then each cat that does
      not already want to fight scans the other cats in index order. A close
      cat makes both of them want to fight and ends the scan; otherwise, while
      the scanning cat is still calm, a passed hiss test makes it hiss and
      makes the other cat hiss as well if that one is calm.
     */
    method UpdateCatsMood(hissDraw: (nat, nat) -> real)
      requires Valid()
      requires forall i, j :: 0.0 <= hissDraw(i, j) <= 1.0
      modifies state
      ensures state != null ==> state[..] == Reclassified(old(state[..]), fightRadius)
    {
      if state == null {
        return;
      }
      var a, n, r := state, catCount, fightRadius;
      ghost var orig := a[..];

      for i := 0 to n
        invariant forall k :: 0 <= k < i ==> a[k] == orig[k].(mood := Calm)
        invariant forall k :: i <= k < n ==> a[k] == orig[k]
      {
        a[i] := a[i].(mood := Calm);
      }
      ResetDone(orig, r, a[..]);

      for i := 0 to n
        invariant OuterInv(orig, r, a[..], i)
      {
        if a[i].mood == WantsToFight {
          SkipFighter(orig, r, a[..], i);
          continue;
        }
        ScanStart(orig, r, a[..], i);
        ghost var before := a[..];
        NeverLoweredRefl(before);
        for j := 0 to n
          invariant InnerInv(orig, r, a[..], i, j)
          invariant NeverLowered(before, a[..])
        {
          if i == j {
            ScanSelf(orig, r, a[..], i);
            continue;
          }
          PairFacts(a[i], a[j], orig[i], orig[j], r);
          if Close(a[i], a[j], r) {
            ScanFight(orig, r, a[..], i, j);
            Raised(before, a[..], i, WantsToFight);
            a[i] := a[i].(mood := WantsToFight);
            Raised(before, a[..], j, WantsToFight);
            a[j] := a[j].(mood := WantsToFight);
            break;
          }
          if a[i].mood == Calm && HissTest(hissDraw(i, j), a[i], a[j]) {
            ScanHiss(orig, r, a[..], i, j);
            Raised(before, a[..], i, Hisses);
            a[i] := a[i].(mood := Hisses);
            if a[j].mood == Calm {
              Raised(before, a[..], j, Hisses);
              a[j] := a[j].(mood := Hisses);
            }
          } else {
            ScanPass(orig, r, a[..], i, j, hissDraw(i, j));
          }
        }
        assert OuterInv(orig, r, a[..], i + 1) by {
          if InnerInv(orig, r, a[..], i, n) {
            ScanDone(orig, r, a[..], i);
          }
        }
      }
      ScanComplete(orig, r, a[..]);
    }
  }

  /**
    The loop invariant of `update_cats_mood`: a mood is a valid code, and a
    cat only wants to fight, or hisses, when its final mood allows it.
   */
  predicate MoodBelowSpec(cats: seq<Cat>, r: real, k: int, m: int)
    requires 0 <= k < |cats|
  {
    0 <= m <= 2
    && (m == WantsToFight ==> HasFightNeighbour(cats, r, k))
    && (m == Hisses ==> HasDistinctNeighbour(cats, k))
  }

  /** Distance only depends on positions, and is symmetric. */
  lemma PairFacts(p: Cat, q: Cat, p0: Cat, q0: Cat, r: real)
    requires p.x == p0.x && p.y == p0.y && q.x == q0.x && q.y == q0.y
    ensures Dist2(p, q) == Dist2(p0, q0) == Dist2(q0, p0)
    ensures Close(p, q, r) == Close(p0, q0, r) == Close(q0, p0, r)
  {
  }

  /** The invariant of the outer loop of `update_cats_mood` after `i` cats. */
  ghost predicate OuterInv(orig: seq<Cat>, r: real, s: seq<Cat>, i: int)
  {
    && SamePositions(orig, s)
    && 0 <= i <= |s|
    && (forall k :: 0 <= k < |s| ==> MoodBelowSpec(orig, r, k, s[k].mood))
    && (forall k :: 0 <= k < i ==> s[k].mood == MoodOf(orig, r, k))
  }

  /** The invariant of the scan of cat `i` after the other cats below `j`. */
  ghost predicate InnerInv(orig: seq<Cat>, r: real, s: seq<Cat>, i: int, j: int)
  {
    && OuterInv(orig, r, s, i)
    && 0 <= i < |s|
    && 0 <= j <= |s|
    && s[i].mood != WantsToFight
    && (forall k :: 0 <= k < j && k != i ==> !Close(orig[i], orig[k], r))
    && ((exists k :: 0 <= k < j && k != i && Dist2(orig[i], orig[k]) != 0.0) ==> s[i].mood == Hisses)
  }

  /**
    No mood of `s` is lower in `t`. The codes are ordered calm < hisses <
    wants to fight, so this says nothing was downgraded.
   */
  ghost predicate NeverLowered(s: seq<Cat>, t: seq<Cat>)
  {
    |s| == |t| && forall k :: 0 <= k < |s| ==> s[k].mood <= t[k].mood
  }

  lemma NeverLoweredRefl(s: seq<Cat>)
    ensures NeverLowered(s, s)
  {
  }

  /** Writing a mood no lower than the current one lowers nothing. */
  lemma Raised(before: seq<Cat>, s: seq<Cat>, k: int, m: int)
    requires NeverLowered(before, s) && 0 <= k < |s| && s[k].mood <= m
    ensures NeverLowered(before, s[k := s[k].(mood := m)])
  {
  }

  lemma ResetDone(orig: seq<Cat>, r: real, s: seq<Cat>)
    requires |s| == |orig|
    requires forall k :: 0 <= k < |s| ==> s[k] == orig[k].(mood := Calm)
    ensures OuterInv(orig, r, s, 0)
  {
  }

  lemma SkipFighter(orig: seq<Cat>, r: real, s: seq<Cat>, i: int)
    requires OuterInv(orig, r, s, i) && i < |s| && s[i].mood == WantsToFight
    ensures OuterInv(orig, r, s, i + 1)
  {
  }

  lemma ScanStart(orig: seq<Cat>, r: real, s: seq<Cat>, i: int)
    requires OuterInv(orig, r, s, i) && i < |s| && s[i].mood != WantsToFight
    ensures InnerInv(orig, r, s, i, 0)
  {
  }

  lemma ScanSelf(orig: seq<Cat>, r: real, s: seq<Cat>, i: int)
    requires InnerInv(orig, r, s, i, i)
    ensures InnerInv(orig, r, s, i, i + 1)
  {
  }

  lemma ScanFight(orig: seq<Cat>, r: real, s: seq<Cat>, i: int, j: int)
    requires InnerInv(orig, r, s, i, j) && j < |s| && j != i
    requires Close(orig[i], orig[j], r)
    ensures OuterInv(orig, r, s[i := s[i].(mood := WantsToFight)][j := s[j].(mood := WantsToFight)], i + 1)
  {
    CloseSymmetric(orig[i], orig[j], r);
    assert HasFightNeighbour(orig, r, i);
    assert HasFightNeighbour(orig, r, j);
  }

  lemma ScanHiss(orig: seq<Cat>, r: real, s: seq<Cat>, i: int, j: int)
    requires InnerInv(orig, r, s, i, j) && j < |s| && j != i
    requires !Close(orig[i], orig[j], r) && Dist2(orig[i], orig[j]) != 0.0
    ensures var s1 := s[i := s[i].(mood := Hisses)];
      InnerInv(orig, r, if s[j].mood == Calm then s1[j := s1[j].(mood := Hisses)] else s1, i, j + 1)
  {
    CloseSymmetric(orig[i], orig[j], r);
    assert HasDistinctNeighbour(orig, i);
    assert HasDistinctNeighbour(orig, j);
  }

  lemma ScanPass(orig: seq<Cat>, r: real, s: seq<Cat>, i: int, j: int, draw: real)
    requires InnerInv(orig, r, s, i, j) && j < |s| && j != i
    requires 0.0 <= draw <= 1.0
    requires !Close(orig[i], orig[j], r)
    requires !(s[i].mood == Calm && HissTest(draw, orig[i], orig[j]))
    ensures InnerInv(orig, r, s, i, j + 1)
  {
  }

  lemma ScanDone(orig: seq<Cat>, r: real, s: seq<Cat>, i: int)
    requires InnerInv(orig, r, s, i, |s|)
    ensures OuterInv(orig, r, s, i + 1)
  {
  }

  lemma ScanComplete(orig: seq<Cat>, r: real, s: seq<Cat>)
    requires OuterInv(orig, r, s, |s|)
    ensures s == Reclassified(orig, r)
  {
  }

  lemma CloseSymmetric(a: Cat, b: Cat, r: real)
    ensures Dist2(a, b) == Dist2(b, a)
    ensures Close(a, b, r) == Close(b, a, r)
  {
  }

  /** A round writes only moods, and every mood it writes is calm, hisses or wants to fight. */
  lemma ReclassifiedWritesOnlyMoods(cats: seq<Cat>, r: real)
    ensures SamePositions(cats, Reclassified(cats, r))
    ensures forall k :: 0 <= k < |cats| ==> Reclassified(cats, r)[k].mood in {Calm, Hisses, WantsToFight}
  {
  }

  /** Moods from the previous round never matter: only positions decide the new moods. */
  lemma {:induction false} PreviousMoodsIrrelevant(s: seq<Cat>, t: seq<Cat>, r: real)
    requires SamePositions(s, t)
    ensures Reclassified(s, r) == Reclassified(t, r)
  {
    forall i | 0 <= i < |s|
      ensures MoodOf(s, r, i) == MoodOf(t, r, i)
    {
      forall j | 0 <= j < |s|
        ensures Close(s[i], s[j], r) == Close(t[i], t[j], r)
        ensures Dist2(s[i], s[j]) == Dist2(t[i], t[j])
      {
        PairFacts(s[i], s[j], t[i], t[j], r);
      }
      assert HasFightNeighbour(s, r, i) == HasFightNeighbour(t, r, i);
      assert HasDistinctNeighbour(s, i) == HasDistinctNeighbour(t, i);
    }
    assert forall i :: 0 <= i < |s| ==> Reclassified(s, r)[i] == Reclassified(t, r)[i];
  }

  /** A cat ends wanting to fight exactly when some other cat is within the fight radius. */
  lemma WantsToFightIff(cats: seq<Cat>, r: real, i: int)
    requires 0 <= i < |cats|
    ensures Reclassified(cats, r)[i].mood == WantsToFight
      <==> exists j :: 0 <= j < |cats| && j != i && Close(cats[i], cats[j], r)
  {
  }

  /** A close pair both want to fight. */
  lemma {:induction false} FightIsMutual(cats: seq<Cat>, r: real, i: int, j: int)
    requires 0 <= i < |cats| && 0 <= j < |cats| && i != j
    requires Close(cats[i], cats[j], r)
    ensures Reclassified(cats, r)[i].mood == WantsToFight
    ensures Reclassified(cats, r)[j].mood == WantsToFight
  {
    CloseSymmetric(cats[i], cats[j], r);
    assert HasFightNeighbour(cats, r, j);
  }

  /**
    With at least two cats and a nonnegative radius, a cat with no other cat
    within the fight radius ends hissing: its first scanned neighbour passes
    the hiss test whatever the draw in [0, 1] (for the test build it is 0.0).
   */
  lemma {:induction false} NoFightMeansHiss(cats: seq<Cat>, r: real, i: int)
    requires 0 <= i < |cats| && |cats| >= 2 && r >= 0.0
    requires !HasFightNeighbour(cats, r, i)
    ensures Reclassified(cats, r)[i].mood == Hisses
  {
    var j := if i == 0 then 1 else 0;
    assert !Close(cats[i], cats[j], r);
    assert Dist2(cats[i], cats[j]) != 0.0;
  }

  /**
    The other two moods, in both directions: a cat hisses exactly when no
    other cat is within the fight radius but some other cat stands apart
    from it, and stays calm exactly when neither holds.
   */
  lemma HissesOrCalmIff(cats: seq<Cat>, r: real, i: int)
    requires 0 <= i < |cats|
    ensures Reclassified(cats, r)[i].mood == Hisses
      <==> !HasFightNeighbour(cats, r, i) && HasDistinctNeighbour(cats, i)
    ensures Reclassified(cats, r)[i].mood == Calm
      <==> !HasFightNeighbour(cats, r, i) && !HasDistinctNeighbour(cats, i)
  {
  }

  /** A lone cat stays calm. */
  lemma LoneCatIsCalm(cats: seq<Cat>, r: real)
    requires |cats| == 1
    ensures Reclassified(cats, r)[0].mood == Calm
  {
  }

  /** `place_cats` keeps every cat inside the map [0, width] x [0, height]. */
  lemma {:induction false} PlacedInsideMap(count: nat, width: real, height: real, rand: nat -> real)
    requires width >= 0.0 && height >= 0.0
    requires forall k :: 0.0 <= rand(k) <= 1.0
    ensures |Placed(count, width, height, rand)| == count
    ensures forall i :: 0 <= i < count ==>
      var c := Placed(count, width, height, rand)[i];
      0.0 <= c.x <= width && 0.0 <= c.y <= height
  {
    forall i | 0 <= i < count
      ensures var c := Placed(count, width, height, rand)[i];
        0.0 <= c.x <= width && 0.0 <= c.y <= height
    {
      PlacedCatInside(count, width, height, rand, i, rand(2 * i), rand(2 * i + 1));
    }
  }

  lemma PlacedCatInside(count: nat, width: real, height: real, rand: nat -> real, i: nat, dx: real, dy: real)
    requires width >= 0.0 && height >= 0.0 && i < count
    requires dx == rand(2 * i) && dy == rand(2 * i + 1)
    requires 0.0 <= dx <= 1.0 && 0.0 <= dy <= 1.0
    ensures var c := Placed(count, width, height, rand)[i];
      0.0 <= c.x <= width && 0.0 <= c.y <= height
  {
    assert Placed(count, width, height, rand)[i] == Cat(width * dx, height * dy, Calm);
    ScaledDrawInRange(width, dx);
    ScaledDrawInRange(height, dy);
  }

  lemma ScaledDrawInRange(extent: real, draw: real)
    requires extent >= 0.0 && 0.0 <= draw <= 1.0
    ensures 0.0 <= extent * draw <= extent
  {
    assert extent * draw <= extent * 1.0;
  }
}
