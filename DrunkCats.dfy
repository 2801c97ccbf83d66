/**
  The classification contract of `drunk_cats_calculate_states`, as the
  frontend calls it (frontend/core/core.py) and as its fixtures pin it down
  (tests/test_drunk_cats_calculate_states.py).

  The positions arrive in OpenGL coordinates and are first flattened and
  scaled (module OpenGl). Then every cat gets a state of its own:
  it fights when some other cat is within the fight radius, it hisses when
  none is but some other cat is within the hiss radius, and it is calm
  otherwise. The fight radius is inclusive, as the fight comparison in
  backend/library.c is; backend/library.c has no hiss comparison, and the
  inclusive hiss boundary here is a modelling choice that no fixture
  decides (none puts two cats exactly 5 apart). Distances are plain
  Euclidean distances on the scaled coordinates, with the backend's distance
  test `CatMood.Close`.
 */
module DrunkCats {
  import opened OpenGl
  import CatMood

  /** The state codes are the backend's mood codes: calm, hisses, fights. */
  const Calm := CatMood.Calm
  const Hisses := CatMood.Hisses
  const Fights := CatMood.WantsToFight

  /** Cat i of a flattened coordinate array, read from slots 2i and 2i+1. */
  function CatAt(flat: seq<real>, i: int): CatMood.Cat
    requires 0 <= i && 2 * i + 1 < |flat|
  {
    CatMood.Cat(flat[2 * i], flat[2 * i + 1], Calm)
  }

  /** Cats i and j are at most `radius` apart: the backend's distance test. */
  predicate Within(flat: seq<real>, i: int, j: int, radius: real)
    requires 0 <= i && 2 * i + 1 < |flat| && 0 <= j && 2 * j + 1 < |flat|
  {
    CatMood.Close(CatAt(flat, i), CatAt(flat, j), radius)
  }

  /** Some cat other than i is at most `radius` away from cat i. */
  predicate NeighbourWithin(flat: seq<real>, i: int, radius: real)
    requires |flat| % 2 == 0 && 0 <= i < |flat| / 2
  {
    exists j :: 0 <= j < |flat| / 2 && j != i && Within(flat, i, j, radius)
  }

  /** The state of cat i. */
  function StateOf(flat: seq<real>, fightRadius: real, hissRadius: real, i: int): int
    requires |flat| % 2 == 0 && 0 <= i < |flat| / 2
  {
    if NeighbourWithin(flat, i, fightRadius) then Fights
    else if NeighbourWithin(flat, i, hissRadius) then Hisses
    else Calm
  }

  /** One state per cat of a flattened coordinate array. */
  function ClassifyPlain(flat: seq<real>, fightRadius: real, hissRadius: real): (states: seq<int>)
    requires |flat| % 2 == 0
  {
    seq(|flat| / 2, i requires 0 <= i < |flat| / 2 => StateOf(flat, fightRadius, hissRadius, i))
  }

  /**
    `drunk_cats_calculate_states` with the radii set by `drunk_cats_configure`:
    the callers must configure a fight radius below the hiss radius.
   */
  function CalculateStates(positions: seq<OpenGlPosition>, windowWidth: nat, windowHeight: nat, scale: real,
                           fightRadius: real, hissRadius: real): (states: seq<int>)
    requires fightRadius < hissRadius
    ensures |states| == |positions|
  {
    ClassifyPlain(PlainCoordinates(positions, windowWidth, windowHeight, scale), fightRadius, hissRadius)
  }

  /**
    What a state means, in both directions: `Fights` exactly when some other
    cat is within the fight radius; `Hisses` exactly when none is but one is
    within the hiss radius; `Calm` exactly when no other cat is within the
    hiss radius.
   */
  lemma {:induction false} StateMeaning(flat: seq<real>, fightRadius: real, hissRadius: real, i: int)
    requires |flat| % 2 == 0 && 0 <= i < |flat| / 2
    requires fightRadius < hissRadius
    ensures var s := ClassifyPlain(flat, fightRadius, hissRadius)[i];
      && (s == Fights <==> NeighbourWithin(flat, i, fightRadius))
      && (s == Hisses <==> !NeighbourWithin(flat, i, fightRadius) && NeighbourWithin(flat, i, hissRadius))
      && (s == Calm <==> !NeighbourWithin(flat, i, hissRadius))
  {
    if NeighbourWithin(flat, i, fightRadius) {
      var j :| 0 <= j < |flat| / 2 && j != i && Within(flat, i, j, fightRadius);
      WithinWidens(flat, i, j, fightRadius, hissRadius);
    }
  }

  /** A cat within the fight radius is also within the larger hiss radius. */
  lemma WithinWidens(flat: seq<real>, i: int, j: int, small: real, large: real)
    requires 0 <= i && 2 * i + 1 < |flat| && 0 <= j && 2 * j + 1 < |flat|
    requires small < large && Within(flat, i, j, small)
    ensures Within(flat, i, j, large)
  {
    assert small * small <= large * large by {
      assert 0.0 <= small;
      assert small * small <= small * large;
      assert small * large <= large * large;
    }
  }

  /** Every state is a valid code, one per cat, in input order. */
  lemma StatesAreCodes(positions: seq<OpenGlPosition>, windowWidth: nat, windowHeight: nat, scale: real,
                       fightRadius: real, hissRadius: real)
    requires fightRadius < hissRadius
    ensures var states := CalculateStates(positions, windowWidth, windowHeight, scale, fightRadius, hissRadius);
      |states| == |positions| && forall i :: 0 <= i < |states| ==> states[i] in {Calm, Hisses, Fights}
  {
  }

  // The fixtures: window 20 x 20, scale 1.0, fight radius 3.0, hiss radius 5.0.

  /** Classification of the fixture positions `(0, y)` once scaled by 10. */
  function Fixture(ys: seq<real>): seq<int>
  {
    CalculateStates(seq(|ys|, i requires 0 <= i < |ys| => OpenGlPosition(0.0, ys[i])), 20, 20, 1.0, 3.0, 5.0)
  }

  /** The fixture positions after scaling: y becomes 10 y. */
  lemma {:induction false} FixturePlain(ys: seq<real>)
    ensures PlainCoordinates(seq(|ys|, i requires 0 <= i < |ys| => OpenGlPosition(0.0, ys[i])), 20, 20, 1.0)
         == seq(2 * |ys|, k requires 0 <= k < 2 * |ys| => if k % 2 == 0 then 0.0 else 10.0 * ys[k / 2])
  {
    var ps := seq(|ys|, i requires 0 <= i < |ys| => OpenGlPosition(0.0, ys[i]));
    var flat := PlainCoordinates(ps, 20, 20, 1.0);
    forall k | 0 <= k < 2 * |ys|
      ensures flat[k] == if k % 2 == 0 then 0.0 else 10.0 * ys[k / 2]
    {
      var i := k / 2;
      assert ps[i] == OpenGlPosition(0.0, ys[i]);
      if k % 2 == 0 {
        assert k == 2 * i;
      } else {
        assert k == 2 * i + 1;
      }
    }
  }

  /** A fixture classified directly on its scaled coordinates. */
  lemma FixtureFlat(ys: seq<real>, flat: seq<real>)
    requires |flat| == 2 * |ys|
    requires forall k :: 0 <= k < |flat| ==> flat[k] == if k % 2 == 0 then 0.0 else 10.0 * ys[k / 2]
    ensures Fixture(ys) == ClassifyPlain(flat, 3.0, 5.0)
  {
    FixturePlain(ys);
    var ps := seq(|ys|, i requires 0 <= i < |ys| => OpenGlPosition(0.0, ys[i]));
    var scaled := PlainCoordinates(ps, 20, 20, 1.0);
    assert forall k :: 0 <= k < |flat| ==> scaled[k] == flat[k];
    assert scaled == flat;
  }

  /** A single cat at (0, 0) is calm. */
  lemma FixtureSingleCat()
    ensures Fixture([0.0]) == [Calm]
  {
    var flat := [0.0, 0.0];
    FixtureFlat([0.0], flat);
    assert !NeighbourWithin(flat, 0, 5.0);
  }

  /** Two cats 8 units apart, beyond the hiss radius, are both calm. */
  lemma FixtureTwoCatsNoInteraction()
    ensures Fixture([0.0, 0.8]) == [Calm, Calm]
  {
    var flat := [0.0, 0.0, 0.0, 8.0];
    FixtureFlat([0.0, 0.8], flat);
    assert !Within(flat, 0, 1, 5.0) && !Within(flat, 1, 0, 5.0);
    assert !NeighbourWithin(flat, 0, 5.0) && !NeighbourWithin(flat, 1, 5.0);
    assert !NeighbourWithin(flat, 0, 3.0) && !NeighbourWithin(flat, 1, 3.0);
  }

  /** Two cats 4 units apart, between the two radii, both hiss. */
  lemma FixtureTwoCatsBothHiss()
    ensures Fixture([0.0, 0.4]) == [Hisses, Hisses]
  {
    var flat := [0.0, 0.0, 0.0, 4.0];
    FixtureFlat([0.0, 0.4], flat);
    assert !NeighbourWithin(flat, 0, 3.0) && !NeighbourWithin(flat, 1, 3.0);
    assert Within(flat, 0, 1, 5.0) && Within(flat, 1, 0, 5.0);
  }

  /** Two cats 2 units apart, within the fight radius, both fight. */
  lemma FixtureTwoCatsBothFight()
    ensures Fixture([0.0, 0.2]) == [Fights, Fights]
  {
    var flat := [0.0, 0.0, 0.0, 2.0];
    FixtureFlat([0.0, 0.2], flat);
    assert Within(flat, 0, 1, 3.0) && Within(flat, 1, 0, 3.0);
  }

  /** Cats at 0, 2 and 6: the first two fight, the third is 4 from its nearest neighbour and hisses. */
  lemma FixtureThreeCats()
    ensures Fixture([0.0, 0.2, 0.6]) == [Fights, Fights, Hisses]
  {
    var flat := [0.0, 0.0, 0.0, 2.0, 0.0, 6.0];
    FixtureFlat([0.0, 0.2, 0.6], flat);
    assert Within(flat, 0, 1, 3.0) && Within(flat, 1, 0, 3.0);
    assert !Within(flat, 2, 0, 3.0) && !Within(flat, 2, 1, 3.0);
    assert !NeighbourWithin(flat, 2, 3.0);
    assert Within(flat, 2, 1, 5.0);
  }

  /** Cats at 0, 2, 6 and 6.1: every cat has some cat within the fight radius, so all fight. */
  lemma FixtureFourCats()
    ensures Fixture([0.0, 0.2, 0.6, 0.61]) == [Fights, Fights, Fights, Fights]
  {
    var flat := [0.0, 0.0, 0.0, 2.0, 0.0, 6.0, 0.0, 6.1];
    FixtureFlat([0.0, 0.2, 0.6, 0.61], flat);
    assert Within(flat, 0, 1, 3.0) && Within(flat, 1, 0, 3.0);
    assert Within(flat, 2, 3, 3.0) && Within(flat, 3, 2, 3.0);
  }

  /** No cats, no states. */
  lemma FixtureNoCats()
    ensures Fixture([]) == []
  {
  }

  /**
    The two rules differ: for the fixture pair 8 units apart, the scan of
    backend/library.c (fight radius 3, no hiss radius) makes both cats hiss,
    where the classifier leaves both calm.
   */
  lemma LibraryRuleDiffers()
    ensures var moods := CatMood.Reclassified([CatMood.Cat(0.0, 0.0, 0), CatMood.Cat(0.0, 8.0, 0)], 3.0);
      moods[0].mood == CatMood.Hisses && moods[1].mood == CatMood.Hisses
    ensures Fixture([0.0, 0.8]) == [Calm, Calm]
  {
    var cats := [CatMood.Cat(0.0, 0.0, 0), CatMood.Cat(0.0, 8.0, 0)];
    CatMood.NoFightMeansHiss(cats, 3.0, 0);
    CatMood.NoFightMeansHiss(cats, 3.0, 1);
    FixtureTwoCatsNoInteraction();
  }
}
