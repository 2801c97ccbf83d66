# Drunk cats: a verified model of the simulation core

The drunk-cats program simulates cats on a map. Each cat's mood depends on how close its neighbours are: it is calm, it hisses, or it wants to fight. A C backend keeps the cats and classifies their moods. A Python/Qt frontend draws them and converts between coordinate systems. A companion uniform-grid particle demo builds a bucket index of particles by grid cell on the CPU.

This project models five parts of that system and proves properties of them. Each part is its own module.

- **`CatMood`** models the cat-mood engine of `backend/library.c`.
  - The class `Backend` holds the process-wide state: the cat array, the cat count, the map size and the fight radius.
  - `Init`, `UpdateState` and `Dispose` are the three lifecycle calls.
  - `PlaceCats`, `MoveCats` and `UpdateCatsMood` are loops over the array that work in place.
  - The nested mood loop is proved against the specification function `Reclassified`. Its `continue`, `break` and writes to both cats are kept.
  - Lemmas relate `Reclassified` to the properties the code's comments and structure promise.
- **`OpenGl`** models the flattening of OpenGL positions into a scaled `[x1, y1, ..., xn, yn]` array (`backend/utils-opengl.c`). The method fills a fresh array and is proved equal to the pure `PlainCoordinates`. A round-trip lemma shows that nothing is lost.
- **`DrunkCats`** models the two-radius classification contract of `drunk_cats_calculate_states`. Its C body is not part of this model, so the contract is written as a pure function. It is pinned by one lemma per fixture of `tests/test_drunk_cats_calculate_states.py`.
- **`UniformGrid`** models the CPU half of the grid demo (`another_test.py`):
  - the texture-size arithmetic;
  - the sort of the particle rows by cell;
  - the offsets loop, which records where each cell's run of rows begins.
- **`Canvas`** models the `CanvasState` record of `frontend/ui/canvas_state.py` and its `reset`.

Modelling conventions:

- Numbers are exact reals.
- The C test `hypot(dx, dy) <= r` is written as `r >= 0 && dx*dx + dy*dy <= r*r`.
- The random draws are oracle functions passed as parameters:
  - `rand` and `hissDraw` stand for the draws of `rand_ud`, from `backend/utils-random.c`. The draw is in [0, 1], and 0.0 in the test build.
  - `step` stands for `rand_d`, which is not part of this model.
- A draw is indexed by where it is taken:
  - `rand(2i)` and `rand(2i+1)` are the x and y draws for cat i;
  - `hissDraw(i, j)` is the draw for the pair scanned;
  - `step` uses the same index scheme as `rand`.
- The outcome of `calloc` is the parameter `allocOk`.

Three points about the code that shape the model:

- The hiss test in `library.c` is `rand_ud() <= 1.0 / dist * dist`. By precedence this is `(1/dist)*dist`, which is 1 whenever `dist` is nonzero. So in exact arithmetic a calm cat with any neighbour at a nonzero distance hisses, whatever the draw. A neighbour at distance zero makes the right-hand side `(1.0 / 0.0) * 0.0`, infinity times zero, which is NaN in C, so the test never passes.
- `library.c` has no hiss radius at all. This is why `CatMood` and `DrunkCats` are two different rules. `DrunkCats.LibraryRuleDiffers` exhibits one input on which they differ.
- `library.c` compares with an inclusive `<=` on plain Euclidean distance. No code in this model wraps distances around the map edges.

## Model

| member | source | states |
|---|---|---|
| `CatMood.Backend.constructor` | backend/library.c:10-14 | The static initialisers: there is no array, and the count, width, height and radius are all zero. |
| `CatMood.Backend.Init` | backend/library.c:30-50 | If the allocation fails, the result is null and the backend is unchanged. Otherwise the result is a fresh array that becomes the state. The count, width, height and radius are recorded, and the array holds exactly the placed cats, reclassified. |
| `CatMood.Backend.UpdateState` | backend/library.c:52-55 | The new array is the old one moved by one random step per coordinate, then reclassified with the stored fight radius. |
| `CatMood.Backend.Dispose` | backend/library.c:57-65 | The state pointer becomes null, and the count, width, height and fight radius become zero. |
| `CatMood.Backend.PlaceCats` | backend/library.c:70-76 | Cat k gets x = width * draw 2k and y = height * draw 2k+1. Its mood is unchanged. |
| `CatMood.Backend.MoveCats` | backend/library.c:78-84 | Each coordinate of each cat moves by `MAX_CAT_SPEED` (2.0) times its own draw. A null state is left alone. |
| `CatMood.Backend.UpdateCatsMood` | backend/library.c:86-117 | After the reset loop and the nested scan, with its continue, break and writes to both cats, the array equals `Reclassified` of the array before the call. The proof also shows that no write of the scan lowers a mood. The codes are ordered calm < hisses < wants to fight. Each of the four mood writes is preceded by a `Raised` obligation that the new code is at least the current one, and an inner-loop invariant keeps the array pointwise at least the array at the start of the current cat's scan. So a 2 is never downgraded, hissing never overwrites a 2 (the write to the other cat happens only when it is calm), and no write returns a cat to calm. |
| `CatMood.ReclassifiedWritesOnlyMoods` | backend/library.c:18-20 | A round keeps the count and every position. Every mood it writes is 0, 1 or 2. |
| `CatMood.PreviousMoodsIrrelevant` | backend/library.c:87-90 | Two arrays with the same positions give equal results, so moods from the previous round never matter. |
| `CatMood.WantsToFightIff` | backend/library.c:95-108 | A cat ends with mood 2 if and only if some other cat is at distance at most the fight radius (inclusive). |
| `CatMood.HissesOrCalmIff` | backend/library.c:109-114 | A cat ends hissing if and only if no other cat is within the fight radius and some other cat stands at a nonzero distance. It ends calm if and only if neither holds. |
| `CatMood.FightIsMutual` | backend/library.c:104-107 | Both cats of a close pair end with mood 2. |
| `CatMood.NoFightMeansHiss` | backend/library.c:109-114 | With at least two cats and a nonnegative fight radius, a cat with no cat within the fight radius ends with mood 1, whatever the draws in [0, 1], including the test build's 0.0. |
| `CatMood.LoneCatIsCalm` | backend/library.c:97-98 | A single cat has nobody to scan and ends with mood 0. |
| `CatMood.PlacedInsideMap` | backend/library.c:70-76 | For a nonnegative map size and draws in [0, 1], every placed cat lies in [0, width] x [0, height]. There are exactly `count` cats. |
| `OpenGl.PlainCoordinates` | backend/utils-opengl.c:13-14 | The flattened sequence has 2n entries. Slot 2i is `x_i * 0.5 * window_width * scale` and slot 2i+1 is `y_i * 0.5 * window_height * scale`, in input order. |
| `OpenGl.ConvertOpenGlToPlainCoordinates` | backend/utils-opengl.c:24-40 | The result is a fresh array equal to `PlainCoordinates` of the first `cat_count` positions. It has 2·cat_count slots, so zero cats gives an empty array. The positions array is only read. |
| `OpenGl.PlainCoordinatesRoundTrip` | backend/utils-opengl.c:7-22 | For positive window sizes and scale, reading slots 2i and 2i+1 back and dividing by the scale factors recovers every input position, in order. |
| `OpenGl.FixtureScaling` | backend/utils-opengl.c:35-36 | With a 20 x 20 window and scale 1.0, y = 0.2, 0.4, 0.6, 0.61 and 0.8 become 2, 4, 6, 6.1 and 8. |
| `DrunkCats.CalculateStates` | tests/test_drunk_cats_calculate_states.py:39-43 | One state per input cat. It requires the configured fight radius to be below the hiss radius. |
| `DrunkCats.StateMeaning` | tests/test_drunk_cats_calculate_states.py:57-84 | Each state, in both directions: 2 if and only if some other cat is within the fight radius; 1 if and only if none is but one is within the hiss radius; 0 if and only if none is within the hiss radius. |
| `DrunkCats.WithinWidens` | tests/test_drunk_cats_core.py:53-57 | With fight < hiss, a cat within the fight radius is also within the hiss radius. |
| `DrunkCats.StatesAreCodes` | tests/test_drunk_cats_calculate_states.py:79-83 | The states are index-aligned with the positions, and each is 0, 1 or 2. |
| `DrunkCats.FixturePlain` | tests/test_drunk_cats_calculate_states.py:6-8 | Fixture positions (0, y) scale to plain coordinates (0, 10y). |
| `DrunkCats.FixtureSingleCat` | tests/test_drunk_cats_calculate_states.py:37-44 | A single cat at the origin gives `[0]`. |
| `DrunkCats.FixtureTwoCatsNoInteraction` | tests/test_drunk_cats_calculate_states.py:47-54 | Two cats 8 apart give `[0, 0]`. |
| `DrunkCats.FixtureTwoCatsBothHiss` | tests/test_drunk_cats_calculate_states.py:57-64 | Two cats 4 apart give `[1, 1]`. |
| `DrunkCats.FixtureTwoCatsBothFight` | tests/test_drunk_cats_calculate_states.py:67-74 | Two cats 2 apart give `[2, 2]`. |
| `DrunkCats.FixtureThreeCats` | tests/test_drunk_cats_calculate_states.py:77-84 | Cats at 0, 2 and 6 give `[2, 2, 1]`. |
| `DrunkCats.FixtureFourCats` | tests/test_drunk_cats_calculate_states.py:87-94 | Cats at 0, 2, 6 and 6.1 give `[2, 2, 2, 2]`. |
| `DrunkCats.LibraryRuleDiffers` | backend/library.c:104-114 | For the fixture pair 8 apart, the `library.c` rule with fight radius 3 makes both cats hiss, while the two-radius classifier leaves both calm. |
| `UniformGrid.ParticleTextureHeight` | another_test.py:73-77 | The height is ⌈N/8192⌉: 8192·h ≥ N and 8192·(h−1) < N. |
| `UniformGrid.OffsetsTextureSize` | another_test.py:94-99 | The width is min(8192, W·H). The capacity is at least W·H and at most W·H + 8192, so at most one 8192-wide line is wasted. |
| `UniformGrid.MultipleOfLineWastesALine` | another_test.py:96-98 | For W·H = 16384, a multiple of 8192, the texture is 8192 x 3, so a whole line is wasted. |
| `UniformGrid.DemoTextureSizes` | another_test.py:29-30 | For N = 99999 on a 680 x 360 grid, the particle texture is 13 lines high and the offsets texture is 8192 x 30. |
| `UniformGrid.InsertByCell` | another_test.py:150 | Inserting into sorted rows keeps them sorted. It adds exactly the one row to the multiset. |
| `UniformGrid.SortByCell` | another_test.py:150-155 | The result is a permutation of the rows, as a multiset, in non-decreasing cell order. |
| `UniformGrid.Resize` | another_test.py:153-155 | `np.resize` to m rows gives exactly m rows. With no rows they are all zeros. Otherwise the original rows come first (when m is at least their number), and every later row repeats the row one period, the original length, earlier. |
| `UniformGrid.TextureRowsStartSorted` | another_test.py:150-155 | The first N rows written to the texture are a permutation of the particles, sorted by cell. |
| `UniformGrid.ComputeOffsets` | another_test.py:160-166 | The result is a fresh table of W·H entries. A cell that occurs holds the start index of its last run, taken over any row order. A cell that never occurs keeps 0xFFFFFFFF. |
| `UniformGrid.FirstIndex` | another_test.py:161-166 | The index of the first row of cell c: that row has cell c and no earlier row does. |
| `UniformGrid.SortedRowsSortedCells` | another_test.py:150-155 | Rows sorted by cell have a non-decreasing cell column. |
| `UniformGrid.SortedOffsetIsFirstIndex` | another_test.py:161-166 | On sorted cells, the entry the loop leaves for an occurring cell is its first index. Any other cell's entry is 0xFFFFFFFF. |
| `UniformGrid.SortedCellIsOneRun` | another_test.py:272-274 | On sorted cells, row k has cell c if and only if it lies in the unbroken run of c that starts at the first index. So the shader scan that stops at the first other cell sees every row of c. |
| `UniformGrid.SortedOffsets` | another_test.py:150-166 | For rows whose cells all lie in [0, W·H), the sort, resize and offsets loop together give each occurring cell the index of its first row in sorted order. Every other cell gets 0xFFFFFFFF. |
| `Canvas.ResetView` | frontend/ui/canvas_state.py:15-18 | Reset sets zoom to 1.0, pan to (0, 0) and the followed cat to none. Speed and follow radius keep their values. |
| `Canvas.ResetIdempotent` | frontend/ui/canvas_state.py:15-18 | Resetting twice equals resetting once. |
| `Canvas.DefaultIsReset` | frontend/ui/canvas_state.py:7-18 | Resetting a default state changes nothing. |
| `Canvas.ResetIsDefaultButSettings` | tests/unit_tests/test_front_canvas_state.py:17-36 | A reset state equals the defaults, except for the kept speed and follow radius. |
| `Canvas.CanvasState.Default` | frontend/ui/canvas_state.py:5-13 | The defaults: zoom 1.0, a fresh pan array (0, 0), no followed cat, speed 1.0 and follow radius 0.5. |
| `Canvas.CanvasState.constructor` | tests/unit_tests/test_front_canvas_state.py:19-25 | The record built with all five fields given holds exactly those values. The pan array is shared, not copied. |
| `Canvas.CanvasState.Reset` | frontend/ui/canvas_state.py:15-18 | The new state is `ResetView` of the old one, with a freshly allocated pan array. The previous pan array is not modified. |

## Left out

- Floating point:
  - `hypot` is modelled as exact distance comparisons.
  - The `float` `scale` parameter is modelled as a real.
  - The rounding of `1.0 / dist * dist` is not modelled. Under IEEE this product can fall one unit below 1.0, so a draw of exactly 1.0 could fail a hiss test that the exact model passes.
- `rand_ud` and `rand_d` become oracle parameters.
  - The range of `rand_d` is unknown because its source is not part of this model, so `move_cats` is an arbitrary step per coordinate.
  - The order in which the C code consumes draws is replaced by indexing the draws by cat and coordinate, or by scanned pair.
- Memory management:
  - `malloc`/`calloc`/`free` are modelled as fresh arrays and a dropped reference.
  - The failure of the unchecked `malloc` in `convert_opengl_to_plain_coordinates` is not modelled.
  - Only `backend_init` keeps an allocation-failure branch.
  - Use after `backend_dispose` is not modelled.
- The C body of `drunk_cats_calculate_states` and `drunk_cats_configure` is not part of this model:
  - `DrunkCats.CalculateStates` is a specification of the contract the fixtures pin down, not a model of any C body.
  - Validation of the radii is written as the precondition `fightRadius < hissRadius`.
  - Freeing the states is left out.
- DrunkCats.CalculateStates: the hiss boundary is inclusive (`<=`) by choice. `library.c` has no hiss comparison to follow, and no fixture places two cats exactly at the hiss radius, so an exclusive boundary would fit the fixtures equally well.
- Toroidal (wrap-around) distance is left out. No code that is part of this model implements it.
- `UniformGrid.SortByCell`:
  - Its contract leaves the order among rows of one cell open. The function itself is a stable insertion sort, while `np.argsort`'s default quicksort is not stable, so the model promises no tie order.
  - It is a pure function on `seq`. The source builds a new array by indexing the rows with argsort's result, and `np.resize` returns another new array.
- `UniformGrid.ComputeOffsets`:
  - The cell column is kept as integers. The source stores floats and truncates them with `int(...)`.
  - It requires at most 0xFFFFFFFF rows, so that a row index written into the `uint32` table can neither wrap nor equal the empty marker.
  - The final `np.resize` of the table to the texture shape is not modelled.
- The GLSL shaders of `another_test.py` (move, align, render and blend) are left out. From the move shader the model takes only the precondition that every cell lies in [0, W·H).
- The Qt/OpenGL user interface, the input handler, the worker thread, and the cffi and argument-parsing glue in `frontend/` are left out. So are the Bullet demo, the Kotlin proofs of concept and the stress tests. They are windowing, concurrency and process plumbing.
- `Canvas.CanvasState.Reset`: `numpy` arrays become `array<real>` of length 2, and `Optional[int]` becomes `Option<int>`. Python's dynamic typing of the fields is not modelled.
