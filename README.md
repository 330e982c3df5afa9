# Stains level editor: tool state machine and fillet arc cache

This project models two parts of the Stains level editor and proves properties of them in Dafny:

- **The editor screen** (`Stains/src/guis/EditorScreen.java`) lets the user build a map out of walls and fillets.
  - The cursor snaps to a 35-unit grid of 45 × 30 vertices.
  - Under SELECT and REMOVE, and under FILLET while picking tangents, each frame's scan highlights the wall with the lowest hit score, if that score is below 0.005. Under LINE and in the fillet radius phase the frame moves a preview instead.
  - A click does what the current tool says. SELECT does nothing. LINE draws chained walls. FILLET picks two tangent walls and then commits an arc. REMOVE deletes the highlighted wall by identity.
- **The fillet arc** (`Stains/src/guis/elements/Arc.java`) caches a polyline of chords that approximates a circular arc tangent to two walls.
  - Its tangent and distance setters mark the cache dirty. Setting the colour does not.
  - `render` regenerates the cache only when it is dirty.

Module layout:

- `Geometry` (`geometry.dfy`) holds the shared vocabulary: `Point`, `Color`, the `Segment` wall class, and `FloatGeometry`. `FloatGeometry` gathers the floating-point functions the editor calls but this model does not reproduce:
  - `findCorner`;
  - the hit-test score `intersectsPoint`;
  - vector length;
  - the trigonometry of the fillet: the radius and the circle point at each angular step. The first arc point `(x1, y1)` is the point at step 0, because Arc.java:91-92 and the first pass of the loop at Arc.java:100-101 evaluate the same expression at the same angle.

  These are passed in as given functions.
- `Fillet` (`fillet.dfy`) models `Arc`. `FilletShape` and `Sweep` say what a regeneration produces, and the method `EmitChords` is the chord loop proved against `Sweep`. The class `Arc` keeps the dirty flag `altered`, and its invariant `Valid()` states that:
  - the cache is always a connected polyline of at most 40 chords;
  - the cache matches the inputs whenever `altered` is false.
- `Editor` (`editor.dfy`) models `EditorScreen`:
  - grid snapping (`Grid`, `MouseGridX/Y`, `IsOnMap`);
  - the hit-test scan (`ScanWalls`);
  - identity-based removal (`RemoveFirst`);
  - the class `EditorScreen`. Its invariant `Valid()` says the two fillet phase flags are never both set, a phase that has picked tangents has them on the preview arc, and no wall is in the map twice. It also says the preview wall, the only wall the editor moves, is never in the map, never highlighted and never a tangent of the preview arc.

  Each click branch is specified by a two-state predicate over a `Session` snapshot of everything a click can change. The Java field `map` is called `walls`, because `map` is a Dafny keyword.

`grid` adds half an interval and then takes the floor, so a value exactly halfway between two multiples goes to the *larger* one: `Grid(-interval/2, interval) == 0`, as `GridHalfwayRoundsUp` proves. The comment at EditorScreen.java:181 is about flooring the negative quotient instead of truncating it, and the code does that. With the editor's odd grid size of 35, ties never happen: the snapped cursor is always within 17 units of the raw cursor.

## Model

| member | source | states |
|---|---|---|
| `Fillet.Truncate` | Stains/src/guis/elements/Arc.java:95 | Java's `(int)` cast rounds toward zero: the result is within one unit of its argument, below it for non-negative values and above it for negative ones |
| `Fillet.StepCount` | Stains/src/guis/elements/Arc.java:95 | `n = (int) min(radius/3, 40)`: never above 40. It is exactly 40 from radius 120 on, `3n <= radius < 3(n+1)` for radii in [0, 120), and truncation toward zero below 0. `n < 0` exactly when radius <= -3, in which case the loop emits nothing |
| `Fillet.Passes` | Stains/src/guis/elements/Arc.java:95-99 | The pass count of the loop `for (i = 0; i <= n; i++)` is never above 41. `EmitChords` ties the loop to exactly this many passes |
| `Fillet.Sweep` | Stains/src/guis/elements/Arc.java:91-108 | The chords emitted walking through the first `k` circle points of the sweep: at most `k - 1` of them, none for `k <= 1`, connected, none of zero length. The first starts at the point of step 0 and the last ends at the point of step `k - 1`. With no chords, the last point is the first |
| `Fillet.SweepEmpty` | Stains/src/guis/elements/Arc.java:99-108 | The sweep emits no chord exactly when every visited circle point equals the point of step 0 |
| `Fillet.EmitChords` | Stains/src/guis/elements/Arc.java:94-108 | The loop over `i = 0 .. n`, keeping the last emitted point and adding a chord whenever the new circle point differs from it, produces exactly `Sweep` over `Passes(radius)` points |
| `Fillet.FilletShape` | Stains/src/guis/elements/Arc.java:42-109 | Regeneration produces nothing exactly when a tangent is null or `findCorner` finds no corner. Otherwise it produces a connected polyline without zero-length chords. It has at most `n = (int) min(radius/3, 40)` chords, so never more than 40 and none when the radius is below 3. Its first chord starts at the first arc point, the circle point of step 0 |
| `Fillet.Arc.constructor` | Stains/src/guis/elements/Arc.java:24-35 | Stores the tangents, distance and colour and regenerates. Afterwards the arc is not dirty, and the radius stays 0 when a tangent is null or there is no corner |
| `Fillet.Arc.GenerateSegments` | Stains/src/guis/elements/Arc.java:42-109 | Always clears the chords first. With a null tangent or no corner it leaves them empty and the radius unchanged. Otherwise the chords and radius are those of `FilletShape` (at most 40 chords and at most `n`, connected, none of zero length) |
| `Fillet.Arc.Render` | Stains/src/guis/elements/Arc.java:111-118 | Regenerates only when `altered` is set, and leaves chords and radius alone otherwise. Afterwards `altered` is false and the cache matches the inputs. It draws exactly the cached chords |
| `Fillet.Arc.SetTangent1` | Stains/src/guis/elements/Arc.java:120-123 | Stores the tangent and sets `altered`. Nothing else changes, and the invariant is kept |
| `Fillet.Arc.SetTangent2` | Stains/src/guis/elements/Arc.java:129-132 | Stores the tangent and sets `altered`. Nothing else changes |
| `Fillet.Arc.SetDistance` | Stains/src/guis/elements/Arc.java:138-141 | Stores the distance and sets `altered`. Nothing else changes |
| `Fillet.Arc.SetColor` | Stains/src/guis/elements/Arc.java:151-153 | Changes the colour only. `altered` is untouched and the cache stays valid |
| `Fillet.Arc.SetColorRgba` | Stains/src/guis/elements/Arc.java:155-157 | Sets the colour from 0-255 channels. `altered` is untouched |
| `Editor.Grid` | Stains/src/guis/EditorScreen.java:180-182 | For a positive interval the result is a multiple of it, and `value - r` lies in `[-interval/2, interval/2)`: the nearest multiple, with ties going up |
| `Editor.GridUnique` | Stains/src/guis/EditorScreen.java:180-182 | Any multiple of the interval within that window is the snapped value, so the contract of `Grid` determines its result |
| `Editor.GridIdempotent` | Stains/src/guis/EditorScreen.java:180-182 | Snapping is idempotent: `Grid(Grid(v, i), i) == Grid(v, i)` |
| `Editor.GridHalfwayRoundsUp` | Stains/src/guis/EditorScreen.java:181 | With an even interval, `-interval/2` snaps to 0, not to `-interval` |
| `Editor.MouseGridX` | Stains/src/guis/EditorScreen.java:98-100 | The snapped x minus `GRID_OFFSET_X` is a multiple of `GRID_SIZE`, and it is within 17 units of the raw cursor |
| `Editor.MouseGridY` | Stains/src/guis/EditorScreen.java:102-104 | The snapped y minus `GRID_OFFSET_Y` is a multiple of `GRID_SIZE`, and it is within 17 units of the raw cursor |
| `Editor.MouseGridStable` | Stains/src/guis/EditorScreen.java:98-104 | Snapping an already snapped cursor leaves it in place |
| `Editor.IsOnMap` | Stains/src/guis/EditorScreen.java:241-245 | Holds exactly when the raw cursor is within half a cell of the grid (x in [33, 1607], y in [13, 1062]). When it holds, the snapped point is one of the 45 × 30 grid vertices |
| `Editor.SelectionUnique` | Stains/src/guis/EditorScreen.java:139-154 | The selection rule (below threshold, minimal score, earliest among minima) picks at most one wall |
| `Editor.ScanWalls` | Stains/src/guis/EditorScreen.java:142-149 | The argmin scan with strict `<` from 1.0. It finds no wall (best score 1.0) exactly when every score is at least 1.0. Otherwise it finds a wall scoring below 1.0 that is minimal and strictly better than every earlier wall |
| `Editor.RemoveFirst` | Stains/src/guis/EditorScreen.java:230 | `List.remove(Object)` under identity: drops the first occurrence of the wall, if any. The list shrinks by one exactly when the wall was in it, and exactly one copy of it leaves the list's contents. Order and the other properties are the `RemoveFirst*` lemmas |
| `Editor.RemoveFirstAbsent` | Stains/src/guis/EditorScreen.java:230 | Removing a wall that is not in the list leaves the list unchanged |
| `Editor.RemoveFirstAt` | Stains/src/guis/EditorScreen.java:230 | Removing by identity cuts out exactly the first occurrence and keeps the order of the rest |
| `Editor.RemoveFirstDistinct` | Stains/src/guis/EditorScreen.java:230 | In a list without repetitions, removal shortens the list by one when the wall is present, leaves no copy of it, and keeps the list without repetitions |
| `Editor.RemoveFirstSubset` | Stains/src/guis/EditorScreen.java:230 | Removal brings in no element that was not in the list |
| `Editor.EditorScreen.constructor` | Stains/src/guis/EditorScreen.java:44-89 | Starts in SELECT with the given geometry, empty walls and fillets, no pending point, both fillet flags false, and a clean preview arc with null tangents, distance 0 and colour (60, 60, 60, 255). The preview wall is the grey (127, 127, 127, 255) zero-length wall of width 3 at the origin, and the dot is at the origin. The invariant holds |
| `Editor.EditorScreen.ChooseLine` | Stains/src/guis/EditorScreen.java:48-52 | Switching to LINE clears `firstPointDown` |
| `Editor.EditorScreen.ChooseFillet` | Stains/src/guis/EditorScreen.java:53-56 | Switching to FILLET changes only the tool and keeps the fillet phase |
| `Editor.EditorScreen.ChooseRemove` | Stains/src/guis/EditorScreen.java:57-60 | Switching to REMOVE changes only the tool |
| `Editor.EditorScreen.TrySelect` | Stains/src/guis/EditorScreen.java:139-154 | The highlighted wall is null exactly when every score is at least 0.005 (an empty map included). Otherwise it is the wall in the map with minimal score below 0.005, the earliest such. It wears the highlight colour, the previous highlight gets its own colour back, and all other walls keep theirs |
| `Editor.EditorScreen.Update` | Stains/src/guis/EditorScreen.java:106-137 | In the radius phase it throws exactly when the tangents have no corner. When there is a corner, it updates the preview's distance only if the cursor's distance from the corner changed. LINE moves the preview wall's end or the dot to the snapped cursor. In these two cases the highlighted wall and every wall's colour stay as they were, including a highlighted wall already removed from the map. Every other case runs `TrySelect` with the tool's highlight colour |
| `Editor.EditorScreen.RadiusUpdate` | Stains/src/guis/EditorScreen.java:111-118 | Throws exactly when the tangents have no corner. With a corner, the preview's distance becomes the cursor's distance from it and the preview turns dirty, unless that distance is unchanged, in which case nothing changes |
| `Editor.EditorScreen.LineUpdate` | Stains/src/guis/EditorScreen.java:124-128 | With a start point down the preview wall's end point moves to the snapped cursor. Otherwise the dot moves there. Nothing else changes |
| `Editor.EditorScreen.HighlightUnderCursor` | Stains/src/guis/EditorScreen.java:119-135 | Runs `TrySelect` with the tool's colour: blue for FILLET, red for REMOVE, black otherwise |
| `Editor.EditorScreen.FilletClick` | Stains/src/guis/EditorScreen.java:188-208 | In the radius phase a left click appends exactly one fresh arc carrying the preview's tangents and distance, then resets both flags. The new arc is regenerated and not dirty, and its radius is 0 when its tangents have no corner. Otherwise a left click with no highlighted wall is a no-op. The first left click sets tangent 1, the second sets tangent 2 and enters the radius phase. A right click resets both flags and leaves the fillets alone. The two flags are never both set |
| `Editor.EditorScreen.LineClick` | Stains/src/guis/EditorScreen.java:209-224 | Clicking the pending point again changes nothing. Any other left click appends exactly one wall (pending point to click) when a point is pending and none otherwise, and the click becomes the pending point. A right click clears `firstPointDown` and leaves the walls alone |
| `Editor.EditorScreen.Place` | Stains/src/guis/EditorScreen.java:213-220 | A left click at a new point appends the wall from the pending point to the click when a point is pending, and nothing otherwise. The click becomes the pending point and the start of the preview wall |
| `Editor.EditorScreen.Anchor` | Stains/src/guis/EditorScreen.java:216-219 | The click becomes the pending point and the start point of the preview wall, and `firstPointDown` is set. Nothing else changes |
| `Editor.EditorScreen.AddWall` | Stains/src/guis/EditorScreen.java:214-215 | Appends one fresh committed wall from the pending point to the click, width 3 and colour (250, 250, 250, 255). That is also its own colour, which it gets back after a highlight. The earlier walls keep their order |
| `Editor.EditorScreen.RemoveClick` | Stains/src/guis/EditorScreen.java:225-233 | A left click removes the highlighted wall from the map by identity, after which it is no longer in the map. It does nothing when no wall is highlighted |
| `Editor.EditorScreen.HandleClick` | Stains/src/guis/EditorScreen.java:184-239 | Changes nothing when the cursor is off the map or the tool is SELECT. Otherwise the current tool's branch runs on the snapped cursor |

## Left out

- Floating point: the model uses exact reals. NaN, infinities and float rounding in the hit score and in the arc points are not modelled. This includes NaN points, which compare unequal and would produce a chord.
- The fillet trigonometry of `Arc.generateSegments` (Arc.java:52-92) is a given function (`FloatGeometry.fit`): angle normalisation, `badWrap`, the radius formula, the centre and the start angle. The same goes for the accumulated angle `a += da`, which appears as `Fit.step(i)`. The model therefore does not show that the arc is tangent to the walls or what its radius is.
- `Segment.findCorner`, `Segment.intersectsPoint`, `Segment.angleToward` and `Vector2f.length` are given functions.
- `Fillet.Arc.Valid`: the given functions take walls by reference, so they cannot see a wall's end points. In the source, `findCorner` and `intersectsPoint` depend on those end points. The invariant "the cache matches the inputs when not dirty" would therefore survive moving a tangent's end point, which the source does not promise. Within the editor this never happens. The only wall it moves is the preview wall, at EditorScreen.java:125 and :218. `EditorScreen.Valid()` keeps that wall out of the map, out of the highlight and out of the preview arc's tangents. Committed fillets take their tangents from the preview arc. `guis/Segment.java` is not part of this model. Only the state that the editor and the arc touch is modelled: end points, colour, and the default colour `resetColor` restores.
- Arc chords are values (`Chord(from, to)`), not `Segment` objects: the arc owns them and never compares them by identity. Their fixed width 3.0 and their colour are not stored. The source passes the arc's colour vector to each chord, and this model does not say whether a later `setColor` reaches existing chords.
- The getters of `Arc` (`getTangent1`, `getTangent2`, `getDistance`, `getRadius`) are plain field reads in the model.
- Rendering: the `render` bodies of the editor, the grid-line construction, the `Dot` preview object (kept only as its position `ghostDot`), cursors (`setMousePointer`), music (`switchTo`), `handleRelease`, `super.update()`, the radio-button and click-listener wiring, and the singleton `getInstance`.
- `Editor.EditorScreen.constructor`: the initial tool is SELECT as assigned at EditorScreen.java:47. Whether creating the radio buttons fires one of their callbacks depends on `RadioButton`, which is not part of this model.
- Integer overflow of Java `int` in `grid`, `mouseGridX/Y` and the cursor coordinates is not modelled. Cursor coordinates are screen-sized.
- `Stains/src/staindev/Game.java`, `Stains/src/constants/Textures.java`, `Stains/src/gl/IndexBuffer.java` and `Stains/src/entities/Player.java`: window setup, the render loop, texture loading, an OpenGL buffer wrapper, and player input. All of these are I/O outside the editor's logic.
