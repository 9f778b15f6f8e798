# Projections demo: view state and barrel geometry in Dafny

`projections.c` is a small GLUT/OpenGL demo that draws four barrel-shaped
solids. The user rotates the view with the arrow keys and can toggle
perspective or orthogonal projection and the axes. The user can also change
the field of view and zoom with PageUp/PageDown or the scroll wheel.

This project models two parts of that program:

- **The view-state machine.** The globals `th` (azimuth), `ph`
  (elevation), `fov`, `mode`, `axes`, `left_click_down` and `dim` are the
  fields of the class `ViewInput.ViewState`. The GLUT callbacks `special`,
  `key`, `mouse` and `motionmouse` are its methods, and they update those
  fields in place. Each method is proved to follow a pure step function on
  the integer part of the state (`ViewInput.View`). The lemmas in
  `ViewProperties` state what those step functions promise.
- **The barrel command stream.** `BarrelTrace.Barrel` runs the loops of
  `barrel` and appends one record per GL call to a trace. The records are
  glPushMatrix, glBegin, glColor3f, glVertex3f, glEnd and glPopMatrix. The
  two cap loops share one shape and the three side loops another, so
  `Barrel` runs them through the methods `EmitFan` and `EmitBand`, each the
  source's loop appending to the trace. `Barrel` is proved to produce
  `BarrelSpec()`, a declarative description of the stream. A vertex is
  recorded as its angle `15*i` in degrees, its radius factor (0, 1 or
  1.25) and its height (-1, -0.5, 0.5 or 1), all exact. `BarrelProperties`
  counts the stream and shows that neighbouring rings meet. `BarrelGL`
  shows what OpenGL's glBegin/glEnd rules make of the stream.

Some points where C semantics matter:

- `th %= 360; ph %= 360` is C's truncating remainder, whose sign follows
  the dividend. `CArith.CRem` models it, because Dafny's own `%` is
  Euclidean. Repeated Left presses from 0 therefore give 0, -5, …, -355, 0.
- The guards on `'-'` and `'+'` compare the key code `ch` with 1 and 179,
  not `fov`. They always hold, so `fov` moves by exactly one per press and
  has no bound: `ViewProperties.FovLeavesOneTo179` reaches 180 and 0 from
  the start value 55.
- PageDown and wheel-down test `dim>1` before they subtract 0.1; PageUp
  and wheel-up add 0.1 unconditionally.
- Only `special` wraps the angles. `mouse` and `motionmouse` store `th`
  without `% 360` (projections.c:296 and :312), so `th` can leave
  (-360, 360): `ViewProperties.MouseLeavesRange` shows a left-button press
  doing so and the next `special` call folding it back. The properties stated for an
  in-range view (`ArrowMovesOneAngle`, `SpecialOtherKeyIdle`, `RightRun`,
  `LeftRun`) therefore hold only from such views. `KeysKeepRange` shows that
  `special` and `key` keep a view in range, and `SpecialRunInRange` that one
  special key brings any view back into range.
- The `for` line at projections.c:109 has no braces. Line 110 holds only
  the comment `//side 1`, so the loop's body is the
  `glBegin(GL_QUAD_STRIP)` at line 111, and the stream holds 25
  `glBegin(GL_QUAD_STRIP)` calls in a row before side 1. Inside a
  glBegin/glEnd pair OpenGL rejects a further glBegin with
  GL_INVALID_OPERATION and ignores it. `BarrelGL.ExtraBeginsRejected` shows
  that GL rejects exactly 24 commands and acts on the same stream as the
  single-glBegin version.

## Model

| member | source | states |
|---|---|---|
| `CArith.CRem` | projections.c:238-239 | C's `%` for a positive divisor: `CQuot(a,m)*m + r == a`, `-m < r < m`, and `r` never has the opposite sign of `a` |
| `CArith.CQuot` | projections.c:238-239 | C's `/` truncates toward zero: the quotient has the sign of the dividend |
| `CArith.CRemOfSmall` | projections.c:238-239 | wrapping an angle already in (-360, 360) with `% 360` leaves it unchanged |
| `CArith.CRemAddSameSign` | projections.c:238-239 | adding a same-signed amount to a wrapped angle and wrapping again equals wrapping the plain sum |
| `CArith.Trunc` | projections.c:296 | a `double` converted to `int` drops its fraction toward zero: it is the nearest integer on the zero side |
| `ViewInput.ArrowDelta` | projections.c:219-230 | an arrow key moves at most one of the two angles |
| `ViewInput.SpecialStep` | projections.c:217-239 | after `special` both angles lie strictly between -360 and 360; `fov`, `mode`, `axes` and `left_click_down` are untouched |
| `ViewInput.KeyStep` | projections.c:249-267 | `key` ends the program exactly on ESC; otherwise `left_click_down` is untouched |
| `ViewInput.MouseStep` | projections.c:274-298 | `mouse` changes only `left_click_down` and `th`; `ph`, `fov`, `mode` and `axes` are untouched |
| `ViewInput.MotionStep` | projections.c:305-314 | `motionmouse` changes only `th`, and only while the left button is held |
| `ViewInput.ViewState.constructor` | projections.c:27-37 | the globals start as `th=ph=0`, `fov=55`, `mode=axes=0`, `left_click_down=0` and `dim=5` |
| `ViewInput.ViewState.Special` | projections.c:217-244 | the handler follows `SpecialStep` and leaves both angles in (-360, 360); PageUp raises `dim`; PageDown lowers it exactly when it exceeded 1; any other key leaves it unchanged |
| `ViewInput.ViewState.Key` | projections.c:249-272 | ESC is reported as an exit and changes nothing; every other key follows `KeyStep`; `dim` is untouched |
| `ViewInput.ViewState.Mouse` | projections.c:274-303 | the handler follows `MouseStep`; wheel-up raises `dim`; wheel-down lowers it exactly when it exceeded 1; other buttons leave it unchanged |
| `ViewInput.ViewState.Motion` | projections.c:305-320 | the handler follows `MotionStep` and leaves `dim` untouched |
| `ViewProperties.ArrowMovesOneAngle` | projections.c:219-239 | from an in-range view, Right/Left change only `th` and Up/Down only `ph`, by exactly ±5, where a sum of 360 or more loses 360 and one of -360 or less gains 360 (for the multiples of 5 the keys alone reach: 360 becomes 0, -360 becomes 0) |
| `ViewProperties.SpecialOtherKeyIdle` | projections.c:231-239 | any special key other than the four arrows, PageUp and PageDown included, leaves an in-range view unchanged |
| `ViewProperties.SpecialRunInRange` | projections.c:237-239 | after any non-empty run of special keys, from any view, both angles lie in (-360, 360) |
| `ViewProperties.RightRun` | projections.c:219-239 | `n` Right presses from any in-range view leave `th == CRem(th + 5n, 360)` and everything else, `ph` included, unchanged |
| `ViewProperties.LeftRun` | projections.c:222-239 | `n` Left presses from any in-range view leave `th == CRem(th - 5n, 360)` and everything else unchanged; from a non-positive `th` the result is never positive |
| `ViewProperties.KeysKeepRange` | projections.c:217-267 | from an in-range view, `special` and every non-exiting `key` leave both angles in (-360, 360) |
| `ViewProperties.MouseLeavesRange` | projections.c:284-312 | pressing the left button at `th=300` with a 90-degree offset gives `th=390`, outside the range; a wheel event while the button is held does the same, and `motionmouse` can store 400; a later PageUp wraps 390 back to 30 |
| `ViewProperties.ResetAngles` | projections.c:255-256 | '0' sets both angles to 0 and changes nothing else |
| `ViewProperties.TogglesAreInvolutions` | projections.c:257-262 | 'a'/'A' and 'm'/'M' replace `axes`/`mode` by `1 - x`; a value in {0,1} stays in {0,1}; the same key twice restores the view |
| `ViewProperties.FovKeysNeverBlocked` | projections.c:263-267 | '+' adds 1 to `fov` and '-' subtracts 1 on every press, from every view |
| `ViewProperties.PlusRun` | projections.c:266-267 | `n` presses of '+' raise `fov` by exactly `n` |
| `ViewProperties.MinusRun` | projections.c:264-265 | `n` presses of '-' lower `fov` by exactly `n` |
| `ViewProperties.FovLeavesOneTo179` | projections.c:263-267 | from the start value 55, 125 presses of '+' give 180 and 55 presses of '-' give 0 |
| `ViewProperties.OtherKeyIdle` | projections.c:249-272 | a key that is none of ESC, '0', 'a', 'A', 'm', 'M', '+' and '-' changes nothing |
| `ViewProperties.MouseButtons` | projections.c:284-298 | left button down sets `left_click_down` to 1; up sets it to 0 and leaves `th` alone; wheel buttons 3 and 4 never change it; `th` moves only while the button is held |
| `BarrelTrace.Rim` | projections.c:104-107 | a ring is 25 vertices, `i = 0..24` inclusive; vertex `i` sits at angle `15*i` on the given radius and height |
| `BarrelTrace.Fan` | projections.c:100-108 | a cap is glBegin(GL_TRIANGLE_FAN), white, the centre at height y, the 25 rim vertices of radius 1 at height y from 0 to 360 degrees, glEnd: 29 commands |
| `BarrelTrace.Band` | projections.c:112-118 | one side's loop emits 75 commands, three for each of the 25 steps |
| `BarrelProperties.BandSteps` | projections.c:112-118 | step `i` of a band is ramp colour `i`, then the vertex at `15*i` on the lower ring, then the one on the upper ring |
| `BarrelTrace.Side1` | projections.c:112-118 | side 1's strip starts with ramp colour 0 and the pair at 0 degrees on radius 1 at y=-1 and radius 1.25 at y=-0.5, and ends with ramp colour 24 and the same pair at 360 degrees |
| `BarrelTrace.Side2` | projections.c:122-128 | side 2's strip runs on radius 1.25 from y=-0.5 to y=0.5, from ramp colour 0 and angle 0 to ramp colour 24 and angle 360 |
| `BarrelTrace.Side3` | projections.c:132-138 | side 3's strip runs from radius 1.25 at y=0.5 to radius 1 at y=1, from ramp colour 0 and angle 0 to ramp colour 24 and angle 360 |
| `BarrelTrace.BarrelSpec` | projections.c:94-149 | the stream as written is 315 commands long, opened by glPushMatrix and closed by glPopMatrix |
| `BarrelTrace.BarrelIntended` | projections.c:109-111 | with one glBegin before side 1 the stream is 291 commands long, still opened by glPushMatrix and closed by glPopMatrix |
| `BarrelTrace.BandPrefix` | projections.c:112-118 | each band step appends its ramp colour, then the lower-ring vertex, then the upper-ring vertex at angle `15*i` |
| `BarrelTrace.EmitFan` | projections.c:100-108 | a cap's commands, its rim loop included, append exactly `Fan(y)` to the trace |
| `BarrelTrace.EmitBand` | projections.c:112-118 | a side's loop appends exactly that side's band to the trace |
| `BarrelTrace.Barrel` | projections.c:86-150 | the loops emit exactly the stream `BarrelSpec()` |
| `BarrelProperties.NumFan` | projections.c:100-108 | a cap holds one triangle-fan glBegin, one glEnd, one colour and 26 vertices: the centre and 25 on the rim |
| `BarrelProperties.NumRepeat` | projections.c:109-111 | the loop without braces issues its glBegin `n` = 25 times and nothing else |
| `BarrelProperties.NumBand` | projections.c:112-118 | each side body holds 25 colours and 50 vertices, that is 25 vertex pairs |
| `BarrelProperties.NumSides` | projections.c:109-139 | the three sides after the repeated glBegin add 2 glBegin(GL_QUAD_STRIP), 3 glEnd, 75 colours and 150 vertices |
| `BarrelProperties.NumBarrel` | projections.c:86-150 | the whole stream holds, per sort of command: 1 push, 1 pop, 2 fans, 27 strips, 5 ends, 77 colours and 202 vertices |
| `BarrelProperties.BarrelCounts` | projections.c:94-149 | push and pop are balanced (one each); 29 glBegin face only 5 glEnd |
| `BarrelProperties.RimCloses` | projections.c:104-107 | a ring starts at angle 0 and ends at 360, so it closes |
| `BarrelProperties.SidesJoin` | projections.c:104-147 | side 1 joins radius 1 at y=-1 (the bottom rim) to radius 1.25 at y=-0.5; side 2 keeps 1.25 up to y=0.5; side 3 returns to radius 1 at y=1 (the top rim) |
| `BarrelProperties.BarrelLayout` | projections.c:94-149 | the 315 commands in order: push, bottom cap, 25 glBegin, side 1, glEnd, side 2, side 3, top cap, pop |
| `BarrelGL.Exec` | projections.c:100-148 | GL acts on or rejects every command: kept plus rejected is the whole stream |
| `BarrelGL.ExecAppend` | projections.c:94-149 | GL processes a concatenation piece by piece |
| `BarrelGL.ExecRepeatedBegin` | projections.c:109-111 | of the 25 glBegin calls in a row, GL acts on the first and rejects the other 24 |
| `BarrelGL.ExecFan` | projections.c:100-108 | a cap is a clean glBegin/glEnd pair |
| `BarrelGL.ExecSides` | projections.c:112-139 | the three sides close every pair they open and are accepted in full |
| `BarrelGL.IntendedIsClean` | projections.c:94-149 | with one glBegin before side 1 the stream has no GL errors and ends outside any pair |
| `BarrelGL.ExtraBeginsRejected` | projections.c:109-119 | the stream as written causes exactly 24 GL errors, and GL acts on exactly the single-glBegin stream |

## Left out

- ViewInput.ViewState.Special: `dim` is a real number here, stepped by exactly 0.1. The contract states only the direction of each change and the `dim>1` guard, because the source does this in floating point.
- ViewInput.ViewState.Mouse: the same for the scroll wheel's `dim` steps. The drag update `th += 90*(deltax/midx)` is taken as a parameter `drag`, the double value of `90*(deltax/midx)`. The model adds it to `th` exactly and truncates the sum; the rounding of the double addition and the cursor warp (`glutWarpPointer`) are not modelled.
- ViewInput.ViewState.Motion: `180*(deltax/midx)` is taken as the parameter `drag` for the same reason; the window width it depends on is not modelled.
- `th`, `ph` and `fov` are unbounded integers. 32-bit overflow is undefined behaviour in C, and the model does not reproduce it: `fov` reaches it only after about 2^31 presses.
- ESC calls `exit(0)`. `ViewState.Key` reports it as `exit == true` and changes nothing.
- `Project` (the `gluPerspective`/`glOrtho` choice by `mode`), `reshape` (aspect ratio and viewport), `display`'s eye position and axes, `Print`, `idlefunc` and `main` are left out. They are GL/GLUT calls or floating-point computations with no integer state to model. So is the `Project(); glutPostRedisplay();` tail of every handler.
- In `barrel`, `glTranslated`, `glRotated` and `glScaled`, and the cosine/sine vertex coordinates, are left out. So are the floating-point colour values: a vertex is kept as angle, radius factor and height, and a ramp colour as its side and step `i` (f = i/24). The parameters of `barrel` only feed the transforms, so the model's `Barrel` takes none.
- GLUT's key and button codes (`GLUT_KEY_LEFT` = 100 … `GLUT_KEY_PAGE_DOWN` = 105, `GLUT_DOWN` = 0, `GLUT_UP` = 1) come from the GLUT headers, which are not part of this model.
