/** The view state of the projections demo and the GLUT input callbacks
    that change it: `special` (arrow and page keys), `key` (ordinary keys),
    `mouse` (button presses and the scroll wheel) and `motionmouse`
    (dragging). The integer globals `th`, `ph`, `fov`, `mode`, `axes` and
    `left_click_down` form the value `View`; the class `ViewState` holds
    them, together with the world size `dim`, as fields that the handlers
    update in place. */
module ViewInput {
  import opened CArith

  /** GLUT special-key codes (values of freeglut's `GLUT_KEY_*`). */
  const KeyLeft := 100
  const KeyUp := 101
  const KeyRight := 102
  const KeyDown := 103
  const KeyPageUp := 104
  const KeyPageDown := 105

  /** GLUT mouse-button states and the buttons `mouse` distinguishes; the
      wheel reports itself as buttons 3 (up) and 4 (down). */
  const ButtonDown := 0
  const ButtonUp := 1
  const LeftButton := 0
  const WheelUp := 3
  const WheelDown := 4

  /** `key` receives an `unsigned char`. */
  newtype Byte = x: int | 0 <= x < 256

  const Esc: Byte := 27
  const Zero: Byte := '0' as Byte
  const LowerA: Byte := 'a' as Byte
  const UpperA: Byte := 'A' as Byte
  const LowerM: Byte := 'm' as Byte
  const UpperM: Byte := 'M' as Byte
  const Minus: Byte := '-' as Byte
  const Plus: Byte := '+' as Byte

  /** Angles are kept to +/-360 degrees with C's `%`. */
  const FullTurn := 360
  /** Degrees per arrow-key press. */
  const AngleStep := 5

  /** The integer part of the view: azimuth `th`, elevation `ph`, field of
      view `fov`, projection `mode` (0 orthogonal, otherwise perspective),
      axis display `axes` and whether the left button is held. */
  datatype View = View(th: int, ph: int, fov: int, mode: int, axes: int, leftClickDown: int)

  /** The values the globals start with. */
  const Initial := View(0, 0, 55, 0, 0, 0)

  /** Both angles strictly between -360 and 360. */
  predicate AnglesInRange(v: View) {
    -FullTurn < v.th < FullTurn && -FullTurn < v.ph < FullTurn
  }

  /** How far an arrow key moves the azimuth and the elevation. */
  function ArrowDelta(key: int): (d: (int, int))
    ensures d.0 == 0 || d.1 == 0
  {
    if key == KeyRight then (AngleStep, 0)
    else if key == KeyLeft then (-AngleStep, 0)
    else if key == KeyUp then (0, AngleStep)
    else if key == KeyDown then (0, -AngleStep)
    else (0, 0)
  }

  /** The effect of `special` on the integer state: move by the arrow's
      delta, then wrap both angles with C's `% 360`. */
  function SpecialStep(v: View, key: int): (w: View)
    ensures AnglesInRange(w)
    ensures w.fov == v.fov && w.mode == v.mode && w.axes == v.axes
    ensures w.leftClickDown == v.leftClickDown
  {
    var d := ArrowDelta(key);
    v.(th := CRem(v.th + d.0, FullTurn), ph := CRem(v.ph + d.1, FullTurn))
  }

  /** What a key press leads to: ESC ends the program, every other key
      continues with a (possibly unchanged) view. */
  datatype KeyOutcome = Exit | Continue(view: View)

  /** The effect of `key`. The two field-of-view guards compare the key
      code itself (`ch>1`, `ch<179`), not `fov`. */
  function KeyStep(v: View, ch: Byte): (r: KeyOutcome)
    ensures r.Exit? <==> ch == Esc
    ensures r.Continue? ==> r.view.leftClickDown == v.leftClickDown
  {
    if ch == Esc then Exit
    else if ch == Zero then Continue(v.(th := 0, ph := 0))
    else if ch == LowerA || ch == UpperA then Continue(v.(axes := 1 - v.axes))
    else if ch == LowerM || ch == UpperM then Continue(v.(mode := 1 - v.mode))
    else if ch == Minus && ch > 1 then Continue(v.(fov := v.fov - 1))
    else if ch == Plus && ch < 179 then Continue(v.(fov := v.fov + 1))
    else Continue(v)
  }

  /** The effect of `mouse` on the integer state. `drag` stands for the
      double `90*(deltax/midx)` the source computes from the cursor's
      offset; it is added to `th` and the sum converted back to `int`. */
  function MouseStep(v: View, button: int, state: int, drag: real): (w: View)
    ensures w.ph == v.ph && w.fov == v.fov && w.mode == v.mode && w.axes == v.axes
  {
    var down :=
      if button == LeftButton && (state == ButtonDown || state == ButtonUp) then
        (if state == ButtonDown then 1 else 0)
      else v.leftClickDown;
    var th := if down != 0 then Trunc(v.th as real + drag) else v.th;
    v.(leftClickDown := down, th := th)
  }

  /** The effect of `motionmouse`: while the left button is held, `th` is
      overwritten by the double `180*(deltax/midx)` converted to `int`. */
  function MotionStep(v: View, drag: real): (w: View)
    ensures w == v.(th := w.th)
    ensures v.leftClickDown == 0 ==> w == v
  {
    if v.leftClickDown != 0 then v.(th := Trunc(drag)) else v
  }

  /** A run of special keys, handled in order. */
  function SpecialRun(v: View, keys: seq<int>): View
    decreases |keys|
  {
    if keys == [] then v else SpecialRun(SpecialStep(v, keys[0]), keys[1..])
  }

  /** A run of ordinary keys, handled in order until ESC ends the program. */
  function KeyRun(v: View, keys: seq<Byte>): KeyOutcome
    decreases |keys|
  {
    if keys == [] then Continue(v)
    else match KeyStep(v, keys[0])
      case Exit => Exit
      case Continue(w) => KeyRun(w, keys[1..])
  }

  /** The GLUT callbacks' shared state. */
  class ViewState {
    var th: int
    var ph: int
    var fov: int
    var mode: int
    var axes: int
    var leftClickDown: int
    /** World size. A `double` in the source; here a real number. */
    var dim: real

    /** The integer fields as one value. */
    function Snapshot(): View
      reads this
    {
      View(th, ph, fov, mode, axes, leftClickDown)
    }

    /** The globals as the program starts. */
    constructor ()
      ensures Snapshot() == Initial && dim == 5.0
    {
      th, ph, fov, mode, axes, leftClickDown := 0, 0, 55, 0, 0, 0;
      dim := 5.0;
    }

    /** `special`: arrows move an angle by 5 degrees, PageUp/PageDown change
        `dim` (PageDown only while `dim` exceeds 1), then both angles are
        wrapped with C's `% 360`. */
    method Special(key: int)
      modifies this
      ensures Snapshot() == SpecialStep(old(Snapshot()), key)
      ensures -FullTurn < th < FullTurn && -FullTurn < ph < FullTurn
      ensures key == KeyPageUp ==> dim > old(dim)
      ensures key == KeyPageDown ==> (dim < old(dim) <==> old(dim) > 1.0)
      ensures key != KeyPageUp && !(key == KeyPageDown && old(dim) > 1.0) ==> dim == old(dim)
    {
      if key == KeyRight {
        th := th + AngleStep;
      } else if key == KeyLeft {
        th := th - AngleStep;
      } else if key == KeyUp {
        ph := ph + AngleStep;
      } else if key == KeyDown {
        ph := ph - AngleStep;
      } else if key == KeyPageUp {
        dim := dim + 0.1;
      } else if key == KeyPageDown && dim > 1.0 {
        dim := dim - 0.1;
      }
      th := CRem(th, FullTurn);
      ph := CRem(ph, FullTurn);
    }

    /** `key`: ESC exits (reported as `exit`, nothing else happens); the
        other keys update the view as `KeyStep` says. */
    method Key(ch: Byte) returns (exit: bool)
      modifies this
      ensures exit <==> ch == Esc
      ensures exit ==> Snapshot() == old(Snapshot())
      ensures !exit ==> KeyStep(old(Snapshot()), ch) == Continue(Snapshot())
      ensures dim == old(dim)
    {
      exit := false;
      if ch == Esc {
        exit := true;
      } else if ch == Zero {
        th, ph := 0, 0;
      } else if ch == LowerA || ch == UpperA {
        axes := 1 - axes;
      } else if ch == LowerM || ch == UpperM {
        mode := 1 - mode;
      } else if ch == Minus && ch > 1 {
        fov := fov - 1;
      } else if ch == Plus && ch < 179 {
        fov := fov + 1;
      }
    }

    /** `mouse`: the wheel changes `dim` (down only while it exceeds 1), the
        left button records whether it is held, and while it is held `th`
        moves by the drag offset `drag`. */
    method Mouse(button: int, state: int, drag: real)
      modifies this
      ensures Snapshot() == MouseStep(old(Snapshot()), button, state, drag)
      ensures button == WheelUp ==> dim > old(dim)
      ensures button == WheelDown ==> (dim < old(dim) <==> old(dim) > 1.0)
      ensures button != WheelUp && button != WheelDown ==> dim == old(dim)
    {
      if button == WheelUp || button == WheelDown {
        if button == WheelUp {
          dim := dim + 0.1;
        } else if dim > 1.0 {
          dim := dim - 0.1;
        }
      }
      if button == LeftButton && (state == ButtonDown || state == ButtonUp) {
        if state == ButtonDown {
          leftClickDown := 1;
        } else if state == ButtonUp {
          leftClickDown := 0;
        }
      }
      if leftClickDown != 0 {
        th := Trunc(th as real + drag);
      }
    }

    /** `motionmouse`: while the left button is held, `th` follows the
        cursor's horizontal offset `drag`. */
    method Motion(drag: real)
      modifies this
      ensures Snapshot() == MotionStep(old(Snapshot()), drag)
      ensures dim == old(dim)
    {
      if leftClickDown != 0 {
        th := Trunc(drag);
      }
    }
  }
}
