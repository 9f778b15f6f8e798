/** Properties of the view handlers, stated on the step functions that the
    `ViewState` methods are proved to follow. */
module ViewProperties {
  import opened CArith
  import opened ViewInput

  /** An arrow key moves exactly one angle by exactly 5 degrees before the
      wrap, and nothing else in the view moves. From an in-range view a sum
      of 360 or more loses 360 and a sum of -360 or less gains 360; for the
      multiples of 5 that the keys alone reach, that means 360 becomes 0
      and -360 becomes 0. */
  lemma ArrowMovesOneAngle(v: View, key: int)
    requires AnglesInRange(v)
    ensures key == KeyRight ==>
      SpecialStep(v, key) == v.(th := if v.th + 5 < 360 then v.th + 5 else v.th + 5 - 360)
    ensures key == KeyLeft ==>
      SpecialStep(v, key) == v.(th := if v.th - 5 > -360 then v.th - 5 else v.th - 5 + 360)
    ensures key == KeyUp ==>
      SpecialStep(v, key) == v.(ph := if v.ph + 5 < 360 then v.ph + 5 else v.ph + 5 - 360)
    ensures key == KeyDown ==>
      SpecialStep(v, key) == v.(ph := if v.ph - 5 > -360 then v.ph - 5 else v.ph - 5 + 360)
  {
    CRemOfSmall(v.th);
    CRemOfSmall(v.ph);
  }

  /** A special key other than the four arrows (PageUp and PageDown
      included) leaves an in-range view exactly as it was, because wrapping
      an in-range angle is the identity. */
  lemma SpecialOtherKeyIdle(v: View, key: int)
    requires AnglesInRange(v)
    requires key != KeyRight && key != KeyLeft && key != KeyUp && key != KeyDown
    ensures SpecialStep(v, key) == v
  {
    CRemOfSmall(v.th);
    CRemOfSmall(v.ph);
  }

  /** After any non-empty run of special keys both angles lie strictly
      between -360 and 360, whatever the view was before. */
  lemma {:induction false} SpecialRunInRange(v: View, keys: seq<int>)
    requires keys != [] || AnglesInRange(v)
    ensures AnglesInRange(SpecialRun(v, keys))
    decreases |keys|
  {
    if keys != [] {
      SpecialRunInRange(SpecialStep(v, keys[0]), keys[1..]);
    }
  }

  /** `n` presses of Right from any in-range view leave the azimuth at the
      C remainder of the plain sum: from a non-negative azimuth it climbs by
      5 and falls back to the bottom of [0, 360) instead of ever reaching
      360; a negative azimuth climbs toward 0 first. */
  lemma {:induction false} RightRun(v: View, n: nat)
    requires AnglesInRange(v)
    ensures SpecialRun(v, seq(n, _ => KeyRight)) == v.(th := CRem(v.th + 5 * n, 360))
    decreases n
  {
    CRemOfSmall(v.ph);
    if n == 0 {
      CRemOfSmall(v.th);
    } else {
      var w := SpecialStep(v, KeyRight);
      assert seq(n, _ => KeyRight)[1..] == seq(n - 1, _ => KeyRight);
      RightRun(w, n - 1);
      if v.th + 5 >= 0 {
        CRemAddSameSign(v.th + 5, 5 * (n - 1));
      } else {
        CRemOfSmall(v.th + 5);
      }
    }
  }

  /** `n` presses of Left from any in-range view: the result follows the
      sign of the dividend, so from a non-positive azimuth the azimuth runs
      0, -5, ..., -355, 0, ... and never turns positive. */
  lemma {:induction false} LeftRun(v: View, n: nat)
    requires AnglesInRange(v)
    ensures SpecialRun(v, seq(n, _ => KeyLeft)) == v.(th := CRem(v.th - 5 * n, 360))
    ensures v.th <= 0 ==> SpecialRun(v, seq(n, _ => KeyLeft)).th <= 0
    decreases n
  {
    CRemOfSmall(v.ph);
    if n == 0 {
      CRemOfSmall(v.th);
    } else {
      var w := SpecialStep(v, KeyLeft);
      assert seq(n, _ => KeyLeft)[1..] == seq(n - 1, _ => KeyLeft);
      LeftRun(w, n - 1);
      if v.th - 5 <= 0 {
        CRemAddSameSign(v.th - 5, -5 * (n - 1));
      } else {
        CRemOfSmall(v.th - 5);
      }
    }
  }

  /** Key presses keep a view in range: `special` wraps both angles, and
      `key` either leaves them alone or sets them to 0. */
  lemma KeysKeepRange(v: View, key: int, ch: Byte)
    requires AnglesInRange(v)
    ensures AnglesInRange(SpecialStep(v, key))
    ensures KeyStep(v, ch).Continue? ==> AnglesInRange(KeyStep(v, ch).view)
  {
  }

  /** `mouse` and `motionmouse` do not wrap `th`. Pressing the left button
      from `th = 300` with a 90-degree offset takes an in-range view out of
      range; so does a wheel event while the button is held, and so can
      `motionmouse`. Only the next `special` call wraps `th` again. */
  lemma MouseLeavesRange()
    ensures AnglesInRange(View(300, 0, 55, 0, 0, 0))
    ensures MouseStep(View(300, 0, 55, 0, 0, 0), LeftButton, ButtonDown, 90.0) == View(390, 0, 55, 0, 0, 1)
    ensures MouseStep(View(300, 0, 55, 0, 0, 1), WheelUp, 0, 90.0) == View(390, 0, 55, 0, 0, 1)
    ensures MotionStep(View(300, 0, 55, 0, 0, 1), 400.0) == View(400, 0, 55, 0, 0, 1)
    ensures !AnglesInRange(View(390, 0, 55, 0, 0, 1))
    ensures SpecialStep(View(390, 0, 55, 0, 0, 1), KeyPageUp) == View(30, 0, 55, 0, 0, 1)
  {
  }

  /** Key '0' puts both angles back to 0 and touches nothing else. */
  lemma ResetAngles(v: View)
    ensures KeyStep(v, Zero) == Continue(View(0, 0, v.fov, v.mode, v.axes, v.leftClickDown))
  {
  }

  /** 'a'/'A' and 'm'/'M' replace `axes`/`mode` by `1 - x`: a value in {0, 1}
      stays in {0, 1}, and pressing the same key twice restores the view. */
  lemma TogglesAreInvolutions(v: View, ch: Byte)
    requires ch == LowerA || ch == UpperA || ch == LowerM || ch == UpperM
    ensures KeyStep(v, ch).Continue?
    ensures (ch == LowerA || ch == UpperA) ==> KeyStep(v, ch).view == v.(axes := 1 - v.axes)
    ensures (ch == LowerM || ch == UpperM) ==> KeyStep(v, ch).view == v.(mode := 1 - v.mode)
    ensures 0 <= v.axes <= 1 ==> 0 <= KeyStep(v, ch).view.axes <= 1
    ensures 0 <= v.mode <= 1 ==> 0 <= KeyStep(v, ch).view.mode <= 1
    ensures KeyRun(v, [ch, ch]) == Continue(v)
  {
    assert [ch, ch][1..] == [ch];
    var w := KeyStep(v, ch).view;
    assert KeyRun(w, [ch]) == KeyRun(KeyStep(w, ch).view, []);
  }

  /** '+' and '-' move `fov` by exactly one on every press: the guards
      `ch>1` and `ch<179` test the key codes 45 and 43, so they always hold. */
  lemma FovKeysNeverBlocked(v: View)
    ensures KeyStep(v, Plus) == Continue(v.(fov := v.fov + 1))
    ensures KeyStep(v, Minus) == Continue(v.(fov := v.fov - 1))
  {
  }

  /** `n` presses of '+' raise `fov` by exactly `n`. */
  lemma {:induction false} PlusRun(v: View, n: nat)
    ensures KeyRun(v, seq(n, _ => Plus)) == Continue(v.(fov := v.fov + n))
    decreases n
  {
    if n > 0 {
      assert seq(n, _ => Plus)[1..] == seq(n - 1, _ => Plus);
      PlusRun(v.(fov := v.fov + 1), n - 1);
    }
  }

  /** `n` presses of '-' lower `fov` by exactly `n`. */
  lemma {:induction false} MinusRun(v: View, n: nat)
    ensures KeyRun(v, seq(n, _ => Minus)) == Continue(v.(fov := v.fov - n))
    decreases n
  {
    if n > 0 {
      assert seq(n, _ => Minus)[1..] == seq(n - 1, _ => Minus);
      MinusRun(v.(fov := v.fov - 1), n - 1);
    }
  }

  /** So `fov` is not confined to [1, 179]: from the start value 55, 125
      presses of '+' reach 180 and 55 presses of '-' reach 0. */
  lemma FovLeavesOneTo179()
    ensures KeyRun(Initial, seq(125, _ => Plus)) == Continue(Initial.(fov := 180))
    ensures KeyRun(Initial, seq(55, _ => Minus)) == Continue(Initial.(fov := 0))
  {
    PlusRun(Initial, 125);
    MinusRun(Initial, 55);
  }

  /** Any key other than ESC, '0', 'a', 'A', 'm', 'M', '+' and '-' changes
      nothing. */
  lemma OtherKeyIdle(v: View, ch: Byte)
    requires ch != Esc && ch != Zero && ch != LowerA && ch != UpperA
    requires ch != LowerM && ch != UpperM && ch != Plus && ch != Minus
    ensures KeyStep(v, ch) == Continue(v)
  {
  }

  /** The left button pressed sets `leftClickDown` to 1 and released sets it
      to 0; the wheel (buttons 3 and 4) and any other state leave it alone.
      While the button is not held `th` does not move either. */
  lemma MouseButtons(v: View, button: int, state: int, drag: real)
    ensures button == LeftButton && state == ButtonDown ==>
      MouseStep(v, button, state, drag).leftClickDown == 1
    ensures button == LeftButton && state == ButtonUp ==>
      MouseStep(v, button, state, drag) == v.(leftClickDown := 0)
    ensures (button == WheelUp || button == WheelDown) ==>
      MouseStep(v, button, state, drag).leftClickDown == v.leftClickDown
    ensures MouseStep(v, button, state, drag).leftClickDown == 0 ==>
      MouseStep(v, button, state, drag).th == v.th
    ensures MouseStep(v, button, state, drag) ==
      v.(leftClickDown := MouseStep(v, button, state, drag).leftClickDown,
         th := MouseStep(v, button, state, drag).th)
  {
  }
}
