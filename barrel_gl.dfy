/** What GL makes of the stream `barrel` emits. Of the commands recorded
    here, GL accepts only vertex and colour commands between glBegin and
    glEnd; a glBegin issued there, a glEnd issued outside, or a matrix
    push or pop issued inside is an error (GL_INVALID_OPERATION) and GL
    ignores the command. A vertex
    outside glBegin/glEnd is not an error in OpenGL: its effect is
    undefined. This model chooses to treat it like a rejected command and
    to count it in `errors`; the stream `barrel` emits has no such vertex. */
module BarrelGL {
  import opened BarrelTrace

  /** Whether GL accepts `p` when it arrives inside (or outside) a
      glBegin/glEnd pair. */
  predicate Accepts(p: Prim, inside: bool) {
    match p
    case Begin(_) => !inside
    case End => inside
    case Push => !inside
    case Pop => !inside
    case Color(_) => true
    case Vertex(_, _, _) => inside  // outside a pair: undefined in GL, counted as rejected here
  }

  /** Whether GL is inside a glBegin/glEnd pair after `p`; a rejected
      command leaves that unchanged. */
  function InsideAfter(p: Prim, inside: bool): bool {
    match p
    case Begin(_) => true
    case End => false
    case _ => inside
  }

  /** The commands GL acted on, whether it ends inside a pair, and how many
      commands it rejected. */
  datatype GLRun = GLRun(kept: seq<Prim>, inside: bool, errors: nat)

  /** GL processing the stream `t`, starting inside a pair or not. */
  function Exec(t: seq<Prim>, inside: bool): (r: GLRun)
    ensures |r.kept| + r.errors == |t|
    decreases |t|
  {
    if t == [] then GLRun([], inside, 0)
    else
      var rest := Exec(t[1..], InsideAfter(t[0], inside));
      if Accepts(t[0], inside) then rest.(kept := [t[0]] + rest.kept)
      else rest.(errors := rest.errors + 1)
  }

  /** Processing `a + b` is processing `a` and then `b` from where `a` left GL. */
  lemma {:induction false} ExecAppend(a: seq<Prim>, b: seq<Prim>, inside: bool)
    ensures Exec(a + b, inside) ==
      var ra := Exec(a, inside);
      var rb := Exec(b, ra.inside);
      GLRun(ra.kept + rb.kept, rb.inside, ra.errors + rb.errors)
    decreases |a|
  {
    if a == [] {
      assert a + b == b;
    } else {
      assert (a + b)[0] == a[0];
      assert (a + b)[1..] == a[1..] + b;
      ExecAppend(a[1..], b, InsideAfter(a[0], inside));
    }
  }

  /** Colours and vertices inside a pair are all accepted and keep GL inside. */
  lemma {:induction false} ExecPlain(t: seq<Prim>)
    requires forall k :: 0 <= k < |t| ==> t[k].Color? || t[k].Vertex?
    ensures Exec(t, true) == GLRun(t, true, 0)
    decreases |t|
  {
    if t != [] {
      ExecPlain(t[1..]);
      assert [t[0]] + t[1..] == t;
    }
  }

  /** Of `n` glBegin calls in a row from outside a pair, GL acts on the first
      and rejects the other `n - 1`. */
  lemma {:induction false} ExecRepeatedBegin(n: nat, k: Kind, inside: bool)
    requires n > 0 && !inside
    ensures Exec(Repeat(n, Begin(k)), inside) == GLRun([Begin(k)], true, n - 1)
  {
    assert Repeat(n, Begin(k))[1..] == Repeat(n - 1, Begin(k));
    RejectedBegins(n - 1, k);
  }

  /** Inside a pair, every glBegin is rejected. */
  lemma {:induction false} RejectedBegins(n: nat, k: Kind)
    ensures Exec(Repeat(n, Begin(k)), true) == GLRun([], true, n)
    decreases n
  {
    if n > 0 {
      assert Repeat(n, Begin(k))[1..] == Repeat(n - 1, Begin(k));
      RejectedBegins(n - 1, k);
    }
  }

  /** A cap is a clean pair: GL acts on all of it and ends outside. */
  lemma ExecFan(y: real)
    ensures Exec(Fan(y), false) == GLRun(Fan(y), false, 0)
  {
    var b, c, v := Begin(TriangleFan), Color(White), Vertex(0, 0.0, y);
    var rim := Rim(1.0, y);
    assert Fan(y) == [b] + [c] + [v] + rim + [End];
    assert Exec([b], false) == GLRun([b], true, 0);
    assert Exec([c], true) == GLRun([c], true, 0);
    assert Exec([v], true) == GLRun([v], true, 0);
    assert Exec([End], true) == GLRun([End], false, 0);
    ExecPlain(rim);
    ExecAppend([b], [c], false);
    ExecAppend([b] + [c], [v], false);
    ExecAppend([b] + [c] + [v], rim, false);
    ExecAppend([b] + [c] + [v] + rim, [End], false);
  }

  /** A strip of colours and vertices, entered inside its pair, is accepted
      in full and its glEnd closes the pair. */
  lemma ExecBody(body: seq<Prim>)
    requires forall k :: 0 <= k < |body| ==> body[k].Color? || body[k].Vertex?
    ensures Exec(body + [End], true) == GLRun(body + [End], false, 0)
  {
    assert Exec([End], true) == GLRun([End], false, 0);
    ExecPlain(body);
    ExecAppend(body, [End], true);
  }

  /** A whole strip, entered outside any pair, is a clean pair. */
  lemma ExecStrip(body: seq<Prim>)
    requires forall k :: 0 <= k < |body| ==> body[k].Color? || body[k].Vertex?
    ensures Exec(Strip(body), false) == GLRun(Strip(body), false, 0)
  {
    var q := [Begin(QuadStrip)];
    assert Strip(body) == q + (body + [End]);
    assert Exec(q, false) == GLRun(q, true, 0);
    ExecBody(body);
    ExecAppend(q, body + [End], false);
  }

  /** The three sides, entered inside side 1's pair, close every pair they
      open and are accepted in full. */
  lemma ExecSides()
    ensures Exec(Sides(), true) == GLRun(Sides(), false, 0)
  {
    ExecBody(Side1());
    ExecStrip(Side2());
    ExecStrip(Side3());
    ExecAppend(Side1() + [End], Strip(Side2()), true);
    ExecAppend(Side1() + [End] + Strip(Side2()), Strip(Side3()), true);
  }

  /** The stream with one glBegin before side 1 is accepted in full and
      leaves GL outside any pair. */
  lemma IntendedIsClean()
    ensures Exec(BarrelIntended(), false) == GLRun(BarrelIntended(), false, 0)
  {
    var q := [Begin(QuadStrip)];
    assert Exec([Push], false) == GLRun([Push], false, 0);
    assert Exec([Pop], false) == GLRun([Pop], false, 0);
    assert Exec(q, false) == GLRun(q, true, 0);
    ExecFan(-1.0);
    ExecFan(1.0);
    ExecSides();
    ExecAppend([Push], Fan(-1.0), false);
    ExecAppend([Push] + Fan(-1.0), q, false);
    ExecAppend([Push] + Fan(-1.0) + q, Sides(), false);
    ExecAppend([Push] + Fan(-1.0) + q + Sides(), Fan(1.0), false);
    ExecAppend([Push] + Fan(-1.0) + q + Sides() + Fan(1.0), [Pop], false);
  }

  /** The stream as emitted: GL rejects exactly the 24 extra glBegin calls of
      the `for` without braces and acts on precisely the clean stream, so
      the quirk changes nothing on screen. */
  lemma ExtraBeginsRejected()
    ensures Exec(BarrelSpec(), false) == GLRun(BarrelIntended(), false, 24)
  {
    var q := [Begin(QuadStrip)];
    var begins := Repeat(Resolution + 1, Begin(QuadStrip));
    assert Exec([Push], false) == GLRun([Push], false, 0);
    assert Exec([Pop], false) == GLRun([Pop], false, 0);
    ExecRepeatedBegin(Resolution + 1, QuadStrip, false);
    ExecFan(-1.0);
    ExecFan(1.0);
    ExecSides();
    ExecAppend([Push], Fan(-1.0), false);
    ExecAppend([Push] + Fan(-1.0), begins, false);
    ExecAppend([Push] + Fan(-1.0) + begins, Sides(), false);
    ExecAppend([Push] + Fan(-1.0) + begins + Sides(), Fan(1.0), false);
    ExecAppend([Push] + Fan(-1.0) + begins + Sides() + Fan(1.0), [Pop], false);
  }
}
