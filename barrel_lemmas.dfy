/** Properties of the command stream `barrel` emits: its shape, how many
    commands of each sort it holds, that neighbouring rings meet, and what
    GL makes of the 25 glBegin calls issued by the `for` without braces. */
module BarrelProperties {
  import opened BarrelTrace

  /** The sorts of command the stream is counted by. */
  datatype Sort = PushSort | PopSort | FanSort | StripSort | EndSort | ColorSort | VertexSort

  function SortOf(p: Prim): Sort {
    match p
    case Push => PushSort
    case Pop => PopSort
    case Begin(k) => if k == TriangleFan then FanSort else StripSort
    case End => EndSort
    case Color(_) => ColorSort
    case Vertex(_, _, _) => VertexSort
  }

  /** How many commands of sort `s` the stream `t` holds. */
  function Num(t: seq<Prim>, s: Sort): nat
    decreases |t|
  {
    if t == [] then 0 else (if SortOf(t[0]) == s then 1 else 0) + Num(t[1..], s)
  }

  /** Counting distributes over concatenation. */
  lemma {:induction false} NumAppend(a: seq<Prim>, b: seq<Prim>, s: Sort)
    ensures Num(a + b, s) == Num(a, s) + Num(b, s)
    decreases |a|
  {
    if a == [] {
      assert a + b == b;
    } else {
      assert (a + b)[0] == a[0];
      assert (a + b)[1..] == a[1..] + b;
      NumAppend(a[1..], b, s);
    }
  }

  /** One command counts once, under its own sort. */
  lemma NumSingle(p: Prim, s: Sort)
    ensures Num([p], s) == if SortOf(p) == s then 1 else 0
  {
    assert [p][1..] == [];
  }

  /** A stream of vertices only counts as that many vertices. */
  lemma {:induction false} NumVertices(t: seq<Prim>, s: Sort)
    requires forall k :: 0 <= k < |t| ==> t[k].Vertex?
    ensures Num(t, s) == if s == VertexSort then |t| else 0
    decreases |t|
  {
    if t != [] {
      NumVertices(t[1..], s);
    }
  }

  /** `n` glBegin calls of one kind. */
  lemma {:induction false} NumRepeat(n: nat, k: Kind, s: Sort)
    ensures Num(Repeat(n, Begin(k)), s) == if s == SortOf(Begin(k)) then n else 0
    decreases n
  {
    if n > 0 {
      assert Repeat(n, Begin(k))[1..] == Repeat(n - 1, Begin(k));
      NumRepeat(n - 1, k, s);
    }
  }

  /** The first `i` steps of a band hold `i` colours and `2*i` vertices. */
  lemma {:induction false} NumBandPrefix(side: nat, r0: real, y0: real, r1: real, y1: real, i: nat, s: Sort)
    requires i <= Resolution + 1
    ensures Num(Band(side, r0, y0, r1, y1)[..3 * i], s) ==
      if s == ColorSort then i else if s == VertexSort then 2 * i else 0
    decreases i
  {
    if i > 0 {
      var c := Color(Ramp(side, i - 1));
      var v0 := Vertex(Fraction * (i - 1), r0, y0);
      var v1 := Vertex(Fraction * (i - 1), r1, y1);
      var prefix := Band(side, r0, y0, r1, y1)[..3 * (i - 1)];
      BandPrefix(side, r0, y0, r1, y1, i - 1);
      assert Band(side, r0, y0, r1, y1)[..3 * i] == prefix + [c] + [v0] + [v1];
      NumBandPrefix(side, r0, y0, r1, y1, i - 1, s);
      NumAppend(prefix, [c], s);
      NumAppend(prefix + [c], [v0], s);
      NumAppend(prefix + [c] + [v0], [v1], s);
      NumSingle(c, s);
      NumSingle(v0, s);
      NumSingle(v1, s);
    }
  }

  /** A cap is one glBegin(GL_TRIANGLE_FAN), one glEnd, one colour and 26
      vertices: the centre and 25 on the rim. */
  lemma NumFan(y: real, s: Sort)
    ensures Num(Fan(y), s) ==
      if s == FanSort || s == EndSort || s == ColorSort then 1 else if s == VertexSort then 26 else 0
  {
    var b, c, v := Begin(TriangleFan), Color(White), Vertex(0, 0.0, y);
    var rim := Rim(1.0, y);
    assert Fan(y) == [b] + [c] + [v] + rim + [End];
    NumAppend([b], [c], s);
    NumAppend([b] + [c], [v], s);
    NumAppend([b] + [c] + [v], rim, s);
    NumAppend([b] + [c] + [v] + rim, [End], s);
    NumSingle(b, s);
    NumSingle(c, s);
    NumSingle(v, s);
    NumSingle(End, s);
    NumVertices(rim, s);
  }

  /** A band is 25 colours and 50 vertices, i.e. 25 vertex pairs. */
  lemma NumBand(side: nat, r0: real, y0: real, r1: real, y1: real, s: Sort)
    ensures Num(Band(side, r0, y0, r1, y1), s) ==
      if s == ColorSort then 25 else if s == VertexSort then 50 else 0
  {
    NumBandPrefix(side, r0, y0, r1, y1, Resolution + 1, s);
    assert Band(side, r0, y0, r1, y1)[..3 * (Resolution + 1)] == Band(side, r0, y0, r1, y1);
  }

  /** A strip body between its own glBegin(GL_QUAD_STRIP) and glEnd. */
  lemma NumStrip(body: seq<Prim>, s: Sort)
    ensures Num(Strip(body), s) ==
      Num(body, s) + (if s == StripSort || s == EndSort then 1 else 0)
  {
    var q := Begin(QuadStrip);
    NumSingle(q, s);
    NumSingle(End, s);
    NumAppend([q], body, s);
    NumAppend([q] + body, [End], s);
  }

  /** Side 1's body and glEnd followed by two whole strips. */
  lemma NumThreeSides(b1: seq<Prim>, b2: seq<Prim>, b3: seq<Prim>, s: Sort)
    ensures Num(b1 + [End] + Strip(b2) + Strip(b3), s) ==
      Num(b1, s) + Num(b2, s) + Num(b3, s)
        + (if s == StripSort then 2 else if s == EndSort then 3 else 0)
  {
    NumSingle(End, s);
    NumStrip(b2, s);
    NumStrip(b3, s);
    NumAppend(b1, [End], s);
    NumAppend(b1 + [End], Strip(b2), s);
    NumAppend(b1 + [End] + Strip(b2), Strip(b3), s);
  }

  /** The three sides after the first strip's glBegin: 2 more
      glBegin(GL_QUAD_STRIP), 3 glEnd, 75 colours and 150 vertices. */
  lemma NumSides(s: Sort)
    ensures Num(Sides(), s) ==
      if s == StripSort then 2 else if s == EndSort then 3
      else if s == ColorSort then 75 else if s == VertexSort then 150 else 0
  {
    var n := if s == ColorSort then 25 else if s == VertexSort then 50 else 0;
    NumBand(1, 1.0, -1.0, Bulge, -0.5, s);
    NumBand(2, Bulge, -0.5, Bulge, 0.5, s);
    NumBand(3, Bulge, 0.5, 1.0, 1.0, s);
    assert Num(Side1(), s) == n && Num(Side2(), s) == n && Num(Side3(), s) == n;
    NumThreeSides(Side1(), Side2(), Side3(), s);
    assert Num(Sides(), s) == 3 * n + (if s == StripSort then 2 else if s == EndSort then 3 else 0);
  }

  /** A stream framed by one push and one pop around four pieces. */
  lemma NumFramed(a: seq<Prim>, b: seq<Prim>, c: seq<Prim>, d: seq<Prim>, s: Sort)
    ensures Num([Push] + a + b + c + d + [Pop], s) ==
      Num(a, s) + Num(b, s) + Num(c, s) + Num(d, s)
        + (if s == PushSort || s == PopSort then 1 else 0)
  {
    NumSingle(Push, s);
    NumSingle(Pop, s);
    NumAppend([Push], a, s);
    NumAppend([Push] + a, b, s);
    NumAppend([Push] + a + b, c, s);
    NumAppend([Push] + a + b + c, d, s);
    NumAppend([Push] + a + b + c + d, [Pop], s);
  }

  /** How many commands of sort `s` the whole stream holds. */
  lemma NumBarrel(s: Sort)
    ensures Num(BarrelSpec(), s) ==
      match s
      case PushSort => 1
      case PopSort => 1
      case FanSort => 2
      case StripSort => 27
      case EndSort => 5
      case ColorSort => 77
      case VertexSort => 202
  {
    var begins := Repeat(Resolution + 1, Begin(QuadStrip));
    NumFan(-1.0, s);
    NumFan(1.0, s);
    NumRepeat(Resolution + 1, QuadStrip, s);
    NumSides(s);
    NumFramed(Fan(-1.0), begins, Sides(), Fan(1.0), s);
  }

  /** The whole stream: one glPushMatrix and one glPopMatrix, two triangle
      fans, 27 glBegin(GL_QUAD_STRIP) against only 5 glEnd, 77 colours and
      202 vertices (26 per cap, 50 per side). */
  lemma BarrelCounts()
    ensures Num(BarrelSpec(), PushSort) == Num(BarrelSpec(), PopSort) == 1
    ensures Num(BarrelSpec(), FanSort) == 2 && Num(BarrelSpec(), StripSort) == 27
    ensures Num(BarrelSpec(), EndSort) == 5
    ensures Num(BarrelSpec(), ColorSort) == 77 && Num(BarrelSpec(), VertexSort) == 202
  {
    NumBarrel(PushSort);
    NumBarrel(PopSort);
    NumBarrel(FanSort);
    NumBarrel(StripSort);
    NumBarrel(EndSort);
    NumBarrel(ColorSort);
    NumBarrel(VertexSort);
  }

  /** Each ring visits 0, 15, ..., 360 degrees: it starts at 0 and ends a
      full turn later, so the ring closes. */
  lemma RimCloses(radius: real, y: real)
    ensures |Rim(radius, y)| == 25
    ensures Rim(radius, y)[0] == Vertex(0, radius, y)
    ensures Rim(radius, y)[Resolution] == Vertex(360, radius, y)
  {
  }

  /** The lower and the upper ring a band's vertex pairs run along. */
  function LowerRing(b: seq<Prim>): seq<Prim>
    requires |b| == 3 * (Resolution + 1)
  {
    seq(Resolution + 1, i requires 0 <= i < Resolution + 1 => b[3 * i + 1])
  }

  function UpperRing(b: seq<Prim>): seq<Prim>
    requires |b| == 3 * (Resolution + 1)
  {
    seq(Resolution + 1, i requires 0 <= i < Resolution + 1 => b[3 * i + 2])
  }

  /** Step `i` of a band is its colour `i` followed by the pair of vertices
      at angle `15*i` on its lower and on its upper ring. */
  lemma BandSteps(side: nat, r0: real, y0: real, r1: real, y1: real)
    ensures LowerRing(Band(side, r0, y0, r1, y1)) == Rim(r0, y0)
    ensures UpperRing(Band(side, r0, y0, r1, y1)) == Rim(r1, y1)
    ensures forall i :: 0 <= i <= Resolution ==> Band(side, r0, y0, r1, y1)[3 * i] == Color(Ramp(side, i))
  {
    var b := Band(side, r0, y0, r1, y1);
    forall i | 0 <= i <= Resolution
      ensures b[3 * i] == Color(Ramp(side, i))
      ensures LowerRing(b)[i] == Rim(r0, y0)[i] && UpperRing(b)[i] == Rim(r1, y1)[i]
    {
      assert (3 * i) % 3 == 0 && (3 * i) / 3 == i;
      assert (3 * i + 1) % 3 == 1 && (3 * i + 1) / 3 == i;
      assert (3 * i + 2) % 3 == 2 && (3 * i + 2) / 3 == i;
    }
  }

  /** The pieces meet without gaps: side 1 runs from the bottom cap's rim
      (radius 1, y = -1) to radius 1.25 at y = -0.5, side 2 keeps radius
      1.25 up to y = 0.5, and side 3 returns to the top cap's rim (radius 1,
      y = 1). */
  lemma SidesJoin()
    ensures LowerRing(Side1()) == Fan(-1.0)[3..28] == Rim(1.0, -1.0)
    ensures UpperRing(Side1()) == LowerRing(Side2()) == Rim(Bulge, -0.5)
    ensures UpperRing(Side2()) == LowerRing(Side3()) == Rim(Bulge, 0.5)
    ensures UpperRing(Side3()) == Fan(1.0)[3..28] == Rim(1.0, 1.0)
  {
    BandSteps(1, 1.0, -1.0, Bulge, -0.5);
    BandSteps(2, Bulge, -0.5, Bulge, 0.5);
    BandSteps(3, Bulge, 0.5, 1.0, 1.0);
  }

  /** Where each piece sits in the stream of 315 commands. */
  lemma BarrelLayout()
    ensures |BarrelSpec()| == 315
    ensures BarrelSpec()[0] == Push && BarrelSpec()[314] == Pop
    ensures BarrelSpec()[1..30] == Fan(-1.0)
    ensures BarrelSpec()[30..55] == Repeat(25, Begin(QuadStrip))
    ensures BarrelSpec()[55..130] == Side1() && BarrelSpec()[130] == End
    ensures BarrelSpec()[131] == Begin(QuadStrip)
    ensures BarrelSpec()[132..207] == Side2() && BarrelSpec()[207] == End
    ensures BarrelSpec()[208] == Begin(QuadStrip)
    ensures BarrelSpec()[209..284] == Side3() && BarrelSpec()[284] == End
    ensures BarrelSpec()[285..314] == Fan(1.0)
  {
  }
}
