/** `barrel`: the stream of immediate-mode GL commands that draws one barrel.

    The solid is a bottom triangle fan, three quad-strip bands and a top
    triangle fan, each ring visiting the angles `15*i` for i = 0..24. The
    stream is recorded as a trace of `Prim` records; a vertex is kept as
    its angle in degrees, its radius factor and its height, so no
    trigonometry is needed. */
module BarrelTrace {

  /** `resolution`: the number of angular steps around a ring. */
  const Resolution := 24
  /** `fraction`: degrees per angular step. */
  const Fraction := 15
  /** `ex`: the radius factor of the two middle rings (the bulge). */
  const Bulge: real := 1.25

  datatype Kind = TriangleFan | QuadStrip

  /** A colour command. `Ramp(side, i)` is side `side`'s ramp at
      `f = i/24`: (f, 1-f, 0) on side 1, (0, f, 1-f) on side 2 and
      (1-f, 0, f) on side 3. */
  datatype Colour = White | Ramp(side: nat, step: nat)

  /** One recorded command: glPushMatrix, glPopMatrix, glBegin, glEnd,
      glColor3f and glVertex3f. The translation, rotation and scaling
      between Push and the first Begin are not recorded. */
  datatype Prim =
    | Push
    | Pop
    | Begin(kind: Kind)
    | End
    | Color(c: Colour)
    | Vertex(angle: int, radius: real, y: real)

  /** The ring of 25 vertices at height `y`: angles 0, 15, ..., 360. */
  function Rim(radius: real, y: real): (r: seq<Prim>)
    ensures |r| == Resolution + 1
    ensures forall i :: 0 <= i < |r| ==> r[i] == Vertex(Fraction * i, radius, y)
  {
    seq(Resolution + 1, i => Vertex(Fraction * i, radius, y))
  }

  /** A cap: glBegin(GL_TRIANGLE_FAN), white, the centre on the axis at
      height `y`, the 25 rim vertices of radius 1 at height `y`, glEnd. The
      rim's first and last vertices sit at 0 and 360 degrees, so the fan
      covers the whole disc. */
  function Fan(y: real): (f: seq<Prim>)
    ensures |f| == 29
    ensures f[0] == Begin(TriangleFan) && f[1] == Color(White)
    ensures f[2] == Vertex(0, 0.0, y)
    ensures f[3..28] == Rim(1.0, y)
    ensures f[3] == Vertex(0, 1.0, y) && f[27] == Vertex(360, 1.0, y)
    ensures f[28] == End
  {
    [Begin(TriangleFan), Color(White), Vertex(0, 0.0, y)] + Rim(1.0, y) + [End]
  }

  /** The body of one side's quad strip: for each step a ramp colour, then
      the lower ring's vertex, then the upper ring's vertex. */
  function Band(side: nat, r0: real, y0: real, r1: real, y1: real): (b: seq<Prim>)
    ensures |b| == 3 * (Resolution + 1)
  {
    seq(3 * (Resolution + 1), k requires 0 <= k =>
      if k % 3 == 0 then Color(Ramp(side, k / 3))
      else if k % 3 == 1 then Vertex(Fraction * (k / 3), r0, y0)
      else Vertex(Fraction * (k / 3), r1, y1))
  }

  /** Side 1 widens from the bottom rim (radius 1, y = -1) to the bulge
      (radius 1.25, y = -0.5). */
  function Side1(): (b: seq<Prim>)
    ensures |b| == 3 * (Resolution + 1)
    ensures b[0] == Color(Ramp(1, 0)) && b[72] == Color(Ramp(1, 24))
    ensures b[1] == Vertex(0, 1.0, -1.0) && b[2] == Vertex(0, Bulge, -0.5)
    ensures b[73] == Vertex(360, 1.0, -1.0) && b[74] == Vertex(360, Bulge, -0.5)
  {
    Band(1, 1.0, -1.0, Bulge, -0.5)
  }

  /** Side 2 keeps the bulge's radius from y = -0.5 up to y = 0.5. */
  function Side2(): (b: seq<Prim>)
    ensures |b| == 3 * (Resolution + 1)
    ensures b[0] == Color(Ramp(2, 0)) && b[72] == Color(Ramp(2, 24))
    ensures b[1] == Vertex(0, Bulge, -0.5) && b[2] == Vertex(0, Bulge, 0.5)
    ensures b[73] == Vertex(360, Bulge, -0.5) && b[74] == Vertex(360, Bulge, 0.5)
  {
    Band(2, Bulge, -0.5, Bulge, 0.5)
  }

  /** Side 3 narrows from the bulge at y = 0.5 back to the top rim (radius
      1, y = 1). */
  function Side3(): (b: seq<Prim>)
    ensures |b| == 3 * (Resolution + 1)
    ensures b[0] == Color(Ramp(3, 0)) && b[72] == Color(Ramp(3, 24))
    ensures b[1] == Vertex(0, Bulge, 0.5) && b[2] == Vertex(0, 1.0, 1.0)
    ensures b[73] == Vertex(360, Bulge, 0.5) && b[74] == Vertex(360, 1.0, 1.0)
  {
    Band(3, Bulge, 0.5, 1.0, 1.0)
  }

  /** `n` copies of one record. */
  function Repeat(n: nat, p: Prim): (r: seq<Prim>)
    ensures |r| == n && forall k :: 0 <= k < n ==> r[k] == p
  {
    seq(n, _ => p)
  }

  /** A quad strip opened and closed around its body. */
  function Strip(body: seq<Prim>): seq<Prim> {
    [Begin(QuadStrip)] + body + [End]
  }

  /** Everything from side 1's body to the last glEnd of side 3. */
  function Sides(): seq<Prim> {
    Side1() + [End] + Strip(Side2()) + Strip(Side3())
  }

  /** The stream as the source emits it: the `for` without braces before
      side 1 issues glBegin(GL_QUAD_STRIP) 25 times. */
  function BarrelSpec(): (t: seq<Prim>)
    ensures |t| == 315 && t[0] == Push && t[314] == Pop
  {
    [Push] + Fan(-1.0) + Repeat(Resolution + 1, Begin(QuadStrip)) + Sides() + Fan(1.0) + [Pop]
  }

  /** The stream with a single glBegin before side 1: the stream as written
      with 24 of its 25 consecutive glBegin(GL_QUAD_STRIP) removed. */
  function BarrelIntended(): (t: seq<Prim>)
    ensures |t| == 291 && t[0] == Push && t[290] == Pop
  {
    [Push] + Fan(-1.0) + [Begin(QuadStrip)] + Sides() + Fan(1.0) + [Pop]
  }

  /** One more step of a band appends its colour and its two vertices. */
  lemma BandPrefix(side: nat, r0: real, y0: real, r1: real, y1: real, i: nat)
    requires i <= Resolution
    ensures Band(side, r0, y0, r1, y1)[..3 * (i + 1)] ==
      Band(side, r0, y0, r1, y1)[..3 * i]
        + [Color(Ramp(side, i)), Vertex(Fraction * i, r0, y0), Vertex(Fraction * i, r1, y1)]
  {
    var b := Band(side, r0, y0, r1, y1);
    assert b[..3 * (i + 1)] == b[..3 * i] + b[3 * i..3 * i + 3];
  }

  /** One cap as `barrel` emits it (the bottom cap at y = -1, the top cap
      at y = 1): glBegin, white, the centre, then the loop over the rim. */
  method EmitFan(before: seq<Prim>, y: real) returns (trace: seq<Prim>)
    ensures trace == before + Fan(y)
  {
    trace := before + [Begin(TriangleFan), Color(White), Vertex(0, 0.0, y)];
    ghost var pre := trace;
    for i := 0 to Resolution + 1
      invariant trace == pre + Rim(1.0, y)[..i]
    {
      trace := trace + [Vertex(Fraction * i, 1.0, y)];
    }
    assert Rim(1.0, y)[..Resolution + 1] == Rim(1.0, y);
    trace := trace + [End];
    assert trace == before + ([Begin(TriangleFan), Color(White), Vertex(0, 0.0, y)] + Rim(1.0, y) + [End]);
  }

  /** The loop of one side: per step its ramp colour, then the vertex on
      the lower ring and the vertex on the upper ring. */
  method EmitBand(before: seq<Prim>, side: nat, r0: real, y0: real, r1: real, y1: real)
    returns (trace: seq<Prim>)
    ensures trace == before + Band(side, r0, y0, r1, y1)
  {
    trace := before;
    for i := 0 to Resolution + 1
      invariant trace == before + Band(side, r0, y0, r1, y1)[..3 * i]
    {
      BandPrefix(side, r0, y0, r1, y1, i);
      trace := trace + [Color(Ramp(side, i)), Vertex(Fraction * i, r0, y0), Vertex(Fraction * i, r1, y1)];
    }
    assert Band(side, r0, y0, r1, y1)[..3 * (Resolution + 1)] == Band(side, r0, y0, r1, y1);
  }

  /** `barrel`, emitting its commands in the order of the source's loops. */
  method Barrel() returns (trace: seq<Prim>)
    ensures trace == BarrelSpec()
  {
    trace := [Push];
    // bottom
    trace := EmitFan(trace, -1.0);
    // the loop without braces: its body is the glBegin alone
    ghost var pre := trace;
    for i := 0 to Resolution + 1
      invariant trace == pre + Repeat(i, Begin(QuadStrip))
    {
      trace := trace + [Begin(QuadStrip)];
    }
    ghost var head := trace;
    assert head == [Push] + Fan(-1.0) + Repeat(Resolution + 1, Begin(QuadStrip));
    // side 1
    trace := EmitBand(trace, 1, 1.0, -1.0, Bulge, -0.5);
    trace := trace + [End];
    assert trace == head + (Side1() + [End]);
    // side 2
    ghost var mid := trace;
    trace := trace + [Begin(QuadStrip)];
    trace := EmitBand(trace, 2, Bulge, -0.5, Bulge, 0.5);
    trace := trace + [End];
    assert trace == mid + Strip(Side2());
    // side 3
    mid := trace;
    trace := trace + [Begin(QuadStrip)];
    trace := EmitBand(trace, 3, Bulge, 0.5, 1.0, 1.0);
    trace := trace + [End];
    assert trace == mid + Strip(Side3());
    assert trace == head + Sides();
    // top
    trace := EmitFan(trace, 1.0);
    trace := trace + [Pop];
  }
}
