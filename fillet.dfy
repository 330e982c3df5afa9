/** The fillet arc (`guis/elements/Arc.java`): a polyline of chords that
    approximates a circular arc tangent to two walls, regenerated lazily when
    one of its inputs changes. The trigonometry is taken from a given
    `FloatGeometry`; what is modelled is the caching protocol, the early
    exits, the bound on the emission loop and the chaining of the chords. */
module Fillet {
  import opened Geometry

  /** One chord of the arc, from the previous arc point to the next. */
  datatype Chord = Chord(from: Point, to: Point)

  /** The cap on the number of angular steps (`Math.min(radius / 3, 40)`). */
  const MAX_STEPS: int := 40

  /** The radius and chords a regeneration produces. */
  datatype Shape = Shape(radius: real, chords: seq<Chord>)

  /** Java's `(int)` cast of a finite float: rounds toward zero. */
  function Truncate(x: real): (n: int)
    ensures 0.0 <= x ==> n as real <= x < n as real + 1.0
    ensures x < 0.0 ==> n as real - 1.0 < x <= n as real
  {
    if x >= 0.0 then x.Floor else -((-x).Floor)
  }

  /** The number of angular steps `n = (int) Math.min(radius / 3, 40)`; the
      loop visits the n + 1 angles 0..n. */
  function StepCount(radius: real): (n: int)
    ensures n <= MAX_STEPS
    ensures 3.0 * MAX_STEPS as real <= radius ==> n == MAX_STEPS
    ensures 0.0 <= radius < 3.0 * MAX_STEPS as real ==> 3.0 * n as real <= radius < 3.0 * (n as real + 1.0)
    ensures radius < 0.0 ==> 3.0 * (n as real - 1.0) < radius <= 3.0 * n as real
    ensures n < 0 <==> radius <= -3.0
  {
    Truncate(if radius / 3.0 < MAX_STEPS as real then radius / 3.0 else MAX_STEPS as real)
  }

  /** No chord has equal end points and each chord starts where the previous one ends. */
  ghost predicate Polyline(cs: seq<Chord>)
  {
    && (forall k | 0 <= k < |cs| :: cs[k].from != cs[k].to)
    && (forall k | 0 <= k < |cs| - 1 :: cs[k].to == cs[k + 1].from)
  }

  /** The chords emitted by the first `k` passes of the emission loop over
      the circle points `step(0), step(1), ...`. The loop's current point
      starts at the first arc point `step(0)` and afterwards is always the
      previous sample (it moves to each sample that differs from it), so
      pass `j` emits the chord from `step(j - 1)` to `step(j)` exactly when
      the two differ, and pass 0 emits nothing. */
  function Sweep(step: int -> Point, k: nat): (r: seq<Chord>)
    ensures k <= 1 ==> r == []
    ensures 1 <= k ==> |r| <= k - 1
    ensures Polyline(r)
    ensures r != [] ==> r[0].from == step(0) && r[|r| - 1].to == step(k - 1)
    ensures 1 <= k && r == [] ==> step(k - 1) == step(0)
  {
    if k <= 1 then []
    else
      var from, to := step(k - 2), step(k - 1);
      Sweep(step, k - 1) + if from != to then [Chord(from, to)] else []
  }

  /** The loop emits nothing exactly when every circle point it visits is
      the first arc point. */
  lemma {:induction false} SweepEmpty(step: int -> Point, k: nat)
    ensures Sweep(step, k) == [] <==> forall j | 0 <= j < k :: step(j) == step(0)
  {
    if k > 1 {
      SweepEmpty(step, k - 1);
      if step(k - 2) == step(k - 1) {
        assert Sweep(step, k) == Sweep(step, k - 1);
      } else {
        assert Sweep(step, k)[|Sweep(step, k)| - 1] == Chord(step(k - 2), step(k - 1));
      }
    }
  }

  /** The number of passes of the emission loop `for (i = 0; i <= n; i++)`. */
  function Passes(radius: real): (k: nat)
    ensures k <= MAX_STEPS + 1
  {
    var n := StepCount(radius);
    if n < 0 then 0 else n + 1
  }

  /** What `generateSegments` computes: nothing when a tangent is missing or
      the tangents have no corner, otherwise the radius of the fit and the
      chords of the n + 1 passes of the emission loop. As the first circle
      point is the first arc point, there is at most one chord per angular
      step, `n = (int) min(radius / 3, 40)`, so at most 40, and none when
      the radius is below 3. */
  function FilletShape(geometry: FloatGeometry, t1: Segment?, t2: Segment?, distance: real): (r: Option<Shape>)
    ensures r.None? <==> t1 == null || t2 == null || geometry.corner(t1, t2).None?
    ensures r.Some? ==> |r.value.chords| <= MAX_STEPS && Polyline(r.value.chords)
    ensures r.Some? ==> |r.value.chords| <= if StepCount(r.value.radius) < 0 then 0 else StepCount(r.value.radius)
    ensures r.Some? && r.value.radius < 3.0 ==> r.value.chords == []
    ensures r.Some? && r.value.chords != [] ==>
      r.value.chords[0].from == geometry.fit(t1, t2, geometry.corner(t1, t2).value, distance).step(0)
  {
    if t1 == null || t2 == null then None
    else match geometry.corner(t1, t2)
      case None => None
      case Some(c) =>
        var fit := geometry.fit(t1, t2, c, distance);
        Some(Shape(fit.radius, Sweep(fit.step, Passes(fit.radius))))
  }

  /** The emission loop of `generateSegments`: walks the n + 1 circle
      points from the first arc point, appending a chord to each point that
      differs from the current one. */
  method EmitChords(fit: Fit) returns (chords: seq<Chord>)
    ensures chords == Sweep(fit.step, Passes(fit.radius))
  {
    chords := [];
    var n := StepCount(fit.radius);
    var p := fit.step(0);
    var i := 0;
    while i <= n
      invariant 0 <= i <= Passes(fit.radius)
      invariant chords == Sweep(fit.step, i)
      invariant p == fit.step(if i == 0 then 0 else i - 1)
    {
      var q := fit.step(i);
      if p != q {
        chords := chords + [Chord(p, q)];
        p := q;
      }
      i := i + 1;
    }
  }

  class Arc {
    var segments: seq<Chord>
    var tangent1: Segment?
    var tangent2: Segment?
    var distance: real
    var altered: bool
    var radius: real
    var color: Color
    const geometry: FloatGeometry

    /** `segments` and `radius` hold the result of a regeneration from the
        current tangents and distance, the radius being left as it was when
        nothing was generated. */
    ghost predicate Generated(previousRadius: real)
      reads this`segments, this`radius, this`tangent1, this`tangent2, this`distance
    {
      match FilletShape(geometry, tangent1, tangent2, distance)
      case None => segments == [] && radius == previousRadius
      case Some(s) => segments == s.chords && radius == s.radius
    }

    /** The cache is always a bounded polyline, and is up to date unless `altered`. */
    ghost predicate Valid()
      reads this
    {
      && |segments| <= MAX_STEPS
      && Polyline(segments)
      && (!altered ==> Generated(radius))
    }

    constructor (tangent1: Segment?, tangent2: Segment?, distance: real, color: Color, geometry: FloatGeometry)
      ensures Valid() && !altered
      ensures this.tangent1 == tangent1 && this.tangent2 == tangent2
      ensures this.distance == distance && this.color == color && this.geometry == geometry
      ensures Generated(0.0)
    {
      segments := [];
      this.tangent1 := tangent1;
      this.tangent2 := tangent2;
      this.distance := distance;
      this.color := color;
      this.geometry := geometry;
      altered := true;
      radius := 0.0;
      new;
      SetTangent2(tangent2);
      SetDistance(distance);
      GenerateSegments();
      altered := false;
    }

    /** Rebuilds the chord list from the tangents and the distance. */
    method GenerateSegments()
      modifies this`segments, this`radius
      ensures Generated(old(radius)) && Generated(radius)
      ensures |segments| <= MAX_STEPS && Polyline(segments)
    {
      segments := [];
      if tangent1 == null || tangent2 == null {
        return;
      }
      var corner := geometry.corner(tangent1, tangent2);
      if corner.None? {
        return;
      }
      var fit := geometry.fit(tangent1, tangent2, corner.value, distance);
      radius := fit.radius;
      segments := EmitChords(fit);
    }

    /** Regenerates the chords if an input changed since the last
        regeneration, then hands out the chords to draw. */
    method Render() returns (drawn: seq<Chord>)
      requires Valid()
      modifies this`segments, this`radius, this`altered
      ensures Valid() && !altered
      ensures old(altered) ==> Generated(old(radius))
      ensures !old(altered) ==> segments == old(segments) && radius == old(radius)
      ensures drawn == segments
    {
      if altered {
        GenerateSegments();
        altered := false;
      }
      drawn := segments;
    }

    method SetTangent1(t: Segment?)
      modifies this`tangent1, this`altered
      ensures old(Valid()) ==> Valid()
      ensures tangent1 == t && altered
    {
      tangent1 := t;
      altered := true;
    }

    method SetTangent2(t: Segment?)
      modifies this`tangent2, this`altered
      ensures old(Valid()) ==> Valid()
      ensures tangent2 == t && altered
    {
      tangent2 := t;
      altered := true;
    }

    method SetDistance(d: real)
      modifies this`distance, this`altered
      ensures old(Valid()) ==> Valid()
      ensures distance == d && altered
    {
      distance := d;
      altered := true;
    }

    /** Changes the colour only: the cached chords stay valid. */
    method SetColor(c: Color)
      modifies this`color
      ensures old(Valid()) ==> Valid()
      ensures color == c
    {
      color := c;
    }

    method SetColorRgba(r: int, g: int, b: int, a: int)
      modifies this`color
      ensures old(Valid()) ==> Valid()
      ensures color == Rgba(r, g, b, a)
    {
      color := Rgba(r, g, b, a);
    }
  }
}
