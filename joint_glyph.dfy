/** The recompute rule of the relative-movement ("joint") feature: from the
    joint type, the labels of its two reference points, the point coordinates
    and the volumes of the two attached bodies, decide which marker glyph the
    feature shows (a ring with two arrowheads for a rotation, a double-headed
    arrow for a linear movement, or nothing) and give every primitive of that
    glyph by its parameters. Geometry-kernel shapes are replaced by parameter
    records; the length of the point-to-point vector and its unit direction
    are inputs instead of square roots. */
module JointGlyph {
  import opened Optional

  // ---------------------------------------------------------------------
  // Vectors, colours, primitives
  // ---------------------------------------------------------------------

  datatype Vec3 = Vec3(x: real, y: real, z: real) {
    function Plus(v: Vec3): Vec3 { Vec3(x + v.x, y + v.y, z + v.z) }
    function Minus(v: Vec3): Vec3 { Vec3(x - v.x, y - v.y, z - v.z) }
    function Times(k: real): Vec3 { Vec3(k * x, k * y, k * z) }
    function Neg(): Vec3 { Vec3(-x, -y, -z) }
    /** Squared Euclidean length. */
    function Norm2(): real { x * x + y * y + z * z }
  }

  /** A view colour as (red, green, blue, fourth channel). */
  datatype Color = Color(r: real, g: real, b: real, a: real)

  /** The parameters handed to the geometry kernel's primitive constructors,
      in the order the kernel takes them. A torus sweeps its centre circle
      through `angle` degrees starting on the +X side, its tube drawn between
      the minor-circle angles `angle1` and `angle2`. A cone has radius
      `radius1` at `base` and `radius2` at `base + height * dir`; every cone
      here has `radius1 == 0`, so its tip is at `base`. */
  datatype Primitive =
    | Torus(majorRadius: real, minorRadius: real, center: Vec3, axis: Vec3,
            angle1: int, angle2: int, angle: int)
    | Cone(radius1: real, radius2: real, height: real, base: Vec3, dir: Vec3)
    | Cylinder(radius: real, height: real, base: Vec3, dir: Vec3)

  /** A feature shape: the null shape, or a compound of primitives. */
  datatype Shape = NullShape | Compound(parts: seq<Primitive>)

  /** The values DapJointSelection.py takes from `cos`/`sin` for cone 2; they are left
      uninterpreted: cos(pi/3), sin(pi/3), cos(pi/6), sin(pi/6). */
  datatype Trig = Trig(cosPi3: real, sinPi3: real, cosPi6: real, sinPi6: real)

  // ---------------------------------------------------------------------
  // Constants of the recompute rule
  // ---------------------------------------------------------------------

  const JOINT_TYPES: seq<string> := ["Rotation", "Linear Movement"]
  const GROUND: string := "Ground"
  const SCALE_PARAM: real := 50000.0
  /** Volume used when both bodies are the ground. */
  const DEFAULT_VOLUME: real := 100000.0
  /** Point distances at or below this are "too close". */
  const MIN_LENGTH: real := 0.000001
  const ROTATION_COLOR: Color := Color(1.0, 0.843137264251709, 0.0, 0.6000000238418579)
  const TRANSLATION_COLOR: Color := Color(1.0, 0.0, 0.0, 0.0)
  const TOO_CLOSE: string := "The selected 2 points either coincide, or are too close together!!!"
  const Z_AXIS: Vec3 := Vec3(0.0, 0.0, 1.0)
  const Y_AXIS: Vec3 := Vec3(0.0, 1.0, 0.0)

  // ---------------------------------------------------------------------
  // Joint type lookup
  // ---------------------------------------------------------------------

  /** Position of the first occurrence of `name` in `names`, or `default`
      when `name` does not occur. */
  function IndexOrDefault(names: seq<string>, name: string, default: nat): (i: nat)
    ensures name in names ==> i < |names| && names[i] == name
    ensures name in names ==> forall j :: 0 <= j < i ==> names[j] != name
    ensures name !in names ==> i == default
  {
    if name !in names then default
    else if names[0] == name then 0
    else 1 + IndexOrDefault(names[1..], name, default)
  }

  /** Index of a joint type name in JOINT_TYPES; unknown names read as 0. */
  function JointIndex(typeName: string): nat {
    IndexOrDefault(JOINT_TYPES, typeName, 0)
  }

  // ---------------------------------------------------------------------
  // Volume averaging
  // ---------------------------------------------------------------------

  function Sum(vs: seq<real>): real {
    if vs == [] then 0.0 else vs[0] + Sum(vs[1..])
  }

  /** The volumes of the attached bodies that are not the ground, body 1 first. */
  function BodyVolumes(body1: string, body2: string, vol1: real, vol2: real): (vs: seq<real>)
    ensures |vs| == (if body1 != GROUND then 1 else 0) + (if body2 != GROUND then 1 else 0)
    ensures forall i :: 0 <= i < |vs| ==> vs[i] == vol1 || vs[i] == vol2
    ensures vs == [] <==> body1 == GROUND && body2 == GROUND
  {
    (if body1 != GROUND then [vol1] else []) + (if body2 != GROUND then [vol2] else [])
  }

  /** The mean of the given volumes, or DEFAULT_VOLUME when there are none. */
  function MeanVolume(vs: seq<real>): real {
    if |vs| > 0 then Sum(vs) / |vs| as real else DEFAULT_VOLUME
  }

  // ---------------------------------------------------------------------
  // The glyphs
  // ---------------------------------------------------------------------

  /** What one recompute produces. */
  datatype Outcome =
    | RotationGlyph(torus: Primitive, cone1: Primitive, cone2: Primitive)
    | TranslationGlyph(cylinder: Primitive, cone1: Primitive, cone2: Primitive)
    | NoGlyph
    | NoGlyphWithError(message: string)
  {
    /** The shape assigned to the feature. */
    function ShapeOf(): Shape {
      match this
      case RotationGlyph(t, c1, c2) => Compound([t, c1, c2])
      case TranslationGlyph(cy, c1, c2) => Compound([cy, c1, c2])
      case _ => NullShape
    }

    /** The colour assigned to the feature's view, if any. */
    function ColorOf(): Option<Color> {
      match this
      case RotationGlyph(_, _, _) => Some(ROTATION_COLOR)
      case TranslationGlyph(_, _, _) => Some(TRANSLATION_COLOR)
      case _ => None
    }

    /** The diagnostic printed on the console, if any. */
    function MessageOf(): Option<string> {
      if NoGlyphWithError? then Some(message) else None
    }
  }

  /** Ring about point 1 with two arrowheads, sized by the averaged body volume. */
  function RotationGlyphFor(p1: Vec3, vol: real, trig: Trig): (r: Outcome)
    ensures r.RotationGlyph? && r.torus.Torus? && r.cone1.Cone? && r.cone2.Cone?
    ensures r.torus.center == p1 && r.torus.majorRadius == 7.0 * r.torus.minorRadius
    ensures r.cone1.radius1 == 0.0 && r.cone2.radius1 == 0.0
    ensures r.cone1.radius2 == r.cone2.radius2 == 2.0 * r.torus.minorRadius
    ensures r.cone1.height == r.cone2.height == 5.0 * r.torus.minorRadius
    ensures r.torus.minorRadius * SCALE_PARAM == vol
  {
    var scale := vol / SCALE_PARAM;
    var r1 := 7.0 * scale;
    var r2 := scale;
    var torus := Torus(r1, r2, p1, Z_AXIS, -180, 180, 240);
    var cone1 := Cone(0.0, 2.0 * r2, 5.0 * r2, p1.Plus(Vec3(r1, -5.0 * r2, 0.0)), Y_AXIS);
    var cone2Base := Vec3(p1.x - r1 * trig.cosPi3 + 5.0 * r2 * trig.cosPi6,
                          p1.y - r1 * trig.sinPi3 - 5.0 * r2 * trig.sinPi6,
                          0.0);
    var cone2 := Cone(0.0, 2.0 * r2, 5.0 * r2, cone2Base, Vec3(-trig.cosPi6, trig.sinPi6, 0.0));
    RotationGlyph(torus, cone1, cone2)
  }

  /** Double-headed arrow from point 1 to point 2, sized by their distance `l`
      along the unit direction `dir`. */
  function TranslationGlyphFor(p1: Vec3, p2: Vec3, l: real, dir: Vec3): (r: Outcome)
    ensures r.TranslationGlyph? && r.cylinder.Cylinder? && r.cone1.Cone? && r.cone2.Cone?
    ensures r.cone1.base == p1 && r.cone2.base == p2
    ensures r.cone1.dir == dir == r.cylinder.dir && r.cone2.dir == dir.Neg()
    ensures r.cylinder.height == 2.0 * r.cone1.height && r.cone1.radius2 == 2.0 * r.cylinder.radius
    ensures r.cone1.radius1 == r.cone2.radius1 == 0.0
    ensures r.cone1.radius2 == r.cone2.radius2 && r.cone1.height == r.cone2.height
    ensures r.cylinder.height + 2.0 * r.cone1.height == l
  {
    var cylinder := Cylinder(0.05 * l, 0.5 * l, p1.Plus(dir.Times(0.25 * l)), dir);
    var cone1 := Cone(0.0, 0.1 * l, 0.25 * l, p1, dir);
    var cone2 := Cone(0.0, 0.1 * l, 0.25 * l, p2, dir.Neg());
    TranslationGlyph(cylinder, cone1, cone2)
  }

  /** The recompute decision. `vol` is the averaged body volume (only the
      rotation glyph uses it); `l` and `dir` are the length and unit direction
      of point2 - point1 (only the translation glyph uses them). DapJointSelection.py
      re-tests point labels inside the linear-movement branch although the
      branch condition already holds them; the re-tests are kept. */
  function Recompute(jointIndex: nat, point1Label: string, point2Label: string,
                     p1: Vec3, p2: Vec3, vol: real, l: real, dir: Vec3, trig: Trig): (r: Outcome)
    ensures r.ShapeOf() != NullShape ==> point1Label != "" && jointIndex <= 1
    ensures r.TranslationGlyph? || r.NoGlyphWithError? ==> jointIndex == 1 && point2Label != ""
    ensures r.ColorOf().Some? <==> r.ShapeOf() != NullShape
    ensures r.MessageOf().Some? ==> r.ShapeOf() == NullShape
    ensures r.RotationGlyph? ==> r.torus.Torus? && r.torus.center == p1
    ensures r.TranslationGlyph? ==> r.cone1.Cone? && r.cone2.Cone? && r.cone1.base == p1 && r.cone2.base == p2
  {
    if jointIndex == 0 && point1Label != "" then
      RotationGlyphFor(p1, vol, trig)
    else if jointIndex == 1 && point1Label != "" && point2Label != "" then
      if l > MIN_LENGTH && point1Label != "" then
        TranslationGlyphFor(p1, p2, l, dir)
      else if point1Label != "" && point2Label != "" then
        NoGlyphWithError(TOO_CLOSE)
      else
        NoGlyph
    else
      NoGlyph
  }

  /** The point coordinate after the refresh at the start of a recompute: the
      placement of the labelled reference object, or the stored value when no
      label is set. */
  function Refreshed(pointLabel: string, placement: Vec3, stored: Vec3): (v: Vec3)
    ensures pointLabel != "" ==> v == placement
    ensures v != stored ==> pointLabel != ""
  {
    if pointLabel != "" then placement else stored
  }

  /** The volume accumulation of the rotation branch: the volumes of the
      bodies that are not the ground are summed and counted, and the sum is
      divided by the count, or the fallback is used when nothing was counted. */
  method AverageVolume(body1: string, body2: string, vol1: real, vol2: real) returns (vol: real)
    ensures vol == MeanVolume(BodyVolumes(body1, body2, vol1, vol2))
  {
    var volCounter := 0;
    vol := 0.0;
    if body1 != GROUND {
      vol := vol + vol1;
      volCounter := volCounter + 1;
    }
    if body2 != GROUND {
      vol := vol + vol2;
      volCounter := volCounter + 1;
    }
    if volCounter > 0 {
      vol := vol / volCounter as real;
    } else {
      vol := DEFAULT_VOLUME;
    }
    if body1 != GROUND && body2 != GROUND {
      TwoBodiesVolume(body1, body2, vol1, vol2);
    } else if body1 != GROUND || body2 != GROUND {
      OneBodyVolume(body1, body2, vol1, vol2);
    }
  }

  // ---------------------------------------------------------------------
  // The feature object
  // ---------------------------------------------------------------------

  /** The joint feature with the properties its recompute reads and the two
      it writes (its shape and its view colour). */
  class DapJoint {
    var typeOfRelMov: string
    var point1RelMov: string
    var point2RelMov: string
    var body1: string
    var body2: string
    var coordPoint1: Vec3
    var coordPoint2: Vec3
    var shape: Shape
    var shapeColor: Color

    /** A new feature with the property defaults; `viewColor` is whatever
        colour the host gives a new view. */
    constructor (viewColor: Color)
      ensures typeOfRelMov == JOINT_TYPES[0]
      ensures point1RelMov == "" && point2RelMov == ""
      ensures body1 == GROUND && body2 == GROUND
      ensures coordPoint1 == Vec3(0.0, 0.0, 0.0) && coordPoint2 == Vec3(0.0, 0.0, 0.0)
      ensures shape == NullShape && shapeColor == viewColor
    {
      typeOfRelMov := JOINT_TYPES[0];
      point1RelMov, point2RelMov := "", "";
      body1, body2 := GROUND, GROUND;
      coordPoint1, coordPoint2 := Vec3(0.0, 0.0, 0.0), Vec3(0.0, 0.0, 0.0);
      shape := NullShape;
      shapeColor := viewColor;
    }

    /** One recompute. The host supplies what DapJointSelection.py looks up in the
        document: `lcs1`/`lcs2`, the placements of the objects labelled
        point1/point2; `vol1`/`vol2`, the volumes of the bodies labelled
        body1/body2; `l` and `dir`, the length and unit direction of the
        refreshed point2 - point1. Returns the console diagnostic, if any. */
    method Execute(lcs1: Vec3, lcs2: Vec3, vol1: real, vol2: real,
                   l: real, dir: Vec3, trig: Trig) returns (message: Option<string>)
      requires l >= 0.0
      requires l * l == Refreshed(point2RelMov, lcs2, coordPoint2).Minus(Refreshed(point1RelMov, lcs1, coordPoint1)).Norm2()
      requires l > 0.0 ==> Refreshed(point2RelMov, lcs2, coordPoint2).Minus(Refreshed(point1RelMov, lcs1, coordPoint1)) == dir.Times(l)
      modifies this
      ensures coordPoint1 == Refreshed(point1RelMov, lcs1, old(coordPoint1))
      ensures coordPoint2 == Refreshed(point2RelMov, lcs2, old(coordPoint2))
      ensures typeOfRelMov == old(typeOfRelMov) && body1 == old(body1) && body2 == old(body2)
      ensures point1RelMov == old(point1RelMov) && point2RelMov == old(point2RelMov)
      ensures var out := Recompute(JointIndex(typeOfRelMov), point1RelMov, point2RelMov,
                                   coordPoint1, coordPoint2,
                                   MeanVolume(BodyVolumes(body1, body2, vol1, vol2)), l, dir, trig);
              && shape == out.ShapeOf()
              && shapeColor == out.ColorOf().GetOr(old(shapeColor))
              && message == out.MessageOf()
    {
      if point1RelMov != "" {
        coordPoint1 := lcs1;
      }
      if point2RelMov != "" {
        coordPoint2 := lcs2;
      }
      var jointIndex := IndexOrDefault(JOINT_TYPES, typeOfRelMov, 0);
      ghost var out := Recompute(jointIndex, point1RelMov, point2RelMov, coordPoint1, coordPoint2,
                                 MeanVolume(BodyVolumes(body1, body2, vol1, vol2)), l, dir, trig);
      message := None;
      if jointIndex == 0 && point1RelMov != "" {
        var vol := AverageVolume(body1, body2, vol1, vol2);
        assert out == RotationGlyphFor(coordPoint1, vol, trig);
        shape := RotationGlyphFor(coordPoint1, vol, trig).ShapeOf();
        shapeColor := ROTATION_COLOR;
      } else if jointIndex == 1 && point1RelMov != "" && point2RelMov != "" {
        if l > MIN_LENGTH && point1RelMov != "" {
          shape := TranslationGlyphFor(coordPoint1, coordPoint2, l, dir).ShapeOf();
          shapeColor := TRANSLATION_COLOR;
        } else {
          shape := NullShape;
          if point1RelMov != "" && point2RelMov != "" {
            message := Some(TOO_CLOSE);
          }
        }
      } else {
        shape := NullShape;
      }
    }
  }

  // ---------------------------------------------------------------------
  // Properties of the recompute decision
  // ---------------------------------------------------------------------

  /** Unknown joint type names behave as the rotation type. */
  lemma UnknownTypeIsRotation(typeName: string)
    requires typeName !in JOINT_TYPES
    ensures JointIndex(typeName) == JointIndex("Rotation") == 0
  {
  }

  /** "Linear Movement" is the only type name with index 1. */
  lemma LinearMovementIndex(typeName: string)
    ensures JointIndex(typeName) == 1 <==> typeName == "Linear Movement"
  {
  }

  /** The sum of values that all lie between lo and hi lies between |vs|
      times each bound. */
  lemma {:induction false} SumBounds(vs: seq<real>, lo: real, hi: real)
    requires forall i :: 0 <= i < |vs| ==> lo <= vs[i] <= hi
    ensures |vs| as real * lo <= Sum(vs) <= |vs| as real * hi
  {
    if vs != [] {
      SumBounds(vs[1..], lo, hi);
    }
  }

  /** The mean of some volumes lies between their smallest and their largest. */
  lemma MeanWithinBounds(vs: seq<real>, lo: real, hi: real)
    requires vs != []
    requires forall i :: 0 <= i < |vs| ==> lo <= vs[i] <= hi
    ensures lo <= MeanVolume(vs) <= hi
  {
    SumBounds(vs, lo, hi);
    var n := |vs| as real;
    var v := MeanVolume(vs);
    assert v * n == Sum(vs);
  }

  /** The averaged volume lies between the two body volumes, whichever bodies
      are real. */
  lemma AverageBetweenVolumes(body1: string, body2: string, vol1: real, vol2: real)
    requires body1 != GROUND || body2 != GROUND
    ensures var v := MeanVolume(BodyVolumes(body1, body2, vol1, vol2));
            (vol1 <= v <= vol2) || (vol2 <= v <= vol1)
  {
    var vs := BodyVolumes(body1, body2, vol1, vol2);
    if vol1 <= vol2 {
      MeanWithinBounds(vs, vol1, vol2);
    } else {
      MeanWithinBounds(vs, vol2, vol1);
    }
  }

  /** Exactly one body is not the ground: its volume alone is the average. */
  lemma OneBodyVolume(body1: string, body2: string, vol1: real, vol2: real)
    requires (body1 == GROUND) != (body2 == GROUND)
    ensures MeanVolume(BodyVolumes(body1, body2, vol1, vol2)) == if body1 != GROUND then vol1 else vol2
  {
    var v := if body1 != GROUND then vol1 else vol2;
    assert BodyVolumes(body1, body2, vol1, vol2) == [v];
    assert Sum([v]) == v + Sum([]);
  }

  /** Both bodies are real bodies: the average is the arithmetic mean. */
  lemma TwoBodiesVolume(body1: string, body2: string, vol1: real, vol2: real)
    requires body1 != GROUND && body2 != GROUND
    ensures MeanVolume(BodyVolumes(body1, body2, vol1, vol2)) == (vol1 + vol2) / 2.0
  {
    var vs := BodyVolumes(body1, body2, vol1, vol2);
    assert vs == [vol1, vol2];
    assert Sum(vs) == vol1 + Sum([vol2]);
    assert Sum([vol2]) == vol2 + Sum([]);
  }

  /** Both bodies are the ground: the fallback volume is used. */
  lemma GroundOnlyVolume(vol1: real, vol2: real)
    ensures MeanVolume(BodyVolumes(GROUND, GROUND, vol1, vol2)) == DEFAULT_VOLUME
  {
  }

  /** The rotation glyph is chosen exactly for joint index 0 with a point-1 label. */
  lemma RotationChosenIff(jointIndex: nat, point1Label: string, point2Label: string,
                          p1: Vec3, p2: Vec3, vol: real, l: real, dir: Vec3, trig: Trig)
    ensures Recompute(jointIndex, point1Label, point2Label, p1, p2, vol, l, dir, trig).RotationGlyph?
            <==> jointIndex == 0 && point1Label != ""
  {
  }

  /** The rotation glyph is a compound of exactly a torus and two cones about
      point 1. With scale = vol / 50000: the ring has major radius 7 * scale,
      minor radius scale, axis +Z, minor angles -180..180 and last argument 240;
      both cones have apex radius 0, base radius 2 * scale and height 5 * scale;
      cone 1 stands at point1 + (7 * scale, -5 * scale, 0) and points along +Y. */
  lemma RotationGlyphParts(point1Label: string, point2Label: string,
                           p1: Vec3, p2: Vec3, vol: real, l: real, dir: Vec3, trig: Trig)
    requires point1Label != ""
    ensures var out := Recompute(0, point1Label, point2Label, p1, p2, vol, l, dir, trig);
            var scale := vol / 50000.0;
            && out.ShapeOf() == Compound([out.torus, out.cone1, out.cone2])
            && out.torus == Torus(7.0 * scale, scale, p1, Vec3(0.0, 0.0, 1.0), -180, 180, 240)
            && out.cone1 == Cone(0.0, 2.0 * scale, 5.0 * scale,
                                 Vec3(p1.x + 7.0 * scale, p1.y - 5.0 * scale, p1.z), Vec3(0.0, 1.0, 0.0))
            && out.cone2.Cone? && out.cone2.radius1 == 0.0
            && out.cone2.radius2 == 2.0 * scale && out.cone2.height == 5.0 * scale
            && out.ColorOf() == Some(ROTATION_COLOR) && out.MessageOf() == None
  {
  }

  /** The tip of a cone whose first radius is 0: the point it is built at. */
  function Tip(c: Primitive): Vec3
    requires c.Cone?
  {
    c.base
  }

  /** The centre of a cone's wide face: its base point moved by its height
      along its direction. */
  function WideEnd(c: Primitive): Vec3
    requires c.Cone?
  {
    c.base.Plus(c.dir.Times(c.height))
  }

  /** Cone 1 is the arrowhead at the start of the ring's arc: its wide face
      is centred on the ring's centre circle at its +X point (angle 0), and
      its tip lies 5 * scale further on, in the -Y direction. */
  lemma Cone1AtArcStart(point1Label: string, p1: Vec3, vol: real, trig: Trig)
    requires point1Label != ""
    ensures var out := Recompute(0, point1Label, "", p1, p1, vol, 0.0, Z_AXIS, trig);
            && WideEnd(out.cone1) == p1.Plus(Vec3(out.torus.majorRadius, 0.0, 0.0))
            && Tip(out.cone1) == WideEnd(out.cone1).Minus(Vec3(0.0, out.cone1.height, 0.0))
  {
  }

  /** Cone 2 is the arrowhead at the end of the ring's 240-degree arc: seen
      from above, the centre of its wide face lies on the ring's centre
      circle at angle 240 degrees (given cos^2 + sin^2 = 1 for pi/3), but
      always in the plane z = 0: DapJointSelection.py builds cone 2's base with z = 0,
      not point1's z. */
  lemma Cone2AtArcEnd(point1Label: string, p1: Vec3, vol: real, trig: Trig)
    requires point1Label != ""
    requires trig.cosPi3 * trig.cosPi3 + trig.sinPi3 * trig.sinPi3 == 1.0
    ensures var out := Recompute(0, point1Label, "", p1, p1, vol, 0.0, Z_AXIS, trig);
            var r1 := out.torus.majorRadius;
            var end := WideEnd(out.cone2);
            && end == Vec3(p1.x - r1 * trig.cosPi3, p1.y - r1 * trig.sinPi3, 0.0)
            && (end.x - p1.x) * (end.x - p1.x) + (end.y - p1.y) * (end.y - p1.y) == r1 * r1
  {
    var out := Recompute(0, point1Label, "", p1, p1, vol, 0.0, Z_AXIS, trig);
    var r1 := out.torus.majorRadius;
    var end := WideEnd(out.cone2);
    assert end.x - p1.x == -(r1 * trig.cosPi3);
    assert end.y - p1.y == -(r1 * trig.sinPi3);
    calc {
      (end.x - p1.x) * (end.x - p1.x) + (end.y - p1.y) * (end.y - p1.y);
      r1 * r1 * (trig.cosPi3 * trig.cosPi3 + trig.sinPi3 * trig.sinPi3);
      r1 * r1;
    }
  }

  /** The translation glyph is chosen exactly for joint index 1 with both
      point labels set and the points more than 1e-6 apart. */
  lemma TranslationChosenIff(jointIndex: nat, point1Label: string, point2Label: string,
                             p1: Vec3, p2: Vec3, vol: real, l: real, dir: Vec3, trig: Trig)
    ensures Recompute(jointIndex, point1Label, point2Label, p1, p2, vol, l, dir, trig).TranslationGlyph?
            <==> jointIndex == 1 && point1Label != "" && point2Label != "" && l > 0.000001
  {
  }

  /** The translation glyph: a cylinder of radius l/20 and length l/2 based a
      quarter of the way from point 1, and two cones of base radius l/10 and
      height l/4, one at point 1 along dir and one at point 2 against it. */
  lemma TranslationGlyphParts(point1Label: string, point2Label: string,
                              p1: Vec3, p2: Vec3, vol: real, l: real, dir: Vec3, trig: Trig)
    requires point1Label != "" && point2Label != "" && l > MIN_LENGTH
    ensures var out := Recompute(1, point1Label, point2Label, p1, p2, vol, l, dir, trig);
            && out.ShapeOf() == Compound([out.cylinder, out.cone1, out.cone2])
            && out.cylinder == Cylinder(l / 20.0, l / 2.0, p1.Plus(dir.Times(l / 4.0)), dir)
            && out.cone1 == Cone(0.0, l / 10.0, l / 4.0, p1, dir)
            && out.cone2 == Cone(0.0, l / 10.0, l / 4.0, p2, dir.Neg())
            && out.ColorOf() == Some(TRANSLATION_COLOR) && out.MessageOf() == None
  {
  }

  /** When point 2 is point 1 moved by l along dir, the three parts of the
      arrow meet end to end: the tips are at the two points, cone 1's wide
      face is the cylinder's base, the cylinder's far end is cone 2's wide
      face, and the cylinder's middle is the midpoint of the two points. */
  lemma TranslationArrowIsContiguous(point1Label: string, point2Label: string,
                                     p1: Vec3, p2: Vec3, vol: real, l: real, dir: Vec3, trig: Trig)
    requires point1Label != "" && point2Label != "" && l > MIN_LENGTH
    requires p2 == p1.Plus(dir.Times(l))
    ensures var out := Recompute(1, point1Label, point2Label, p1, p2, vol, l, dir, trig);
            var cy := out.cylinder;
            && Tip(out.cone1) == p1 && Tip(out.cone2) == p2
            && WideEnd(out.cone1) == cy.base
            && cy.base.Plus(cy.dir.Times(cy.height)) == WideEnd(out.cone2)
            && cy.base.Plus(cy.dir.Times(cy.height / 2.0)).Times(2.0) == p1.Plus(p2)
  {
  }

  /** Both points labelled for a linear movement but at most 1e-6 apart: no
      shape, and exactly then the "too close" diagnostic. */
  lemma TooCloseIff(jointIndex: nat, point1Label: string, point2Label: string,
                    p1: Vec3, p2: Vec3, vol: real, l: real, dir: Vec3, trig: Trig)
    ensures var out := Recompute(jointIndex, point1Label, point2Label, p1, p2, vol, l, dir, trig);
            && (out.MessageOf() == Some(TOO_CLOSE)
                <==> jointIndex == 1 && point1Label != "" && point2Label != "" && l <= 0.000001)
            && (out.MessageOf().Some? ==> out.ShapeOf() == NullShape && out.ColorOf() == None)
  {
  }

  /** Every other combination gives the null shape, no colour and no message. */
  lemma OtherwiseNothing(jointIndex: nat, point1Label: string, point2Label: string,
                         p1: Vec3, p2: Vec3, vol: real, l: real, dir: Vec3, trig: Trig)
    requires !(jointIndex == 0 && point1Label != "")
    requires !(jointIndex == 1 && point1Label != "" && point2Label != "")
    ensures var out := Recompute(jointIndex, point1Label, point2Label, p1, p2, vol, l, dir, trig);
            out == NoGlyph && out.ShapeOf() == NullShape && out.ColorOf() == None && out.MessageOf() == None
  {
  }

  /** The colour depends only on which glyph was built, not on sizes or points. */
  lemma ColorDependsOnlyOnBranch(jointIndex: nat, point1Label: string, point2Label: string,
                                 p1: Vec3, p2: Vec3, vol: real, l: real, dir: Vec3, trig: Trig,
                                 q1: Vec3, q2: Vec3, vol': real, l': real, dir': Vec3, trig': Trig)
    requires l > MIN_LENGTH <==> l' > MIN_LENGTH
    ensures Recompute(jointIndex, point1Label, point2Label, p1, p2, vol, l, dir, trig).ColorOf()
         == Recompute(jointIndex, point1Label, point2Label, q1, q2, vol', l', dir', trig').ColorOf()
  {
  }

  /** Points (0,0,0) and (0,0,10): the cylinder is 5 long, of radius 0.5, based
      at (0,0,2.5) along +Z, and so spans (0,0,2.5)..(0,0,7.5). */
  lemma TranslationExample(trig: Trig)
    ensures var out := Recompute(1, "P1", "P2", Vec3(0.0, 0.0, 0.0), Vec3(0.0, 0.0, 10.0),
                                 0.0, 10.0, Vec3(0.0, 0.0, 1.0), trig);
            && out.cylinder.height == 5.0 && out.cylinder.radius == 0.5
            && out.cylinder.base == Vec3(0.0, 0.0, 2.5) && out.cylinder.dir == Vec3(0.0, 0.0, 1.0)
  {
  }

  /** One real body of volume v on a ground: the ring's major radius is 7 * v / 50000. */
  lemma OneBodyRingRadius(body1: string, vol1: real, vol2: real, p1: Vec3, trig: Trig)
    requires body1 != GROUND
    ensures var vol := MeanVolume(BodyVolumes(body1, GROUND, vol1, vol2));
            Recompute(0, "P1", "", p1, p1, vol, 0.0, Z_AXIS, trig).torus.majorRadius == 7.0 * vol1 / 50000.0
  {
    OneBodyVolume(body1, GROUND, vol1, vol2);
  }
}
