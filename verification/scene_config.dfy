/** The fixed scene configuration: buffer capacities, the name-to-code lookup
    tables for primitives and shading models, the scene entities, and the
    constructors of the default scene and default performance settings. */
module SceneConfig {
  import opened Linear

  /** Capacity of the shape uniform arrays. */
  const MAX_SHAPES: nat := 8

  /** Capacity of the area-light uniform arrays. */
  const MAX_AREA_LIGHTS: nat := 3

  /** Primitive name to the code the shading program switches on. */
  const ShapeTypeToId: map<string, nat> :=
    map["sphere" := 0, "box" := 1, "plane" := 2, "torus" := 3, "cylinder" := 4]

  /** Shading-model name to the code the shading program switches on. */
  const ShapeShaderToId: map<string, nat> := map["pbr" := 0, "glass" := 1]

  /** The name behind each primitive code, in code order. */
  const PrimitiveNames: seq<string> := ["sphere", "box", "plane", "torus", "cylinder"]

  /** The name behind each shading-model code, in code order. */
  const ShaderNames: seq<string> := ["pbr", "glass"]

  /** A scene shape. `kind` and `shader` are free strings: the editing panel
      offers only table keys, but nothing else enforces that. */
  datatype Shape = Shape(
    name: string,
    kind: string,
    position: Vec3,
    scale: Vec3,
    rotation: Euler,
    color: Rgb,
    roughness: real,
    metallic: real,
    ao: real,
    shader: string)

  /** A rectangular emitter; `size` holds its width and height. */
  datatype AreaLight = AreaLight(
    name: string,
    position: Vec3,
    normal: Vec3,
    size: Vec2,
    color: Rgb,
    intensity: real)

  datatype Environment = Environment(skyTop: Rgb, skyBottom: Rgb, intensity: real)

  /** The four quality knobs. `resolutionScale` and `denoiseStrength` are in
      hundredths (100 stands for 1.0); every value the controller or the editing
      panel can produce is a whole number of hundredths. */
  datatype PerformanceSettings = PerformanceSettings(
    resolutionScale: int,
    maxMarchSteps: int,
    enableAO: bool,
    denoiseStrength: int)

  /** The primitive code of a shape kind; names outside the table fall back to
      code 0. A code decodes back to the name exactly when the name is known. */
  function TypeCode(kind: string): (code: nat)
    ensures code < |PrimitiveNames|
    ensures kind in ShapeTypeToId <==> PrimitiveNames[code] == kind
    ensures kind !in ShapeTypeToId ==> code == 0
  {
    if kind in ShapeTypeToId then ShapeTypeToId[kind] else 0
  }

  /** The shading-model code of a shader name, with the same fallback to 0. */
  function ShaderCode(shader: string): (code: nat)
    ensures code < |ShaderNames|
    ensures shader in ShapeShaderToId <==> ShaderNames[code] == shader
    ensures shader !in ShapeShaderToId ==> code == 0
  {
    if shader in ShapeShaderToId then ShapeShaderToId[shader] else 0
  }

  /** The primitive table is a bijection between the five names and the codes
      0..4: decoding a code and encoding the name gives the code back, and two
      different names never share a code. */
  lemma {:induction false} PrimitiveTableIsBijective()
    ensures ShapeTypeToId.Keys == set c | 0 <= c < |PrimitiveNames| :: PrimitiveNames[c]
    ensures ShapeTypeToId.Values == {0, 1, 2, 3, 4}
    ensures forall c :: 0 <= c < |PrimitiveNames| ==> TypeCode(PrimitiveNames[c]) == c
    ensures forall a, b :: a in ShapeTypeToId && b in ShapeTypeToId && a != b ==> TypeCode(a) != TypeCode(b)
  {
    var names := set c | 0 <= c < |PrimitiveNames| :: PrimitiveNames[c];
    assert PrimitiveNames[0] == "sphere" && PrimitiveNames[1] == "box" && PrimitiveNames[2] == "plane";
    assert PrimitiveNames[3] == "torus" && PrimitiveNames[4] == "cylinder";
    assert names == {"sphere", "box", "plane", "torus", "cylinder"};
    assert ShapeTypeToId.Values == {0, 1, 2, 3, 4} by {
      assert ShapeTypeToId["sphere"] == 0 && ShapeTypeToId["box"] == 1 && ShapeTypeToId["plane"] == 2;
      assert ShapeTypeToId["torus"] == 3 && ShapeTypeToId["cylinder"] == 4;
    }
  }

  /** The shading-model table maps pbr to 0 and glass to 1 and nothing else. */
  lemma {:induction false} ShaderTableIsBijective()
    ensures ShapeShaderToId.Keys == {"pbr", "glass"}
    ensures ShaderCode("pbr") == 0 && ShaderCode("glass") == 1
    ensures forall c :: 0 <= c < |ShaderNames| ==> ShaderCode(ShaderNames[c]) == c
  {
  }

  /** Default quality: full resolution, 120 march steps, ambient occlusion on,
      no denoising. */
  function DefaultPerformanceSettings(): (p: PerformanceSettings)
    ensures p.resolutionScale == 100 && p.maxMarchSteps == 120
    ensures p.enableAO && p.denoiseStrength == 0
  {
    PerformanceSettings(100, 120, true, 0)
  }

  /** Number of shapes of a given kind. */
  function CountKind(shapes: seq<Shape>, kind: string): (n: nat)
    ensures n <= |shapes|
  {
    if |shapes| == 0 then 0
    else (if shapes[0].kind == kind then 1 else 0) + CountKind(shapes[1..], kind)
  }

  lemma CountKindSuffix(shapes: seq<Shape>, i: nat, kind: string)
    requires i < |shapes|
    ensures CountKind(shapes[i..], kind) == (if shapes[i].kind == kind then 1 else 0) + CountKind(shapes[i + 1..], kind)
  {
    assert shapes[i..][1..] == shapes[i + 1..];
  }

  predicate UnitInterval(x: real) {
    0.0 <= x <= 1.0
  }

  /** The default scene: four accent primitives and four room planes (floor,
      left, right and back walls). Plane orientations come from
      `rotationFromNormal` and colours from the hex parser. */
  function CreateDefaultShapes(ops: ThreeOps): (shapes: seq<Shape>)
    ensures |shapes| == MAX_SHAPES
    ensures forall i :: 0 <= i < |shapes| ==>
      shapes[i].kind in ShapeTypeToId && shapes[i].shader in ShapeShaderToId
    ensures forall i :: 0 <= i < |shapes| ==>
      UnitInterval(shapes[i].roughness) && UnitInterval(shapes[i].metallic) && UnitInterval(shapes[i].ao)
    ensures forall i, j :: 0 <= i < j < |shapes| ==> shapes[i].name != shapes[j].name
  {
    [ Shape("Metal Sphere", "sphere", Vec3(-1.93, -0.59, -3.2), Vec3(0.65, 0.65, 0.65),
            Euler(0.0, 0.0, 0.0), ops.parseColor("#ff714a"), 0.25, 0.9, 1.0, "pbr"),
      Shape("Ceramic Box", "box", Vec3(1.2, -0.8, -2.4), Vec3(0.7, 0.4, 0.7),
            Euler(0.0, 0.7, 0.0), ops.parseColor("#ff00a2"), 0.65, 0.05, 0.9, "pbr"),
      Shape("Copper Torus", "torus", Vec3(0.2, 0.1, -3.6), Vec3(1.0, 0.25, 0.0),
            Euler(0.3, 0.4, 0.0), ops.parseColor("#ffb347"), 0.34, 0.61, 1.0, "pbr"),
      Shape("Cylinder", "cylinder", Vec3(-0.3, -0.9, -1.7), Vec3(0.8, 0.3, 0.0),
            Euler(0.0, 0.0, 0.0), ops.parseColor("#f0f7ff"), 0.15, 0.05, 0.85, "pbr"),
      Shape("Matte Plane", "plane", Vec3(0.0, -1.2, 0.0), Vec3(1.0, 1.0, 1.0),
            ops.rotationFromNormal(Vec3(0.0, 1.0, 0.0)), ops.parseColor("#d6d2c9"), 0.9, 0.0, 1.0, "pbr"),
      Shape("Left Wall", "plane", Vec3(-3.5, 0.0, 0.0), Vec3(1.0, 1.0, 1.0),
            ops.rotationFromNormal(Vec3(1.0, 0.0, 0.0)), ops.parseColor("#ff0000"), 0.8, 0.0, 1.0, "pbr"),
      Shape("Right Wall", "plane", Vec3(3.5, 0.0, 0.0), Vec3(1.0, 1.0, 1.0),
            ops.rotationFromNormal(Vec3(-1.0, 0.0, 0.0)), ops.parseColor("#002aff"), 0.85, 0.0, 1.0, "pbr"),
      Shape("Back Wall", "plane", Vec3(0.0, 0.0, -5.5), Vec3(1.0, 1.0, 1.0),
            ops.rotationFromNormal(Vec3(0.0, 0.0, 1.0)), ops.parseColor("#00ff11"), 0.9, 0.0, 1.0, "pbr") ]
  }

  /** The default scene holds four planes and one each of sphere, box, torus
      and cylinder, all with the opaque PBR shading model. */
  lemma DefaultShapesComposition(ops: ThreeOps)
    ensures CountKind(CreateDefaultShapes(ops), "plane") == 4
    ensures forall k :: k in {"sphere", "box", "torus", "cylinder"} ==> CountKind(CreateDefaultShapes(ops), k) == 1
    ensures forall i :: 0 <= i < |CreateDefaultShapes(ops)| ==> ShaderCode(CreateDefaultShapes(ops)[i].shader) == 0
  {
    var s := CreateDefaultShapes(ops);
    forall k | k in {"plane", "sphere", "box", "torus", "cylinder"}
      ensures CountKind(s, k) == (if k == "plane" then 4 else 1)
    {
      assert s[8..] == [];
      CountKindSuffix(s, 7, k);
      CountKindSuffix(s, 6, k);
      CountKindSuffix(s, 5, k);
      CountKindSuffix(s, 4, k);
      CountKindSuffix(s, 3, k);
      CountKindSuffix(s, 2, k);
      CountKindSuffix(s, 1, k);
      CountKindSuffix(s, 0, k);
      assert s[0..] == s;
    }
  }

  /** The two default panels: fewer than the light capacity, each with positive
      intensity and a non-degenerate rectangle. Normals are normalised copies. */
  function CreateDefaultAreaLights(ops: ThreeOps): (lights: seq<AreaLight>)
    ensures |lights| == 2 < MAX_AREA_LIGHTS
    ensures forall i :: 0 <= i < |lights| ==>
      lights[i].intensity > 0.0 && lights[i].size.x > 0.0 && lights[i].size.y > 0.0
  {
    [ AreaLight("Key Panel", Vec3(-2.4, 2.22, 0.74), ops.normalize(Vec3(0.3942, -0.9757, -0.168)),
                Vec2(3.0, 3.0), ops.parseColor("#fff2d8"), 74.5),
      AreaLight("Fill Panel", Vec3(2.91, 0.39, -2.14), ops.normalize(Vec3(-0.9966, -0.47076, -0.37432)),
                Vec2(0.1, 1.36), ops.parseColor("#ffc8a3"), 64.1) ]
  }

  /** The sky gradient: a blue top, a near-black bottom, and a positive
      intensity. */
  function CreateEnvironmentSettings(ops: ThreeOps): (env: Environment)
    ensures env.intensity > 0.0
    ensures env.skyTop == ops.parseColor("#6d8cff") && env.skyBottom == ops.parseColor("#05060a")
  {
    Environment(ops.parseColor("#6d8cff"), ops.parseColor("#05060a"), 1.3)
  }
}
