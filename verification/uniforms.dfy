/** The uniform marshaller: projects the variable-length shape and area-light
    lists into the fixed-capacity arrays the shading program reads. Active
    entries are packed in input order, entries past the capacity are dropped,
    and every unused slot is overwritten with an inert sentinel. */
module Uniforms {
  import opened Linear
  import opened SceneConfig

  /** `count` fresh three.js `Vector4`s, each (0, 0, 0, 1). */
  function InitializeVector4Array(count: nat := MAX_SHAPES): (arr: seq<Vec4>)
    ensures |arr| == count
    ensures forall i :: 0 <= i < |arr| ==> arr[i] == DefaultVec4
  {
    seq(count, _ => DefaultVec4)
  }

  /** `count` fresh three.js `Matrix3`s, each the identity. */
  function InitializeMatrix3Array(count: nat := MAX_SHAPES): (arr: seq<Mat3>)
    ensures |arr| == count
    ensures forall i :: 0 <= i < |arr| ==> arr[i] == Identity3
  {
    seq(count, _ => Identity3)
  }

  /** The shape half of the uniform buffer. */
  datatype ShapeUniforms = ShapeUniforms(
    posType: seq<Vec4>,
    scale: seq<Vec4>,
    colorMetal: seq<Vec4>,
    roughAO: seq<Vec4>,
    rotation: seq<Mat3>,
    count: int)

  /** The area-light half of the uniform buffer. */
  datatype LightUniforms = LightUniforms(
    posIntensity: seq<Vec4>,
    normal: seq<Vec4>,
    size: seq<Vec4>,
    color: seq<Vec4>,
    count: int)

  /** Every shape array holds exactly `MAX_SHAPES` slots. */
  predicate ShapeBuffersSized(u: ShapeUniforms) {
    && |u.posType| == MAX_SHAPES
    && |u.scale| == MAX_SHAPES
    && |u.colorMetal| == MAX_SHAPES
    && |u.roughAO| == MAX_SHAPES
    && |u.rotation| == MAX_SHAPES
  }

  /** Every light array holds exactly `MAX_AREA_LIGHTS` slots. */
  predicate LightBuffersSized(u: LightUniforms) {
    && |u.posIntensity| == MAX_AREA_LIGHTS
    && |u.normal| == MAX_AREA_LIGHTS
    && |u.size| == MAX_AREA_LIGHTS
    && |u.color| == MAX_AREA_LIGHTS
  }

  /** Slot `i` carries shape `s`: position with the primitive code, scale with
      w = 0, colour with metallic, (roughness, ao, shader code, 0), and the
      transposed Euler rotation matrix. */
  predicate PacksShape(u: ShapeUniforms, i: nat, s: Shape, ops: ThreeOps)
    requires ShapeBuffersSized(u) && i < MAX_SHAPES
  {
    && u.posType[i] == Vec4(s.position.x, s.position.y, s.position.z, TypeCode(s.kind) as real)
    && u.scale[i] == Vec4(s.scale.x, s.scale.y, s.scale.z, 0.0)
    && u.colorMetal[i] == Vec4(s.color.r, s.color.g, s.color.b, s.metallic)
    && u.roughAO[i] == Vec4(s.roughness, s.ao, ShaderCode(s.shader) as real, 0.0)
    && u.rotation[i] == Transpose(ops.eulerToMatrix(s.rotation))
  }

  /** The sentinel y coordinate of unused shape slot `i`. */
  function ShapeSentinelY(i: int): real {
    -50.0 - 5.0 * i as real
  }

  /** Unused slot `i` holds a unit, black, untyped shape parked far below the
      scene at y = -50 - 5i with identity rotation. */
  predicate IsShapeSentinel(u: ShapeUniforms, i: nat)
    requires ShapeBuffersSized(u) && i < MAX_SHAPES
  {
    && u.posType[i] == Vec4(0.0, ShapeSentinelY(i), 0.0, 0.0)
    && u.scale[i] == Vec4(1.0, 1.0, 1.0, 0.0)
    && u.colorMetal[i] == ZeroVec4
    && u.roughAO[i] == Vec4(1.0, 1.0, 0.0, 0.0)
    && u.rotation[i] == Identity3
  }

  /** `u` is the marshalled form of `shapes`: the count is the number of shapes
      that fit, the first `count` slots carry those shapes in order, and every
      other slot is a sentinel. */
  predicate MarshalsShapes(u: ShapeUniforms, shapes: seq<Shape>, ops: ThreeOps) {
    && ShapeBuffersSized(u)
    && u.count == Min(|shapes|, MAX_SHAPES)
    && (forall i: nat :: i < u.count ==> PacksShape(u, i, shapes[i], ops))
    && (forall i: nat :: u.count <= i < MAX_SHAPES ==> IsShapeSentinel(u, i))
  }

  /** Slot `i` carries light `l`: (position, intensity), the normalised normal
      with w = 0, (width, height, 0, 0) and (colour, 0). */
  predicate PacksLight(u: LightUniforms, i: nat, l: AreaLight, ops: ThreeOps)
    requires LightBuffersSized(u) && i < MAX_AREA_LIGHTS
  {
    var n := ops.normalize(l.normal);
    && u.posIntensity[i] == Vec4(l.position.x, l.position.y, l.position.z, l.intensity)
    && u.normal[i] == Vec4(n.x, n.y, n.z, 0.0)
    && u.size[i] == Vec4(l.size.x, l.size.y, 0.0, 0.0)
    && u.color[i] == Vec4(l.color.r, l.color.g, l.color.b, 0.0)
  }

  /** The sentinel y coordinate of unused light slot `i`. */
  function LightSentinelY(i: int): real {
    5.0 + 2.0 * i as real
  }

  /** Unused light slot `i` is a zero-size, black, downward-facing panel at
      y = 5 + 2i. */
  predicate IsLightSentinel(u: LightUniforms, i: nat)
    requires LightBuffersSized(u) && i < MAX_AREA_LIGHTS
  {
    && u.posIntensity[i] == Vec4(0.0, LightSentinelY(i), 0.0, 0.0)
    && u.normal[i] == Vec4(0.0, -1.0, 0.0, 0.0)
    && u.size[i] == ZeroVec4
    && u.color[i] == ZeroVec4
  }

  /** `u` is the marshalled form of `lights`. */
  predicate MarshalsLights(u: LightUniforms, lights: seq<AreaLight>, ops: ThreeOps) {
    && LightBuffersSized(u)
    && u.count == Min(|lights|, MAX_AREA_LIGHTS)
    && (forall i: nat :: i < u.count ==> PacksLight(u, i, lights[i], ops))
    && (forall i: nat :: u.count <= i < MAX_AREA_LIGHTS ==> IsLightSentinel(u, i))
  }

  /** Overwrites the shape arrays of `u` from `shapes`: the first loop packs
      the shapes that fit, in order; the second parks every slot from
      `|shapes|` up to the capacity. Array lengths never change. */
  method UpdateShapeUniforms(u: ShapeUniforms, shapes: seq<Shape>, ops: ThreeOps) returns (r: ShapeUniforms)
    requires ShapeBuffersSized(u)
    ensures MarshalsShapes(r, shapes, ops)
  {
    var active := shapes[..Min(|shapes|, MAX_SHAPES)];
    r := u.(count := Min(|shapes|, MAX_SHAPES));
    var idx := 0;
    while idx < |active|
      invariant 0 <= idx <= |active|
      invariant ShapeBuffersSized(r) && r.count == Min(|shapes|, MAX_SHAPES)
      invariant forall j: nat :: j < idx ==> PacksShape(r, j, active[j], ops)
    {
      var shape := active[idx];
      r := r.(
        posType := r.posType[idx := Vec4(shape.position.x, shape.position.y, shape.position.z, TypeCode(shape.kind) as real)],
        scale := r.scale[idx := Vec4(shape.scale.x, shape.scale.y, shape.scale.z, 0.0)],
        colorMetal := r.colorMetal[idx := Vec4(shape.color.r, shape.color.g, shape.color.b, shape.metallic)],
        roughAO := r.roughAO[idx := Vec4(shape.roughness, shape.ao, ShaderCode(shape.shader) as real, 0.0)],
        rotation := r.rotation[idx := Transpose(ops.eulerToMatrix(shape.rotation))]);
      idx := idx + 1;
    }
    var i := |shapes|;
    while i < MAX_SHAPES
      invariant |shapes| <= i
      invariant i <= MAX_SHAPES || i == |shapes|
      invariant ShapeBuffersSized(r) && r.count == Min(|shapes|, MAX_SHAPES)
      invariant forall j: nat :: j < |active| ==> PacksShape(r, j, active[j], ops)
      invariant forall j: nat :: |shapes| <= j < i && j < MAX_SHAPES ==> IsShapeSentinel(r, j)
    {
      ghost var prev := r;
      r := r.(
        posType := r.posType[i := Vec4(0.0, -50.0 - i as real * 5.0, 0.0, 0.0)],
        scale := r.scale[i := Vec4(1.0, 1.0, 1.0, 0.0)],
        colorMetal := r.colorMetal[i := Vec4(0.0, 0.0, 0.0, 0.0)],
        roughAO := r.roughAO[i := Vec4(1.0, 1.0, 0.0, 0.0)],
        rotation := r.rotation[i := Identity3]);
      forall j: nat | |shapes| <= j < i + 1 && j < MAX_SHAPES
        ensures IsShapeSentinel(r, j)
      {
        if j < i {
          assert IsShapeSentinel(prev, j);
        }
      }
      i := i + 1;
    }
  }

  /** Overwrites the light arrays of `u` from `lights`, normalising a copy of
      each normal; the light records themselves are values and stay as given. */
  method UpdateAreaLightUniforms(u: LightUniforms, lights: seq<AreaLight>, ops: ThreeOps) returns (r: LightUniforms)
    requires LightBuffersSized(u)
    ensures MarshalsLights(r, lights, ops)
  {
    var active := lights[..Min(|lights|, MAX_AREA_LIGHTS)];
    r := u.(count := Min(|lights|, MAX_AREA_LIGHTS));
    var idx := 0;
    while idx < |active|
      invariant 0 <= idx <= |active|
      invariant LightBuffersSized(r) && r.count == Min(|lights|, MAX_AREA_LIGHTS)
      invariant forall j: nat :: j < idx ==> PacksLight(r, j, active[j], ops)
    {
      var light := active[idx];
      var normal := ops.normalize(light.normal);
      r := r.(
        posIntensity := r.posIntensity[idx := Vec4(light.position.x, light.position.y, light.position.z, light.intensity)],
        normal := r.normal[idx := Vec4(normal.x, normal.y, normal.z, 0.0)],
        size := r.size[idx := Vec4(light.size.x, light.size.y, 0.0, 0.0)],
        color := r.color[idx := Vec4(light.color.r, light.color.g, light.color.b, 0.0)]);
      idx := idx + 1;
    }
    var i := |lights|;
    while i < MAX_AREA_LIGHTS
      invariant |lights| <= i
      invariant i <= MAX_AREA_LIGHTS || i == |lights|
      invariant LightBuffersSized(r) && r.count == Min(|lights|, MAX_AREA_LIGHTS)
      invariant forall j: nat :: j < |active| ==> PacksLight(r, j, active[j], ops)
      invariant forall j: nat :: |lights| <= j < i && j < MAX_AREA_LIGHTS ==> IsLightSentinel(r, j)
    {
      ghost var prev := r;
      r := r.(
        posIntensity := r.posIntensity[i := Vec4(0.0, 5.0 + i as real * 2.0, 0.0, 0.0)],
        normal := r.normal[i := Vec4(0.0, -1.0, 0.0, 0.0)],
        size := r.size[i := Vec4(0.0, 0.0, 0.0, 0.0)],
        color := r.color[i := Vec4(0.0, 0.0, 0.0, 0.0)]);
      forall j: nat | |lights| <= j < i + 1 && j < MAX_AREA_LIGHTS
        ensures IsLightSentinel(r, j)
      {
        if j < i {
          assert IsLightSentinel(prev, j);
        }
      }
      i := i + 1;
    }
  }

  /** The buffers allocated at start-up, with the initial counts the renderer
      writes before the first marshalling pass. */
  function InitialShapeUniforms(shapeCount: int): (u: ShapeUniforms)
    ensures ShapeBuffersSized(u) && u.count == shapeCount
    ensures forall i :: 0 <= i < MAX_SHAPES ==>
      && u.posType[i] == DefaultVec4 && u.scale[i] == DefaultVec4
      && u.colorMetal[i] == DefaultVec4 && u.roughAO[i] == DefaultVec4
      && u.rotation[i] == Identity3
  {
    ShapeUniforms(InitializeVector4Array(MAX_SHAPES), InitializeVector4Array(MAX_SHAPES),
                  InitializeVector4Array(MAX_SHAPES), InitializeVector4Array(MAX_SHAPES),
                  InitializeMatrix3Array(MAX_SHAPES), shapeCount)
  }

  function InitialLightUniforms(lightCount: int): (u: LightUniforms)
    ensures LightBuffersSized(u) && u.count == lightCount
    ensures forall i :: 0 <= i < MAX_AREA_LIGHTS ==>
      && u.posIntensity[i] == DefaultVec4 && u.normal[i] == DefaultVec4
      && u.size[i] == DefaultVec4 && u.color[i] == DefaultVec4
  {
    LightUniforms(InitializeVector4Array(MAX_AREA_LIGHTS), InitializeVector4Array(MAX_AREA_LIGHTS),
                  InitializeVector4Array(MAX_AREA_LIGHTS), InitializeVector4Array(MAX_AREA_LIGHTS), lightCount)
  }

  /** Called without a count, the initialisers size their arrays for the shape
      capacity. */
  lemma InitializersDefaultToShapeCapacity()
    ensures |InitializeVector4Array()| == MAX_SHAPES && |InitializeMatrix3Array()| == MAX_SHAPES
    ensures InitializeVector4Array() == InitializeVector4Array(MAX_SHAPES)
  {
  }

  /** Two shape buffers that both marshal the same list are equal: every slot
      and the count are fixed by `shapes` alone, so neither the previous
      buffer contents nor a repeated pass can change the outcome. */
  lemma {:induction false} MarshalledShapesAreDetermined(u1: ShapeUniforms, u2: ShapeUniforms, shapes: seq<Shape>, ops: ThreeOps)
    requires MarshalsShapes(u1, shapes, ops) && MarshalsShapes(u2, shapes, ops)
    ensures u1 == u2
  {
    forall i: nat | i < MAX_SHAPES
      ensures u1.posType[i] == u2.posType[i] && u1.scale[i] == u2.scale[i]
      ensures u1.colorMetal[i] == u2.colorMetal[i] && u1.roughAO[i] == u2.roughAO[i]
      ensures u1.rotation[i] == u2.rotation[i]
    {
      if i < u1.count {
        assert PacksShape(u1, i, shapes[i], ops) && PacksShape(u2, i, shapes[i], ops);
      } else {
        assert IsShapeSentinel(u1, i) && IsShapeSentinel(u2, i);
      }
    }
    assert u1.posType == u2.posType;
    assert u1.scale == u2.scale;
    assert u1.colorMetal == u2.colorMetal;
    assert u1.roughAO == u2.roughAO;
    assert u1.rotation == u2.rotation;
  }

  /** Two light buffers that both marshal the same list are equal. */
  lemma {:induction false} MarshalledLightsAreDetermined(u1: LightUniforms, u2: LightUniforms, lights: seq<AreaLight>, ops: ThreeOps)
    requires MarshalsLights(u1, lights, ops) && MarshalsLights(u2, lights, ops)
    ensures u1 == u2
  {
    forall i: nat | i < MAX_AREA_LIGHTS
      ensures u1.posIntensity[i] == u2.posIntensity[i] && u1.normal[i] == u2.normal[i]
      ensures u1.size[i] == u2.size[i] && u1.color[i] == u2.color[i]
    {
      if i < u1.count {
        assert PacksLight(u1, i, lights[i], ops) && PacksLight(u2, i, lights[i], ops);
      } else {
        assert IsLightSentinel(u1, i) && IsLightSentinel(u2, i);
      }
    }
    assert u1.posIntensity == u2.posIntensity;
    assert u1.normal == u2.normal;
    assert u1.size == u2.size;
    assert u1.color == u2.color;
  }

  /** Shapes past the capacity are never read: marshalling a list gives
      exactly the buffers that marshalling its first `MAX_SHAPES` entries
      gives. */
  lemma {:induction false} ShapesPastCapacityAreIgnored(u: ShapeUniforms, shapes: seq<Shape>, ops: ThreeOps)
    ensures MarshalsShapes(u, shapes, ops) <==> MarshalsShapes(u, shapes[..Min(|shapes|, MAX_SHAPES)], ops)
  {
    var kept := shapes[..Min(|shapes|, MAX_SHAPES)];
    assert |kept| == Min(|kept|, MAX_SHAPES);
    assert forall i :: 0 <= i < |kept| ==> kept[i] == shapes[i];
  }

  /** Lights past the capacity are never read. */
  lemma {:induction false} LightsPastCapacityAreIgnored(u: LightUniforms, lights: seq<AreaLight>, ops: ThreeOps)
    ensures MarshalsLights(u, lights, ops) <==> MarshalsLights(u, lights[..Min(|lights|, MAX_AREA_LIGHTS)], ops)
  {
    var kept := lights[..Min(|lights|, MAX_AREA_LIGHTS)];
    assert |kept| == Min(|kept|, MAX_AREA_LIGHTS);
    assert forall i :: 0 <= i < |kept| ==> kept[i] == lights[i];
  }

  /** Unused shape slots are parked at pairwise distinct depths, all at or
      below y = -50, and contribute no colour. */
  lemma ShapeSentinelsAreIsolated(u: ShapeUniforms, shapes: seq<Shape>, ops: ThreeOps)
    requires MarshalsShapes(u, shapes, ops)
    ensures forall i: nat :: u.count <= i < MAX_SHAPES ==>
      u.posType[i].y <= -50.0 && u.colorMetal[i] == ZeroVec4
    ensures forall i: nat, j: nat :: u.count <= i < j < MAX_SHAPES ==> u.posType[i].y != u.posType[j].y
  {
    forall i: nat | u.count <= i < MAX_SHAPES
      ensures u.posType[i].y <= -50.0 && u.colorMetal[i] == ZeroVec4
    {
      assert IsShapeSentinel(u, i);
    }
    forall i: nat, j: nat | u.count <= i < j < MAX_SHAPES
      ensures u.posType[i].y != u.posType[j].y
    {
      assert IsShapeSentinel(u, i) && IsShapeSentinel(u, j);
    }
  }

  /** The default scene fills every shape slot, and each primitive code
      decodes back to the shape's own kind: no default shape falls back to
      code 0 by accident. */
  lemma DefaultSceneNeedsNoFallback(u: ShapeUniforms, ops: ThreeOps)
    requires MarshalsShapes(u, CreateDefaultShapes(ops), ops)
    ensures u.count == MAX_SHAPES
    ensures forall i :: 0 <= i < MAX_SHAPES ==>
      0 <= u.posType[i].w.Floor < |PrimitiveNames| && PrimitiveNames[u.posType[i].w.Floor] == CreateDefaultShapes(ops)[i].kind
  {
    var shapes := CreateDefaultShapes(ops);
    forall i | 0 <= i < MAX_SHAPES
      ensures 0 <= u.posType[i].w.Floor < |PrimitiveNames| && PrimitiveNames[u.posType[i].w.Floor] == shapes[i].kind
    {
      assert PacksShape(u, i, shapes[i], ops);
      assert shapes[i].kind in ShapeTypeToId;
    }
  }
}
