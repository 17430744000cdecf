/** The camera's visible cone: a flat triangle fan rebuilt every frame, with one ray per
    segment boundary, each ray shortened to the first obstacle when clipping is on. The
    ray directions (a rotation of the forward axis) and the raycasts are engine oracles;
    what is modelled is the index structure of the mesh arrays, the ray angles and the
    ray lengths, and the sync of the cone's settings with the linked camera. */
module VisionConeModel {
  import opened Unity
  import opened SecurityCameraModel

  /** The segment count Rebuild uses: raised to at least 6. */
  function EffectiveSegments(segments: int): (r: int)
    ensures r >= 6
    ensures segments >= 6 ==> r == segments
  {
    if segments < 6 then 6 else segments
  }

  /** The angle of ray `i` of `segments`: `start + step * i`. */
  function RayAngle(halfAngle: real, segments: int, i: int): real
    requires segments > 0
  {
    -halfAngle + (halfAngle * 2.0) / (segments as real) * (i as real)
  }

  /** The rays run from one edge of the cone to the other in equal steps. */
  lemma RayAnglesSpanTheCone(halfAngle: real, segments: int)
    requires segments > 0
    ensures RayAngle(halfAngle, segments, 0) == -halfAngle
    ensures RayAngle(halfAngle, segments, segments) == halfAngle
    ensures forall i :: 0 <= i < segments ==>
              RayAngle(halfAngle, segments, i + 1) - RayAngle(halfAngle, segments, i) ==
              (halfAngle * 2.0) / (segments as real)
  {
    var step := (halfAngle * 2.0) / (segments as real);
    assert step * (segments as real) == halfAngle * 2.0;
    forall i | 0 <= i < segments
      ensures RayAngle(halfAngle, segments, i + 1) - RayAngle(halfAngle, segments, i) == step
    {
      assert step * ((i + 1) as real) == step * (i as real) + step;
    }
  }

  /** A ray's length: the view distance, or the obstacle distance when clipping is on and
      the raycast (limited to the view distance) hits something. */
  function RayDistance(viewDistance: real, clipToObstacles: bool, hit: Option<real>): (r: real)
    requires hit.Some? ==> hit.value <= viewDistance
    ensures r <= viewDistance
    ensures r == viewDistance || (clipToObstacles && hit.Some? && r == hit.value)
    ensures !clipToObstacles || hit.None? ==> r == viewDistance
    // a clipping hit shortens the ray to the obstacle
    ensures clipToObstacles && hit.Some? ==> r == hit.value
  {
    if clipToObstacles && hit.Some? then hit.value else viewDistance
  }

  /** The triangle index list of a fan of `n` triangles, one triangle (0, i+1, i+2) after
      another. */
  function FanTriangles(n: nat): seq<int> {
    if n == 0 then [] else FanTriangles(n - 1) + [0, n, n + 1]
  }

  /** The fan's structure: 3n indices, triangle i is (0, i+1, i+2), so every index names one
      of the n+2 vertices, and consecutive triangles share an edge. */
  lemma {:induction false} FanTrianglesShape(n: nat)
    ensures |FanTriangles(n)| == 3 * n
    ensures forall i :: 0 <= i < n ==> FanTriangles(n)[3 * i..3 * i + 3] == [0, i + 1, i + 2]
    ensures forall k :: 0 <= k < 3 * n ==> 0 <= FanTriangles(n)[k] < n + 2
    ensures forall i :: 0 <= i < n - 1 ==> FanTriangles(n)[3 * i + 2] == FanTriangles(n)[3 * (i + 1) + 1]
  {
    if n > 0 {
      FanTrianglesShape(n - 1);
      var prev := FanTriangles(n - 1);
      var t := FanTriangles(n);
      assert t == prev + [0, n, n + 1];
      forall i | 0 <= i < n
        ensures t[3 * i..3 * i + 3] == [0, i + 1, i + 2]
      {
        if i < n - 1 {
          assert t[3 * i..3 * i + 3] == prev[3 * i..3 * i + 3];
        } else {
          assert t[3 * i..3 * i + 3] == [0, n, n + 1];
        }
      }
      forall k | 0 <= k < 3 * n
        ensures 0 <= t[k] < n + 2
      {
        if k < 3 * (n - 1) {
          assert t[k] == prev[k];
        }
      }
      forall i | 0 <= i < n - 1
        ensures t[3 * i + 2] == t[3 * (i + 1) + 1]
      {
        assert t[3 * i..3 * i + 3] == [0, i + 1, i + 2];
        assert t[3 * (i + 1)..3 * (i + 1) + 3] == [0, i + 2, i + 3];
      }
    }
  }

  /** The engine's raycast, given a ray angle and a maximum distance, reports a hit only
      within that distance. */
  ghost predicate RaycastHonoursRange(rayHit: (real, real) -> Option<real>) {
    forall a: real, m: real :: rayHit(a, m).Some? ==> rayHit(a, m).value <= m
  }

  /** The cone settings a rebuild reads. */
  datatype ConeSettings = ConeSettings(viewDistance: real, viewHalfAngle: real, segments: int,
                                       yOffset: real, clipToObstacles: bool)

  /** Vertex `i + 1` of the fan: the end of ray `i`, lifted to the mesh plane. */
  function RimVertex(c: ConeSettings, dirOf: real -> Vec3, rayHit: (real, real) -> Option<real>,
                     i: int): Vec3
    requires c.segments > 0 && RaycastHonoursRange(rayHit)
  {
    var ang := RayAngle(c.viewHalfAngle, c.segments, i);
    var dist := RayDistance(c.viewDistance, c.clipToObstacles, rayHit(ang, c.viewDistance));
    Vec3(dirOf(ang).x * dist, c.yOffset, dirOf(ang).z * dist)
  }

  /** Vertices and UVs 1..m hold the ends of rays 0..m-1 and their texture coordinates. */
  ghost predicate RimFilled(c: ConeSettings, dirOf: real -> Vec3, rayHit: (real, real) -> Option<real>,
                            v: array<Vec3>, uv: array<Vec2>, m: int)
    requires c.segments > 0 && RaycastHonoursRange(rayHit)
    requires m < v.Length && m < uv.Length
    reads v, uv
  {
    (forall k :: 1 <= k <= m ==> v[k] == RimVertex(c, dirOf, rayHit, k - 1)) &&
    (forall k :: 1 <= k <= m ==> uv[k] == Vec2(((k - 1) as real) / (c.segments as real), 1.0))
  }

  class VisionCone {
    /** The linked camera, if any. */
    var cameraLogic: SecurityCamera?
    var viewDistance: real
    var viewHalfAngle: real
    var segments: int
    var yOffset: real
    var clipToObstacles: bool

    /** The arrays last handed to the mesh. */
    var vertices: array<Vec3>
    var uvs: array<Vec2>
    var triangles: array<int>

    constructor (cameraLogic: SecurityCamera?, viewDistance: real, viewHalfAngle: real,
                 segments: int, yOffset: real, clipToObstacles: bool)
      ensures this.cameraLogic == cameraLogic && this.viewDistance == viewDistance
      ensures this.viewHalfAngle == viewHalfAngle && this.segments == segments
      ensures this.yOffset == yOffset && this.clipToObstacles == clipToObstacles
    {
      this.cameraLogic := cameraLogic;
      this.viewDistance := viewDistance;
      this.viewHalfAngle := viewHalfAngle;
      this.segments := segments;
      this.yOffset := yOffset;
      this.clipToObstacles := clipToObstacles;
      vertices := new Vec3[0];
      uvs := new Vec2[0];
      triangles := new int[0];
    }

    /** The settings a rebuild reads. */
    function Settings(): ConeSettings
      reads this
    {
      ConeSettings(viewDistance, viewHalfAngle, segments, yOffset, clipToObstacles)
    }

    /** The end of ray `i` under settings `c`: its angle, then its length (clipped by the
        raycast when clipping is on), along the direction the engine gives for that angle. */
    static method RayEnd(c: ConeSettings, dirOf: real -> Vec3, rayHit: (real, real) -> Option<real>,
                         start: real, step: real, i: int) returns (p: Vec3)
      requires c.segments > 0 && RaycastHonoursRange(rayHit)
      requires start == -c.viewHalfAngle && step == (c.viewHalfAngle * 2.0) / (c.segments as real)
      ensures p == RimVertex(c, dirOf, rayHit, i)
    {
      var ang := start + step * (i as real);
      var dir := dirOf(ang);
      var dist := c.viewDistance;
      if c.clipToObstacles {
        var hit := rayHit(ang, c.viewDistance);
        if hit.Some? {
          dist := hit.value;
        }
      }
      p := Vec3(dir.x * dist, c.yOffset, dir.z * dist);
      assert ang == RayAngle(c.viewHalfAngle, c.segments, i);
      assert dist == RayDistance(c.viewDistance, c.clipToObstacles, rayHit(ang, c.viewDistance));
    }

    /** Writes vertex and UV `i + 1`, for ray `i`, after those of the rays before it. */
    static method WriteRay(c: ConeSettings, dirOf: real -> Vec3, rayHit: (real, real) -> Option<real>,
                           start: real, step: real, v: array<Vec3>, uv: array<Vec2>, i: nat)
      requires c.segments > 0 && RaycastHonoursRange(rayHit)
      requires start == -c.viewHalfAngle && step == (c.viewHalfAngle * 2.0) / (c.segments as real)
      requires i + 1 < v.Length && i + 1 < uv.Length
      requires RimFilled(c, dirOf, rayHit, v, uv, i)
      modifies v, uv
      ensures RimFilled(c, dirOf, rayHit, v, uv, i + 1)
      ensures v[0] == old(v[0]) && uv[0] == old(uv[0])
    {
      v[i + 1] := RayEnd(c, dirOf, rayHit, start, step, i);
      uv[i + 1] := Vec2((i as real) / (c.segments as real), 1.0);
    }

    /** Writes triangle `i` of the fan, (0, i+1, i+2), after the `i` triangles before it. */
    static method WriteTriangle(tris: array<int>, i: nat)
      requires 3 * i + 3 <= tris.Length && tris[..3 * i] == FanTriangles(i)
      modifies tris
      ensures tris[..3 * (i + 1)] == FanTriangles(i + 1)
    {
      var t := i * 3;
      tris[t + 0] := 0;
      tris[t + 1] := i + 1;
      tris[t + 2] := i + 2;
      assert tris[..3 * i] == old(tris[..3 * i]);
      assert tris[..3 * i + 3] == tris[..3 * i] + [0, i + 1, i + 2];
    }

    /** Fresh vertex, UV and triangle arrays for the fan of the settings `c`; `dirOf` gives
        a ray's direction from its angle and `rayHit` is the raycast. */
    static method BuildFan(c: ConeSettings, dirOf: real -> Vec3, rayHit: (real, real) -> Option<real>)
      returns (v: array<Vec3>, uv: array<Vec2>, tris: array<int>)
      requires c.segments > 0 && RaycastHonoursRange(rayHit)
      ensures fresh(v) && fresh(uv) && fresh(tris)
      ensures v.Length == c.segments + 2 && uv.Length == c.segments + 2
      ensures tris[..] == FanTriangles(c.segments)
      ensures v[0] == Vec3(0.0, c.yOffset, 0.0) && uv[0] == Vec2(0.5, 0.0)
      ensures RimFilled(c, dirOf, rayHit, v, uv, c.segments + 1)
    {
      var n := c.segments;
      var vertCount := n + 2;
      var triCount := n;
      v := new Vec3[vertCount];
      uv := new Vec2[vertCount];
      tris := new int[triCount * 3];
      v[0] := Vec3(0.0, c.yOffset, 0.0);
      uv[0] := Vec2(0.5, 0.0);
      var start := -c.viewHalfAngle;
      var step := (c.viewHalfAngle * 2.0) / (n as real);
      for i := 0 to n + 1
        invariant v[0] == Vec3(0.0, c.yOffset, 0.0) && uv[0] == Vec2(0.5, 0.0)
        invariant RimFilled(c, dirOf, rayHit, v, uv, i)
        invariant i <= n ==> tris[..3 * i] == FanTriangles(i)
        invariant i == n + 1 ==> tris[..] == FanTriangles(n)
      {
        WriteRay(c, dirOf, rayHit, start, step, v, uv, i);
        if i < n {
          WriteTriangle(tris, i);
        } else {
          assert tris[..] == tris[..3 * i];
        }
      }
    }

    /** Raises the segment count to at least 6, then builds the fan for the current
        settings and hands its arrays to the mesh. */
    method Rebuild(dirOf: real -> Vec3, rayHit: (real, real) -> Option<real>)
      requires RaycastHonoursRange(rayHit)
      modifies this`segments, this`vertices, this`uvs, this`triangles
      ensures segments == EffectiveSegments(old(segments))
      ensures fresh(vertices) && fresh(uvs) && fresh(triangles)
      ensures vertices.Length == segments + 2 && uvs.Length == segments + 2
      ensures triangles[..] == FanTriangles(segments)
      ensures vertices[0] == Vec3(0.0, yOffset, 0.0) && uvs[0] == Vec2(0.5, 0.0)
      // vertex and UV k >= 1 belong to ray k - 1
      ensures RimFilled(Settings(), dirOf, rayHit, vertices, uvs, segments + 1)
    {
      if segments < 6 {
        segments := 6;
      }
      var v, uv, tris := BuildFan(Settings(), dirOf, rayHit);
      vertices, uvs, triangles := v, uv, tris;
    }

    /** Follows the linked camera's view distance and half-angle (unless both already
        match), then rebuilds. */
    method LateUpdate(dirOf: real -> Vec3, rayHit: (real, real) -> Option<real>)
      requires RaycastHonoursRange(rayHit)
      modifies this`viewDistance, this`viewHalfAngle, this`segments, this`vertices, this`uvs,
               this`triangles
      ensures cameraLogic != null &&
              !(Approximately(old(viewDistance), cameraLogic.viewDistance) &&
                Approximately(old(viewHalfAngle), cameraLogic.viewHalfAngle)) ==>
                viewDistance == cameraLogic.viewDistance && viewHalfAngle == cameraLogic.viewHalfAngle
      ensures cameraLogic == null ||
              (Approximately(old(viewDistance), cameraLogic.viewDistance) &&
               Approximately(old(viewHalfAngle), cameraLogic.viewHalfAngle)) ==>
                viewDistance == old(viewDistance) && viewHalfAngle == old(viewHalfAngle)
      // either way the cone now agrees with the camera up to Mathf.Approximately
      ensures cameraLogic != null ==>
                Approximately(viewDistance, cameraLogic.viewDistance) &&
                Approximately(viewHalfAngle, cameraLogic.viewHalfAngle)
      ensures segments == EffectiveSegments(old(segments))
      ensures fresh(vertices) && fresh(uvs) && fresh(triangles)
      ensures vertices.Length == segments + 2 && uvs.Length == segments + 2
      ensures triangles[..] == FanTriangles(segments)
      ensures vertices[0] == Vec3(0.0, yOffset, 0.0) && uvs[0] == Vec2(0.5, 0.0)
      ensures RimFilled(Settings(), dirOf, rayHit, vertices, uvs, segments + 1)
    {
      if cameraLogic != null {
        if !Approximately(viewDistance, cameraLogic.viewDistance) ||
           !Approximately(viewHalfAngle, cameraLogic.viewHalfAngle) {
          viewDistance := cameraLogic.viewDistance;
          viewHalfAngle := cameraLogic.viewHalfAngle;
        }
      }
      Rebuild(dirOf, rayHit);
    }
  }
}
