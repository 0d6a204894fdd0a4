/**
  * Fitting the orthographic shadow camera to the scene bounds, as
  * VSMShadowManager.RenderShadowMap does before it renders: the camera backs
  * off from the scene center against the light direction, looks along the
  * light, and gets an orthographic size and clip planes derived from the size
  * of the bounds.
  */
module LightFrustum {
  import opened Geometry

  /** The light's orientation; the camera copies it unchanged. */
  datatype Quaternion = Quaternion(x: real, y: real, z: real, w: real)

  /** The camera state the fitting writes. */
  datatype Frustum = Frustum(
    position: Vec3,
    rotation: Quaternion,
    orthographicSize: real,
    nearClipPlane: real,
    farClipPlane: real)

  /** How far beyond the scene's diagonal the camera stands. */
  const DistanceMargin: real := 10.0
  /** The share of the larger horizontal size taken as orthographic size. */
  const FitFactor: real := 0.7
  const NearClip: real := 0.1
  /** Extra depth behind the far side of the scene. */
  const FarMargin: real := 5.0

  /**
    * The camera for scene bounds `scene`, a light looking along `forward` with
    * orientation `rotation`, and the configured lower bound `shadowMapSize` on
    * the orthographic size. `sizeMagnitude` is the length of the scene's size
    * vector, which the engine computes; the guarantees below need only that it
    * is not negative, SceneWithinDepthRange needs it to be that length.
    */
  function FitShadowCamera(scene: Bounds, forward: Vec3, rotation: Quaternion,
                           shadowMapSize: real, sizeMagnitude: real): (f: Frustum)
    requires sizeMagnitude >= 0.0
    // the camera stands sizeMagnitude + 10 back from the center, against the light
    ensures Sub(scene.Center(), f.position) == Scale(forward, sizeMagnitude + DistanceMargin)
    ensures f.rotation == rotation
    // the orthographic size is the larger of the two candidates
    ensures f.orthographicSize >= shadowMapSize
    ensures f.orthographicSize >= FitFactor * Max(scene.Size().x, scene.Size().z)
    ensures f.orthographicSize == shadowMapSize
         || f.orthographicSize == FitFactor * Max(scene.Size().x, scene.Size().z)
    // the depth range is non-empty and in front of the camera
    ensures 0.0 < f.nearClipPlane < f.farClipPlane
  {
    var size := scene.Size();
    var cameraDistance := sizeMagnitude + DistanceMargin;
    var orthoSize := Max(size.x, size.z) * FitFactor;
    Frustum(
      Sub(scene.Center(), Scale(forward, cameraDistance)),
      rotation,
      Max(orthoSize, shadowMapSize),
      NearClip,
      cameraDistance + sizeMagnitude + FarMargin)
  }

  /** The depth of `p` along the view axis `forward` of a camera at `f.position`. */
  function Depth(f: Frustum, forward: Vec3, p: Vec3): real
  {
    Dot(Sub(p, f.position), forward)
  }

  /**
    * For a unit light direction, every point of the scene bounds lies between
    * the near and far clip planes of the fitted camera, so nothing in the
    * bounds is clipped in depth.
    */
  lemma SceneWithinDepthRange(scene: Bounds, forward: Vec3, rotation: Quaternion,
                              shadowMapSize: real, sizeMagnitude: real, p: Vec3)
    requires IsMagnitude(scene.Size(), sizeMagnitude)
    requires IsUnit(forward)
    requires ContainsPoint(scene, p)
    ensures var f := FitShadowCamera(scene, forward, rotation, shadowMapSize, sizeMagnitude);
            f.nearClipPlane <= Depth(f, forward, p) <= f.farClipPlane
  {
    var f := FitShadowCamera(scene, forward, rotation, shadowMapSize, sizeMagnitude);
    var t := Dot(Sub(p, scene.Center()), forward);
    // the depth is the offset from the center along the view axis, plus the distance
    DepthFromCenter(scene.Center(), forward, sizeMagnitude + DistanceMargin, p);
    assert Depth(f, forward, p) == t + (sizeMagnitude + DistanceMargin);
    // and that offset is at most half the diagonal either way
    OffsetAlongAxis(scene, forward, sizeMagnitude, p);
  }

  /** Along a unit axis, a point of the box is within half the diagonal of its center. */
  lemma OffsetAlongAxis(scene: Bounds, forward: Vec3, sizeMagnitude: real, p: Vec3)
    requires IsMagnitude(scene.Size(), sizeMagnitude)
    requires IsUnit(forward)
    requires ContainsPoint(scene, p)
    ensures -sizeMagnitude / 2.0 <= Dot(Sub(p, scene.Center()), forward) <= sizeMagnitude / 2.0
  {
    var u := Sub(p, scene.Center());
    var t, q := Dot(u, forward), Dot(u, u);
    OffsetFromCenter(scene, p);
    assert 4.0 * q <= sizeMagnitude * sizeMagnitude;
    UnitCauchySchwarz(u, forward);
    assert t * t <= q;
    HalfOfSquareBound(t, q, sizeMagnitude);
  }

  /** Every point of `scene` lies between the near and far planes of `f`, along `forward`. */
  ghost predicate DepthCovers(scene: Bounds, forward: Vec3, f: Frustum)
  {
    forall p | ContainsPoint(scene, p) :: f.nearClipPlane <= Depth(f, forward, p) <= f.farClipPlane
  }

  /** SceneWithinDepthRange for all points of the bounds at once. */
  lemma FitCoversDepth(scene: Bounds, forward: Vec3, rotation: Quaternion,
                       shadowMapSize: real, sizeMagnitude: real)
    requires IsMagnitude(scene.Size(), sizeMagnitude)
    requires IsUnit(forward)
    ensures DepthCovers(scene, forward,
                        FitShadowCamera(scene, forward, rotation, shadowMapSize, sizeMagnitude))
  {
    forall p | ContainsPoint(scene, p)
      ensures var f := FitShadowCamera(scene, forward, rotation, shadowMapSize, sizeMagnitude);
              f.nearClipPlane <= Depth(f, forward, p) <= f.farClipPlane
    {
      SceneWithinDepthRange(scene, forward, rotation, shadowMapSize, sizeMagnitude, p);
    }
  }

  // ---------------------------------------------------------------------
  // Lateral coverage of the orthographic box

  /**
    * The fitted orthographic box does not always hold the scene: take the
    * scene from (-w, 0, -w) to (w, h, w) seen along +z with the identity
    * rotation, so the camera's up axis is the unit vector +y, across the view
    * direction. When h is more than twice the orthographic size, the top of
    * the scene is outside the box, whatever the size length is. For instance
    * w = 10, h = 40 and shadowMapSize = 10 give size 14 and a top 20 above
    * the view axis.
    */
  lemma FitMissesTallScene(w: real, h: real, forward: Vec3, rotation: Quaternion, up: Vec3,
                           shadowMapSize: real, sizeMagnitude: real)
    requires w > 0.0 && sizeMagnitude >= 0.0
    requires h > 2.8 * w && h > 2.0 * shadowMapSize
    requires forward == Vec3(0.0, 0.0, 1.0) && up == Vec3(0.0, 1.0, 0.0)
    requires rotation == Quaternion(0.0, 0.0, 0.0, 1.0)
    ensures var scene := Bounds(Vec3(-w, 0.0, -w), Vec3(w, h, w));
            var top := Vec3(0.0, h, 0.0);
            var f := FitShadowCamera(scene, forward, rotation, shadowMapSize, sizeMagnitude);
            && ContainsPoint(scene, top)
            && f.rotation == rotation
            && f.orthographicSize == Max(1.4 * w, shadowMapSize)
            && Dot(Sub(top, f.position), up) == h / 2.0
            && h / 2.0 > f.orthographicSize
  {
  }

  /**
    * The fitting with the half diagonal as a third lower bound on the
    * orthographic size; everything else is as FitShadowCamera computes it.
    */
  function FitShadowCameraCovering(scene: Bounds, forward: Vec3, rotation: Quaternion,
                                   shadowMapSize: real, sizeMagnitude: real): (f: Frustum)
    requires sizeMagnitude >= 0.0
    ensures var g := FitShadowCamera(scene, forward, rotation, shadowMapSize, sizeMagnitude);
            && f.position == g.position && f.rotation == g.rotation
            && f.nearClipPlane == g.nearClipPlane && f.farClipPlane == g.farClipPlane
            && f.orthographicSize >= g.orthographicSize
            && f.orthographicSize >= sizeMagnitude / 2.0
            && (f.orthographicSize == g.orthographicSize || f.orthographicSize == sizeMagnitude / 2.0)
  {
    var g := FitShadowCamera(scene, forward, rotation, shadowMapSize, sizeMagnitude);
    g.(orthographicSize := Max(g.orthographicSize, sizeMagnitude / 2.0))
  }

  /**
    * With the corrected size the camera sees every point of the scene: along
    * any unit axis across the view direction (the camera's right and up axes
    * among them) the point is within the orthographic half-extent of the view
    * axis, and its depth is between the clip planes.
    */
  lemma CoveringFitHoldsScene(scene: Bounds, forward: Vec3, rotation: Quaternion,
                              shadowMapSize: real, sizeMagnitude: real, u: Vec3, p: Vec3)
    requires IsMagnitude(scene.Size(), sizeMagnitude)
    requires IsUnit(forward) && IsUnit(u) && Dot(forward, u) == 0.0
    requires ContainsPoint(scene, p)
    ensures var f := FitShadowCameraCovering(scene, forward, rotation, shadowMapSize, sizeMagnitude);
            && -f.orthographicSize <= Dot(Sub(p, f.position), u) <= f.orthographicSize
            && f.nearClipPlane <= Depth(f, forward, p) <= f.farClipPlane
  {
    var d := sizeMagnitude + DistanceMargin;
    ShiftedDot(scene.Center(), forward, d, p, u);
    assert Dot(Sub(p, Sub(scene.Center(), Scale(forward, d))), u) == Dot(Sub(p, scene.Center()), u);
    OffsetAlongAxis(scene, u, sizeMagnitude, p);
    SceneWithinDepthRange(scene, forward, rotation, shadowMapSize, sizeMagnitude, p);
  }

  lemma ShiftedDot(c: Vec3, v: Vec3, d: real, p: Vec3, u: Vec3)
    ensures Dot(Sub(p, Sub(c, Scale(v, d))), u) == Dot(Sub(p, c), u) + d * Dot(v, u)
  {
    assert Sub(p, Sub(c, Scale(v, d))) == Add(Sub(p, c), Scale(v, d));
  }

  lemma DepthFromCenter(c: Vec3, v: Vec3, d: real, p: Vec3)
    requires IsUnit(v)
    ensures Dot(Sub(p, Sub(c, Scale(v, d))), v) == Dot(Sub(p, c), v) + d
  {
    var u := Sub(p, c);
    assert Sub(p, Sub(c, Scale(v, d))) == Add(u, Scale(v, d));
    assert Dot(Add(u, Scale(v, d)), v) == Dot(u, v) + d * Dot(v, v);
  }

  lemma HalfOfSquareBound(t: real, q: real, m: real)
    requires m >= 0.0 && t * t <= q && 4.0 * q <= m * m
    ensures -m / 2.0 <= t <= m / 2.0
  {
    assert t * t <= (m / 2.0) * (m / 2.0);
    WithinFromSquare(t, m / 2.0);
  }
}
