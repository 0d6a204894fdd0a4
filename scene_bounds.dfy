/**
  * The scene-bounds estimate of VSMShadowManager.CalculateSceneBounds: the
  * box that holds every active renderer and the ground footprint.
  */
module SceneBounds {
  import opened Options
  import opened Geometry

  /** What the shadow manager reads from one renderer found in the scene. */
  datatype Renderer = Renderer(activeInHierarchy: bool, bounds: Bounds)

  /** The two corners of the ground footprint that are always included. */
  const GroundLow: Vec3 := Vec3(-10.0, 0.0, -10.0)
  const GroundHigh: Vec3 := Vec3(10.0, 0.0, 10.0)

  /** The box used before any renderer has been seen: unit size at the origin. */
  const UnitBox: Bounds := Bounds(Vec3(-0.5, -0.5, -0.5), Vec3(0.5, 0.5, 0.5))

  /** A non-null renderer whose game object is active takes part. */
  predicate IsActive(r: Option<Renderer>) { r.Some? && r.value.activeInHierarchy }

  /**
    * The hull of the active renderers' boxes in `rs`, folded from the left as
    * the loop does: the first active box is taken as it is and each later one
    * is encapsulated. None when no entry is active.
    */
  function ActiveHull(rs: seq<Option<Renderer>>): Option<Bounds>
  {
    if |rs| == 0 then None
    else
      var h := ActiveHull(rs[..|rs| - 1]);
      var last := rs[|rs| - 1];
      if !IsActive(last) then h
      else if h.None? then Some(last.value.bounds)
      else Some(EncapsulateBox(h.value, last.value.bounds))
  }

  /** The unit-box fallback or the hull, grown by the two ground corners. */
  function WithGround(b: Bounds): Bounds
  {
    EncapsulatePoint(EncapsulatePoint(b, GroundLow), GroundHigh)
  }

  /** The value CalculateSceneBounds returns for the renderers `rs`. */
  function SceneBoundsOf(rs: seq<Option<Renderer>>): Bounds
  {
    var h := ActiveHull(rs);
    WithGround(if h.Some? then h.value else UnitBox)
  }

  /**
    * The loop of CalculateSceneBounds over the renderers the scene query
    * returned, in that order.
    */
  method CalculateSceneBounds(renderers: seq<Option<Renderer>>) returns (bounds: Bounds)
    ensures bounds == SceneBoundsOf(renderers)
  {
    bounds := UnitBox;
    var boundsInitialized := false;
    var i := 0;
    while i < |renderers|
      invariant 0 <= i <= |renderers|
      invariant boundsInitialized <==> ActiveHull(renderers[..i]).Some?
      invariant boundsInitialized ==> bounds == ActiveHull(renderers[..i]).value
      invariant !boundsInitialized ==> bounds == UnitBox
    {
      assert renderers[..i + 1][..i] == renderers[..i];
      var renderer := renderers[i];
      if renderer.Some? && renderer.value.activeInHierarchy {
        if !boundsInitialized {
          bounds := renderer.value.bounds;
          boundsInitialized := true;
        } else {
          bounds := EncapsulateBox(bounds, renderer.value.bounds);
        }
      }
      i := i + 1;
    }
    assert renderers[..i] == renderers;
    bounds := EncapsulatePoint(bounds, GroundLow);
    bounds := EncapsulatePoint(bounds, GroundHigh);
  }

  // ---------------------------------------------------------------------
  // Properties of the hull

  lemma CubeAtOrigin(h: real)
    ensures Bounds(Vec3(-h, -h, -h), Vec3(h, h, h)).Center() == Vec3(0.0, 0.0, 0.0)
    ensures Bounds(Vec3(-h, -h, -h), Vec3(h, h, h)).Size() == Vec3(2.0 * h, 2.0 * h, 2.0 * h)
  {
  }

  /** UnitBox is the box with center zero and size one. */
  lemma UnitBoxIsCenteredUnit()
    ensures UnitBox.Center() == Vec3(0.0, 0.0, 0.0) && UnitBox.Size() == Vec3(1.0, 1.0, 1.0)
  {
    CubeAtOrigin(0.5);
  }

  lemma {:induction false} ActiveHullSomeIff(rs: seq<Option<Renderer>>)
    ensures ActiveHull(rs).Some? <==> exists k :: 0 <= k < |rs| && IsActive(rs[k])
  {
    if |rs| > 0 {
      var init := rs[..|rs| - 1];
      ActiveHullSomeIff(init);
      if ActiveHull(init).Some? {
        var k :| 0 <= k < |init| && IsActive(init[k]);
        assert rs[k] == init[k];
      }
      if exists k :: 0 <= k < |rs| && IsActive(rs[k]) {
        var k :| 0 <= k < |rs| && IsActive(rs[k]);
        if k < |init| { assert init[k] == rs[k]; }
      }
    }
  }

  lemma {:induction false} ActiveHullContains(rs: seq<Option<Renderer>>, k: nat)
    requires k < |rs| && IsActive(rs[k])
    ensures ActiveHull(rs).Some? && ContainsBox(ActiveHull(rs).value, rs[k].value.bounds)
  {
    var init := rs[..|rs| - 1];
    if k < |rs| - 1 {
      assert init[k] == rs[k];
      ActiveHullContains(init, k);
    }
  }

  lemma {:induction false} ActiveHullLeast(rs: seq<Option<Renderer>>, c: Bounds)
    requires ActiveHull(rs).Some?
    requires forall k :: 0 <= k < |rs| && IsActive(rs[k]) ==> ContainsBox(c, rs[k].value.bounds)
    ensures ContainsBox(c, ActiveHull(rs).value)
  {
    var init := rs[..|rs| - 1];
    forall k | 0 <= k < |init| && IsActive(init[k])
      ensures ContainsBox(c, init[k].value.bounds)
    {
      assert init[k] == rs[k];
    }
    if ActiveHull(init).Some? {
      ActiveHullLeast(init, c);
      if IsActive(rs[|rs| - 1]) {
        EncapsulateBoxLeast(ActiveHull(init).value, rs[|rs| - 1].value.bounds, c);
      }
    }
  }

  lemma {:induction false} ActiveHullSkips(p: seq<Option<Renderer>>, x: Option<Renderer>, s: seq<Option<Renderer>>)
    requires !IsActive(x)
    ensures ActiveHull(p + [x] + s) == ActiveHull(p + s)
    decreases |s|
  {
    if |s| == 0 {
      assert p + [x] + s == p + [x];
      assert (p + [x])[..|p|] == p;
      assert p + s == p;
    } else {
      var t := s[..|s| - 1];
      ActiveHullSkips(p, x, t);
      assert (p + [x] + s)[..|p + [x] + s| - 1] == p + [x] + t;
      assert (p + s)[..|p + s| - 1] == p + t;
      assert (p + [x] + s)[|p + [x] + s| - 1] == s[|s| - 1];
      assert (p + s)[|p + s| - 1] == s[|s| - 1];
    }
  }

  // ---------------------------------------------------------------------
  // Properties of the scene bounds

  /** The two ground corners always lie in the result. */
  lemma SceneBoundsContainsGround(rs: seq<Option<Renderer>>)
    ensures ContainsPoint(SceneBoundsOf(rs), GroundLow)
    ensures ContainsPoint(SceneBoundsOf(rs), GroundHigh)
  {
  }

  /** The result holds the box of every non-null, active renderer. */
  lemma SceneBoundsContainsActive(rs: seq<Option<Renderer>>, k: nat)
    requires k < |rs| && IsActive(rs[k])
    ensures ContainsBox(SceneBoundsOf(rs), rs[k].value.bounds)
  {
    ActiveHullContains(rs, k);
  }

  /** Whatever the renderers, the result has non-negative extents. */
  lemma SceneBoundsWellFormed(rs: seq<Option<Renderer>>)
    ensures SceneBoundsOf(rs).WellFormed()
  {
    var b := SceneBoundsOf(rs);
    assert ContainsPoint(b, GroundHigh);
  }

  /** With no active renderer the unit box is grown by the two ground corners. */
  lemma SceneBoundsFallback(rs: seq<Option<Renderer>>)
    requires forall k :: 0 <= k < |rs| ==> !IsActive(rs[k])
    ensures SceneBoundsOf(rs) == Bounds(Vec3(-10.0, -0.5, -10.0), Vec3(10.0, 0.5, 10.0))
  {
    ActiveHullSomeIff(rs);
  }

  /**
    * With an active renderer the unit box plays no part: the result is the
    * least box holding the active renderers' boxes and both ground corners.
    */
  lemma SceneBoundsLeast(rs: seq<Option<Renderer>>, c: Bounds)
    requires exists k :: 0 <= k < |rs| && IsActive(rs[k])
    requires forall k :: 0 <= k < |rs| && IsActive(rs[k]) ==> ContainsBox(c, rs[k].value.bounds)
    requires ContainsPoint(c, GroundLow) && ContainsPoint(c, GroundHigh)
    ensures ContainsBox(c, SceneBoundsOf(rs))
  {
    ActiveHullSomeIff(rs);
    var h := ActiveHull(rs).value;
    ActiveHullLeast(rs, c);
    EncapsulatePointLeast(h, GroundLow, c);
    EncapsulatePointLeast(EncapsulatePoint(h, GroundLow), GroundHigh, c);
  }

  /** A null or inactive renderer can be removed without changing the result. */
  lemma SceneBoundsIgnoresInactive(rs: seq<Option<Renderer>>, k: nat)
    requires k < |rs| && !IsActive(rs[k])
    ensures SceneBoundsOf(rs[..k] + rs[k + 1..]) == SceneBoundsOf(rs)
  {
    assert rs == rs[..k] + [rs[k]] + rs[k + 1..];
    ActiveHullSkips(rs[..k], rs[k], rs[k + 1..]);
  }
}
