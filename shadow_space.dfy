/**
  * The world-to-shadow-texture matrix of VSMShadowManager.UpdateReceiverMaterials:
  * a fixed scale-bias matrix that takes clip coordinates in [-1, 1] to texture
  * coordinates in [0, 1], composed with the shadow camera's world-to-clip
  * matrix. The world-to-clip matrix comes from the engine and is an input here.
  */
module ShadowSpace {

  datatype Vec4 = Vec4(x: real, y: real, z: real, w: real)

  /** A 4x4 matrix; entry mRC is row R, column C, as in the engine's Matrix4x4. */
  datatype Mat4 = Mat4(
    m00: real, m01: real, m02: real, m03: real,
    m10: real, m11: real, m12: real, m13: real,
    m20: real, m21: real, m22: real, m23: real,
    m30: real, m31: real, m32: real, m33: real)

  function Identity(): Mat4
  {
    Mat4(1.0, 0.0, 0.0, 0.0,
         0.0, 1.0, 0.0, 0.0,
         0.0, 0.0, 1.0, 0.0,
         0.0, 0.0, 0.0, 1.0)
  }

  /** The matrix product a * b, entry by entry. */
  function Mul(a: Mat4, b: Mat4): Mat4
  {
    Mat4(
      a.m00 * b.m00 + a.m01 * b.m10 + a.m02 * b.m20 + a.m03 * b.m30,
      a.m00 * b.m01 + a.m01 * b.m11 + a.m02 * b.m21 + a.m03 * b.m31,
      a.m00 * b.m02 + a.m01 * b.m12 + a.m02 * b.m22 + a.m03 * b.m32,
      a.m00 * b.m03 + a.m01 * b.m13 + a.m02 * b.m23 + a.m03 * b.m33,
      a.m10 * b.m00 + a.m11 * b.m10 + a.m12 * b.m20 + a.m13 * b.m30,
      a.m10 * b.m01 + a.m11 * b.m11 + a.m12 * b.m21 + a.m13 * b.m31,
      a.m10 * b.m02 + a.m11 * b.m12 + a.m12 * b.m22 + a.m13 * b.m32,
      a.m10 * b.m03 + a.m11 * b.m13 + a.m12 * b.m23 + a.m13 * b.m33,
      a.m20 * b.m00 + a.m21 * b.m10 + a.m22 * b.m20 + a.m23 * b.m30,
      a.m20 * b.m01 + a.m21 * b.m11 + a.m22 * b.m21 + a.m23 * b.m31,
      a.m20 * b.m02 + a.m21 * b.m12 + a.m22 * b.m22 + a.m23 * b.m32,
      a.m20 * b.m03 + a.m21 * b.m13 + a.m22 * b.m23 + a.m23 * b.m33,
      a.m30 * b.m00 + a.m31 * b.m10 + a.m32 * b.m20 + a.m33 * b.m30,
      a.m30 * b.m01 + a.m31 * b.m11 + a.m32 * b.m21 + a.m33 * b.m31,
      a.m30 * b.m02 + a.m31 * b.m12 + a.m32 * b.m22 + a.m33 * b.m32,
      a.m30 * b.m03 + a.m31 * b.m13 + a.m32 * b.m23 + a.m33 * b.m33)
  }

  /** The matrix applied to a homogeneous column vector. */
  function Apply(m: Mat4, v: Vec4): Vec4
  {
    Vec4(
      m.m00 * v.x + m.m01 * v.y + m.m02 * v.z + m.m03 * v.w,
      m.m10 * v.x + m.m11 * v.y + m.m12 * v.z + m.m13 * v.w,
      m.m20 * v.x + m.m21 * v.y + m.m22 * v.z + m.m23 * v.w,
      m.m30 * v.x + m.m31 * v.y + m.m32 * v.z + m.m33 * v.w)
  }

  /** The identity with the three diagonal scales and the three translations set to 0.5. */
  function TexScaleBias(): Mat4
  {
    Identity().(m00 := 0.5, m11 := 0.5, m22 := 0.5)
              .(m03 := 0.5, m13 := 0.5, m23 := 0.5)
  }

  /** The matrix handed to the receivers: scale-bias after world-to-clip. */
  function WorldToLight(worldToShadowClip: Mat4): Mat4
  {
    Mul(TexScaleBias(), worldToShadowClip)
  }

  /** x lies in [-w, w]: after the homogeneous divide by w > 0, in [-1, 1]. */
  predicate InClipRange(x: real, w: real) { -w <= x <= w }

  /** x lies in [0, w]: after the homogeneous divide by w > 0, in [0, 1]. */
  predicate InTextureRange(x: real, w: real) { 0.0 <= x <= w }

  /** Every coordinate of v is in the clip cube, for positive w. */
  predicate InClipCube(v: Vec4)
  {
    v.w > 0.0 && InClipRange(v.x, v.w) && InClipRange(v.y, v.w) && InClipRange(v.z, v.w)
  }

  /** Every coordinate of v is in the unit texture cube, for positive w. */
  predicate InTextureCube(v: Vec4)
  {
    v.w > 0.0 && InTextureRange(v.x, v.w) && InTextureRange(v.y, v.w) && InTextureRange(v.z, v.w)
  }

  // ---------------------------------------------------------------------
  // Properties

  lemma DistributeRight(t: real, s0: real, s1: real, s2: real, s3: real, k: real)
    requires t == s0 + s1 + s2 + s3
    ensures t * k == s0 * k + s1 * k + s2 * k + s3 * k
  {
  }

  lemma DistributeLeft(k: real, t: real, s0: real, s1: real, s2: real, s3: real)
    requires t == s0 + s1 + s2 + s3
    ensures k * t == k * s0 + k * s1 + k * s2 + k * s3
  {
  }

  lemma Associate(a: real, b: real, c: real)
    ensures (a * b) * c == a * (b * c)
  {
  }

  /**
    * One row (a0, a1, a2, a3) of a * b, whose entries are (m0, m1, m2, m3),
    * applied to v, is that row applied to b's image of v.
    */
  lemma RowAssociates(a0: real, a1: real, a2: real, a3: real,
                      m0: real, m1: real, m2: real, m3: real, b: Mat4, v: Vec4)
    requires m0 == a0 * b.m00 + a1 * b.m10 + a2 * b.m20 + a3 * b.m30
    requires m1 == a0 * b.m01 + a1 * b.m11 + a2 * b.m21 + a3 * b.m31
    requires m2 == a0 * b.m02 + a1 * b.m12 + a2 * b.m22 + a3 * b.m32
    requires m3 == a0 * b.m03 + a1 * b.m13 + a2 * b.m23 + a3 * b.m33
    ensures m0 * v.x + m1 * v.y + m2 * v.z + m3 * v.w
         == a0 * Apply(b, v).x + a1 * Apply(b, v).y + a2 * Apply(b, v).z + a3 * Apply(b, v).w
  {
    DistributeRight(m0, a0 * b.m00, a1 * b.m10, a2 * b.m20, a3 * b.m30, v.x);
    DistributeRight(m1, a0 * b.m01, a1 * b.m11, a2 * b.m21, a3 * b.m31, v.y);
    DistributeRight(m2, a0 * b.m02, a1 * b.m12, a2 * b.m22, a3 * b.m32, v.z);
    DistributeRight(m3, a0 * b.m03, a1 * b.m13, a2 * b.m23, a3 * b.m33, v.w);
    DistributeLeft(a0, Apply(b, v).x, b.m00 * v.x, b.m01 * v.y, b.m02 * v.z, b.m03 * v.w);
    DistributeLeft(a1, Apply(b, v).y, b.m10 * v.x, b.m11 * v.y, b.m12 * v.z, b.m13 * v.w);
    DistributeLeft(a2, Apply(b, v).z, b.m20 * v.x, b.m21 * v.y, b.m22 * v.z, b.m23 * v.w);
    DistributeLeft(a3, Apply(b, v).w, b.m30 * v.x, b.m31 * v.y, b.m32 * v.z, b.m33 * v.w);
    Associate(a0, b.m00, v.x); Associate(a0, b.m01, v.y); Associate(a0, b.m02, v.z); Associate(a0, b.m03, v.w);
    Associate(a1, b.m10, v.x); Associate(a1, b.m11, v.y); Associate(a1, b.m12, v.z); Associate(a1, b.m13, v.w);
    Associate(a2, b.m20, v.x); Associate(a2, b.m21, v.y); Associate(a2, b.m22, v.z); Associate(a2, b.m23, v.w);
    Associate(a3, b.m30, v.x); Associate(a3, b.m31, v.y); Associate(a3, b.m32, v.z); Associate(a3, b.m33, v.w);
  }

  lemma MulApplyX(a: Mat4, b: Mat4, v: Vec4)
    ensures Apply(Mul(a, b), v).x == Apply(a, Apply(b, v)).x
  {
    var m := Mul(a, b);
    RowAssociates(a.m00, a.m01, a.m02, a.m03, m.m00, m.m01, m.m02, m.m03, b, v);
  }

  lemma MulApplyY(a: Mat4, b: Mat4, v: Vec4)
    ensures Apply(Mul(a, b), v).y == Apply(a, Apply(b, v)).y
  {
    var m := Mul(a, b);
    RowAssociates(a.m10, a.m11, a.m12, a.m13, m.m10, m.m11, m.m12, m.m13, b, v);
  }

  lemma MulApplyZ(a: Mat4, b: Mat4, v: Vec4)
    ensures Apply(Mul(a, b), v).z == Apply(a, Apply(b, v)).z
  {
    var m := Mul(a, b);
    RowAssociates(a.m20, a.m21, a.m22, a.m23, m.m20, m.m21, m.m22, m.m23, b, v);
  }

  lemma MulApplyW(a: Mat4, b: Mat4, v: Vec4)
    ensures Apply(Mul(a, b), v).w == Apply(a, Apply(b, v)).w
  {
    var m := Mul(a, b);
    RowAssociates(a.m30, a.m31, a.m32, a.m33, m.m30, m.m31, m.m32, m.m33, b, v);
  }

  /** Applying a product is applying its factors in turn. */
  lemma MulApply(a: Mat4, b: Mat4, v: Vec4)
    ensures Apply(Mul(a, b), v) == Apply(a, Apply(b, v))
  {
    MulApplyX(a, b, v);
    MulApplyY(a, b, v);
    MulApplyZ(a, b, v);
    MulApplyW(a, b, v);
  }

  /** The scale-bias matrix sends each clip coordinate c to (c + w) / 2 and keeps w. */
  lemma TexScaleBiasApply(v: Vec4)
    ensures Apply(TexScaleBias(), v)
         == Vec4((v.x + v.w) / 2.0, (v.y + v.w) / 2.0, (v.z + v.w) / 2.0, v.w)
  {
  }

  /**
    * A point in the clip cube lands in the texture cube, and only such a
    * point does; w is left as it is.
    */
  lemma TexScaleBiasMapsClipCube(v: Vec4)
    ensures Apply(TexScaleBias(), v).w == v.w
    ensures InClipCube(v) <==> InTextureCube(Apply(TexScaleBias(), v))
  {
    TexScaleBiasApply(v);
  }

  /** With w = 1: coordinates in [-1, 1] become coordinates in [0, 1]. */
  lemma TexScaleBiasUnitW(v: Vec4)
    requires v.w == 1.0
    requires -1.0 <= v.x <= 1.0 && -1.0 <= v.y <= 1.0 && -1.0 <= v.z <= 1.0
    ensures var t := Apply(TexScaleBias(), v);
            0.0 <= t.x <= 1.0 && 0.0 <= t.y <= 1.0 && 0.0 <= t.z <= 1.0 && t.w == 1.0
  {
    TexScaleBiasApply(v);
  }

  /**
    * The receivers' matrix takes a world point to the scale-bias image of its
    * clip coordinates; so a world point the shadow camera sees inside its clip
    * volume gets texture coordinates in [0, 1].
    */
  lemma WorldToLightMapsToTexture(worldToShadowClip: Mat4, p: Vec4)
    ensures Apply(WorldToLight(worldToShadowClip), p)
         == Apply(TexScaleBias(), Apply(worldToShadowClip, p))
    ensures InClipCube(Apply(worldToShadowClip, p))
        <==> InTextureCube(Apply(WorldToLight(worldToShadowClip), p))
  {
    MulApply(TexScaleBias(), worldToShadowClip, p);
    TexScaleBiasMapsClipCube(Apply(worldToShadowClip, p));
  }
}
