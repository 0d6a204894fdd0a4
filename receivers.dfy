/**
  * The receiving side of the shadow manager: the shadow texture handle and
  * the materials whose shader properties the manager writes every frame.
  */
module Receivers {
  import opened Options
  import opened ShadowSpace

  datatype RenderTextureFormat = Default | RGFloat
  datatype FilterMode = Point | Bilinear | Trilinear
  datatype WrapMode = Repeat | Clamp

  /**
    * A render target as the manager creates it. `handle` stands for the
    * engine object's identity; the rest is what the manager configures.
    */
  datatype RenderTexture = RenderTexture(
    handle: nat,
    width: int,
    height: int,
    depthBits: int,
    format: RenderTextureFormat,
    filterMode: FilterMode,
    wrapMode: WrapMode,
    name: string)

  /** Shader property and keyword names the receivers' shader reads. */
  const ShadowMapProperty: string := "_ShadowMap"
  const WorldToLightProperty: string := "_ShadowMapWorldToLight"
  const ShadowStrengthProperty: string := "_ShadowStrength"
  const MinVarianceProperty: string := "_MinVariance"
  const LightBleedingReductionProperty: string := "_LightBleedingReduction"
  const DepthBiasProperty: string := "_DepthBias"
  const ShadowsOnKeyword: string := "_SHADOWS_ON"

  /** What the manager hands every receiver in one frame. */
  datatype ReceiverParams = ReceiverParams(
    shadowMap: RenderTexture,
    worldToLight: Mat4,
    shadowStrength: real,
    minVariance: real,
    lightBleedingReduction: real,
    depthBias: real)

  /** The shader-visible state of a material: named properties by kind, and the enabled keywords. */
  datatype MaterialState = MaterialState(
    textures: map<string, RenderTexture>,
    matrices: map<string, Mat4>,
    floats: map<string, real>,
    keywords: set<string>)

  /** A material; its setters change one property or keyword of its state. */
  class Material {
    var state: MaterialState

    method SetTexture(name: string, value: RenderTexture)
      modifies this
      ensures state == old(state).(textures := old(state).textures[name := value])
    {
      state := state.(textures := state.textures[name := value]);
    }

    method SetMatrix(name: string, value: Mat4)
      modifies this
      ensures state == old(state).(matrices := old(state).matrices[name := value])
    {
      state := state.(matrices := state.matrices[name := value]);
    }

    method SetFloat(name: string, value: real)
      modifies this
      ensures state == old(state).(floats := old(state).floats[name := value])
    {
      state := state.(floats := state.floats[name := value]);
    }

    method EnableKeyword(keyword: string)
      modifies this
      ensures state == old(state).(keywords := old(state).keywords + {keyword})
    {
      state := state.(keywords := state.keywords + {keyword});
    }
  }

  /** The four scalar properties the manager writes. */
  const FloatProperties: set<string> :=
    {ShadowStrengthProperty, MinVarianceProperty, LightBleedingReductionProperty, DepthBiasProperty}

  /** State `s` carries every parameter of `p` under its property name. */
  predicate HasParams(s: MaterialState, p: ReceiverParams)
  {
    && ShadowMapProperty in s.textures && s.textures[ShadowMapProperty] == p.shadowMap
    && WorldToLightProperty in s.matrices && s.matrices[WorldToLightProperty] == p.worldToLight
    && ShadowStrengthProperty in s.floats && s.floats[ShadowStrengthProperty] == p.shadowStrength
    && MinVarianceProperty in s.floats && s.floats[MinVarianceProperty] == p.minVariance
    && LightBleedingReductionProperty in s.floats
    && s.floats[LightBleedingReductionProperty] == p.lightBleedingReduction
    && DepthBiasProperty in s.floats && s.floats[DepthBiasProperty] == p.depthBias
    && ShadowsOnKeyword in s.keywords
  }

  /**
    * The state after the manager's writes: the parameters of `p` are in
    * place, the keyword is on, and every other property keeps its value.
    */
  function Push(s: MaterialState, p: ReceiverParams): MaterialState
  {
    MaterialState(
      s.textures[ShadowMapProperty := p.shadowMap],
      s.matrices[WorldToLightProperty := p.worldToLight],
      s.floats[ShadowStrengthProperty := p.shadowStrength]
              [MinVarianceProperty := p.minVariance]
              [LightBleedingReductionProperty := p.lightBleedingReduction]
              [DepthBiasProperty := p.depthBias],
      s.keywords + {ShadowsOnKeyword})
  }

  /**
    * After the writes every parameter is in place; the property names are
    * those of the state plus the written ones, and every other property and
    * keyword keeps its value.
    */
  lemma PushWrites(s: MaterialState, p: ReceiverParams)
    ensures HasParams(Push(s, p), p)
    ensures Push(s, p).textures.Keys == s.textures.Keys + {ShadowMapProperty}
    ensures Push(s, p).matrices.Keys == s.matrices.Keys + {WorldToLightProperty}
    ensures Push(s, p).floats.Keys == s.floats.Keys + FloatProperties
    ensures Push(s, p).keywords == s.keywords + {ShadowsOnKeyword}
    ensures forall k | k in s.textures && k != ShadowMapProperty ::
              Push(s, p).textures[k] == s.textures[k]
    ensures forall k | k in s.matrices && k != WorldToLightProperty ::
              Push(s, p).matrices[k] == s.matrices[k]
    ensures forall k | k in s.floats && k !in FloatProperties ::
              Push(s, p).floats[k] == s.floats[k]
  {
  }

  /** Writing the same parameters twice leaves what writing them once does. */
  lemma PushIdempotent(s: MaterialState, p: ReceiverParams)
    ensures Push(Push(s, p), p) == Push(s, p)
  {
  }

  /** A state that already has the parameters does not change when they are written again. */
  lemma PushKeepsHasParams(s: MaterialState, p: ReceiverParams)
    ensures HasParams(s, p) <==> Push(s, p) == s
  {
    PushWrites(s, p);
    if HasParams(s, p) {
      assert Push(s, p).textures == s.textures;
      assert Push(s, p).matrices == s.matrices;
      assert Push(s, p).floats == s.floats;
    }
  }

  /**
    * Material `m` existed at the start and now holds what it held then with
    * the manager's writes applied.
    */
  twostate predicate Pushed(new m: Material, p: ReceiverParams)
    reads m
  {
    old(allocated(m)) && m.state == Push(old(m.state), p)
  }

  /** Material `m` existed at the start and holds what it held then. */
  twostate predicate Kept(new m: Material)
    reads m
  {
    old(allocated(m)) && m.state == old(m.state)
  }

  /**
    * The property writes the manager makes on one receiver, in its order:
    * texture, matrix, the four scalars, then the keyword.
    */
  method PushParams(mat: Material, p: ReceiverParams)
    modifies mat
    ensures Pushed(mat, p)
  {
    mat.SetTexture(ShadowMapProperty, p.shadowMap);
    mat.SetMatrix(WorldToLightProperty, p.worldToLight);
    mat.SetFloat(ShadowStrengthProperty, p.shadowStrength);
    mat.SetFloat(MinVarianceProperty, p.minVariance);
    mat.SetFloat(LightBleedingReductionProperty, p.lightBleedingReduction);
    mat.SetFloat(DepthBiasProperty, p.depthBias);
    mat.EnableKeyword(ShadowsOnKeyword);
  }

  /** What every receiver can read back after the push. */
  predicate Receives(m: Material, p: ReceiverParams)
    reads m
  {
    HasParams(m.state, p)
  }

  /** The number of non-null entries of `s`. */
  function NonNullCount(s: seq<Material?>): (n: nat)
    ensures n <= |s|
  {
    if |s| == 0 then 0
    else NonNullCount(s[..|s| - 1]) + (if s[|s| - 1] != null then 1 else 0)
  }

  /** Counting one more entry adds one exactly when it is not null. */
  lemma NonNullCountStep(s: seq<Material?>, i: nat)
    requires i < |s|
    ensures NonNullCount(s[..i + 1]) == NonNullCount(s[..i]) + (if s[i] != null then 1 else 0)
  {
    assert s[..i + 1][..i] == s[..i];
  }

  /** Every entry is counted exactly when none is null. */
  lemma {:induction false} NonNullCountAll(s: seq<Material?>)
    ensures NonNullCount(s) == |s| <==> forall k | 0 <= k < |s| :: s[k] != null
  {
    if |s| > 0 {
      var init := s[..|s| - 1];
      NonNullCountAll(init);
      forall k | 0 <= k < |init| ensures init[k] == s[k] { }
    }
  }

  /** Nothing is counted exactly when every entry is null. */
  lemma {:induction false} NonNullCountNone(s: seq<Material?>)
    ensures NonNullCount(s) == 0 <==> forall k | 0 <= k < |s| :: s[k] == null
  {
    if |s| > 0 {
      var init := s[..|s| - 1];
      NonNullCountNone(init);
      forall k | 0 <= k < |init| ensures init[k] == s[k] { }
    }
  }

  /**
    * Progress of the receiver loop over materials whose states on entry are
    * `entry`: the materials in `done` hold their entry state with `p` written,
    * every other one still holds its entry state.
    */
  ghost predicate Progress(entry: map<Material, MaterialState>, done: set<Material>,
                           p: ReceiverParams)
    reads entry.Keys
  {
    && done <= entry.Keys
    && (forall m | m in done :: m.state == Push(entry[m], p))
    && (forall m | m in entry && m !in done :: m.state == entry[m])
  }

  /**
    * One step of the receiver loop: write `p` into `mat`. Writing a material
    * a second time leaves it as the first write did.
    */
  method PushReceiver(mat: Material, p: ReceiverParams,
                      ghost entry: map<Material, MaterialState>, ghost done: set<Material>)
    requires mat in entry && Progress(entry, done, p)
    modifies mat
    ensures Progress(entry, done + {mat}, p)
  {
    if mat in done {
      PushIdempotent(entry[mat], p);
    }
    PushParams(mat, p);
  }

  /**
    * The receiver loop: every non-null entry of `materials`, in order, gets the
    * shadow texture, the world-to-light matrix and the four tunables, unless
    * there is no shadow texture, in which case the entry is skipped. The
    * result counts the entries written. A material that occurs twice is
    * written twice, with the same values.
    */
  method PushReceivers(materials: seq<Material?>, shadowTexture: Option<RenderTexture>,
                       worldToLight: Mat4, shadowStrength: real, minVariance: real,
                       lightBleedingReduction: real, depthBias: real)
    returns (count: nat)
    modifies materials
    ensures shadowTexture.None? ==>
              && count == 0
              && forall k | 0 <= k < |materials| && materials[k] != null ::
                   Kept(materials[k])
    ensures shadowTexture.Some? ==>
              && count == NonNullCount(materials)
              && forall k | 0 <= k < |materials| && materials[k] != null ::
                   Pushed(materials[k],
                          ReceiverParams(shadowTexture.value, worldToLight, shadowStrength,
                                         minVariance, lightBleedingReduction, depthBias))
  {
    ghost var p := ReceiverParams(if shadowTexture.Some? then shadowTexture.value
                                  else RenderTexture(0, 0, 0, 0, Default, Point, Repeat, ""),
                                  worldToLight, shadowStrength, minVariance,
                                  lightBleedingReduction, depthBias);
    // every listed material's state on entry, and the distinct materials written so far
    ghost var entry := map m: Material | m in materials :: m.state;
    ghost var done: set<Material> := {};
    count := 0;
    var i := 0;
    while i < |materials|
      invariant 0 <= i <= |materials|
      invariant count == if shadowTexture.Some? then NonNullCount(materials[..i]) else 0
      invariant shadowTexture.None? ==> done == {}
      invariant shadowTexture.Some? ==>
                  forall k | 0 <= k < i && materials[k] != null :: materials[k] in done
      invariant Progress(entry, done, p)
    {
      NonNullCountStep(materials, i);
      var mat := materials[i];
      if mat != null {
        if shadowTexture.None? {
          i := i + 1;
          continue;
        }
        var params := ReceiverParams(shadowTexture.value, worldToLight, shadowStrength,
                                     minVariance, lightBleedingReduction, depthBias);
        assert mat in entry && params == p;
        PushReceiver(mat, params, entry, done);
        done := done + {mat};
        count := count + 1;
      }
      i := i + 1;
    }
    assert materials[..i] == materials;
    ProgressCovers(materials, entry, done, p);
  }

  /**
    * At the end of the loop every listed material holds its entry state,
    * with `p` written when it was visited.
    */
  lemma ProgressCovers(materials: seq<Material?>, entry: map<Material, MaterialState>,
                       done: set<Material>, p: ReceiverParams)
    requires Progress(entry, done, p)
    requires forall k | 0 <= k < |materials| && materials[k] != null :: materials[k] in entry
    ensures forall k | 0 <= k < |materials| && materials[k] != null ::
              materials[k].state == if materials[k] in done then Push(entry[materials[k]], p)
                                      else entry[materials[k]]
  {
  }
}
