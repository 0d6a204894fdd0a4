/**
  * The shadow manager component (VSMShadowManager): it owns the shadow map
  * and the shadow camera, refits the camera to the scene every frame and then
  * writes the shadow parameters into every receiver material.
  */
module Manager {
  import opened Options
  import opened Geometry
  import opened SceneBounds
  import opened LightFrustum
  import opened ShadowSpace
  import opened Receivers

  /**
    * What the manager reads from the directional light's transform: its
    * rotation and its forward axis, which is that rotation applied to +z
    * (the engine keeps the two consistent; the model takes both as given).
    */
  datatype DirectionalLight = DirectionalLight(forward: Vec3, rotation: Quaternion)

  /** The engine's all-layers mask, the default caster mask. */
  const EverythingMask: int := -1

  /** The orthographic camera the shadow map is rendered from. */
  class ShadowCamera {
    var position: Vec3
    var rotation: Quaternion
    var orthographic: bool
    var orthographicSize: real
    var nearClipPlane: real
    var farClipPlane: real
    var cullingMask: int
    /** The camera only renders on request, never on its own. */
    var enabled: bool

    /** SetupShadowCamera: an orthographic, disabled camera with the caster mask. */
    constructor (casterLayers: int)
      ensures orthographic && !enabled && cullingMask == casterLayers
      ensures nearClipPlane == 0.1 && farClipPlane == 100.0
    {
      position := Vec3(0.0, 0.0, 0.0);
      rotation := Quaternion(0.0, 0.0, 0.0, 1.0);
      orthographic := true;
      orthographicSize := 5.0;
      nearClipPlane := 0.1;
      farClipPlane := 100.0;
      cullingMask := casterLayers;
      enabled := false;
    }

    /** The part of the camera state the per-frame fitting writes. */
    function State(): Frustum
      reads this
    {
      Frustum(position, rotation, orthographicSize, nearClipPlane, farClipPlane)
    }

    /** Write the fitted pose, size and clip planes; the other settings stay. */
    method Fit(f: Frustum)
      modifies this
      ensures State() == f
      ensures orthographic == old(orthographic) && cullingMask == old(cullingMask)
      ensures enabled == old(enabled)
    {
      position := f.position;
      rotation := f.rotation;
      orthographicSize := f.orthographicSize;
      nearClipPlane := f.nearClipPlane;
      farClipPlane := f.farClipPlane;
    }
  }

  class VsmShadowManager {
    var shadowCasterLayers: int
    var shadowMapResolution: int
    /** The smallest orthographic size the camera is given. */
    var shadowMapSize: real
    var shadowStrength: real
    var minVariance: real
    var lightBleedingReduction: real
    var depthBias: real
    var receiverMaterials: array?<Material?>
    var shadowMap: Option<RenderTexture>
    var shadowCamera: ShadowCamera?

    /**
      * The component as the inspector defaults leave it, before OnEnable:
      * no camera and no shadow map yet.
      */
    constructor (receivers: array?<Material?>)
      ensures shadowCasterLayers == EverythingMask && shadowMapResolution == 1024
      ensures shadowMapSize == 10.0 && shadowStrength == 0.7 && minVariance == 0.00001
      ensures lightBleedingReduction == 0.2 && depthBias == 0.01
      ensures receiverMaterials == receivers
      ensures shadowMap.None? && shadowCamera == null
    {
      shadowCasterLayers := EverythingMask;
      shadowMapResolution := 1024;
      shadowMapSize := 10.0;
      shadowStrength := 0.7;
      minVariance := 0.00001;
      lightBleedingReduction := 0.2;
      depthBias := 0.01;
      receiverMaterials := receivers;
      shadowMap := None;
      shadowCamera := null;
    }

    /**
      * OnEnable: set up the camera, then try to create the shadow map;
      * `created` says whether the engine succeeded and `handle` names the
      * texture it made.
      */
    method OnEnable(created: bool, handle: nat)
      modifies this`shadowCamera, this`shadowMap
      ensures old(shadowCamera) != null ==> shadowCamera == old(shadowCamera)
      ensures old(shadowCamera) == null ==> fresh(shadowCamera) && NewCamera(shadowCamera)
      ensures shadowMap == if created then Some(NewShadowMap(handle)) else old(shadowMap)
    {
      SetupShadowCamera();
      CreateShadowMap(created, handle);
    }

    /** OnDisable: release the shadow map and drop the camera. */
    method OnDisable()
      modifies this`shadowCamera, this`shadowMap
      ensures shadowMap.None? && shadowCamera == null
    {
      ReleaseShadowMap();
      if shadowCamera != null {
        shadowCamera := null;
      }
    }

    /** The camera SetupShadowCamera builds: orthographic, disabled, the caster mask. */
    predicate NewCamera(c: ShadowCamera)
      reads this, c
    {
      && c.orthographic && !c.enabled && c.cullingMask == shadowCasterLayers
      && c.nearClipPlane == 0.1 && c.farClipPlane == 100.0
    }

    /** Create the camera unless one exists already; an existing camera is kept as it is. */
    method SetupShadowCamera()
      modifies this`shadowCamera
      ensures old(shadowCamera) != null ==> shadowCamera == old(shadowCamera)
      ensures old(shadowCamera) == null ==> fresh(shadowCamera) && NewCamera(shadowCamera)
    {
      if shadowCamera == null {
        shadowCamera := new ShadowCamera(shadowCasterLayers);
      }
    }

    /** The render target CreateShadowMap builds: square, two float channels. */
    function NewShadowMap(handle: nat): (t: RenderTexture)
      reads this
      ensures t.width == t.height == shadowMapResolution
      ensures t.format == RGFloat && t.depthBits == 24
      ensures t.filterMode == Bilinear && t.wrapMode == Clamp
    {
      RenderTexture(handle, shadowMapResolution, shadowMapResolution, 24,
                    RGFloat, Bilinear, Clamp, "VSM_ShadowMap")
    }

    /**
      * Replace the shadow map by a new one. When the engine fails to build
      * it, the error is logged and the field keeps its previous value.
      */
    method CreateShadowMap(created: bool, handle: nat)
      modifies this`shadowMap
      ensures shadowMap == if created then Some(NewShadowMap(handle)) else old(shadowMap)
    {
      if created {
        shadowMap := Some(NewShadowMap(handle));
      }
    }

    /** OnDisable's release of the shadow map. */
    method ReleaseShadowMap()
      modifies this`shadowMap
      ensures shadowMap == None
    {
      if shadowMap.Some? {
        shadowMap := None;
      }
    }

    /**
      * Fit the shadow camera to the scene and make sure a shadow map exists.
      * `sizeMagnitude` is the length of the scene bounds' size vector, which
      * the engine computes; `created` and `handle`
      * describe the outcome of a creation attempt, should one be needed.
      * The result says whether the map exists, so the scene is rendered.
      */
    method RenderShadowMap(renderers: seq<Option<Renderer>>, light: DirectionalLight,
                           sizeMagnitude: real, created: bool, handle: nat)
      returns (rendered: bool)
      requires shadowCamera != null
      requires sizeMagnitude >= 0.0
      modifies this`shadowMap, shadowCamera
      ensures shadowCamera.State()
              == FitShadowCamera(SceneBoundsOf(renderers), light.forward, light.rotation,
                                 shadowMapSize, sizeMagnitude)
      ensures unchanged(shadowCamera`orthographic, shadowCamera`cullingMask, shadowCamera`enabled)
      ensures shadowMap == if old(shadowMap).None? && created then Some(NewShadowMap(handle))
                           else old(shadowMap)
      ensures rendered <==> shadowMap.Some?
      ensures ReceiversKept()
      ensures IsMagnitude(SceneBoundsOf(renderers).Size(), sizeMagnitude) && IsUnit(light.forward) ==>
                DepthCovers(SceneBoundsOf(renderers), light.forward, shadowCamera.State())
    {
      var sceneBounds := CalculateSceneBounds(renderers);
      var f := FitShadowCamera(sceneBounds, light.forward, light.rotation, shadowMapSize,
                               sizeMagnitude);
      if IsMagnitude(sceneBounds.Size(), sizeMagnitude) && IsUnit(light.forward) {
        FitCoversDepth(sceneBounds, light.forward, light.rotation, shadowMapSize, sizeMagnitude);
      }
      shadowCamera.Fit(f);

      if shadowMap.None? {
        CreateShadowMap(created, handle);
        if shadowMap.None? {
          return false;
        }
      }
      rendered := true;
    }

    /** The non-null receiver entries, the materials the receiver push may change. */
    ghost function ReceiverSet(): set<Material>
      reads this, receiverMaterials
    {
      if receiverMaterials == null then {} else set m: Material | m in receiverMaterials[..]
    }

    /** Every non-null receiver holds what it held at the start. */
    twostate predicate ReceiversKept()
      reads this, receiverMaterials, ReceiverSet()
    {
      receiverMaterials != null ==>
        forall k | 0 <= k < receiverMaterials.Length && receiverMaterials[k] != null ::
          Kept(receiverMaterials[k])
    }

    /** The parameters every receiver gets while the map is `texture`. */
    function ParamsFor(texture: RenderTexture, worldToShadowClip: Mat4): ReceiverParams
      reads this
    {
      ReceiverParams(texture, WorldToLight(worldToShadowClip), shadowStrength, minVariance,
                     lightBleedingReduction, depthBias)
    }

    /**
      * Write the shadow map, the world-to-light matrix built from the
      * camera's `worldToShadowClip`, the four tunables and the shadow keyword
      * into every non-null receiver, and count them. Without a shadow map
      * nothing is written and the count stays 0.
      */
    method UpdateReceiverMaterials(worldToShadowClip: Mat4) returns (validMaterialCount: nat)
      modifies ReceiverSet()
      ensures validMaterialCount == if receiverMaterials == null || shadowMap.None? then 0
                                    else NonNullCount(receiverMaterials[..])
      ensures receiverMaterials == null || shadowMap.None? ==>
                ReceiversKept()
      ensures receiverMaterials != null && shadowMap.Some? ==>
                forall k | 0 <= k < receiverMaterials.Length && receiverMaterials[k] != null ::
                  && Pushed(receiverMaterials[k], ParamsFor(shadowMap.value, worldToShadowClip))
                  && Receives(receiverMaterials[k], ParamsFor(shadowMap.value, worldToShadowClip))
    {
      var texScaleBias := Identity();
      texScaleBias := texScaleBias.(m00 := 0.5, m11 := 0.5, m22 := 0.5);
      texScaleBias := texScaleBias.(m03 := 0.5, m13 := 0.5, m23 := 0.5);
      var worldToLight := Mul(texScaleBias, worldToShadowClip);
      assert worldToLight == WorldToLight(worldToShadowClip);

      validMaterialCount := 0;
      if receiverMaterials == null {
        return;
      }
      validMaterialCount := PushReceivers(receiverMaterials[..], shadowMap, worldToLight,
                                          shadowStrength, minVariance, lightBleedingReduction,
                                          depthBias);
      if shadowMap.Some? {
        var materials := receiverMaterials;
        forall k | 0 <= k < materials.Length && materials[k] != null
          ensures Receives(materials[k], ParamsFor(shadowMap.value, worldToShadowClip))
        {
          PushWrites(old(materials[k].state), ParamsFor(shadowMap.value, worldToShadowClip));
        }
      }
    }

    /**
      * The per-frame step: without a light or a shadow-map material nothing
      * happens; otherwise the camera is fitted and the map rendered, and the
      * receivers get the parameters for the camera's new world-to-clip matrix
      * `clipOf(camera state)`, which the engine derives from the camera.
      */
    method LateUpdate(light: Option<DirectionalLight>, hasShadowMapMaterial: bool,
                      renderers: seq<Option<Renderer>>, sizeMagnitude: real,
                      created: bool, handle: nat, clipOf: Frustum -> Mat4)
      requires light.Some? && hasShadowMapMaterial ==> shadowCamera != null
      requires sizeMagnitude >= 0.0
      modifies this`shadowMap, shadowCamera, ReceiverSet()
      ensures light.None? || !hasShadowMapMaterial ==>
                && unchanged(this)
                && (shadowCamera != null ==> unchanged(shadowCamera))
                && ReceiversKept()
      ensures light.Some? && hasShadowMapMaterial ==>
                && Rendered(renderers, light.value, sizeMagnitude, created, handle)
                && ReceiversUpdated(clipOf(FitShadowCamera(SceneBoundsOf(renderers), light.value.forward,
                                                         light.value.rotation, shadowMapSize,
                                                         sizeMagnitude)))
      // the source never switches the camera's projection mode, mask or enabled flag
      ensures light.Some? && hasShadowMapMaterial ==>
                unchanged(shadowCamera`orthographic, shadowCamera`cullingMask, shadowCamera`enabled)
    {
      if light.None? || !hasShadowMapMaterial {
        return;
      }
      RenderAndUpdate(renderers, light.value, sizeMagnitude, created, handle, clipOf);
    }

    /** The camera is fitted to the scene and the shadow map exists if it can. */
    twostate predicate Rendered(renderers: seq<Option<Renderer>>, light: DirectionalLight,
                                sizeMagnitude: real, created: bool, handle: nat)
      requires sizeMagnitude >= 0.0
      reads this, shadowCamera
    {
      && shadowCamera != null
      && shadowCamera.State()
         == FitShadowCamera(SceneBoundsOf(renderers), light.forward, light.rotation,
                            shadowMapSize, sizeMagnitude)
      && shadowMap == (if old(shadowMap).None? && created then Some(NewShadowMap(handle))
                       else old(shadowMap))
    }

    /**
      * With a shadow map, every non-null receiver got the parameters for the
      * world-to-clip matrix `worldToShadowClip`; without one, or without
      * receivers, every receiver is as it was.
      */
    twostate predicate ReceiversUpdated(worldToShadowClip: Mat4)
      reads this, receiverMaterials, ReceiverSet()
    {
      && (receiverMaterials != null && shadowMap.Some? ==>
            forall k | 0 <= k < receiverMaterials.Length && receiverMaterials[k] != null ::
              Pushed(receiverMaterials[k], ParamsFor(shadowMap.value, worldToShadowClip)))
      && (receiverMaterials == null || shadowMap.None? ==> ReceiversKept())
    }

    /**
      * LateUpdate past its early return: render, then update the receivers
      * with the world-to-clip matrix of the fitted camera.
      */
    method RenderAndUpdate(renderers: seq<Option<Renderer>>, light: DirectionalLight,
                           sizeMagnitude: real, created: bool, handle: nat,
                           clipOf: Frustum -> Mat4)
      requires shadowCamera != null
      requires sizeMagnitude >= 0.0
      modifies this`shadowMap, shadowCamera, ReceiverSet()
      ensures Rendered(renderers, light, sizeMagnitude, created, handle)
      ensures ReceiversUpdated(clipOf(FitShadowCamera(SceneBoundsOf(renderers), light.forward,
                                                      light.rotation, shadowMapSize, sizeMagnitude)))
      ensures unchanged(shadowCamera`orthographic, shadowCamera`cullingMask, shadowCamera`enabled)
    {
      var rendered := RenderShadowMap(renderers, light, sizeMagnitude, created, handle);
      assert Rendered(renderers, light, sizeMagnitude, created, handle);
      label Fitted:
      var worldToShadowClip := clipOf(shadowCamera.State());
      var validMaterialCount := UpdateReceiverMaterials(worldToShadowClip);
      // the receiver push writes materials only
      assert unchanged@Fitted(this, shadowCamera);
    }
  }
}
