# Variance shadow map manager, modelled in Dafny

This project models the C# component `VSMShadowManager`, which drives a
variance-shadow-map pipeline in a game engine. Each frame the component:

- estimates the bounds of the scene from the active renderers plus a ground
  footprint;
- fits an orthographic shadow camera that looks along the directional light;
- makes sure a two-channel float shadow map exists, creating it once if
  needed, and renders the scene into it;
- builds the world-to-light matrix: the scale-bias matrix that maps clip
  space [-1, 1] to texture space [0, 1], applied after the camera's
  world-to-clip matrix;
- hands the shadow map, that matrix, four tunables and the `_SHADOWS_ON`
  keyword to every non-null receiver material, counting them.

The model is split by concern:

| file | module | contents |
|---|---|---|
| `options.dfy` | `Options` | the `Option` datatype |
| `geometry.dfy` | `Geometry` | 3-vectors over `real`; axis-aligned `Bounds` as a (min, max) record; point and box encapsulation as exact component-wise min/max; containment; supporting facts about lengths |
| `scene_bounds.dfy` | `SceneBounds` | the `CalculateSceneBounds` loop as a method; `SceneBoundsOf`, its specification as a left fold; the containment, tightness, fallback and skipping properties |
| `light_frustum.dfy` | `LightFrustum` | the camera fitting as the pure function `FitShadowCamera`; the theorem that every point of the scene bounds lies between the fitted camera's near and far planes; a scene the fitted box misses sideways, and a corrected sizing that covers it |
| `shadow_space.dfy` | `ShadowSpace` | 4×4 matrices over `real` with an explicit product; the scale-bias matrix; the clip-cube to texture-cube mapping |
| `receivers.dfy` | `Receivers` | `Material` as a class holding its shader property state; the seven writes as the specification function `Push`; the receiver loop as a method over the entries in order, aliasing included |
| `manager.dfy` | `Manager` | the component as a class whose methods update its `shadowMap` and `shadowCamera` fields and the receiver materials: lifecycle (`OnEnable`, `OnDisable`), shadow-map creation and release, `RenderShadowMap`, `UpdateReceiverMaterials` and `LateUpdate` |

Modelling choices:

- Floats are modelled as `real`.
- Vector length (`size.magnitude`) is not computed, since there is no square root over `real`. It enters as a number `sizeMagnitude`.
  - Camera fitting needs only that this number is non-negative.
  - The depth-range theorem requires it to be the length, that is `m >= 0 && m * m == Dot(size, size)`.
- Engine objects and calls become values:
  - the texture's identity is a `handle`;
  - whether `new RenderTexture` succeeded is a `created` flag;
  - the platform's world-to-clip matrix is `clipOf`, a function of the camera state.
- All three are parameters.
- Untouched materials are stated as unchanged `state`, through the twostate predicate `Receivers.Kept`.
- The light is given by its rotation and its forward axis. In the engine the forward axis is the rotation applied to +z. The model takes both as given and does not derive one from the other, since no contract needs the link.
- Renderer bounds are taken as the engine builds them, with min <= max on every axis. For such a box, `Geometry.EncapsulateBox` agrees with the engine's `Encapsulate(Bounds)`, which grows by the two corners (`Geometry.EncapsulateBoxByCorners`).

## Model

| member | source | states |
|---|---|---|
| SceneBounds.SceneBoundsOf | Assets/Scripts/VSMShadowManager.cs:167-194 | Definition only, with no contract of its own: the unit box or the hull of the active renderers, then both ground corners. What it means is proved by the `SceneBounds` lemmas below |
| SceneBounds.CalculateSceneBounds | Assets/Scripts/VSMShadowManager.cs:167-194 | The loop returns `SceneBoundsOf(renderers)`: the unit box until the first active renderer, the box union of the active renderers' boxes after it, then both ground corners encapsulated |
| SceneBounds.SceneBoundsContainsActive | Assets/Scripts/VSMShadowManager.cs:173-187 | The result contains the box of every non-null renderer whose game object is active |
| SceneBounds.SceneBoundsIgnoresInactive | Assets/Scripts/VSMShadowManager.cs:175 | Deleting a null or inactive renderer from the list does not change the result |
| SceneBounds.SceneBoundsContainsGround | Assets/Scripts/VSMShadowManager.cs:190-191 | The result always contains the ground corners (-10, 0, -10) and (10, 0, 10) |
| SceneBounds.SceneBoundsFallback | Assets/Scripts/VSMShadowManager.cs:169-191 | With no active renderer, the result is exactly min (-10, -0.5, -10), max (10, 0.5, 10) |
| SceneBounds.SceneBoundsLeast | Assets/Scripts/VSMShadowManager.cs:177-191 | With an active renderer, any box holding every active renderer's box and both ground corners holds the result, so the unit box plays no part |
| SceneBounds.SceneBoundsWellFormed | Assets/Scripts/VSMShadowManager.cs:167-194 | Whatever the renderers, the result has min <= max on every axis |
| SceneBounds.UnitBoxIsCenteredUnit | Assets/Scripts/VSMShadowManager.cs:169 | The initial box has center zero and size one |
| SceneBounds.ActiveHullSomeIff | Assets/Scripts/VSMShadowManager.cs:170-181 | The bounds get initialised if and only if some entry is non-null and active |
| SceneBounds.ActiveHullContains | Assets/Scripts/VSMShadowManager.cs:173-187 | The folded hull contains every active renderer's box |
| SceneBounds.ActiveHullLeast | Assets/Scripts/VSMShadowManager.cs:177-187 | The folded hull is inside every box that holds all active renderers' boxes |
| SceneBounds.ActiveHullSkips | Assets/Scripts/VSMShadowManager.cs:175 | An entry that is null or inactive can be removed from anywhere in the list without changing the hull |
| Geometry.EncapsulatePoint | Assets/Scripts/VSMShadowManager.cs:190-191 | The grown box contains the point and the old box |
| Geometry.EncapsulatePointLeast | Assets/Scripts/VSMShadowManager.cs:190-191 | Every box that holds the old box and the point holds the grown box |
| Geometry.EncapsulateBox | Assets/Scripts/VSMShadowManager.cs:184 | The grown box contains both boxes |
| Geometry.EncapsulateBoxLeast | Assets/Scripts/VSMShadowManager.cs:184 | Every box that holds both boxes holds the grown box |
| Geometry.EncapsulateBoxByCorners | Assets/Scripts/VSMShadowManager.cs:184 | For a box with min <= max, growing by the box equals growing by its corners center - extents and center + extents, the engine's definition |
| LightFrustum.FitShadowCamera | Assets/Scripts/VSMShadowManager.cs:133-143 | The camera stands `sizeMagnitude + 10` back from the scene center along the light direction and copies the light's rotation. Its orthographic size is at least `shadowMapSize` and at least `0.7 * max(size.x, size.z)`, and equals one of the two. `0 < near < far` |
| LightFrustum.SceneWithinDepthRange | Assets/Scripts/VSMShadowManager.cs:133-143 | For a unit light direction and the true size length, every point of the scene bounds has a view-axis depth between the near and the far plane |
| LightFrustum.FitCoversDepth | Assets/Scripts/VSMShadowManager.cs:133-143 | For a unit light direction and the true size length, the fitted camera satisfies `DepthCovers`: every point of the scene bounds is between its near and far planes |
| LightFrustum.FitMissesTallScene | Assets/Scripts/VSMShadowManager.cs:137-139 | For the scene from (-w, 0, -w) to (w, h, w) seen along +z with the identity rotation, the orthographic size is `max(1.4 w, shadowMapSize)`. When h is more than twice that, the scene point (0, h, 0) lies h / 2 along the camera's up axis +y, outside the box, for any size length. w = 10, h = 40, shadowMapSize = 10 is one such case: size 14, offset 20 |
| LightFrustum.FitShadowCameraCovering | Assets/Scripts/VSMShadowManager.cs:137-139 | Same pose and clip planes as `FitShadowCamera`. The orthographic size is at least the as-written one and at least half the size length, and equals one of the two |
| LightFrustum.CoveringFitHoldsScene | Assets/Scripts/VSMShadowManager.cs:137-143 | With the corrected size, a unit light direction and the true size length, every point of the scene bounds is within the orthographic half-extent along every unit axis across the view direction, and between the clip planes |
| LightFrustum.OffsetAlongAxis | Assets/Scripts/VSMShadowManager.cs:133 | Along a unit axis, every point of the box is within half the diagonal length of the center |
| ShadowSpace.TexScaleBias | Assets/Scripts/VSMShadowManager.cs:204-207 | Definition only: the identity with 0.5 on the first three diagonal entries and in the first three rows of the last column. Its meaning is `TexScaleBiasApply` and `TexScaleBiasMapsClipCube` |
| ShadowSpace.WorldToLight | Assets/Scripts/VSMShadowManager.cs:209 | Definition only: the scale-bias matrix times the world-to-clip matrix. Its meaning is `WorldToLightMapsToTexture` |
| ShadowSpace.TexScaleBiasApply | Assets/Scripts/VSMShadowManager.cs:205-207 | The scale-bias matrix sends each clip coordinate c to (c + w) / 2 and keeps w |
| ShadowSpace.TexScaleBiasMapsClipCube | Assets/Scripts/VSMShadowManager.cs:204-207 | A homogeneous point lies in the clip cube if and only if its image lies in the texture cube; w is kept |
| ShadowSpace.TexScaleBiasUnitW | Assets/Scripts/VSMShadowManager.cs:204-207 | With w = 1, coordinates in [-1, 1] are mapped into [0, 1] and w stays 1 |
| ShadowSpace.MulApply | Assets/Scripts/VSMShadowManager.cs:209 | Applying a matrix product is applying the factors in turn |
| ShadowSpace.WorldToLightMapsToTexture | Assets/Scripts/VSMShadowManager.cs:209 | The world-to-light matrix gives the scale-bias image of the clip coordinates, so a point inside the shadow camera's clip volume gets texture coordinates in [0, 1] |
| Receivers.Push | Assets/Scripts/VSMShadowManager.cs:229-237 | Definition only: the material state after the seven writes. Its meaning is `PushWrites`, `PushIdempotent` and `PushKeepsHasParams` |
| Receivers.PushWrites | Assets/Scripts/VSMShadowManager.cs:229-237 | After the seven writes, the state carries every parameter under its property name and the keyword is on. The property names are the old ones plus the written ones. Every other property and keyword keeps its value |
| Receivers.PushIdempotent | Assets/Scripts/VSMShadowManager.cs:229-237 | Writing the same parameters twice is the same as writing them once |
| Receivers.PushKeepsHasParams | Assets/Scripts/VSMShadowManager.cs:229-237 | The writes leave a state unchanged if and only if it already carries the parameters |
| Receivers.PushParams | Assets/Scripts/VSMShadowManager.cs:229-237 | The setter calls on one material take its state to `Push(old state, params)` |
| Receivers.NonNullCountStep | Assets/Scripts/VSMShadowManager.cs:217-239 | One more entry raises the count by one if it is non-null and by zero otherwise |
| Receivers.NonNullCountAll | Assets/Scripts/VSMShadowManager.cs:214-239 | The count equals the number of entries if and only if no entry is null |
| Receivers.NonNullCountNone | Assets/Scripts/VSMShadowManager.cs:214-239 | The count is zero if and only if every entry is null |
| Receivers.PushReceivers | Assets/Scripts/VSMShadowManager.cs:214-239 | With a shadow texture, the count is the number of non-null entries and every non-null entry's state is `Push(old state, params)`, even when entries alias. Without one, the count is 0 and every material keeps its state |
| Manager.VsmShadowManager.UpdateReceiverMaterials | Assets/Scripts/VSMShadowManager.cs:198-239 | With receivers and a shadow map, the count is the number of non-null receivers. Each of them is pushed the current map, the matrix `WorldToLight(worldToShadowClip)` and the four tunables, and afterwards carries them. A null array or a missing map gives count 0 with every receiver kept |
| Manager.VsmShadowManager.RenderShadowMap | Assets/Scripts/VSMShadowManager.cs:123-150 | The camera's state becomes `FitShadowCamera(SceneBoundsOf(renderers), ...)`. Its projection mode, mask and enabled flag are kept. A missing shadow map is created once and kept when creation fails. The result is true exactly when a map exists. The receivers are untouched. For a unit light direction and the true size length, every point of the scene bounds lies between the new near and far planes |
| Manager.VsmShadowManager.LateUpdate | Assets/Scripts/VSMShadowManager.cs:113-121 | A camera is needed only past the early return. Without a light or a shadow-map material, nothing changes, whether or not a camera exists. Otherwise the camera is fitted and the map created if needed, and the receivers get the parameters for the fitted camera's world-to-clip matrix, or are kept when there is no map or no receiver array. The camera stays orthographic, with its mask and its enabled flag as before |
| Manager.VsmShadowManager.RenderAndUpdate | Assets/Scripts/VSMShadowManager.cs:119-120 | Rendering and then updating the receivers gives the fitted camera and the created-once map, as in `Rendered`, and the receiver writes for the fitted camera's matrix, as in `ReceiversUpdated`. The camera's projection mode, mask and enabled flag stay as they were |
| Manager.VsmShadowManager.CreateShadowMap | Assets/Scripts/VSMShadowManager.cs:67-91 | On success the field holds the new texture; on failure it keeps its previous value |
| Manager.VsmShadowManager.NewShadowMap | Assets/Scripts/VSMShadowManager.cs:77-80 | The created texture is square with side `shadowMapResolution`, RGFloat, 24 depth bits, bilinear and clamped |
| Manager.VsmShadowManager.ReleaseShadowMap | Assets/Scripts/VSMShadowManager.cs:93-102 | Afterwards there is no shadow map |
| Manager.VsmShadowManager.SetupShadowCamera | Assets/Scripts/VSMShadowManager.cs:47-63 | An existing camera is kept. Otherwise a fresh one is orthographic and disabled, with the caster mask, near 0.1 and far 100 |
| Manager.VsmShadowManager.OnEnable | Assets/Scripts/VSMShadowManager.cs:31-35 | The camera is set up as by SetupShadowCamera, then the shadow map is created as by CreateShadowMap |
| Manager.VsmShadowManager.OnDisable | Assets/Scripts/VSMShadowManager.cs:37-45 | Afterwards there is neither a shadow map nor a camera |
| Manager.VsmShadowManager.constructor | Assets/Scripts/VSMShadowManager.cs:8-29 | The inspector defaults: all layers, 1024, 10, 0.7, 0.00001, 0.2, 0.01; no map and no camera yet |
| Manager.ShadowCamera.constructor | Assets/Scripts/VSMShadowManager.cs:54-61 | A new camera is orthographic and disabled, with the given mask, near 0.1 and far 100 |
| Manager.ShadowCamera.Fit | Assets/Scripts/VSMShadowManager.cs:134-143 | The camera's pose, orthographic size and clip planes become the fitted ones; its other settings stay |
| Receivers.Material.SetTexture | Assets/Scripts/VSMShadowManager.cs:229 | Only the named texture property changes |
| Receivers.Material.SetMatrix | Assets/Scripts/VSMShadowManager.cs:230 | Only the named matrix property changes |
| Receivers.Material.SetFloat | Assets/Scripts/VSMShadowManager.cs:231-234 | Only the named float property changes |
| Receivers.Material.EnableKeyword | Assets/Scripts/VSMShadowManager.cs:237 | The keyword is added and nothing else changes |

## Left out

- Rendering itself is not modelled. That covers `GL.Clear`, setting the active render texture, `targetTexture` and `RenderWithShader` (lines 153-158): these are engine calls with no logic of their own.
- `GL.GetGPUProjectionMatrix` and the camera's projection and world-to-camera matrices (lines 201-202) depend on the graphics platform. The world-to-clip matrix is an input: a parameter of `UpdateReceiverMaterials`, and the function `clipOf` of the camera state in `LateUpdate`.
- The `_DummyValue` refresh over all renderers' shared materials (lines 263-272) is a renderer cache workaround. It is not modelled. So a receiver that is also some renderer's shared material also carries `_DummyValue` after a real frame, which the receiver contracts do not mention.
- Every `Debug.Log`, `Debug.LogError` and `Debug.LogWarning` call and the frame-count conditions guarding them are output only. The receiver count they print is returned by `UpdateReceiverMaterials` instead.
- `Start` (lines 104-111) makes the same two calls as `OnEnable` and then logs. It has no model of its own.
- `CreateShadowMapMaterial`, `CreateReceiverMaterial` and the gizmo drawing are shader lookup and editor drawing. The model's `Material` has no constructor of its own: receiver materials are given, in whatever state they are in.
- The demo scene builder and the on-screen debugger are not part of this model.
- The camera's `clearFlags` and `backgroundColor` (lines 57-58) take no part in any contract and are not modelled.
- `DestroyImmediate` of the camera object and `RenderTexture.Release`/`Create` are engine resource calls. Only their effect on the two fields is modelled: the camera field becomes null, and the shadow map is replaced or becomes absent.
- An exception from `new RenderTexture` is modelled by the `created` flag. When it is false, the field keeps its previous value, as the catch block leaves it.
- IEEE float rounding and the square root inside `magnitude` are not modelled. Values are reals, and the length is a parameter.
- The Chebyshev visibility test belongs to the shaders, which are not part of this model.
- LightFrustum.FitShadowCamera: lateral coverage is not claimed, because the source does not achieve it. The comment at line 137 says the orthographic size covers the whole scene, but the size comes from the x and z extents only (see "## Findings"). The manager keeps this as-written sizing.
- No check on a degenerate light direction is modelled, because the code has none.
- `receiverMaterials` is read as the array's contents at the time of the call. The array itself is never written, and neither are its null entries.
- LightFrustum.FitShadowCamera: requires only `sizeMagnitude >= 0`, not that it is the length of the size vector. The depth-range guarantee, `SceneWithinDepthRange`, adds that requirement.
- Manager.VsmShadowManager.RenderShadowMap: requires a camera. The source dereferences `shadowCamera` without a check (lines 134-143, and lines 201-202 in `UpdateReceiverMaterials`). With the camera missing, for example after `OnDisable` in edit mode, it throws a null reference exception, so the frame's work stops there. That failure path is not modelled: `RenderShadowMap` and `RenderAndUpdate` require the camera, and `LateUpdate` requires it only past its early return.

## Findings

| source | as written | input that shows it | evidently intended | confidence | as-written member | corrected member |
|---|---|---|---|---|---|---|
| Assets/Scripts/VSMShadowManager.cs:137-139 | The orthographic size is `max(0.7 * max(size.x, size.z), shadowMapSize)`. It ignores the extent along y and the light's direction, although the comment says it covers the whole scene | Scene bounds (-10, 0, -10) to (10, 40, 10), light forward (0, 0, 1) with the identity rotation, shadowMapSize 10. The size is 14, but the scene point (0, 40, 0) is 20 above the view axis. The lemma proves the general case, any h more than twice the size | The orthographic half-extent reaches every point of the scene bounds across the view direction. A lower bound of half the size length achieves this for any light direction | not executed | LightFrustum.FitMissesTallScene | LightFrustum.FitShadowCameraCovering |

The manager uses the as-written `FitShadowCamera`, because it models the component as it behaves. `LightFrustum.FitShadowCameraCovering` is the corrected sizing, and `LightFrustum.CoveringFitHoldsScene` proves it covers the whole scene.
