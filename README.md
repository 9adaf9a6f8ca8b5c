# VQEngine core, modelled in Dafny

This project models the sequential logic around VQEngine's D3D12 renderer and its engine shell:

- the update thread's application-state machine (INITIALIZING → LOADING → SIMULATING) and its tick counter;
- scene bookkeeping: the mesh, model and material registries, deserialisation of game objects, the per-frame mesh render-command list, and `Unload`;
- engine settings: the defaults, the INI settings file and the command line, applied in that order, plus the main thread's quit rule;
- shader utilities:
  - `#include` extraction and the cache-dirty decision;
  - vertex input-layout reflection;
  - shader-model parsing and the choice between the FXC and DXC compilers, with the FXC macro array and the DXC argument list;
  - the macro hash and blob byte-code access;
- texture helpers: the checkerboard pixel buffer, image-path decomposition, the member state set by `Create`/`Destroy`, and depth-stencil-view selection;
- fence counter arithmetic: issuing values and the "CPU at most N frames ahead" wait;
- render-command arithmetic: dispatch sizes, cubemap shadow-view indexing, which shadow views and meshes are drawn, post-process output and UI input selection, and the SSAO switch-off detector.

Where the source changes an object's fields in place, the model is a class. This applies to `UpdateThread`, `Scene`, `Texture`, `Fence` and `AmbientOcclusionPass`. Each method on such a class is proved against a specification function, and the lemmas about that function carry the properties. Loops in the source are loops in the model:

- the checkerboard fill;
- the layout reflection;
- the argument builders;
- the settings-file reader;
- the shadow and mesh loops.

Every loop is proved against such a function.

Files, one module each:

- `wrappers.dfy`: `Option` and `Result`.
- `strutil.dfy`: the string helpers the source calls (split, lowercase, find).
- `update.dfy`: `VQEngine_Update.cpp`.
- `scene.dfy`: `Scene.cpp`.
- `settings.dfy`: `VQEngine_Main.cpp`.
- `shader.dfy`: `Shader.cpp`.
- `texture.dfy`: `Texture.cpp`.
- `fence.dfy`: `Fence.cpp`.
- `render_commands.dfy`: `VQEngine_RenderCommands.cpp`.

## Model

| member | source | states |
|---|---|---|
| AppUpdate.UpdateAppState | Source/Application/VQEngine_Update.cpp:80-124 | INITIALIZING dispatches the level load once. It enters LOADING with the flag raised, or SIMULATING with the flag lowered when no task is active. Active tasks keep LOADING unchanged. "Flag ⇔ LOADING" is preserved. The state never moves back. SIMULATING is final. The loop counter is untouched. |
| AppUpdate.Tick | Source/Application/VQEngine_Update.cpp:29-46 | A tick before the render thread is ready changes nothing. A completed tick increments the loop counter by exactly one and keeps the invariant. |
| AppUpdate.RunFromInitial | Source/Application/VQEngine_Update.cpp:84-116 | From the initial state, after any sequence of ticks: "flag ⇔ LOADING" holds; the load was dispatched exactly once as soon as INITIALIZING was left, and never before; the counter equals the number of ready ticks. |
| AppUpdate.RunMonotone | Source/Application/VQEngine_Update.cpp:84-122 | No sequence of ticks moves the app state backwards. |
| AppUpdate.SimulatingIsFinal | Source/Application/VQEngine_Update.cpp:101-122 | Once SIMULATING, the state stays SIMULATING and no further load is dispatched. |
| AppUpdate.UpdateThread.UpdateThreadUpdateAppState | Source/Application/VQEngine_Update.cpp:80-124 | Requires the render thread to be initialised (the source asserts it). The new state is `UpdateAppState` of the old state. |
| AppUpdate.UpdateThread.UpdateThreadMain | Source/Application/VQEngine_Update.cpp:23-54 | The counter is reset, then the loop runs until the first stop observation. The final state is the run of the observed ticks, and the counter counts the ready ones. |
| SceneData.IdCounters.constructor | Source/Application/Scene.cpp:43-70 | The function-static mesh, model and material counters, shared by every scene, all start at 0. |
| SceneData.ModelLoadQueue.constructor | Source/Application/Scene.cpp:193 | The asset loader starts with no queued model load and no load started. |
| SceneData.ModelLoadQueue.QueueModelLoad | Source/Application/Scene.cpp:193 | `QueueModelLoad(path, name)` appends exactly that request after the earlier ones. |
| SceneData.ModelLoadQueue.StartLoadingModels | Source/Application/Scene.cpp:215 | Each call starts loading once more and leaves the queue as it is. |
| SceneData.Scene.AddMesh | Source/Application/Scene.cpp:40-46 | The mesh is stored under the old counter value, which was free. The counter grows by one. |
| SceneData.Scene.CreateModel | Source/Application/Scene.cpp:48-55 | A default model is stored under the old counter value, which was free. The counter grows by one. |
| SceneData.Scene.CreateMaterial | Source/Application/Scene.cpp:57-81 | A known name returns its ID and changes nothing. A new name takes the counter value, bumps the counter, and registers both the material and the name. |
| SceneData.DistinctNamesDistinctIDs | Source/Application/Scene.cpp:59-80 | Two different registered material names never share an ID. It reads this off the scene invariant; the proof work is `CreateMaterial`'s `ensures Valid()`, which keeps it across the name cache and the fresh counter value. |
| SceneData.Scene.PostUpdate | Source/Application/Scene.cpp:121-153 | Requires the frame index to be below the number of frame slots. Only that slot changes, and its command list becomes `Commands(objects)`. |
| SceneData.CommandsLength | Source/Application/Scene.cpp:140-152 | The command list has one entry per (object, opaque mesh). |
| SceneData.CommandAt | Source/Application/Scene.cpp:140-152 | Mesh j of object i sits at offset (meshes of the earlier objects) + j and carries object i's world matrix. This gives object order first, then mesh order. |
| SceneData.Scene.DeserializeGameObject | Source/Application/Scene.cpp:162-202 | Requires exactly one of built-in and file model. It appends one transform and one object that points at it and at a fresh model. The model is built-in and loaded, or file-backed, unloaded and queued. |
| SceneData.Scene.DeserializeGameObjects | Source/Application/Scene.cpp:204-211 | The objects are deserialised in order, which is `DeserializeAll` of the old state. |
| SceneData.DeserializeAllResult | Source/Application/Scene.cpp:162-211 | n transforms are appended in order, with n objects pointing at them and at n consecutive fresh model IDs. Old models are kept. One load request is queued per file-backed object. |
| SceneData.DeserializeAllObjects | Source/Application/Scene.cpp:165-169 | The transforms and objects appended, and the model counter advance. |
| SceneData.DeserializeAllModels | Source/Application/Scene.cpp:175-194 | Old models are kept, model `first + k` is the k-th object's model, and nothing else is added. |
| SceneData.DeserializeAllRequests | Source/Application/Scene.cpp:188-194 | One queued (path, name) request per file-backed object, in order. |
| SceneData.FileRequestsOne | Source/Application/Scene.cpp:178-194 | A single object queues a request exactly when it is not built-in. |
| SceneData.Scene.LoadCameras | Source/Application/Scene.cpp:220-240 | Every camera's parameters receive the window size. One camera is created per parameter set, and it gets a controller exactly when asked for one. |
| SceneData.Scene.StartLoading | Source/Application/Scene.cpp:155-245 | Objects are deserialised, model loading is started once, and cameras are created. Only the transforms, objects, models, cameras, scene representation, model counter and loader are written: meshes, materials, lights, bounding boxes, camera selection, environment map and frame views are untouched. The stored scene representation carries the viewport-updated cameras. |
| SceneData.Scene.Unload | Source/Application/Scene.cpp:254-285 | The number of frame slots is kept and every slot is emptied. Transforms, objects, cameras, lights and bounding boxes are emptied. The selected camera becomes 0 and the environment preset −1. The environment map is unloaded once. |
| SceneData.Scene.ResetLevelState | Source/Application/Scene.cpp:256-284 | The level state apart from the object lists is reset. |
| SceneData.Scene.UnloadObjects | Source/Application/Scene.cpp:266-272 | Transforms, objects and cameras are emptied, keeping the registry invariant. |
| SceneData.Scene.constructor | Source/Application/Scene.cpp:96-108 | One empty frame view per frame buffer, camera 0, environment preset 0, empty registries. |
| SceneData.EmptySceneViews | Source/Application/Scene.cpp:260-262 | n empty frame views. |
| EngineSettings.InitializeEngineSettings | Source/Application/VQEngine_Main.cpp:72-125 | For every setting: the command-line value if overridden there, else the file value if overridden there, else the default. A test-frames override in a layer forces a test run and copies the frame count. |
| EngineSettings.ApplyOverrides | Source/Application/VQEngine_Main.cpp:94-107 | One override layer applied assignment by assignment equals `Overlay`. |
| EngineSettings.ApplyGraphicsOverrides | Source/Application/VQEngine_Main.cpp:94-98 | The graphics part of one layer equals `OverlayGraphics`. |
| EngineSettings.OverlayNothing | Source/Application/VQEngine_Main.cpp:94-107 | A layer with no override flag leaves every setting as it was. |
| EngineSettings.OverlayIdempotent | Source/Application/VQEngine_Main.cpp:94-107 | Applying the same layer twice is applying it once. |
| EngineSettings.AsUnsigned64 | Source/Application/VQEngine_Main.cpp:45 | The signed frame count as compared with the unsigned 64-bit loop counter: unchanged when non-negative, 2^64 plus the count when negative. |
| EngineSettings.QuitRule | Source/Application/VQEngine_Main.cpp:35-54 | Outside a test run, only a closed window quits. In a test run with a non-negative frame count, a quit is posted exactly once `NumAutomatedTestFrames <= frames run`, and it stays posted. A negative count (of C++ `int` range) never quits at any counter value below 2^64 − 2^31. |
| EngineSettings.ParseLineINI | Source/Application/VQEngine_Main.cpp:167-189 | An empty line fails. A `[` line gives a non-empty name free of `]` and an empty value. Any other line gives a non-empty name and value, both free of `=`. |
| EngineSettings.ParseSectionTag | Source/Application/VQEngine_Main.cpp:172-178 | `[name]rest` parses to (name, ""). |
| EngineSettings.ParseAssignment | Source/Application/VQEngine_Main.cpp:179-185 | `name=value` parses to exactly (name, value). |
| EngineSettings.ParseMissingValue | Source/Application/VQEngine_Main.cpp:181-182 | `name=` and `=value` have fewer than two tokens and fail. |
| EngineSettings.FileSettingOf | Source/Application/VQEngine_Main.cpp:223-252 | Only the five file keys map to an override, and only to the file's override flags. |
| EngineSettings.ParseEngineSettingsFile | Source/Application/VQEngine_Main.cpp:193-262 | A missing file gives no overrides. Otherwise the line loop equals `ApplyLines`: comments, empty lines and headers are skipped, and the first bad line fails the file. |
| EngineSettings.FirstErrorWins | Source/Application/VQEngine_Main.cpp:203-208 | Once a line fails, later lines do not change the result. |
| EngineSettings.FileOverridesOnlyItsKeys | Source/Application/VQEngine_Main.cpp:223-252 | A settings file raises only the VSync, render-resolution and window-size overrides. |
| EngineSettings.LinesWithoutEffect | Source/Application/VQEngine_Main.cpp:205-217 | Comments, empty lines, headers and unknown keys change nothing, whatever the current section. |
| EngineSettings.SettingLine | Source/Application/VQEngine_Main.cpp:208-252 | Appending `key=value` for a known key applies that key to the earlier result, so the later line wins. |
| EngineSettings.ApplySettingOwnsOneField | Source/Application/VQEngine_Main.cpp:223-252 | A known key raises exactly its own flag and changes exactly its own value. |
| ShaderUtils.GetIncludeFileName | Source/Renderer/Shader.cpp:88-98 | A line without `#include "` gives the empty string. |
| ShaderUtils.FindTagAfterPrefix | Source/Renderer/Shader.cpp:91 | In `p + tag + rest` with no tag in p, the first tag is found at \|p\|. |
| ShaderUtils.IncludeOfQuotedLine | Source/Renderer/Shader.cpp:88-98 | `p#include "N"`, with no tag in p, yields N. |
| ShaderUtils.IncludeWithTrailingComment | Source/Renderer/Shader.cpp:94-95 | As written, `#include "a.h" // b` yields `a.h" // ` and not `a.h`. |
| ShaderUtils.IncludeFileName | Source/Renderer/Shader.cpp:88-98 | The corrected extraction: a line with no tag gives "", and the result never contains a quote. |
| ShaderUtils.IncludeFileNameOfLine | Source/Renderer/Shader.cpp:88-98 | The corrected extraction yields N for `p#include "N"` followed by anything. |
| ShaderUtils.IncludeFileNameAgrees | Source/Renderer/Shader.cpp:88-98 | Both extractions agree on lines that end at the closing quote. |
| ShaderUtils.IsCacheDirty | Source/Renderer/Shader.cpp:139-145 | A missing cache is dirty. Otherwise the cache is clean iff the source is not newer and no include is dirty. |
| ShaderUtils.FormatFor | Source/Renderer/Shader.cpp:169-193 | A format is assigned iff mask ≤ 15 and the component type is known, and it has that component type. |
| ShaderUtils.FormatComponents | Source/Renderer/Shader.cpp:170-193 | Component count: mask 0 gives 2; otherwise it is the mask's bit length (1→1, 2..3→2, 4..7→3, 8..15→4). |
| ShaderUtils.ElementFor | Source/Renderer/Shader.cpp:160-193 | Semantic copied, slot 0, append-aligned, per-vertex, step rate 0, and the format per the table. |
| ShaderUtils.ReflectInputLayoutFromVS | Source/Renderer/Shader.cpp:147-199 | One element per input parameter, in order, each `ElementFor` its parameter. |
| ShaderUtils.StageOfIdentifier | Source/Renderer/Shader.cpp:433-450 | The result is UNINITIALIZED iff the identifier is not one of vs/gs/ds/hs/ps/cs. |
| ShaderUtils.GetShaderStageEnumFromShaderModel | Source/Renderer/Shader.cpp:425-451 | Fails iff there are fewer than two `_` tokens. Otherwise the stage is that of the lowercased first token. |
| ShaderUtils.StageIgnoresCase | Source/Renderer/Shader.cpp:429-431 | Lowercasing the model string first does not change the result. |
| ShaderUtils.SplitModel | Source/Renderer/Shader.cpp:205 | `a_b_c` with `_`-free non-empty parts splits into [a, b, c]. |
| ShaderUtils.StageOfModel | Source/Renderer/Shader.cpp:425-451 | `a_b_c` gives the stage of lowercase a. |
| ShaderUtils.SelectCompiler | Source/Renderer/Shader.cpp:202-235 | Success needs three tokens and a known stage. FXC is chosen iff the second token starts with '5'. The stage agrees with `GetShaderStageEnumFromShaderModel`. |
| ShaderUtils.SelectCompilerOfModel | Source/Renderer/Shader.cpp:205-214 | `a_b_c` succeeds iff a names a stage; then FXC iff b starts with '5'. |
| ShaderUtils.BuildFxcMacros | Source/Renderer/Shader.cpp:239-245 | \|macros\|+1 entries: entry i is (Name_i, Value_i) and the last is (NULL, NULL). |
| ShaderUtils.FlagArgs | Source/Renderer/Shader.cpp:315-320 | No flags give no arguments, and at most four arguments are produced. |
| ShaderUtils.DefineArgs | Source/Renderer/Shader.cpp:270-327 | 2·\|macros\| entries: "-D" followed by "Name=Value", per macro in order. |
| ShaderUtils.DxcArgumentsShape | Source/Renderer/Shader.cpp:315-339 | With flags 0: length 2·\|macros\|+6, the defines first, then "-E" entry, "-T" lowercased model, "-I" folder. |
| ShaderUtils.PushFlagArgs | Source/Renderer/Shader.cpp:316-320 | The pushed flag arguments equal `FlagArgs`. |
| ShaderUtils.BuildDxcArguments | Source/Renderer/Shader.cpp:267-339 | The pushed argument list equals `DxcArguments`. |
| ShaderUtils.ConcatMacrosSingle | Source/Renderer/Shader.cpp:420-421 | One macro concatenates to Name+Value. |
| ShaderUtils.ConcatMacrosAppend | Source/Renderer/Shader.cpp:419-421 | Concatenation distributes over appending macro lists, so the order is the list order. |
| ShaderUtils.GeneratePreprocessorDefinitionsHash | Source/Renderer/Shader.cpp:416-423 | No macros give 0. Otherwise the result is the hash of the in-order concatenation. |
| ShaderUtils.HashSeesOnlyConcatenation | Source/Renderer/Shader.cpp:420-422 | Macros whose Name+Value concatenations are equal hash equally: the name/value boundary is lost. |
| ShaderUtils.GetByteCode | Source/Renderer/Shader.cpp:455-464 | Fails iff both blobs are null. The D3D blob is preferred, then the DXC blob. |
| ShaderUtils.GetByteCodeSize | Source/Renderer/Shader.cpp:466-473 | 0 for a null blob. Otherwise the size of the blob `GetByteCode` picks. |
| Textures.GenerateTextureCheckerboard | Source/Renderer/Texture.cpp:362-400 | Requires D ≥ 8. The buffer has length 4·D·D, and byte n is `CheckerByte(n)`. |
| Textures.CheckerPixelIsOpaqueGrey | Source/Renderer/Texture.cpp:383-396 | Every pixel has R = G = B and alpha 0xff. |
| Textures.CheckerPixelBytes | Source/Renderer/Texture.cpp:376-396 | With the loop's i and j, the four bytes are dark (0x00/0x03) iff i and j have equal parity, else light (0xff/0x1F), with alpha 0xff. |
| Textures.CheckerIsBoard | Source/Renderer/Texture.cpp:368-396 | For D divisible by 8, pixel (x, y) is dark iff x/cell and y/cell have equal parity. |
| Textures.DecomposeImagePath | Source/Renderer/Texture.cpp:63-77 | On success: HDR iff the lowercased extension is "hdr"; the extension is not "exr"; the name is non-empty and free of '.'; the directory is a prefix of the path. |
| Textures.WriteCheckerPixel | Source/Renderer/Texture.cpp:378-396 | One iteration of the loop: the four bytes at offset n become `CheckerByte` of their index, and every other byte is unchanged. |
| Textures.DecomposeOfPath | Source/Renderer/Texture.cpp:63-77 | `dir + name + "." + ext` decomposes to (dir, name, lowercase ext, HDR iff "hdr"). |
| Textures.DecomposeRejectsSeparatorsOnly | Source/Renderer/Texture.cpp:64-65 | A path made only of '/' and '\\' has no file token and is refused. |
| Textures.DecomposeRejectsMissingExtension | Source/Renderer/Texture.cpp:67-69 | A file name without '.' is one token, not name and extension, and is refused. |
| Textures.DecomposeRejectsDottedFile | Source/Renderer/Texture.cpp:67-69 | A file name `a.b.c` (three tokens) is refused. |
| Textures.DecomposeRejectsExr | Source/Renderer/Texture.cpp:67-76 | `name.ext` whose extension lowercases to "exr" is refused. |
| Textures.SplitFileName | Source/Renderer/Texture.cpp:68-69 | `name.ext` splits into exactly [name, ext]. |
| Textures.FindFileAfterDirectory | Source/Renderer/Texture.cpp:71 | The file name is first found right after the directory. |
| Textures.ReadImageFromDisk | Source/Renderer/Texture.cpp:55-81 | An empty path returns false without loading. Otherwise the image is loaded with the path's HDR flag, and success iff it has data and positive bytes per pixel. |
| Textures.CreationRequest | Source/Renderer/Texture.cpp:90-112 | COPY_DEST iff pixel data is given, else the desc's state. A render-target colour clear overrides the D32 depth clear of an R32_TYPELESS texture. No clear value otherwise. |
| Textures.Texture.Create | Source/Renderer/Texture.cpp:86-137 | The allocator is asked for `CreationRequest`. On success the handles are stored and typeless ⇔ R32_TYPELESS. On failure nothing changes. |
| Textures.Texture.Destroy | Source/Renderer/Texture.cpp:140-152 | Both handles are released and nulled, so a second call releases nothing. |
| Textures.DsvDescFor | Source/Renderer/Texture.cpp:266-286 | Always D32_FLOAT. 1 sample and 1 slice gives TEXTURE2D (mip 0). 1 sample and more slices gives TEXTURE2DARRAY(0, ArraySlice, 1). More samples give TEXTURE2DMS. |
| Fences.CompletedAfterWait | Source/Renderer/Fence.cpp:55-75 | After the wait the CPU is at most `olderFence` values ahead of the completed value, and the completed value neither goes back nor passes the last issued value. |
| Fences.WaitTarget | Source/Renderer/Fence.cpp:62-73 | A wait is issued iff fenceValue > older and completed ≤ fenceValue − older. Its target plus older is fenceValue, and the target is positive. |
| Fences.Fence.Create | Source/Renderer/Fence.cpp:27-37 | The fence value starts at 0 with nothing signalled. |
| Fences.Fence.IssueFence | Source/Renderer/Fence.cpp:45-53 | The value grows by exactly one and the new value is signalled, keeping signals = 1, 2, …, value. |
| Fences.Fence.CPUWaitForFence | Source/Renderer/Fence.cpp:60-75 | The fence value is unchanged. The completed value becomes `CompletedAfterWait`, so value − completed ≤ older. The wait recorded is `WaitTarget`. |
| Fences.Fence.GPUWaitForFence | Source/Renderer/Fence.cpp:77-83 | The queue waits on the current value. |
| RenderCommands.DispatchCount | Source/Engine/VQEngine_RenderCommands.cpp:798-801 | The group count covers the size, and one group fewer would not. |
| RenderCommands.DispatchCountIsLeast | Source/Engine/VQEngine_RenderCommands.cpp:886-889 | No covering group count is smaller. |
| RenderCommands.GroupDimension | Source/Engine/VQEngine_RenderCommands.cpp:1000-1002 | The group size is 8 or 16, and it is 8 exactly for depth resolve and the tonemapper (8 for depth resolve and the tonemapper at 798-799 and 886-887, 16 for CAS and both FSR passes). |
| RenderCommands.DispatchSize | Source/Engine/VQEngine_RenderCommands.cpp:1041-1044 | X and Y are the least covering counts for the pass's group size, and Z is 1. |
| RenderCommands.PointShadowViewIndex | Source/Engine/VQEngine_RenderCommands.cpp:201-203 | The index of face f of light i lies in [6i, 6i+6). |
| RenderCommands.PointShadowViewIndexInverse | Source/Engine/VQEngine_RenderCommands.cpp:203 | index / 6 is the light and index % 6 is the face. |
| RenderCommands.PointShadowViewIndexInjective | Source/Engine/VQEngine_RenderCommands.cpp:201-204 | Distinct (light, face) pairs use distinct views. |
| RenderCommands.NonEmptyViews | Source/Engine/VQEngine_RenderCommands.cpp:142-147 | At most hi − lo indices are listed, all in [lo, hi). |
| RenderCommands.NonEmptyViewsHaveCommands | Source/Engine/VQEngine_RenderCommands.cpp:146-147 | Every listed view has commands. |
| RenderCommands.NonEmptyViewsAscending | Source/Engine/VQEngine_RenderCommands.cpp:188-203 | Views are listed in ascending order, each at most once. |
| RenderCommands.NonEmptyViewsComplete | Source/Engine/VQEngine_RenderCommands.cpp:206-207 | Every view in the range that has commands is listed. |
| RenderCommands.NonEmptyViewsStep | Source/Engine/VQEngine_RenderCommands.cpp:206-220 | One more index appends that view iff it has commands. |
| RenderCommands.RenderSpotShadowMaps | Source/Engine/VQEngine_RenderCommands.cpp:119-162 | With no spot views nothing is drawn. Otherwise exactly the non-empty views 0..N−1 are drawn, in order. |
| RenderCommands.DrawCubemapFaces | Source/Engine/VQEngine_RenderCommands.cpp:201-221 | The six faces of one light extend the drawn list by its non-empty views, in face order. |
| RenderCommands.RenderPointShadowMaps | Source/Engine/VQEngine_RenderCommands.cpp:163-223 | With NumPointShadowViews ≤ 0 nothing happens. Otherwise lights iBegin.. are visited in order, and exactly the non-empty views of their cubemaps are drawn, in order. |
| RenderCommands.MeshesDrawn | Source/Engine/VQEngine_RenderCommands.cpp:271-277 | Only commands whose mesh exists are drawn, and every such command is drawn. |
| RenderCommands.MeshesDrawnAppend | Source/Engine/VQEngine_RenderCommands.cpp:271-277 | Filtering distributes over concatenation, so draws keep list order. |
| RenderCommands.MeshesAllPresent | Source/Engine/VQEngine_RenderCommands.cpp:271-277 | When every mesh exists, every command is drawn, in order. |
| RenderCommands.DrawMeshRenderCommands | Source/Engine/VQEngine_RenderCommands.cpp:271-277 | The depth pre-pass loop, and the same skip in the scene colour pass at 585-589, draw exactly `MeshesDrawn`: missing meshes are skipped and the rest drawn in list order. |
| RenderCommands.PostProcessOutput | Source/Engine/VQEngine_RenderCommands.cpp:828-836 | FSR-out iff FSR is on; CAS-out iff FSR is off and CAS is on; tonemapper-out iff both are off. |
| RenderCommands.UIInput | Source/Engine/VQEngine_RenderCommands.cpp:1110-1122 | CAS-out iff CAS is on; FSR-out iff CAS is off and FSR is on; tonemapper-out otherwise. |
| RenderCommands.UIInputIsPostProcessOutput | Source/Engine/VQEngine_RenderCommands.cpp:1110-1122 | The UI reads the post-process output iff CAS and FSR are not both on. A comment at line 1006 says they never are. |
| RenderCommands.PostProcessBarriers | Source/Engine/VQEngine_RenderCommands.cpp:828-859 | 5 barriers, plus 1 iff FSR or CAS. Scene colour goes from resolve-dest (MSAA) or render-target to non-pixel shader resource. The output goes to UAV, the three shadow maps to depth-write, and the extra barrier moves the tonemapper output to UAV. |
| RenderCommands.PostProcessBarriersDistinct | Source/Engine/VQEngine_RenderCommands.cpp:840-859 | No resource is transitioned twice in one batch, and the tonemapper output always becomes a UAV. |
| RenderCommands.AmbientOcclusionClears | Source/Engine/VQEngine_RenderCommands.cpp:394-422 | One entry per frame. The first clears iff the previous setting was on and this frame's is off. |
| RenderCommands.AmbientOcclusionClearsAt | Source/Engine/VQEngine_RenderCommands.cpp:394-422 | Frame k clears iff SSAO was on in frame k−1 and is off in frame k. |
| RenderCommands.AmbientOcclusionClearsOnce | Source/Engine/VQEngine_RenderCommands.cpp:394-422 | Two consecutive frames never both clear. |
| RenderCommands.AmbientOcclusionPass.RenderAmbientOcclusion | Source/Engine/VQEngine_RenderCommands.cpp:394-422 | The pass is recorded iff SSAO is on, and cleared iff it was on last frame and is off now. The stored flag becomes this frame's setting. |
| RenderCommands.AmbientOcclusionPass.constructor | Source/Engine/VQEngine_RenderCommands.cpp:394 | The function-static flag starts false. |

## Left out

- Threads, semaphores, mutexes and the asset loader's worker pool. The update tick takes the active-task count and the stop flag as inputs. The asset loader is a sink that records the queued (path, name) requests and the number of load starts.
- All D3D12/DXGI calls: devices, command lists, descriptors, PSOs, the allocator, the compilers, and reflection. Their answers are parameters: the allocation that `Create` got, the completed fence value, the reflected input parameters, and the blob contents.
- File I/O: reading the settings file (its lines arrive as a parameter), `Image::LoadFromFile` (a parameter), the shader cache files, and `AreIncludesDirty` (its answer is an oracle of `IsCacheDirty`).
- Floating point: camera matrices, the HDR ambient scale, the UI projection. Transforms and camera parameters are carried unchanged. `CASSharpen > 0` is folded into the CAS flag.
- `StrUtil::split`, `GetLowercased` and `DirectoryUtil::GetFolderPath` are not part of this model. Split is defined as "maximal runs of non-delimiter characters", so empty tokens are dropped. Lowercasing is ASCII only.
- `ParseBool`, `atoi`, `std::hash` and `GetBuiltInMeshID` are function parameters.
- `Shader.h`, `Texture.h`, `Fence.h` and `Scene.h` are not part of this model. `FBlob::IsNull` is taken to mean "both blobs null". The constructor defaults of `Texture` and `Scene` fields are taken as empty or null.
- `Scene::Update` and `HandleInput`: camera update and input handling are floating point and call helpers that are not shown. `Update`'s frame-index precondition is the same as `PostUpdate`'s.
- `Scene::PostUpdate`: the camera matrices it also writes are left out, and so is the read of `mCameras[mIndex_SelectedCamera]`.
- `Scene::StartLoading`: the scene-specific `LoadScene`/`UnloadScene` hooks are not part of this model. The threaded branch (`assert(false)`) is left out. The model requires the camera list to be empty on entry, because the controller loop indexes the scene's cameras by the scene's camera count.
- `AppUpdate`: the loading-screen data, the window `Show` calls and the level-load dispatch are counted as one dispatch event.
- Textures.Texture.Create: the clear value the source passes points to a block-scoped variable that is out of scope at the call. The model passes the value it was meant to hold. A failed allocation is assumed to leave both handles unchanged.
- Textures.GenerateTextureCheckerboard: requires 4·D·D < 2^32 rather than modelling the UINT wrap-around of the buffer size.
- Textures.DecomposeImagePath: the directory is the path up to the first occurrence of the file name, as `find` gives it. It is not used afterwards.
- Textures.DsvDescFor: the descriptor handle and the device call are left out.
- `Fence::Destroy` (a release of OS handles) is left out.
- Fences.CompletedAfterWait: the completed value after a wait is the least value the wait guarantees, namely the target. The GPU may in fact be further along.
- EngineSettings.QuitRule: the 64-bit wrap of the render-loop counter itself is not modelled (the counter is a `nat`), so a negative frame count is proved not to quit only below 2^64 − 2^31 frames.
- A source `assert` is read as a debug build runs it: a failing one becomes an `Err` result or, where the caller guarantees it, a `requires`. In release builds the asserts are compiled out and execution carries on: `dir/a.b.png` passes the name/extension check of Texture.cpp and the whole path is loaded as a non-HDR image, since the extension token is `png` (the name token `a` is unused), and the shader model `vs` alone gives the VS stage in Shader.cpp. Those release-build paths are not modelled.
- RenderCommands.DispatchCount: 32-bit overflow of `W + G − 1` is not modelled.
- The blur pass is not modelled, because it is disabled at compile time (`PP_ENABLE_BLUR_PASS` is false).
- `RenderDirectionalShadowMaps` and `DrawShadowViewMeshList` are not modelled. The latter uses `mMeshes.at`, which throws on a missing mesh rather than skipping it.
- Material lookups in the mesh loops are not modelled.
- The remaining command recording and the ImGui drawing are left out.
- RenderCommands.RenderPointShadowMaps: the per-light constant buffer is represented only by the light index visited.
- Logging is left out.

## Findings

| source | as written | input that shows it | evidently intended | confidence | as-written member | corrected member |
|---|---|---|---|---|---|---|
| Source/Renderer/Shader.cpp:94-95 | The file name is everything after the opening quote except the line's last character. | `#include "a.h" // b` gives `a.h" // ` | the text between the two quotes, `a.h` | medium, not executed | ShaderUtils.IncludeWithTrailingComment | ShaderUtils.IncludeFileNameOfLine |
