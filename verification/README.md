# Native texture plugin: a Dafny model

The plugin is a small native library that the Unity engine loads at startup. It keeps four
global handles:

- the engine's interface registry (`IUnityInterfaces`);
- the engine's graphics interface (`IUnityGraphics`);
- the Direct3D 11 device;
- one Direct3D 11 texture that it creates itself.

Render event 0 builds an RGBA8 test image on the CPU. Pixel (x, y) holds the bytes
(x mod 256, y mod 256, 1, 0). The event then asks the device for a texture of the requested
size, initialised with that image. Render event 1 releases the texture. `GetPointer` hands
the texture handle back to the engine. The same plugin exists twice: once in C
(`Plugin/Plugin.c`) and once in C++ (`Plugin/Plugin.cc`).

The model has these modules:

- `Interop`: nullable handles (`Option`), the C `int` (`int32`), bytes, and the
  `{ int width, height; }` description the engine passes. It also defines the range of
  descriptions for which no signed arithmetic overflows (`ImageFits`, `WellFormed`).
- `TestImage`: the image as a pure specification, built as pixels, then rows, then the
  whole image. Lemmas give its length, where each pixel's bytes sit, and that every byte
  belongs to exactly one (pixel, channel) pair.
- `Unity`, `D3D11`: the host and driver types the plugin touches. `D3D11` also holds the
  texture description and the initial data that event 0 hands to `CreateTexture2D`, and
  lemmas stating that the data fits the texture.
- `Lifecycle`: the plugin's state machine, shared by both implementations. Each callback
  is a pure transition function on the four globals. Render events, load and unload also
  return the state-changing calls they issue, in order (register, unregister,
  `CreateTexture2D`, `Release`); queries such as `GetRenderer` and `GetDevice` are
  parameters and are not logged. Lemmas state each callback's effect, and the effect of a
  session in which the engine loads the plugin, the script issues event 0 then event 1, and
  the engine unloads the plugin.
- `PluginC` and `PluginCpp`: one module per source file. Each has
  - `CreateTestImage`: an array with the source's nested loops and running `int` offset,
    proved to produce exactly `TestImage.Image`. The inner loop is the method `StoreRow`
    and the four stores of one pixel are the method `StorePixel`, so that each proof stays
    small;
  - `class Plugin`: its fields are the four globals, and each of its methods is proved to
    perform the `Lifecycle` transition.

Both classes are proved against the same `Lifecycle` functions, and both `CreateTestImage`
methods against the same `TestImage.Image`. This is how the model states that the C and
the C++ file behave the same way.

Calls into the engine and the driver become parameters of the methods:

- `GetRenderer`;
- the interface lookup;
- `GetDevice`;
- the texture handle that `CreateTexture2D` writes.

A ghost log, `calls`, records the calls the plugin makes: register and unregister of the
callback, `CreateTexture2D` with its full arguments, and `Release`.

Preconditions and parameter types state what the source dereferences, what keeps its signed
arithmetic from overflowing, and that sizes are not negative:

- the graphics interface for device events and unload;
- the interface registry for an Initialize event under Direct3D 11;
- the Direct3D 11 interface that such an Initialize event looks up in the registry is not
  null: the event dereferences it at once to ask for the device, and the model has a
  parameter only for that device (`reported`);
- the device and a description for event 0, with a non-negative width and height whose
  byte counts fit an `int`;
- the texture for event 1;
- the graphics interface that `UnityPluginLoad` looks up in the registry is not null: the
  parameter `lookedUp` has type `Graphics`, not `Option<Graphics>`, because the loader
  dereferences it straight away to register the callback.

The engine-side script (`Assets/Test.cs`) issues event 0 in `Start` and event 1 in
`OnDestroy`. Event 1 therefore finds a texture whenever event 0's `CreateTexture2D` returned
one. When that call fails it leaves the handle null (`created == None` in the model), and
the source does not guard event 1 against a null texture: it calls `Release` on it. The
precondition `texture.Some?` of event 1 in `Lifecycle.RenderEventAllowed` states exactly
this requirement.

The code handles Direct3D 11 only and ignores device events under any other renderer. The
model follows the code.

## Model

| member | source | states |
|---|---|---|
| TestImage.Pixel | Plugin/Plugin.c:34-37 | defines the four bytes stored for pixel (x, y): x and y converted to a byte, then 1 and 0; a pixel is 4 bytes |
| TestImage.Row | Plugin/Plugin.c:32-38 | one row of w pixels is 4 * w bytes |
| TestImage.Image | Plugin/Plugin.c:29-39 | defines the image as its rows, top to bottom; it is empty exactly when the width or the height is 0, the case where no pixel is stored |
| TestImage.ImageLength | Plugin/Plugin.c:27 | the w by h image is w * h * 4 bytes, the size of the buffer that is allocated for it |
| TestImage.RowPixels | Plugin/Plugin.c:32-38 | pixel x of a row is the four bytes starting at byte 4 * x |
| TestImage.ImagePrefix | Plugin/Plugin.c:30-39 | the first y rows form a prefix of the image, so later rows never change earlier bytes |
| TestImage.PixelAfterPrefix | Plugin/Plugin.c:29-39 | pixel (x, y) is the four bytes right after the y full rows and the x pixels before it |
| TestImage.PixelBytes | Plugin/Plugin.c:34-37 | at the running offset for (x, y), the image holds x mod 256, y mod 256, 1 and 0 |
| TestImage.ImageAt | Plugin/Plugin.c:29-39 | channel k of pixel (x, y) is at byte 4 * (y * w + x) + k, which lies inside the image |
| TestImage.ImageRows | Plugin/Plugin.c:79 | row y is the run of w * 4 bytes starting at y * (w * 4), so rows are exactly one pitch apart |
| TestImage.ByteOwner | Plugin/Plugin.c:29-39 | every byte offset is 4 * (y * w + x) + k for some pixel column x < w and channel k < 4 |
| TestImage.OffsetInjective | Plugin/Plugin.c:29-39 | distinct (pixel, channel) pairs have distinct offsets, so no byte is written twice |
| TestImage.ImageByte | Plugin/Plugin.c:29-39 | every byte of the image is the matching channel of the pixel that owns it, and that pixel lies inside the image |
| D3D11.TextureDescFor | Plugin/Plugin.c:82-91 | defines the texture description event 0 passes; width times bytes per texel is the row pitch, width times height times bytes per texel is the slice pitch, and there is one mip level, one slice and one sample |
| D3D11.InitialDataFor | Plugin/Plugin.c:75-80 | defines the initial data event 0 passes, the test image with both pitches; its length is the slice pitch, which is the row pitch times the height, and the row pitch is one row's length |
| D3D11.RowPitch | Plugin/Plugin.c:79 | the row pitch is the byte length of one image row and fits an `int` |
| D3D11.SlicePitch | Plugin/Plugin.c:80 | the slice pitch is the row pitch times the height, equals the image's length, and fits an `int` |
| D3D11.InitialDataCoversTexture | Plugin/Plugin.c:75-91 | the texture has the described size, one mip level, one slice and one sample; the data's pitch is width times bytes per texel; its length is exactly one slice |
| D3D11.InitialDataTexel | Plugin/Plugin.c:78-80 | read at `y * SysMemPitch + 4 * x + k`, as the driver reads it, the initial data gives channel k of test pixel (x, y) |
| Lifecycle.DeviceEvent | Plugin/Plugin.c:48-65 | defines the device event transition; it only ever changes the device, to the reported one or to null |
| Lifecycle.RenderEvent | Plugin/Plugin.c:67-104 | defines the render event transition and its calls; it changes only the texture, makes at most one call, and never changes the texture without one |
| Lifecycle.Load | Plugin/Plugin.c:110-123 | defines loading; both host interfaces are set and the only call is the callback registration |
| Lifecycle.Unload | Plugin/Plugin.c:125-131 | defines unloading; afterwards only the device and the texture can be non-null, and they are the ones from before |
| Lifecycle.DeviceEventIgnoredOffD3D11 | Plugin/Plugin.c:51 | under any renderer other than Direct3D 11, a device event changes nothing |
| Lifecycle.DeviceEventOnD3D11 | Plugin/Plugin.c:55-64 | under Direct3D 11, Initialize installs the reported device and Shutdown clears it; reset events keep it; nothing else changes |
| Lifecycle.RenderEventCreates | Plugin/Plugin.c:69-94 | event 0 makes one `CreateTexture2D` call on the current device (width by height, 1 mip, 1 slice, RGBA8) with the test image at pitches width * 4 and height * width * 4, and stores the returned handle |
| Lifecycle.RenderEventReleases | Plugin/Plugin.c:99-103 | event 1 releases the current texture once and nulls the global |
| Lifecycle.RenderEventOtherIds | Plugin/Plugin.c:67-104 | any other event id neither changes the globals nor calls anything |
| Lifecycle.LoadInitializes | Plugin/Plugin.c:110-123 | loading stores both host interfaces, registers the callback, and then acts as an Initialize device event |
| Lifecycle.UnloadKeepsResources | Plugin/Plugin.c:125-131 | unloading unregisters the callback and nulls both host interfaces; device and texture stay as they were |
| Lifecycle.Session | Assets/Test.cs:44-71 | the engine loads the plugin, the script issues event 0 then event 1, and the engine unloads the plugin: every step's precondition holds, the texture is created once and released once, and only the device is left |
| PluginC.StorePixel | Plugin/Plugin.c:34-37 | the four stores of one pixel extend the prefix that matches the image by four bytes and advance the offset by 4; every byte after them keeps its old value |
| PluginC.StoreRow | Plugin/Plugin.c:32-38 | the inner loop stores row y after the rows above it; the prefix matching the image then ends where row y + 1 begins, and every byte after it keeps its old value |
| PluginC.CreateTestImage | Plugin/Plugin.c:22-42 | the buffer is a fresh allocation of w * h * 4 bytes and holds exactly the test image; no `int` counter overflows |
| PluginC.Plugin.constructor | Plugin/Plugin.c:7-10 | all four globals start out null |
| PluginC.Plugin.OnGraphicsDeviceEvent | Plugin/Plugin.c:48-65 | the globals change as `Lifecycle.DeviceEvent` says; no call is logged |
| PluginC.Plugin.OnRenderEvent | Plugin/Plugin.c:67-104 | the globals change and calls are issued as `Lifecycle.RenderEvent` says; the initial data comes from `CreateTestImage` |
| PluginC.Plugin.UnityPluginLoad | Plugin/Plugin.c:110-123 | the globals change and calls are issued as `Lifecycle.Load` says |
| PluginC.Plugin.UnityPluginUnload | Plugin/Plugin.c:125-131 | the globals change and calls are issued as `Lifecycle.Unload` says |
| PluginC.Plugin.GetPointer | Plugin/Plugin.c:142-145 | returns the texture global unchanged |
| PluginCpp.StorePixel | Plugin/Plugin.cc:37-40 | the four stores of one pixel extend the prefix that matches the image by four bytes and advance the offset by 4; every byte after them keeps its old value |
| PluginCpp.StoreRow | Plugin/Plugin.cc:35-41 | the inner loop stores row y after the rows above it; the prefix matching the image then ends where row y + 1 begins, and every byte after it keeps its old value |
| PluginCpp.CreateTestImage | Plugin/Plugin.cc:25-45 | the buffer is a fresh allocation of w * h * 4 bytes and holds exactly the test image, the same image as the C version; no `int` counter overflows |
| PluginCpp.Plugin.constructor | Plugin/Plugin.cc:10-13 | all four globals start out null |
| PluginCpp.Plugin.OnGraphicsDeviceEvent | Plugin/Plugin.cc:51-64 | the same transition `Lifecycle.DeviceEvent` as the C version |
| PluginCpp.Plugin.OnRenderEvent | Plugin/Plugin.cc:66-98 | the same transition and calls `Lifecycle.RenderEvent` as the C version |
| PluginCpp.Plugin.UnityPluginLoad | Plugin/Plugin.cc:106-119 | the same transition and calls `Lifecycle.Load` as the C version |
| PluginCpp.Plugin.UnityPluginUnload | Plugin/Plugin.cc:121-127 | the same transition and calls `Lifecycle.Unload` as the C version |
| PluginCpp.Plugin.GetPointer | Plugin/Plugin.cc:138-141 | returns the texture global unchanged |

## Left out

- Console output: the `printf` in the C device event (`Plugin/Plugin.c:53`) and the console setup that is commented out in both loaders.
- Memory management:
  - The model has no deallocation: it does not cover `malloc`/`free` in C, or `new[]` and `std::unique_ptr<std::byte>` in C++.
  - So it cannot express that the C++ `unique_ptr` frees an array with scalar `delete` (`Plugin/Plugin.cc:72`).
  - It also assumes allocation never fails (a `malloc` that returns NULL is not modelled).
- `GetRenderEventCallback`: it only returns a function pointer to `OnRenderEvent`, which has no counterpart in Dafny. `OnRenderEvent` itself is modelled.
- Calls into the engine and the driver have no model of their own:
  - Their results are parameters: the renderer, the interface lookups, the device, and the texture handle `CreateTexture2D` writes.
  - The `HRESULT` that `CreateTexture2D` returns is ignored, as the source ignores it. A failed call is covered only through the handle parameter, which may be null.
  - The texture and device handles are opaque. Reference counting is not modelled, so `Release` is only logged.
- PluginC.CreateTestImage: requires non-negative sizes with `width * height * 4` within `int`, and the model does not cover the other inputs. What `Plugin/Plugin.c` does on them:
  - If `width * height * 4` is beyond the `int` range, the multiplication overflows a signed `int`, which is undefined behaviour.
  - If a size is negative, neither loop writes a byte, and `malloc` gets `w * h * 4` converted to an unsigned size. With the other size 0 that is `malloc(0)`. For (-1, -1) it is 4 bytes that come back uninitialised. When exactly one size is negative, the request is enormous.
- PluginCpp.CreateTestImage: the same requires, and the model does not cover the other inputs. What `Plugin/Plugin.cc` does on them:
  - If `width * height * 4` is beyond the `int` range, the multiplication overflows a signed `int`, which is undefined behaviour.
  - If a size is negative and the count `w * h * 4` is 0 (the other size is 0), `new std::byte[0]` returns an empty array and neither loop runs.
  - If both sizes are negative, the count is positive (4 for (-1, -1)): neither loop writes a byte, and the array comes back uninitialised.
  - If exactly one size is negative, the count is negative. The new-expression then calls no allocation function and throws `std::bad_array_new_length`, which escapes the render callback.
- Lifecycle.RenderEventAllowed: event 0 also requires `width * 4` to fit an `int`, because the row-pitch computation overflows otherwise when the height is 0.
- Event 0 with a texture already present overwrites the handle without releasing the old texture. The model reproduces this: `RenderEvent` replaces the texture and logs no `Release`. It does not track the leaked texture.
- The engine-side script `Assets/Test.cs` is not part of this model. `Lifecycle.Session` states only the order of events it issues (event 0, then event 1), between the engine's load and unload of the plugin.
- Threading: device events and render events run on different engine threads. The model treats each callback as atomic.
