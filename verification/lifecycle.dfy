/** The plugin's state machine, shared by the C and the C++ implementation: the four global
    handles, how each host callback changes them, and the foreign calls each one issues. */
module Lifecycle {
  import opened Interop
  import opened Unity
  import opened D3D11
  import TestImage

  /** The plugin's globals: the host's interface registry and graphics interface, the
      Direct3D 11 device and the texture the plugin created. All start out null. */
  datatype Globals = Globals(
    unity: Option<Interfaces>, graphics: Option<Graphics>,
    device: Option<Device>, texture: Option<Texture>)

  const Unloaded: Globals := Globals(None, None, None, None)

  /** A call the plugin makes into the host or the graphics driver. */
  datatype Call =
    | RegisterDeviceEventCallback
    | UnregisterDeviceEventCallback
    | CreateTexture2D(device: Device, desc: Texture2DDesc, initialData: SubresourceData)
    | Release(texture: Texture)

  /** The globals after a callback, and the calls it made, in order. */
  datatype Step = Step(after: Globals, calls: seq<Call>)

  /** A device event dereferences the graphics interface to ask for the renderer, and an
      Initialize event under Direct3D 11 dereferences the interface registry. */
  predicate DeviceEventAllowed(g: Globals, event: DeviceEventType, renderer: Renderer)
  {
    g.graphics.Some? && (renderer == Direct3D11 && event == Initialize ==> g.unity.Some?)
  }

  /** `OnGraphicsDeviceEvent`: `renderer` is what the graphics interface reports and
      `reported` the device the Direct3D 11 interface hands out. */
  function DeviceEvent(g: Globals, event: DeviceEventType, renderer: Renderer, reported: Option<Device>): (r: Globals)
    requires DeviceEventAllowed(g, event, renderer)
    ensures r.unity == g.unity && r.graphics == g.graphics && r.texture == g.texture
    ensures r.device == g.device || r.device == reported || r.device == None
  {
    if renderer != Direct3D11 then g
    else if event == Initialize then g.(device := reported)
    else if event == Shutdown then g.(device := None)
    else g
  }

  /** Render event 0 reads the description and calls into the device; event 1 releases the
      texture. Both dereference what they use. */
  predicate RenderEventAllowed(g: Globals, eventId: int32, data: Option<TextureDescription>)
  {
    && (eventId == 0 ==> data.Some? && WellFormed(data.value) && g.device.Some?)
    && (eventId == 1 ==> g.texture.Some?)
  }

  /** `OnRenderEvent`: `created` is the handle the driver writes into the texture global. */
  function RenderEvent(g: Globals, eventId: int32, data: Option<TextureDescription>, created: Option<Texture>): (s: Step)
    requires RenderEventAllowed(g, eventId, data)
    ensures s.after.unity == g.unity && s.after.graphics == g.graphics && s.after.device == g.device
    ensures |s.calls| <= 1
    ensures s.after.texture != g.texture ==> |s.calls| == 1
  {
    if eventId == 0 then
      var d := data.value;
      Step(g.(texture := created),
           [CreateTexture2D(g.device.value, TextureDescFor(d), InitialDataFor(d))])
    else if eventId == 1 then
      Step(g.(texture := None), [Release(g.texture.value)])
    else
      Step(g, [])
  }

  /** `UnityPluginLoad`: keep the registry and the graphics interface looked up in it,
      register the device callback and run it for Initialize straight away. */
  function Load(g: Globals, interfaces: Interfaces, graphics: Graphics, renderer: Renderer, reported: Option<Device>): (s: Step)
    ensures s.after.unity == Some(interfaces) && s.after.graphics == Some(graphics)
    ensures s.calls == [RegisterDeviceEventCallback]
  {
    var loaded := g.(unity := Some(interfaces), graphics := Some(graphics));
    Step(DeviceEvent(loaded, Initialize, renderer, reported), [RegisterDeviceEventCallback])
  }

  /** `UnityPluginUnload`: unregister the callback through the graphics interface and drop
      both host interfaces. */
  function Unload(g: Globals): (s: Step)
    requires g.graphics.Some?
    ensures s.after == Unloaded.(device := g.device, texture := g.texture)
  {
    Step(g.(unity := None, graphics := None), [UnregisterDeviceEventCallback])
  }

  /** Device events change nothing unless the renderer is Direct3D 11. */
  lemma DeviceEventIgnoredOffD3D11(g: Globals, event: DeviceEventType, renderer: Renderer, reported: Option<Device>)
    requires DeviceEventAllowed(g, event, renderer) && renderer != Direct3D11
    ensures DeviceEvent(g, event, renderer, reported) == g
  {
  }

  /** Under Direct3D 11, Initialize installs the reported device, Shutdown clears it and the
      reset events leave it; no event touches anything but the device. */
  lemma DeviceEventOnD3D11(g: Globals, event: DeviceEventType, reported: Option<Device>)
    requires DeviceEventAllowed(g, event, Direct3D11)
    ensures var g' := DeviceEvent(g, event, Direct3D11, reported);
      && g'.unity == g.unity && g'.graphics == g.graphics && g'.texture == g.texture
      && (event == Initialize ==> g'.device == reported)
      && (event == Shutdown ==> g'.device == None)
      && (event != Initialize && event != Shutdown ==> g'.device == g.device)
  {
  }

  /** Render event 0 stores the driver's handle as the texture, after asking the device for
      a width by height RGBA8 texture with one mip level and one array slice, initialised
      with the test image at a row pitch of width * 4 bytes. */
  lemma RenderEventCreates(g: Globals, d: TextureDescription, created: Option<Texture>)
    requires RenderEventAllowed(g, 0, Some(d))
    ensures var s := RenderEvent(g, 0, Some(d), created);
      && s.after == g.(texture := created)
      && |s.calls| == 1 && s.calls[0].CreateTexture2D? && s.calls[0].device == g.device.value
      && var t, data := s.calls[0].desc, s.calls[0].initialData;
      && t.width == d.width as nat && t.height == d.height as nat
      && t.mipLevels == 1 && t.arraySize == 1 && t.format == FormatR8G8B8A8Unorm
      && data.sysMem == TestImage.Image(d.width as nat, d.height as nat)
      && data.sysMemPitch == d.width as nat * 4
      && data.sysMemSlicePitch == d.height as nat * d.width as nat * 4
  {
  }

  /** Render event 1 releases the texture and nulls the global. */
  lemma RenderEventReleases(g: Globals, data: Option<TextureDescription>, created: Option<Texture>)
    requires RenderEventAllowed(g, 1, data)
    ensures var s := RenderEvent(g, 1, data, created);
      && s.after.texture == None
      && s.after.unity == g.unity && s.after.graphics == g.graphics && s.after.device == g.device
      && s.calls == [Release(g.texture.value)]
  {
  }

  /** Every other render event id does nothing. */
  lemma RenderEventOtherIds(g: Globals, eventId: int32, data: Option<TextureDescription>, created: Option<Texture>)
    requires eventId != 0 && eventId != 1
    ensures var s := RenderEvent(g, eventId, data, created);
      && s.after.unity == g.unity && s.after.graphics == g.graphics
      && s.after.device == g.device && s.after.texture == g.texture
      && s.calls == []
  {
  }

  /** Loading registers the callback and then behaves as an Initialize device event. */
  lemma LoadInitializes(g: Globals, interfaces: Interfaces, graphics: Graphics, renderer: Renderer, reported: Option<Device>)
    ensures var s := Load(g, interfaces, graphics, renderer, reported);
      && s.calls == [RegisterDeviceEventCallback]
      && s.after.unity == Some(interfaces) && s.after.graphics == Some(graphics)
      && s.after.texture == g.texture
      && s.after.device == (if renderer == Direct3D11 then reported else g.device)
  {
  }

  /** Unloading drops the host interfaces and keeps the device and the texture. */
  lemma UnloadKeepsResources(g: Globals)
    requires g.graphics.Some?
    ensures var s := Unload(g);
      && s.after.unity == None && s.after.graphics == None
      && s.after.device == g.device && s.after.texture == g.texture
      && s.calls == [UnregisterDeviceEventCallback]
  {
  }

  /** A session in the order the host runs it: the engine loads the plugin under Direct3D 11,
      the host-side script issues render event 0 to create the texture and render event 1 to
      destroy it, and the engine unloads the plugin. The texture the driver handed out is
      released exactly once, and only the device is left behind. */
  lemma Session(interfaces: Interfaces, graphics: Graphics, device: Device, d: TextureDescription, texture: Texture)
    requires WellFormed(d)
    ensures var s1 := Load(Unloaded, interfaces, graphics, Direct3D11, Some(device));
      && RenderEventAllowed(s1.after, 0, Some(d))
      && var s2 := RenderEvent(s1.after, 0, Some(d), Some(texture));
      && RenderEventAllowed(s2.after, 1, None)
      && var s3 := RenderEvent(s2.after, 1, None, None);
      && s3.after.graphics.Some?
      && var s4 := Unload(s3.after);
      && s4.after == Globals(None, None, Some(device), None)
      && s1.calls + s2.calls + s3.calls + s4.calls
         == [RegisterDeviceEventCallback,
             CreateTexture2D(device, TextureDescFor(d), InitialDataFor(d)),
             Release(texture),
             UnregisterDeviceEventCallback]
  {
  }
}
