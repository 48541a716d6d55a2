/** Plugin/Plugin.c: the C implementation of the plugin. The C++ file does the same thing,
    so PluginCpp repeats this module with only its names and comments changed; both are kept
    so that each source file has its own model, proved against the same specifications. */
module PluginC {
  import opened Interop
  import opened Unity
  import opened D3D11
  import TestImage
  import Lifecycle

  /** The four stores `ptr[offs++] = …` of one pixel (x, y) in CreateTestImage's inner loop:
      the prefix that already matches `image` grows by the four bytes of the pixel. */
  method StorePixel(ptr: array<byte>, offs: int32, x: int32, y: int32, ghost image: seq<byte>)
      returns (next: int32)
    requires 0 <= x && 0 <= y && 0 <= offs && offs as int + 4 <= ptr.Length == |image| <= Int32Max
    requires forall i: int :: 0 <= i < offs as int ==> ptr[i] == image[i]
    requires image[offs] == (x % 256) as byte && image[offs as int + 1] == (y % 256) as byte
    requires image[offs as int + 2] == 1 && image[offs as int + 3] == 0
    modifies ptr
    ensures next as int == offs as int + 4
    ensures forall i: int :: 0 <= i < next as int ==> ptr[i] == image[i]
    ensures forall i: int :: next as int <= i < ptr.Length ==> ptr[i] == old(ptr[i])
  {
    next := offs;
    ptr[next] := (x % 256) as byte;
    next := next + 1;
    ptr[next] := (y % 256) as byte;
    next := next + 1;
    ptr[next] := 1;
    next := next + 1;
    ptr[next] := 0;
    next := next + 1;
  }

  /** The inner loop of CreateTestImage: the w pixels of row y, stored from the offset where
      the rows above it end; afterwards the prefix that matches `image` covers row y too. */
  method StoreRow(ptr: array<byte>, offs: int32, w: int32, y: int32, h: int32, ghost image: seq<byte>)
      returns (next: int32)
    requires 0 <= w && 0 <= y < h && image == TestImage.Image(w as nat, h as nat)
    requires ptr.Length == |image| <= Int32Max
    requires offs as int == |TestImage.Image(w as nat, y as nat)| <= ptr.Length
    requires forall i: int :: 0 <= i < offs as int ==> ptr[i] == image[i]
    modifies ptr
    ensures next as int == |TestImage.Image(w as nat, y as nat + 1)| <= ptr.Length
    ensures forall i: int :: 0 <= i < next as int ==> ptr[i] == image[i]
    ensures forall i: int :: next as int <= i < ptr.Length ==> ptr[i] == old(ptr[i])
  {
    next := offs;
    var x: int32 := 0;
    while x < w
      invariant 0 <= x <= w
      invariant next as int == offs as int + 4 * x as int <= ptr.Length
      invariant forall i: int :: 0 <= i < next as int ==> ptr[i] == image[i]
      invariant forall i: int :: next as int <= i < ptr.Length ==> ptr[i] == old(ptr[i])
    {
      TestImage.PixelBytes(w as nat, h as nat, x as nat, y as nat);
      next := StorePixel(ptr, next, x, y, image);
      x := x + 1;
    }
    assert TestImage.Image(w as nat, y as nat + 1)
        == TestImage.Image(w as nat, y as nat) + TestImage.Row(w as nat, y as nat);
    TestImage.ImagePrefix(w as nat, y as nat + 1, h as nat);
  }

  /** Allocates a w * h * 4 byte buffer and writes the test image into it, one pixel after
      the other through a running offset; every counter is a C `int` and never overflows. */
  method CreateTestImage(desc: TextureDescription) returns (ptr: array<byte>)
    requires ImageFits(desc)
    ensures fresh(ptr)
    ensures ptr.Length == desc.width as int * desc.height as int * 4
    ensures ptr[..] == TestImage.Image(desc.width as nat, desc.height as nat)
  {
    var w := desc.width;
    var h := desc.height;
    ptr := new byte[w * h * 4];
    ghost var image := TestImage.Image(w as nat, h as nat);
    assert ptr.Length == |image| by {
      TestImage.ImageLength(w as nat, h as nat);
      TestImage.Assoc(w as nat, h as nat);
    }

    var offs: int32 := 0;
    var y: int32 := 0;
    while y < h
      invariant 0 <= y <= h
      invariant offs as int == |TestImage.Image(w as nat, y as nat)| <= ptr.Length
      invariant forall i: int :: 0 <= i < offs as int ==> ptr[i] == image[i]
    {
      offs := StoreRow(ptr, offs, w, y, h, image);
      y := y + 1;
    }
    assert offs as int == ptr.Length;
    assert forall i :: 0 <= i < ptr.Length ==> ptr[..][i] == image[i];
  }

  /** The plugin's globals `_unity`, `_gfx`, `_dev` and `_tex`, and the callbacks that
      update them. Results of calls into the host or the driver are parameters; `calls`
      records the calls the plugin makes, in order. */
  class Plugin {
    var unity: Option<Interfaces>
    var gfx: Option<Graphics>
    var dev: Option<Device>
    var tex: Option<Texture>
    ghost var calls: seq<Lifecycle.Call>

    function Globals(): Lifecycle.Globals
      reads this
    {
      Lifecycle.Globals(unity, gfx, dev, tex)
    }

    /** Globals with static storage start out null. */
    constructor ()
      ensures Globals() == Lifecycle.Unloaded && calls == []
    {
      unity, gfx, dev, tex := None, None, None, None;
      calls := [];
    }

    /** `OnGraphicsDeviceEvent`: `renderer` is what `_gfx->GetRenderer()` returns and
        `reported` what the Direct3D 11 interface's `GetDevice()` returns. */
    method OnGraphicsDeviceEvent(eventType: DeviceEventType, renderer: Renderer, reported: Option<Device>)
      requires Lifecycle.DeviceEventAllowed(Globals(), eventType, renderer)
      modifies this
      ensures Globals() == Lifecycle.DeviceEvent(old(Globals()), eventType, renderer, reported)
      ensures calls == old(calls)
    {
      if renderer != Direct3D11 {
        return;
      }
      if eventType == Initialize {
        dev := reported;
      } else if eventType == Shutdown {
        dev := None;
      }
    }

    /** `OnRenderEvent`: `data` is the description pointer, `created` the handle
        `ID3D11Device_CreateTexture2D` writes into `_tex`. The image buffer is freed right
        after the call, so only its contents reach the driver. */
    method OnRenderEvent(eventId: int32, data: Option<TextureDescription>, created: Option<Texture>)
      requires Lifecycle.RenderEventAllowed(Globals(), eventId, data)
      modifies this
      ensures Globals() == Lifecycle.RenderEvent(old(Globals()), eventId, data, created).after
      ensures calls == old(calls) + Lifecycle.RenderEvent(old(Globals()), eventId, data, created).calls
    {
      if eventId == 0 {
        var desc := data.value;
        var image := CreateTestImage(desc);
        var d3dData := SubresourceData(image[..], RowPitch(desc), SlicePitch(desc));
        var d3dTex := TextureDescFor(desc);
        calls := calls + [Lifecycle.CreateTexture2D(dev.value, d3dTex, d3dData)];
        tex := created;
      } else if eventId == 1 {
        calls := calls + [Lifecycle.Release(tex.value)];
        tex := None;
      }
    }

    /** `UnityPluginLoad`: `lookedUp` is what the registry's lookup of the graphics
        interface returns, never null since the loader dereferences it at once; `renderer`
        and `reported` feed the Initialize event it runs. */
    method UnityPluginLoad(interfaces: Interfaces, lookedUp: Graphics, renderer: Renderer, reported: Option<Device>)
      modifies this
      ensures Globals() == Lifecycle.Load(old(Globals()), interfaces, lookedUp, renderer, reported).after
      ensures calls == old(calls) + Lifecycle.Load(old(Globals()), interfaces, lookedUp, renderer, reported).calls
    {
      unity := Some(interfaces);
      gfx := Some(lookedUp);
      calls := calls + [Lifecycle.RegisterDeviceEventCallback];
      OnGraphicsDeviceEvent(Initialize, renderer, reported);
    }

    /** `UnityPluginUnload`. */
    method UnityPluginUnload()
      requires gfx.Some?
      modifies this
      ensures Globals() == Lifecycle.Unload(old(Globals())).after
      ensures calls == old(calls) + Lifecycle.Unload(old(Globals())).calls
    {
      calls := calls + [Lifecycle.UnregisterDeviceEventCallback];
      unity := None;
      gfx := None;
    }

    /** `GetPointer`: the texture handle, exactly as stored. */
    method GetPointer() returns (p: Option<Texture>)
      ensures p == tex && p == Globals().texture
    {
      p := tex;
    }
  }
}
