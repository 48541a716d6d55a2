/** The Direct3D 11 records the plugin fills in before creating its texture: the texture
    description and the initial data (one subresource), with the pitches of that data. */
module D3D11 {
  import opened Interop
  import TestImage

  /** Opaque handle to a device (`ID3D11Device*`). */
  datatype Device = Device(id: nat)

  /** Opaque handle to a 2D texture (`ID3D11Texture2D*`). */
  datatype Texture = Texture(id: nat)

  const FormatR8G8B8A8Unorm: nat := 28   // DXGI_FORMAT_R8G8B8A8_UNORM
  const UsageDefault: nat := 0           // D3D11_USAGE_DEFAULT
  const BindShaderResource: bv32 := 0x8  // D3D11_BIND_SHADER_RESOURCE

  /** Bytes per texel of a format the plugin uses. */
  function BytesPerTexel(format: nat): nat
  {
    if format == FormatR8G8B8A8Unorm then 4 else 0
  }

  /** `D3D11_TEXTURE2D_DESC`; the fields the plugin does not set stay zero. */
  datatype Texture2DDesc = Texture2DDesc(
    width: nat, height: nat, mipLevels: nat, arraySize: nat, format: nat,
    sampleCount: nat, sampleQuality: nat, usage: nat,
    bindFlags: bv32, cpuAccessFlags: bv32, miscFlags: bv32)

  /** `D3D11_SUBRESOURCE_DATA`: the bytes `pSysMem` points at, and the two pitches. */
  datatype SubresourceData = SubresourceData(sysMem: seq<byte>, sysMemPitch: nat, sysMemSlicePitch: nat)

  /** `SysMemPitch`: the distance in bytes between the starts of two adjacent rows, which is
      the length of one row of the test image; computing it does not overflow an `int`. */
  function RowPitch(d: TextureDescription): (p: nat)
    requires WellFormed(d)
    ensures p == |TestImage.Row(d.width as nat, 0)|
    ensures p <= Int32Max
  {
    d.width as nat * 4
  }

  /** `SysMemSlicePitch`: the row pitch times the number of rows, which is the length of the
      whole test image; computing it does not overflow an `int`. */
  function SlicePitch(d: TextureDescription): (p: nat)
    requires WellFormed(d)
    ensures p == RowPitch(d) * d.height as nat
    ensures p == |TestImage.Image(d.width as nat, d.height as nat)|
    ensures p <= Int32Max
  {
    var w, h := d.width as nat, d.height as nat;
    TestImage.ImageLength(w, h);
    TestImage.Assoc(h, w);
    h * w * 4
  }

  /** The description render event 0 passes to `CreateTexture2D`. */
  function TextureDescFor(d: TextureDescription): (t: Texture2DDesc)
    requires WellFormed(d)
    ensures t.width * BytesPerTexel(t.format) == RowPitch(d)
    ensures t.width * t.height * BytesPerTexel(t.format) == SlicePitch(d)
    ensures t.mipLevels * t.arraySize == 1 && t.sampleCount == 1
  {
    Texture2DDesc(
      width := d.width as nat, height := d.height as nat, mipLevels := 1, arraySize := 1,
      format := FormatR8G8B8A8Unorm, sampleCount := 1, sampleQuality := 0,
      usage := UsageDefault, bindFlags := BindShaderResource, cpuAccessFlags := 0, miscFlags := 0)
  }

  /** The initial data render event 0 passes to `CreateTexture2D`. */
  function InitialDataFor(d: TextureDescription): (s: SubresourceData)
    requires WellFormed(d)
    ensures |s.sysMem| == s.sysMemSlicePitch == s.sysMemPitch * d.height as nat
    ensures s.sysMemPitch == |TestImage.Row(d.width as nat, 0)|
  {
    SubresourceData(TestImage.Image(d.width as nat, d.height as nat), RowPitch(d), SlicePitch(d))
  }

  /** The initial data fits the texture it initialises: a single-mip, single-slice texture
      needs one subresource; its rows are width texels of the texture's format apart, and the
      bytes are exactly one slice, height rows long. */
  lemma InitialDataCoversTexture(d: TextureDescription)
    requires WellFormed(d)
    ensures var t, s := TextureDescFor(d), InitialDataFor(d);
      && t.width == d.width as nat && t.height == d.height as nat
      && t.mipLevels * t.arraySize == 1 && t.sampleCount == 1
      && s.sysMemPitch == t.width * BytesPerTexel(t.format)
      && |s.sysMem| == s.sysMemSlicePitch == s.sysMemPitch * t.height
  {
  }

  /** Reading the initial data as Direct3D does, the texel at column x of row y starts at
      `y * SysMemPitch + 4 * x`, and its channel k is channel k of test pixel (x, y). */
  lemma InitialDataTexel(d: TextureDescription, x: nat, y: nat, k: nat)
    requires WellFormed(d) && x < d.width as nat && y < d.height as nat && k < 4
    ensures var s := InitialDataFor(d);
      && 0 <= y * s.sysMemPitch && y * s.sysMemPitch + 4 * x + k < |s.sysMem|
      && s.sysMem[y * s.sysMemPitch + 4 * x + k] == TestImage.Pixel(x, y)[k]
  {
    var w, h := d.width as nat, d.height as nat;
    var s := InitialDataFor(d);
    assert s.sysMem == TestImage.Image(w, h) && s.sysMemPitch == w * 4;
    TestImage.Assoc(y, w);
    TestImage.MulLeq(0, y, w);
    TestImage.ImageAt(w, h, x, y, k);
  }
}
