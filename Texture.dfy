/**
 * The texture wrapper of src/Texture.cpp: its format tables, the choice of an internal
 * format from an image's channel count, and the life of a texture's `_empty` flag,
 * which decides when mipmaps are built. OpenGL itself stays abstract: a texture records
 * the parameters set on it and counts the glGenerateMipmap calls made for it. A failed
 * `assert` is a `None` result (or, for the constructor, a precondition).
 */
module Textures {
  import opened Wrappers

  // OpenGL enumerants, with the values of the OpenGL registry.

  // Texture targets.
  const Texture1D := 0x0DE0
  const Texture2D := 0x0DE1
  const Texture3D := 0x806F
  const Texture1DArray := 0x8C18
  const Texture2DArray := 0x8C1A
  const TextureCubeMap := 0x8513

  // Pixel data types.
  const UnsignedByte := 0x1401
  const UnsignedShort := 0x1403
  const Float := 0x1406

  // External (pixel transfer) formats; LUMINANCE and LUMINANCE_ALPHA double as internal formats.
  const Red := 0x1903
  const Rgb := 0x1907
  const Rgba := 0x1908
  const Luminance := 0x1909
  const LuminanceAlpha := 0x190A

  // Sized internal formats.
  const Luminance8 := 0x8040
  const Luminance16 := 0x8042
  const Luminance8Alpha8 := 0x8045
  const Rgb8 := 0x8051
  const Rgba2 := 0x8055
  const Rgba4 := 0x8056
  const Rgb5A1 := 0x8057
  const Rgba8 := 0x8058
  const Rgb10A2 := 0x8059
  const Rgba12 := 0x805A
  const Rgba16 := 0x805B
  const Rgba32F := 0x8814
  const Rgb32F := 0x8815
  const Rgba16F := 0x881A
  const Srgb8Alpha8 := 0x8C43
  const DepthComponent32F := 0x8CAC
  const Rgba32UI := 0x8D70
  const Rgba16UI := 0x8D76
  const Rgba8UI := 0x8D7C
  const Rgba32I := 0x8D82
  const Rgba16I := 0x8D88
  const Rgba8I := 0x8D8E
  const Rgba8Snorm := 0x8F97
  const Rgba16Snorm := 0x8F9B
  const Rgb10A2UI := 0x906F

  // Texture parameters and their values.
  const TextureMagFilter := 0x2800
  const TextureMinFilter := 0x2801
  const TextureWrapS := 0x2802
  const TextureWrapT := 0x2803
  const TextureWrapR := 0x8072
  const Linear := 0x2601
  const LinearMipmapLinear := 0x2703
  const Repeat := 0x2901

  /** The targets the constructor's switch handles; any other target fails its assert. */
  predicate SupportedTarget(target: int) {
    target in {Texture1D, Texture1DArray, Texture2D, TextureCubeMap, Texture2DArray, Texture3D}
  }

  /** determineDataType: the type of one component of an internal format. */
  function DataType(internalFormat: int): (r: Option<int>)
    ensures r.Some? ==> r.value in {UnsignedByte, UnsignedShort, Float}
    ensures r.Some? ==> ExternalFormat(internalFormat).Some?
  {
    if internalFormat in {Luminance, Luminance8, Luminance8Alpha8, Rgba, Rgb8, Rgba8} then Some(UnsignedByte)
    else if internalFormat == Luminance16 then Some(UnsignedShort)
    else if internalFormat in {Rgb32F, Rgba32F, DepthComponent32F} then Some(Float)
    else None
  }

  /** getExternalFormat: the layout of the pixel data handed over for an internal format. */
  function ExternalFormat(internalFormat: int): (r: Option<int>)
    ensures r.Some? ==> 1 <= Components(r.value) <= 4
  {
    if internalFormat in {Luminance, Luminance8, Luminance16, DepthComponent32F} then Some(Red)
    else if internalFormat in {LuminanceAlpha, Luminance8Alpha8} then Some(LuminanceAlpha)
    else if internalFormat in {Rgb, Rgb8, Rgb32F} then Some(Rgb)
    else if internalFormat in {Rgba, Rgba8, Rgba32F} then Some(Rgba)
    else None
  }

  /** isOpaque: false for the listed internal formats that carry alpha, true for all others. */
  predicate IsOpaque(internalFormat: int): (r: bool)
    ensures ExternalFormat(internalFormat) in {Some(Red), Some(Rgb)} ==> r
    ensures ExternalFormat(internalFormat) in {Some(Rgba), Some(LuminanceAlpha)} ==> !r
  {
    internalFormat !in {
      LuminanceAlpha, Luminance8Alpha8, Rgba, Rgba2, Rgba4, Rgb5A1, Rgba8, Rgba8Snorm,
      Rgb10A2, Rgb10A2UI, Rgba12, Rgba16, Rgba16Snorm, Srgb8Alpha8, Rgba16F, Rgba32F,
      Rgba8I, Rgba8UI, Rgba16I, Rgba16UI, Rgba32I, Rgba32UI}
  }

  /** The number of components per pixel of an external format. */
  function Components(externalFormat: int): nat {
    if externalFormat == Red then 1
    else if externalFormat == LuminanceAlpha then 2
    else if externalFormat == Rgb then 3
    else if externalFormat == Rgba then 4
    else 0
  }

  /** Every format with a data type also has an external format; LUMINANCE_ALPHA and RGB have only the latter. */
  lemma TableDomains(f: int)
    ensures DataType(f).Some? ==> ExternalFormat(f).Some?
    ensures ExternalFormat(LuminanceAlpha).Some? && DataType(LuminanceAlpha).None?
    ensures ExternalFormat(Rgb).Some? && DataType(Rgb).None?
  {
  }

  /** For the formats the tables know, a format is opaque exactly when its pixels carry no alpha component. */
  lemma OpaqueMatchesExternalFormat(f: int)
    requires ExternalFormat(f).Some?
    ensures IsOpaque(f) <==> ExternalFormat(f).value !in {Rgba, LuminanceAlpha}
    ensures IsOpaque(f) <==> Components(ExternalFormat(f).value) % 2 == 1
  {
  }

  /**
   * The channel switch of create2DTextureFromFile and createCubeMapFromFiles as
   * written: case 2 sets LUMINANCE8_ALPHA8 but has no `break`, so it runs on into
   * case 3, which overwrites it with RGB8. Any count other than 1 to 4 fails its assert.
   */
  function ChannelFormatAsWritten(channels: int): (r: Option<int>)
    ensures r.Some? <==> 1 <= channels <= 4
    ensures r.Some? ==> DataType(r.value) == Some(UnsignedByte)
  {
    if channels == 1 then Some(Luminance8)
    else if channels == 2 || channels == 3 then Some(Rgb8)
    else if channels == 4 then Some(Rgba8)
    else None
  }

  /** A two-channel image (grey and alpha) gets a three-component format with no alpha. */
  lemma TwoChannelsFallThrough()
    ensures ChannelFormatAsWritten(2) == Some(Rgb8)
    ensures Components(ExternalFormat(ChannelFormatAsWritten(2).value).value) == 3
    ensures IsOpaque(ChannelFormatAsWritten(2).value)
  {
  }

  /** The channel switch with the `break` case 2 is missing: each count gets its own format. */
  function ChannelFormat(channels: int): (r: Option<int>)
    ensures r.Some? <==> 1 <= channels <= 4
    ensures r.Some? ==> DataType(r.value) == Some(UnsignedByte)
  {
    if channels == 1 then Some(Luminance8)
    else if channels == 2 then Some(Luminance8Alpha8)
    else if channels == 3 then Some(Rgb8)
    else if channels == 4 then Some(Rgba8)
    else None
  }

  /**
   * Exactly the counts 1 to 4 have a format; it is stored as unsigned bytes, its pixel
   * data has as many components as the image has channels, and it is opaque exactly
   * when the image has no alpha channel (1 or 3 channels).
   */
  lemma ChannelFormatMatchesImage(channels: int)
    ensures ChannelFormat(channels).Some? <==> 1 <= channels <= 4
    ensures ChannelFormat(channels).Some? ==>
      var f := ChannelFormat(channels).value;
      && DataType(f) == Some(UnsignedByte)
      && ExternalFormat(f).Some?
      && Components(ExternalFormat(f).value) == channels
      && (IsOpaque(f) <==> channels % 2 == 1)
    ensures channels != 2 ==> ChannelFormat(channels) == ChannelFormatAsWritten(channels)
  {
  }

  /** What an image loader reports for one file: its size and its number of channels. */
  datatype Image = Image(width: int, height: int, channels: int)

  /** The `_empty` flag and the number of glGenerateMipmap calls made so far. */
  datatype Lifecycle = Lifecycle(empty: bool, mipMapBuilds: nat)

  /** The constructor: empty when bytes[0] is null; mipmaps built at once if there is data and auto-generation is on. */
  function Created(hasData: bool, autoGenMipMaps: bool): Lifecycle {
    Lifecycle(!hasData, if hasData && autoGenMipMaps then 1 else 0)
  }

  /** update: the texture is no longer empty, and mipmaps are rebuilt if auto-generation is on. */
  function Updated(l: Lifecycle, autoGenMipMaps: bool): Lifecycle {
    Lifecycle(false, l.mipMapBuilds + if autoGenMipMaps then 1 else 0)
  }

  /** generateMipMaps: builds only for a non-empty texture with more than one level. */
  function MipMapsGenerated(l: Lifecycle, numMipMapLevels: int): Lifecycle {
    if !l.empty && numMipMapLevels > 1 then l.(mipMapBuilds := l.mipMapBuilds + 1) else l
  }

  /** The operations that move the lifecycle. */
  datatype Operation = Update | GenerateMipMaps

  /** The lifecycle after a sequence of operations on a texture with the given settings. */
  function Perform(l: Lifecycle, ops: seq<Operation>, autoGenMipMaps: bool, numMipMapLevels: int): Lifecycle
    decreases |ops|
  {
    if |ops| == 0 then l
    else
      var next := if ops[0] == Update then Updated(l, autoGenMipMaps) else MipMapsGenerated(l, numMipMapLevels);
      Perform(next, ops[1..], autoGenMipMaps, numMipMapLevels)
  }

  /** A texture stays empty exactly as long as it was created empty and has not been updated. */
  lemma {:induction false} EmptyUntilUpdated(l: Lifecycle, ops: seq<Operation>, autoGenMipMaps: bool, numMipMapLevels: int)
    ensures Perform(l, ops, autoGenMipMaps, numMipMapLevels).empty <==> l.empty && Update !in ops
    decreases |ops|
  {
    if |ops| > 0 {
      var next := if ops[0] == Update then Updated(l, autoGenMipMaps) else MipMapsGenerated(l, numMipMapLevels);
      EmptyUntilUpdated(next, ops[1..], autoGenMipMaps, numMipMapLevels);
      assert ops == [ops[0]] + ops[1..];
    }
  }

  /** An empty texture that is never updated never gets mipmaps, however often they are requested. */
  lemma {:induction false} EmptyNeverBuilds(l: Lifecycle, ops: seq<Operation>, autoGenMipMaps: bool, numMipMapLevels: int)
    requires l.empty && Update !in ops
    ensures Perform(l, ops, autoGenMipMaps, numMipMapLevels) == l
    decreases |ops|
  {
    if |ops| > 0 {
      assert ops[0] in ops;
      assert forall i :: 0 <= i < |ops[1..]| ==> ops[1..][i] == ops[i + 1];
      EmptyNeverBuilds(MipMapsGenerated(l, numMipMapLevels), ops[1..], autoGenMipMaps, numMipMapLevels);
    }
  }

  /** Without auto-generation and with a single level, no operation ever builds mipmaps. */
  lemma {:induction false} NoRequestNoBuilds(l: Lifecycle, ops: seq<Operation>, numMipMapLevels: int)
    requires numMipMapLevels <= 1
    ensures Perform(l, ops, false, numMipMapLevels).mipMapBuilds == l.mipMapBuilds
    decreases |ops|
  {
    if |ops| > 0 {
      var next := if ops[0] == Update then Updated(l, false) else MipMapsGenerated(l, numMipMapLevels);
      NoRequestNoBuilds(next, ops[1..], numMipMapLevels);
    }
  }

  /** The mipmap build count never goes down. */
  lemma {:induction false} BuildsNeverDecrease(l: Lifecycle, ops: seq<Operation>, autoGenMipMaps: bool, numMipMapLevels: int)
    ensures Perform(l, ops, autoGenMipMaps, numMipMapLevels).mipMapBuilds >= l.mipMapBuilds
    decreases |ops|
  {
    if |ops| > 0 {
      var next := if ops[0] == Update then Updated(l, autoGenMipMaps) else MipMapsGenerated(l, numMipMapLevels);
      BuildsNeverDecrease(next, ops[1..], autoGenMipMaps, numMipMapLevels);
    }
  }

  /** The parameters the constructor sets: repeat wrapping, linear filtering, trilinear once mipmaps exist. */
  function InitialParameters(mipMapped: bool): map<int, int> {
    map[TextureWrapS := Repeat, TextureWrapT := Repeat, TextureWrapR := Repeat,
        TextureMinFilter := if mipMapped then LinearMipmapLinear else Linear,
        TextureMagFilter := Linear]
  }

  class Texture {
    const name: string
    var fileName: string
    const target: int
    const internalFormat: int
    var externalFormat: int
    var dataFormat: int
    const width: int
    const height: int
    const depth: int
    const numMipMapLevels: int
    const autoGenMipMaps: bool
    var empty: bool
    /** The glGenerateMipmap calls made for this texture. */
    var mipMapBuilds: nat
    /** The integer parameters set on the texture with glTexParameteri. */
    var parameters: map<int, int>

    function Life(): Lifecycle
      reads this
    {
      Lifecycle(empty, mipMapBuilds)
    }

    /**
     * The constructor. `hasData` says whether bytes[0] is non-null; the pixel upload
     * itself is left to OpenGL.
     */
    constructor (name: string, width: int, height: int, depth: int, numMipMapLevels: int,
                 autoMipMap: bool, target: int, internalFormat: int, externalFormat: int,
                 dataFormat: int, hasData: bool)
      requires SupportedTarget(target)
      ensures this.name == name && fileName == "" && this.target == target
      ensures this.internalFormat == internalFormat && this.externalFormat == externalFormat
      ensures this.dataFormat == dataFormat && this.width == width && this.height == height
      ensures this.depth == depth && this.numMipMapLevels == numMipMapLevels
      ensures autoGenMipMaps == autoMipMap
      ensures Life() == Created(hasData, autoMipMap)
      ensures parameters == InitialParameters(hasData && autoMipMap)
    {
      this.name := name;
      fileName := "";
      this.target := target;
      this.internalFormat := internalFormat;
      this.width := width;
      this.height := height;
      this.depth := depth;
      this.dataFormat := dataFormat;
      this.externalFormat := externalFormat;
      this.numMipMapLevels := numMipMapLevels;
      autoGenMipMaps := autoMipMap;
      empty := false;
      if !hasData {
        empty := true;
      }
      mipMapBuilds := 0;
      new;
      parameters := map[];
      SetTexParameteri(TextureWrapS, Repeat);
      SetTexParameteri(TextureWrapT, Repeat);
      SetTexParameteri(TextureWrapR, Repeat);
      SetTexParameteri(TextureMinFilter, Linear);
      SetTexParameteri(TextureMagFilter, Linear);
      if !empty && autoGenMipMaps {
        mipMapBuilds := mipMapBuilds + 1;
        SetTexParameteri(TextureMinFilter, LinearMipmapLinear);
      }
    }

    /**
     * update: new pixel data in the given layout. The upload goes to OpenGL; the face,
     * alignment and row length only steer it.
     */
    method Update(externalFormat: int, dataFormat: int)
      modifies this
      ensures this.externalFormat == externalFormat && this.dataFormat == dataFormat
      ensures Life() == Updated(old(Life()), autoGenMipMaps)
      ensures fileName == old(fileName) && parameters == old(parameters)
    {
      this.externalFormat := externalFormat;
      this.dataFormat := dataFormat;
      if empty {
        empty := false;
      }
      if autoGenMipMaps {
        mipMapBuilds := mipMapBuilds + 1;
      }
    }

    method GenerateMipMaps()
      modifies this
      ensures Life() == MipMapsGenerated(old(Life()), numMipMapLevels)
      ensures fileName == old(fileName) && parameters == old(parameters)
      ensures externalFormat == old(externalFormat) && dataFormat == old(dataFormat)
    {
      if !empty && numMipMapLevels > 1 {
        mipMapBuilds := mipMapBuilds + 1;
      }
    }

    method SetTexParameteri(param: int, value: int)
      modifies this
      ensures parameters == old(parameters)[param := value]
      ensures Life() == old(Life()) && fileName == old(fileName)
      ensures externalFormat == old(externalFormat) && dataFormat == old(dataFormat)
    {
      parameters := parameters[param := value];
    }

    method SetFileName(fileName: string)
      modifies this
      ensures this.fileName == fileName
      ensures Life() == old(Life()) && parameters == old(parameters)
      ensures externalFormat == old(externalFormat) && dataFormat == old(dataFormat)
    {
      this.fileName := fileName;
    }
  }

  /**
   * createEmpty: a texture without data whose external format and data type come from
   * the tables; an internal format either table lacks, or an unsupported target, fails.
   */
  method CreateEmpty(name: string, width: int, height: int, depth: int, numMipMapLevels: int,
                     autoMipMap: bool, target: int, internalFormat: int) returns (r: Option<Texture>)
    ensures r.Some? <==> SupportedTarget(target) && DataType(internalFormat).Some?
    ensures r.Some? ==> var t := r.value;
      && fresh(t) && t.empty && t.mipMapBuilds == 0
      && t.target == target && t.internalFormat == internalFormat
      && Some(t.externalFormat) == ExternalFormat(internalFormat)
      && Some(t.dataFormat) == DataType(internalFormat)
      && t.parameters == InitialParameters(false)
  {
    TableDomains(internalFormat);
    var externalFormat := ExternalFormat(internalFormat);
    var dataFormat := DataType(internalFormat);
    if externalFormat.None? || dataFormat.None? || !SupportedTarget(target) {
      return None;
    }
    var t := new Texture(name, width, height, depth, numMipMapLevels, autoMipMap, target,
                         internalFormat, externalFormat.value, dataFormat.value, false);
    return Some(t);
  }

  /** createFromMemory: the caller supplies every format; only the target is checked. */
  method CreateFromMemory(name: string, hasData: bool, dataFormat: int, externalFormat: int,
                          internalFormat: int, target: int, width: int, height: int, depth: int,
                          generateMipMaps: bool, numMipMapLevels: int) returns (r: Option<Texture>)
    ensures r.Some? <==> SupportedTarget(target)
    ensures r.Some? ==> var t := r.value;
      && fresh(t) && t.Life() == Created(hasData, generateMipMaps)
      && t.internalFormat == internalFormat && t.externalFormat == externalFormat
      && t.dataFormat == dataFormat
  {
    if !SupportedTarget(target) {
      return None;
    }
    var t := new Texture(name, width, height, depth, numMipMapLevels, generateMipMaps, target,
                         internalFormat, externalFormat, dataFormat, hasData);
    return Some(t);
  }

  /**
   * create2DTextureFromFile. `loaded` is what the image loader returned (None when it
   * failed, which fails the assert). The texture is never empty, so it has mipmaps
   * exactly when they were asked for.
   */
  method Create2DTextureFromFile(fileName: string, loaded: Option<Image>, generateMipMaps: bool,
                                 numMipMapLevels: int) returns (r: Option<Texture>)
    ensures r.Some? <==> loaded.Some? && 1 <= loaded.value.channels <= 4
    ensures r.Some? ==> var t, image := r.value, loaded.value;
      && fresh(t) && t.target == Texture2D && t.name == fileName
      && t.width == image.width && t.height == image.height && t.depth == 1
      && Some(t.internalFormat) == ChannelFormat(image.channels)
      && Components(t.externalFormat) == image.channels
      && t.dataFormat == UnsignedByte
      && t.Life() == Lifecycle(false, if generateMipMaps then 1 else 0)
  {
    if loaded.None? {
      return None;
    }
    var image := loaded.value;
    var internalFormat := ChannelFormat(image.channels);
    if internalFormat.None? {
      return None;
    }
    ChannelFormatMatchesImage(image.channels);
    var t := new Texture(fileName, image.width, image.height, 1, numMipMapLevels, generateMipMaps,
                         Texture2D, internalFormat.value, ExternalFormat(internalFormat.value).value,
                         DataType(internalFormat.value).value, true);
    return Some(t);
  }

  /** The internal format every face of a cube map resolves to, if they all agree. */
  predicate FacesAgree(loaded: seq<Option<Image>>)
    requires |loaded| == 6
  {
    && (forall face :: 0 <= face < 6 ==> loaded[face].Some? && ChannelFormat(loaded[face].value.channels).Some?)
    && (forall face :: 0 <= face < 6 ==>
          ChannelFormat(loaded[face].value.channels) == ChannelFormat(loaded[0].value.channels))
  }

  /**
   * createCubeMapFromFiles: all six faces must load and resolve to face 0's internal
   * format. Width and height are overwritten by every face, so the last face's size is
   * the one the texture gets.
   */
  method CreateCubeMapFromFiles(fileNames: seq<string>, loaded: seq<Option<Image>>,
                                generateMipMaps: bool, numMipMapLevels: int) returns (r: Option<Texture>)
    requires |fileNames| == 6 && |loaded| == 6
    ensures r.Some? <==> FacesAgree(loaded)
    ensures r.Some? ==> var t := r.value;
      && fresh(t) && t.target == TextureCubeMap && t.name == fileNames[0]
      && Some(t.internalFormat) == ChannelFormat(loaded[0].value.channels)
      && t.width == loaded[5].value.width && t.height == loaded[5].value.height
      && t.Life() == Lifecycle(false, if generateMipMaps then 1 else 0)
  {
    var internalFormat := 0;
    var width, height := 0, 0;
    for face := 0 to 6
      invariant forall i :: 0 <= i < face ==> loaded[i].Some? && ChannelFormat(loaded[i].value.channels) == Some(internalFormat)
      invariant face > 0 ==> width == loaded[face - 1].value.width && height == loaded[face - 1].value.height
    {
      if loaded[face].None? {
        return None;
      }
      var image := loaded[face].value;
      width, height := image.width, image.height;
      var faceInternalFormat := ChannelFormat(image.channels);
      if faceInternalFormat.None? {
        return None;
      }
      if face == 0 {
        internalFormat := faceInternalFormat.value;
      } else if faceInternalFormat.value != internalFormat {
        return None;
      }
    }
    ChannelFormatMatchesImage(loaded[0].value.channels);
    var t := new Texture(fileNames[0], width, height, 1, numMipMapLevels, generateMipMaps, TextureCubeMap,
                         internalFormat, ExternalFormat(internalFormat).value, DataType(internalFormat).value, true);
    return Some(t);
  }
}
