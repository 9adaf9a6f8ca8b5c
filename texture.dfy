/**
 * The parts of the renderer's `Texture` that do not talk to the GPU: the
 * checkerboard pixel buffer, the decomposition of an image path before the
 * image is loaded, the member state changed by `Create` and `Destroy`, and
 * the depth-stencil view description chosen by `InitializeDSV`.
 *
 * The allocator, the image loader and the device are outside the model:
 * their results arrive as parameters.
 */
module Textures {
  import opened Wrappers
  import opened StrUtil

  // ---------------------------------------------------------------------------
  // Checkerboard
  // ---------------------------------------------------------------------------

  /**
   * The value every colour channel of pixel `p` gets (4 bytes per pixel):
   * dark or light, with or without midtones.
   */
  function CheckerShade(dimension: nat, useMidtones: bool, p: nat): bv8
    requires dimension >= 8
  {
    var rowPitch := dimension * 4;
    var cellPitch := rowPitch / 8;       // width of a cell, in bytes
    var cellHeight := dimension / 8;     // height of a cell, in rows
    var n := p * 4;
    var i := (n % rowPitch) / cellPitch;
    var j := (n / rowPitch) / cellHeight;
    if i % 2 == j % 2 then (if useMidtones then 0x03 else 0x00)
    else (if useMidtones then 0x1F else 0xff)
  }

  /** Byte `n` of the buffer: the pixel's shade in R, G and B, and an opaque alpha. */
  function CheckerByte(dimension: nat, useMidtones: bool, n: nat): bv8
    requires dimension >= 8
  {
    if n % 4 == 3 then 0xff else CheckerShade(dimension, useMidtones, n / 4)
  }

  /** Every pixel is grey (R = G = B) and opaque. */
  lemma CheckerPixelIsOpaqueGrey(dimension: nat, useMidtones: bool, p: nat)
    requires dimension >= 8
    ensures CheckerByte(dimension, useMidtones, 4 * p) == CheckerShade(dimension, useMidtones, p)
    ensures CheckerByte(dimension, useMidtones, 4 * p + 1) == CheckerShade(dimension, useMidtones, p)
    ensures CheckerByte(dimension, useMidtones, 4 * p + 2) == CheckerShade(dimension, useMidtones, p)
    ensures CheckerByte(dimension, useMidtones, 4 * p + 3) == 0xff
  {
    assert (4 * p) / 4 == p && (4 * p) % 4 == 0;
    assert (4 * p + 1) / 4 == p && (4 * p + 1) % 4 == 1;
    assert (4 * p + 2) / 4 == p && (4 * p + 2) % 4 == 2;
    assert (4 * p + 3) % 4 == 3;
  }

  /** The four bytes of a pixel, given the cell column `i` and cell row `j` the loop computes for it. */
  lemma CheckerPixelBytes(dimension: nat, useMidtones: bool, pixel: nat, i: int, j: int)
    requires dimension >= 8
    requires i == ((4 * pixel) % (dimension * 4)) / ((dimension * 4) / 8)
    requires j == ((4 * pixel) / (dimension * 4)) / (dimension / 8)
    ensures var shade := if i % 2 == j % 2 then (if useMidtones then 0x03 else 0x00) else (if useMidtones then 0x1F else 0xff);
      CheckerByte(dimension, useMidtones, 4 * pixel) == shade
      && CheckerByte(dimension, useMidtones, 4 * pixel + 1) == shade
      && CheckerByte(dimension, useMidtones, 4 * pixel + 2) == shade
      && CheckerByte(dimension, useMidtones, 4 * pixel + 3) == 0xff
  {
    CheckerPixelIsOpaqueGrey(dimension, useMidtones, pixel);
  }

  /**
   * `GenerateTexture_Checkerboard`: a `dimension`² RGBA8 buffer. A dimension
   * below 8 would make the cell height 0 and divide by it, and the byte size
   * must fit the 32-bit `UINT` the source computes it in.
   */
  method GenerateTextureCheckerboard(dimension: nat, useMidtones: bool) returns (data: array<bv8>)
    requires dimension >= 8
    requires 4 * dimension * dimension < 0x1_0000_0000
    ensures fresh(data)
    ensures data.Length == 4 * dimension * dimension
    ensures forall n :: 0 <= n < data.Length ==> data[n] == CheckerByte(dimension, useMidtones, n)
  {
    var textureWidth := dimension;
    var textureHeight := dimension;
    var rowPitch := textureWidth * 4;
    var cellPitch := rowPitch / 8;
    var cellHeight := textureWidth / 8;
    var textureSize := rowPitch * textureHeight;
    var pixelCount := dimension * dimension;
    assert textureSize == 4 * pixelCount == 4 * dimension * dimension;

    data := new bv8[textureSize];
    var n := 0;
    ghost var pixel := 0;   // the pixel whose bytes start at n
    while n < textureSize
      invariant 0 <= n <= textureSize && n == 4 * pixel
      invariant forall k :: 0 <= k < n ==> data[k] == CheckerByte(dimension, useMidtones, k)
      decreases textureSize - n
    {
      assert pixel < pixelCount;
      WriteCheckerPixel(data, dimension, useMidtones, n);
      n := n + 4;
      pixel := pixel + 1;
    }
  }

  /**
   * One iteration of the checkerboard loop: the four bytes of `pixel` get
   * the shade of its cell column and row; no other byte changes.
   */
  method WriteCheckerPixel(data: array<bv8>, dimension: nat, useMidtones: bool, n: nat)
    requires dimension >= 8
    requires n % 4 == 0 && n + 4 <= data.Length
    modifies data
    ensures forall k :: 0 <= k < data.Length && (k < n || n + 4 <= k) ==> data[k] == old(data[k])
    ensures forall k :: n <= k < n + 4 ==> data[k] == CheckerByte(dimension, useMidtones, k)
  {
    var rowPitch := dimension * 4;
    var cellPitch := rowPitch / 8;
    var cellHeight := dimension / 8;
    ghost var pixel := n / 4;
    assert n == 4 * pixel;
    var x := n % rowPitch;
    var y := n / rowPitch;
    var i := x / cellPitch;
    var j := y / cellHeight;
    CheckerPixelBytes(dimension, useMidtones, pixel, i, j);
    if i % 2 == j % 2 {
      data[n + 0] := if useMidtones then 0x03 else 0x00;
      data[n + 1] := if useMidtones then 0x03 else 0x00;
      data[n + 2] := if useMidtones then 0x03 else 0x00;
      data[n + 3] := 0xff;
    } else {
      data[n + 0] := if useMidtones then 0x1F else 0xff;
      data[n + 1] := if useMidtones then 0x1F else 0xff;
      data[n + 2] := if useMidtones then 0x1F else 0xff;
      data[n + 3] := 0xff;
    }
  }

  /** `a == b * q + r` with `0 <= r < b` pins down quotient and remainder. */
  lemma DivModOf(a: int, b: int, q: int, r: int)
    requires b > 0 && 0 <= r < b && a == b * q + r
    ensures a / b == q && a % b == r
  {
    var q' := a / b;
    var r' := a % b;
    assert a == q' * b + r' && 0 <= r' < b;
    if q' < q {
      assert b * q - q' * b == b * (q - q');
      MulAtLeast(b, q - q');
    } else if q' > q {
      assert q' * b - b * q == b * (q' - q);
      MulAtLeast(b, q' - q);
    }
  }

  lemma {:induction false} MulAtLeast(b: int, k: int)
    requires b > 0 && k >= 1
    ensures b * k >= b
    decreases k
  {
    if k > 1 {
      MulAtLeast(b, k - 1);
      assert b * k == b * (k - 1) + b;
    }
  }

  /**
   * When the dimension is a multiple of 8 the buffer is an 8×8 board of
   * square cells `dimension / 8` pixels wide: pixel (px, py) is dark iff
   * its cell column and cell row have the same parity.
   */
  lemma CheckerIsBoard(dimension: nat, useMidtones: bool, px: nat, py: nat)
    requires dimension >= 8 && dimension % 8 == 0
    requires px < dimension && py < dimension
    ensures var cell := dimension / 8;
      var dark := (px / cell) % 2 == (py / cell) % 2;
      CheckerShade(dimension, useMidtones, py * dimension + px)
        == if dark then (if useMidtones then 0x03 else 0x00) else (if useMidtones then 0x1F else 0xff)
  {
    var cell := dimension / 8;
    var rowPitch := dimension * 4;
    var n := (py * dimension + px) * 4;
    assert n == rowPitch * py + px * 4;
    DivModOf(n, rowPitch, py, px * 4);
    assert rowPitch / 8 == 4 * cell;
    DivModOf(px * 4, 4 * cell, px / cell, (px % cell) * 4);
  }

  // ---------------------------------------------------------------------------
  // Image path
  // ---------------------------------------------------------------------------

  const PathSeparators: set<char> := {'/', '\\'}
  const ExtensionSeparator: set<char> := {'.'}

  /** What `ReadImageFromDisk` derives from a path before loading. */
  datatype ImagePath = ImagePath(directory: string, fileName: string, extension: string, hdr: bool)

  /**
   * The path decomposition of `ReadImageFromDisk` for a non-empty path. The
   * file is the last '/' or '\' token and must split into exactly a name
   * and an extension on '.'; the directory is the text before the file
   * name's first occurrence; the extension is lowercased, must not be
   * "exr", and marks an HDR image when it is "hdr". A violated assertion of
   * the source is an `Err`.
   */
  function DecomposeImagePath(path: string): (r: Result<ImagePath, string>)
    ensures r.Ok? ==> (r.value.hdr <==> r.value.extension == "hdr")
    ensures r.Ok? ==> r.value.extension != "exr" && r.value.fileName != [] && '.' !in r.value.fileName
    ensures r.Ok? ==> r.value.directory <= path
  {
    var filePathTokens := Split(path, PathSeparators);
    if |filePathTokens| < 1 then Err("path has no file name")
    else
      var fileNameAndExtension := filePathTokens[|filePathTokens| - 1];
      var fileNameTokens := Split(fileNameAndExtension, ExtensionSeparator);
      if |fileNameTokens| != 2 then Err("file name is not name.extension")
      else
        SplitWellFormed(fileNameAndExtension, ExtensionSeparator);
        var fileDirectory := match Find(path, fileNameAndExtension, 0)
          case Some(k) => path[..k]
          case None => path;
        var extension := Lower(fileNameTokens[1]);
        if extension == "exr" then Err("exr images are not supported")
        else Ok(ImagePath(fileDirectory, fileNameTokens[0], extension, extension == "hdr"))
  }

  /** Splitting `name.ext`, both parts non-empty and dot-free. */
  lemma SplitFileName(name: string, ext: string)
    requires name != [] && ext != [] && NoDelims(name, ExtensionSeparator) && NoDelims(ext, ExtensionSeparator)
    ensures Split(name + "." + ext, ExtensionSeparator) == [name, ext]
  {
    SplitLeadingToken(name, '.', ext, ExtensionSeparator);
    SplitSingleToken(ext, ExtensionSeparator);
  }

  /** A directory prefix: empty, or ending in a separator. */
  predicate IsDirectory(dir: string)
  {
    dir == [] || dir[|dir| - 1] in PathSeparators
  }

  /** The file's first occurrence is right after the directory when the directory holds no copy of it. */
  lemma FindFileAfterDirectory(dir: string, file: string)
    requires IsDirectory(dir) && file != [] && NoDelims(file, PathSeparators)
    requires !Contains(dir, file)
    ensures Find(dir + file, file, 0) == Some(|dir|)
  {
    var path := dir + file;
    assert path[|dir|..|dir| + |file|] == file;
    assert OccursAt(path, file, |dir|);
    forall j: nat | j < |dir|
      ensures !OccursAt(path, file, j)
    {
      if j + |file| <= |dir| {
        assert path[j..j + |file|] == dir[j..j + |file|];
        if OccursAt(path, file, j) {
          assert OccursAt(dir, file, j);
        }
      } else {
        // the occurrence would cover the directory's last character, a separator
        assert path[|dir| - 1] in PathSeparators;
      }
    }
  }

  /** In `dir + file`, with `file` free of separators, the last path token is `file`. */
  lemma LastPathToken(dir: string, file: string)
    requires IsDirectory(dir) && file != [] && NoDelims(file, PathSeparators)
    ensures var tokens := Split(dir + file, PathSeparators);
      |tokens| >= 1 && tokens[|tokens| - 1] == file
  {
    if dir == [] {
      SplitSingleToken(file, PathSeparators);
      assert dir + file == file;
    } else {
      var parent := dir[..|dir| - 1];
      assert dir == parent + [dir[|dir| - 1]];
      SplitTrailingToken(parent, dir[|dir| - 1], file, PathSeparators);
      assert parent + [dir[|dir| - 1]] + file == dir + file;
    }
  }

  /** `name.ext` holds no separator when neither part does. */
  lemma DottedNameNoSeparator(name: string, ext: string)
    requires NoDelims(name, PathSeparators) && NoDelims(ext, PathSeparators)
    ensures NoDelims(name + "." + ext, PathSeparators)
  {
    var file := name + "." + ext;
    assert forall k :: 0 <= k < |file| ==> file[k] == (if k < |name| then name[k] else if k == |name| then '.' else ext[k - |name| - 1]);
  }

  /**
   * `dir/name.ext` decomposes into its directory, name and lowercased
   * extension, with HDR set iff that extension is "hdr".
   */
  lemma DecomposeOfPath(dir: string, name: string, ext: string)
    requires IsDirectory(dir)
    requires name != [] && ext != []
    requires NoDelims(name, PathSeparators + ExtensionSeparator) && NoDelims(ext, PathSeparators + ExtensionSeparator)
    requires !Contains(dir, name + "." + ext)
    requires Lower(ext) != "exr"
    ensures DecomposeImagePath(dir + name + "." + ext) == Ok(ImagePath(dir, name, Lower(ext), Lower(ext) == "hdr"))
  {
    var file := name + "." + ext;
    DottedNameNoSeparator(name, ext);
    assert dir + name + "." + ext == dir + file;
    LastPathToken(dir, file);
    SplitFileName(name, ext);
    FindFileAfterDirectory(dir, file);
    assert (dir + file)[..|dir|] == dir;
  }

  /** A path whose file is `name.ext` with an extension that lowercases to "exr" is refused. */
  lemma DecomposeRejectsExr(dir: string, name: string, ext: string)
    requires IsDirectory(dir)
    requires name != [] && ext != []
    requires NoDelims(name, PathSeparators + ExtensionSeparator) && NoDelims(ext, PathSeparators + ExtensionSeparator)
    requires Lower(ext) == "exr"
    ensures DecomposeImagePath(dir + name + "." + ext).Err?
  {
    var file := name + "." + ext;
    DottedNameNoSeparator(name, ext);
    assert dir + name + "." + ext == dir + file;
    LastPathToken(dir, file);
    SplitFileName(name, ext);
  }

  /** A file name with no '.' (a single '.'-token) is refused. */
  lemma DecomposeRejectsMissingExtension(dir: string, name: string)
    requires IsDirectory(dir)
    requires name != [] && NoDelims(name, PathSeparators + ExtensionSeparator)
    ensures DecomposeImagePath(dir + name).Err?
  {
    LastPathToken(dir, name);
    SplitSingleToken(name, ExtensionSeparator);
  }

  /** A file name with two dots between three non-empty parts, such as `a.b.png`, is refused. */
  lemma DecomposeRejectsDottedFile(dir: string, name: string, mid: string, ext: string)
    requires IsDirectory(dir)
    requires name != [] && mid != [] && ext != []
    requires NoDelims(name, PathSeparators + ExtensionSeparator)
    requires NoDelims(mid, PathSeparators + ExtensionSeparator)
    requires NoDelims(ext, PathSeparators + ExtensionSeparator)
    ensures DecomposeImagePath(dir + name + "." + mid + "." + ext).Err?
  {
    var tail := mid + "." + ext;
    var file := name + "." + tail;
    DottedNameNoSeparator(mid, ext);
    DottedNameNoSeparator(name, tail);
    assert dir + name + "." + mid + "." + ext == dir + file;
    LastPathToken(dir, file);
    SplitFileName(mid, ext);
    SplitLeadingToken(name, '.', tail, ExtensionSeparator);
    assert name + "." + tail == name + ['.'] + tail;
  }

  /** A path made only of separators has no file token and is refused. */
  lemma DecomposeRejectsSeparatorsOnly(path: string)
    requires forall i :: 0 <= i < |path| ==> path[i] in PathSeparators
    ensures DecomposeImagePath(path).Err?
  {
    SplitFromOnlyDelims(path, PathSeparators);
  }

  /** `Image`: whether the loader returned pixel data, and its bytes per pixel. */
  datatype Image = Image(hasData: bool, bytesPerPixel: int)

  /** The outcome of `ReadImageFromDisk`: its return value and the image it stored, if it loaded one. */
  datatype ReadOutcome = ReadOutcome(success: bool, image: Option<Image>)

  /** `ReadImageFromDisk`, with the image loader as a parameter. */
  function ReadImageFromDisk(path: string, loadFromFile: (string, bool) -> Image): (r: Result<ReadOutcome, string>)
    ensures path == "" ==> r == Ok(ReadOutcome(false, None))
    ensures path != "" ==> (r.Ok? <==> DecomposeImagePath(path).Ok?)
    ensures path != "" && r.Ok? ==>
      r.value.image == Some(loadFromFile(path, DecomposeImagePath(path).value.hdr))
      && (r.value.success <==> r.value.image.value.hasData && r.value.image.value.bytesPerPixel > 0)
  {
    if path == "" then Ok(ReadOutcome(false, None))
    else
      match DecomposeImagePath(path)
      case Err(e) => Err(e)
      case Ok(ip) =>
        var img := loadFromFile(path, ip.hdr);
        Ok(ReadOutcome(img.hasData && img.bytesPerPixel > 0, Some(img)))
  }

  // ---------------------------------------------------------------------------
  // Texture object
  // ---------------------------------------------------------------------------

  /** The DXGI format codes the texture code distinguishes. */
  const DXGI_FORMAT_R32_TYPELESS: nat := 39
  const DXGI_FORMAT_D32_FLOAT: nat := 40

  /** `D3D12_RESOURCE_STATE_COPY_DEST`. */
  const RESOURCE_STATE_COPY_DEST: nat := 0x400

  /** The fields of `TextureCreateDesc` that `Create` reads. */
  datatype TextureCreateDesc = TextureCreateDesc(
    format: nat,
    allowRenderTarget: bool,
    allowUnorderedAccess: bool,
    resourceState: nat,
    texName: string)

  /** The optimised clear value: a depth clear (depth 1, stencil 0) or a colour clear. */
  datatype ClearValue = DepthStencilClear(format: nat) | ColorClear(format: nat)

  /** What `Create` asks the allocator for. */
  datatype ResourceRequest = ResourceRequest(initialState: nat, clearValue: Option<ClearValue>)

  /** The initial state and clear value `Create` passes to the allocator. */
  function CreationRequest(desc: TextureCreateDesc, hasData: bool): (r: ResourceRequest)
    ensures hasData ==> r.initialState == RESOURCE_STATE_COPY_DEST
    ensures !hasData ==> r.initialState == desc.resourceState
    ensures r.clearValue.None? <==> desc.format != DXGI_FORMAT_R32_TYPELESS && !desc.allowRenderTarget
    ensures desc.allowRenderTarget ==> r.clearValue == Some(ColorClear(desc.format))
    ensures !desc.allowRenderTarget && desc.format == DXGI_FORMAT_R32_TYPELESS ==> r.clearValue == Some(DepthStencilClear(DXGI_FORMAT_D32_FLOAT))
  {
    var depthStencil := desc.format == DXGI_FORMAT_R32_TYPELESS;
    var state := if hasData then RESOURCE_STATE_COPY_DEST else desc.resourceState;
    // the render-target clear value is set after, and so replaces, the depth one
    var clear :=
      if desc.allowRenderTarget then Some(ColorClear(desc.format))
      else if depthStencil then Some(DepthStencilClear(DXGI_FORMAT_D32_FLOAT))
      else None;
    ResourceRequest(state, clear)
  }

  /** A handle the allocator hands out: the resource and its allocation. */
  datatype Allocation = Allocation(texture: nat, alloc: nat)

  class Texture {
    /** `mpTexture` and `mpAlloc`; None is a null pointer. */
    var texture: Option<nat>
    var alloc: Option<nat>
    /** `mbTypelessTexture`. */
    var typeless: bool
    /** The handles released so far, in order. */
    var released: seq<nat>

    constructor()
      ensures texture.None? && alloc.None? && !typeless && released == []
    {
      texture := None;
      alloc := None;
      typeless := false;
      released := [];
    }

    /**
     * `Create`: ask the allocator for the resource (`created` is its
     * answer: the handles, or None on failure). The pointers and the
     * typeless flag change only when creation succeeds.
     */
    method Create(desc: TextureCreateDesc, hasData: bool, created: Option<Allocation>) returns (request: ResourceRequest)
      modifies this`texture, this`alloc, this`typeless
      ensures request == CreationRequest(desc, hasData)
      ensures created.Some? ==>
        (texture == Some(created.value.texture) && alloc == Some(created.value.alloc)
         && typeless == (desc.format == DXGI_FORMAT_R32_TYPELESS))
      ensures created.None? ==> texture == old(texture) && alloc == old(alloc) && typeless == old(typeless)
    {
      var depthStencilTexture := desc.format == DXGI_FORMAT_R32_TYPELESS;
      var resourceState := if hasData then RESOURCE_STATE_COPY_DEST else desc.resourceState;
      var clearValue: Option<ClearValue> := None;
      if depthStencilTexture {
        clearValue := Some(DepthStencilClear(DXGI_FORMAT_D32_FLOAT));
      }
      if desc.allowRenderTarget {
        clearValue := Some(ColorClear(desc.format));
      }
      request := ResourceRequest(resourceState, clearValue);
      if created.None? {
        return;
      }
      texture := Some(created.value.texture);
      alloc := Some(created.value.alloc);
      typeless := depthStencilTexture;
    }

    /** `Destroy`: release what is held and null both pointers; nothing is released twice. */
    method Destroy()
      modifies this`texture, this`alloc, this`released
      ensures texture.None? && alloc.None?
      ensures released == old(released)
        + (if old(texture).Some? then [old(texture).value] else [])
        + (if old(alloc).Some? then [old(alloc).value] else [])
      ensures old(texture).None? && old(alloc).None? ==> released == old(released)
    {
      if texture.Some? {
        released := released + [texture.value];
        texture := None;
      }
      if alloc.Some? {
        released := released + [alloc.value];
        alloc := None;
      }
    }
  }

  // ---------------------------------------------------------------------------
  // Depth-stencil view
  // ---------------------------------------------------------------------------

  /** The view dimension of a depth-stencil view and its sub-resource fields. */
  datatype DsvDimension =
    | Texture2D(mipSlice: nat)
    | Texture2DArray(mipSlice: nat, firstArraySlice: int, arraySize: nat)
    | Texture2DMS

  datatype DsvDesc = DsvDesc(format: nat, dimension: DsvDimension)

  /** `InitializeDSV`: the view description for a texture with the given sample count and depth/array size. */
  function DsvDescFor(sampleCount: nat, depthOrArraySize: nat, arraySlice: int): (d: DsvDesc)
    ensures d.format == DXGI_FORMAT_D32_FLOAT
    ensures d.dimension.Texture2DMS? <==> sampleCount != 1
    ensures d.dimension.Texture2D? <==> sampleCount == 1 && depthOrArraySize == 1
    ensures d.dimension.Texture2DArray? ==> d.dimension == Texture2DArray(0, arraySlice, 1)
    ensures d.dimension.Texture2D? ==> d.dimension.mipSlice == 0
  {
    var dim :=
      if sampleCount == 1 then
        if depthOrArraySize == 1 then Texture2D(0) else Texture2DArray(0, arraySlice, 1)
      else Texture2DMS;
    DsvDesc(DXGI_FORMAT_D32_FLOAT, dim)
  }
}
