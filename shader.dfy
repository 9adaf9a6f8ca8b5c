/**
 * The pure and list-building parts of the renderer's shader utilities:
 * `#include` file-name extraction, the cache-dirty decision, the vertex
 * input layout reflected from a vertex shader, the choice between the FXC
 * (shader model 5) and DXC (shader model 6) compilers with the macro array
 * and argument list each one is given, the macro hash and the byte-code
 * accessors of a compiled blob.
 *
 * The compilers, the reflection interface, the file system and `std::hash`
 * are outside the model: their answers arrive as parameters.
 */
module ShaderUtils {
  import opened Wrappers
  import opened StrUtil

  // ---------------------------------------------------------------------------
  // #include extraction
  // ---------------------------------------------------------------------------

  /** The text searched for: `#include "`, ten characters ending in the quote. */
  const IncludeTag: string := "#include \""

  /** `GetIncludeFileName` as written: everything after the opening quote, minus the line's last character. */
  function GetIncludeFileName(line: string): (r: string)
    ensures !Contains(line, IncludeTag) ==> r == ""
  {
    match Find(line, IncludeTag, 0)
    case None => ""
    case Some(pos) =>
      // `substr(pos + 9, size - pos)` clamps the count: the rest of the line from the quote
      var quoted := line[pos + 9..];
      // `substr(1, size - 2)`: with one character left the count wraps and clamps to ""
      if |quoted| <= 1 then "" else quoted[1..|quoted| - 1]
  }

  /** The first occurrence of the tag in `p + IncludeTag + rest` is right after `p` when `p` has none. */
  lemma FindTagAfterPrefix(p: string, rest: string)
    requires !Contains(p, IncludeTag)
    ensures Find(p + IncludeTag + rest, IncludeTag, 0) == Some(|p|)
  {
    var line := p + IncludeTag + rest;
    assert line[|p|..|p| + 10] == IncludeTag;
    assert OccursAt(line, IncludeTag, |p|);
    forall j: nat | j < |p|
      ensures !OccursAt(line, IncludeTag, j)
    {
      if j + 10 <= |p| {
        assert line[j..j + 10] == p[j..j + 10];
        if OccursAt(line, IncludeTag, j) {
          assert OccursAt(p, IncludeTag, j);
          assert Contains(p, IncludeTag);
        }
      } else {
        // the occurrence would cover position |p|, where the line holds '#',
        // but '#' is only the tag's first character
        assert line[|p|] == '#';
      }
    }
  }

  /** A line that is exactly `p#include "name"` yields `name` when `p` has no include tag of its own. */
  lemma IncludeOfQuotedLine(p: string, name: string)
    requires !Contains(p, IncludeTag)
    ensures GetIncludeFileName(p + IncludeTag + name + "\"") == name
  {
    var line := p + IncludeTag + name + "\"";
    assert line == p + IncludeTag + (name + "\"");
    FindTagAfterPrefix(p, name + "\"");
    assert line[|p| + 9..] == "\"" + name + "\"";
  }

  /**
   * Anything after the closing quote ends up in the name: for
   * `#include "a.h" // b` the function returns `a.h" // ` rather than `a.h`.
   */
  lemma IncludeWithTrailingComment()
    ensures GetIncludeFileName("#include \"a.h\" // b") == "a.h\" // "
    ensures GetIncludeFileName("#include \"a.h\" // b") != "a.h"
  {
    var tail := "a.h\" // b";
    assert !Contains([], IncludeTag);
    FindTagAfterPrefix([], tail);
    assert [] + IncludeTag + tail == "#include \"a.h\" // b";
  }

  /** The corrected extraction: the text between the opening quote and the next quote. */
  function IncludeFileName(line: string): (r: string)
    ensures Find(line, IncludeTag, 0).None? ==> r == ""
    ensures '"' !in r
  {
    match Find(line, IncludeTag, 0)
    case None => ""
    case Some(pos) =>
      match Find(line, "\"", pos + 10)
      case None => ""
      case Some(close) =>
        var r := line[pos + 10..close];
        assert forall k :: 0 <= k < |r| ==> r[k] == line[pos + 10 + k] && !OccursAt(line, "\"", pos + 10 + k);
        r
  }

  /** The corrected extraction returns the quoted name whatever follows the closing quote. */
  lemma IncludeFileNameOfLine(p: string, name: string, suffix: string)
    requires !Contains(p, IncludeTag)
    requires '"' !in name
    ensures IncludeFileName(p + IncludeTag + name + "\"" + suffix) == name
  {
    var line := p + IncludeTag + name + "\"" + suffix;
    assert line == p + IncludeTag + (name + "\"" + suffix);
    FindTagAfterPrefix(p, name + "\"" + suffix);
    var start := |p| + 10;
    var close := start + |name|;
    assert line[close] == '"';
    assert OccursAt(line, "\"", close);
    forall j | start <= j < close
      ensures !OccursAt(line, "\"", j)
    {
      assert line[j] == name[j - start];
    }
    assert line[start..close] == name;
  }

  /** Both extractions agree on a line that ends at the closing quote. */
  lemma IncludeFileNameAgrees(p: string, name: string)
    requires !Contains(p, IncludeTag)
    requires '"' !in name
    ensures IncludeFileName(p + IncludeTag + name + "\"") == GetIncludeFileName(p + IncludeTag + name + "\"")
  {
    IncludeFileNameOfLine(p, name, "");
    assert p + IncludeTag + name + "\"" + "" == p + IncludeTag + name + "\"";
    IncludeOfQuotedLine(p, name);
  }

  // ---------------------------------------------------------------------------
  // Cache
  // ---------------------------------------------------------------------------

  /**
   * Whether a shader must be recompiled rather than loaded from its cache.
   * The file-system queries are oracles: whether the cache file exists,
   * whether the source is newer than it, and whether an included file is.
   */
  function IsCacheDirty(cacheExists: bool, sourceNewer: bool, includesDirty: bool): (r: bool)
    ensures !cacheExists ==> r
    ensures !r <==> cacheExists && !sourceNewer && !includesDirty
  {
    if !cacheExists then true else sourceNewer || includesDirty
  }

  // ---------------------------------------------------------------------------
  // Input layout reflection
  // ---------------------------------------------------------------------------

  /** `D3D_REGISTER_COMPONENT_TYPE`. */
  datatype ComponentType = ComponentUnknown | ComponentUInt32 | ComponentSInt32 | ComponentFloat32

  /** The twelve 32-bit-per-component DXGI formats the reflection can choose. */
  datatype Format =
    | R32_UINT | R32_SINT | R32_FLOAT
    | R32G32_UINT | R32G32_SINT | R32G32_FLOAT
    | R32G32B32_UINT | R32G32B32_SINT | R32G32B32_FLOAT
    | R32G32B32A32_UINT | R32G32B32A32_SINT | R32G32B32A32_FLOAT

  function ComponentCount(f: Format): nat
  {
    match f
    case R32_UINT | R32_SINT | R32_FLOAT => 1
    case R32G32_UINT | R32G32_SINT | R32G32_FLOAT => 2
    case R32G32B32_UINT | R32G32B32_SINT | R32G32B32_FLOAT => 3
    case R32G32B32A32_UINT | R32G32B32A32_SINT | R32G32B32A32_FLOAT => 4
  }

  function ComponentTypeOf(f: Format): ComponentType
  {
    match f
    case R32_UINT | R32G32_UINT | R32G32B32_UINT | R32G32B32A32_UINT => ComponentUInt32
    case R32_SINT | R32G32_SINT | R32G32B32_SINT | R32G32B32A32_SINT => ComponentSInt32
    case R32_FLOAT | R32G32_FLOAT | R32G32B32_FLOAT | R32G32B32A32_FLOAT => ComponentFloat32
  }

  /** The format picked for a signature parameter, or None where none is assigned. */
  function FormatFor(mask: nat, ct: ComponentType): (r: Option<Format>)
    ensures r.Some? <==> mask <= 15 && ct != ComponentUnknown
    ensures r.Some? ==> ComponentTypeOf(r.value) == ct
  {
    if mask == 1 then
      match ct
      case ComponentUInt32 => Some(R32_UINT)
      case ComponentSInt32 => Some(R32_SINT)
      case ComponentFloat32 => Some(R32_FLOAT)
      case ComponentUnknown => None
    else if mask <= 3 then
      match ct
      case ComponentUInt32 => Some(R32G32_UINT)
      case ComponentSInt32 => Some(R32G32_SINT)
      case ComponentFloat32 => Some(R32G32_FLOAT)
      case ComponentUnknown => None
    else if mask <= 7 then
      match ct
      case ComponentUInt32 => Some(R32G32B32_UINT)
      case ComponentSInt32 => Some(R32G32B32_SINT)
      case ComponentFloat32 => Some(R32G32B32_FLOAT)
      case ComponentUnknown => None
    else if mask <= 15 then
      match ct
      case ComponentUInt32 => Some(R32G32B32A32_UINT)
      case ComponentSInt32 => Some(R32G32B32A32_SINT)
      case ComponentFloat32 => Some(R32G32B32A32_FLOAT)
      case ComponentUnknown => None
    else None
  }

  /** The number of bits needed to write `m`: the index of its highest set bit plus one. */
  function BitLength(m: nat): nat
  {
    if m == 0 then 0 else 1 + BitLength(m / 2)
  }

  /**
   * For a non-empty mask the format has as many components as the mask's
   * highest used component; an empty mask is treated like a two-component one.
   */
  lemma FormatComponents(mask: nat, ct: ComponentType)
    requires mask <= 15 && ct != ComponentUnknown
    ensures mask == 0 ==> ComponentCount(FormatFor(mask, ct).value) == 2
    ensures mask != 0 ==> ComponentCount(FormatFor(mask, ct).value) == BitLength(mask)
  {
    if mask != 0 {
      assert BitLength(1) == 1;
      if mask >= 2 {
        assert BitLength(mask / 2 / 2) == if mask >= 4 then 1 + BitLength(mask / 8) else 0;
        assert BitLength(mask / 8) == if mask >= 8 then 1 else 0;
      }
    }
  }

  /** `D3D12_SIGNATURE_PARAMETER_DESC`, the fields the reflection reads. */
  datatype SignatureParameter = SignatureParameter(semanticName: string, semanticIndex: nat, mask: nat, componentType: ComponentType)

  /** The only classification the reflection emits. */
  datatype InputClassification = PerVertexData | PerInstanceData

  /** The aligned byte offset: the "append aligned" marker or an explicit offset. */
  datatype ByteOffset = AppendAligned | Offset(bytes: nat)

  /** `D3D12_INPUT_ELEMENT_DESC`; `format` is None where the source leaves it unassigned. */
  datatype InputElement = InputElement(
    semanticName: string,
    semanticIndex: nat,
    format: Option<Format>,
    inputSlot: nat,
    alignedByteOffset: ByteOffset,
    inputSlotClass: InputClassification,
    instanceDataStepRate: nat)

  /** The element built for one input parameter. */
  function ElementFor(p: SignatureParameter): (e: InputElement)
    ensures e.semanticName == p.semanticName && e.semanticIndex == p.semanticIndex
    ensures e.inputSlot == 0 && e.alignedByteOffset == AppendAligned
    ensures e.inputSlotClass == PerVertexData && e.instanceDataStepRate == 0
    ensures e.format.Some? <==> p.mask <= 15 && p.componentType != ComponentUnknown
    ensures e.format.Some? ==> ComponentTypeOf(e.format.value) == p.componentType
  {
    InputElement(p.semanticName, p.semanticIndex, FormatFor(p.mask, p.componentType), 0, AppendAligned, PerVertexData, 0)
  }

  /** `ReflectInputLayoutFromVS`: one element per input parameter, in order. */
  method ReflectInputLayoutFromVS(inputParameters: seq<SignatureParameter>) returns (inputLayout: array<InputElement>)
    ensures fresh(inputLayout)
    ensures inputLayout.Length == |inputParameters|
    ensures forall i :: 0 <= i < |inputParameters| ==> inputLayout[i] == ElementFor(inputParameters[i])
  {
    var blank := InputElement("", 0, None, 0, Offset(0), PerVertexData, 0);
    inputLayout := new InputElement[|inputParameters|](_ => blank);
    var i := 0;
    while i < |inputParameters|
      invariant 0 <= i <= |inputParameters|
      invariant forall k :: 0 <= k < i ==> inputLayout[k] == ElementFor(inputParameters[k])
    {
      var paramDesc := inputParameters[i];
      var format: Option<Format> := None;
      if paramDesc.mask == 1 {
        if paramDesc.componentType == ComponentUInt32 { format := Some(R32_UINT); }
        else if paramDesc.componentType == ComponentSInt32 { format := Some(R32_SINT); }
        else if paramDesc.componentType == ComponentFloat32 { format := Some(R32_FLOAT); }
      } else if paramDesc.mask <= 3 {
        if paramDesc.componentType == ComponentUInt32 { format := Some(R32G32_UINT); }
        else if paramDesc.componentType == ComponentSInt32 { format := Some(R32G32_SINT); }
        else if paramDesc.componentType == ComponentFloat32 { format := Some(R32G32_FLOAT); }
      } else if paramDesc.mask <= 7 {
        if paramDesc.componentType == ComponentUInt32 { format := Some(R32G32B32_UINT); }
        else if paramDesc.componentType == ComponentSInt32 { format := Some(R32G32B32_SINT); }
        else if paramDesc.componentType == ComponentFloat32 { format := Some(R32G32B32_FLOAT); }
      } else if paramDesc.mask <= 15 {
        if paramDesc.componentType == ComponentUInt32 { format := Some(R32G32B32A32_UINT); }
        else if paramDesc.componentType == ComponentSInt32 { format := Some(R32G32B32A32_SINT); }
        else if paramDesc.componentType == ComponentFloat32 { format := Some(R32G32B32A32_FLOAT); }
      }
      inputLayout[i] := InputElement(paramDesc.semanticName, paramDesc.semanticIndex, format, 0, AppendAligned, PerVertexData, 0);
      i := i + 1;
    }
  }

  // ---------------------------------------------------------------------------
  // Shader stage
  // ---------------------------------------------------------------------------

  datatype ShaderStage = VS | GS | DS | HS | PS | CS | Uninitialized

  const ModelDelims: set<char> := {'_'}

  /** The stage named by a lowercased shader-model identifier. */
  function StageOfIdentifier(id: string): (s: ShaderStage)
    ensures s == Uninitialized <==> id !in {"vs", "gs", "ds", "hs", "ps", "cs"}
  {
    if id == "vs" then VS
    else if id == "gs" then GS
    else if id == "ds" then DS
    else if id == "hs" then HS
    else if id == "ps" then PS
    else if id == "cs" then CS
    else Uninitialized
  }

  /**
   * `GetShaderStageEnumFromShaderModel`: the stage named by the first '_'
   * token, lowercased. Fewer than two tokens fail the source's assertion.
   */
  function GetShaderStageEnumFromShaderModel(shaderModel: string): (r: Result<ShaderStage, string>)
    ensures r.Ok? <==> |Split(shaderModel, ModelDelims)| > 1
    ensures r.Ok? ==> r.value == StageOfIdentifier(Lower(Split(shaderModel, ModelDelims)[0]))
  {
    var tokens := Split(shaderModel, ModelDelims);
    if |tokens| <= 1 then Err("shader model has fewer than two '_' tokens")
    else Ok(StageOfIdentifier(Lower(tokens[0])))
  }

  /** The stage does not depend on the case of the shader model. */
  lemma StageIgnoresCase(shaderModel: string)
    ensures GetShaderStageEnumFromShaderModel(Lower(shaderModel)) == GetShaderStageEnumFromShaderModel(shaderModel)
  {
    SplitLower(shaderModel, ModelDelims);
    var tokens := Split(shaderModel, ModelDelims);
    if |tokens| > 1 {
      LowerIdempotent(tokens[0]);
    }
  }

  /** A model written `stage_major_minor`, each part non-empty and without '_'. */
  predicate ModelParts(a: string, b: string, c: string)
  {
    a != [] && b != [] && c != [] && NoDelims(a, ModelDelims) && NoDelims(b, ModelDelims) && NoDelims(c, ModelDelims)
  }

  lemma SplitModel(a: string, b: string, c: string)
    requires ModelParts(a, b, c)
    ensures Split(a + "_" + b + "_" + c, ModelDelims) == [a, b, c]
  {
    assert a + "_" + b + "_" + c == a + ['_'] + (b + ['_'] + c);
    SplitLeadingToken(a, '_', b + ['_'] + c, ModelDelims);
    SplitLeadingToken(b, '_', c, ModelDelims);
    SplitSingleToken(c, ModelDelims);
  }

  /** `vs_5_0`-style models: the stage is read off the lowercased first part. */
  lemma StageOfModel(a: string, b: string, c: string)
    requires ModelParts(a, b, c)
    ensures GetShaderStageEnumFromShaderModel(a + "_" + b + "_" + c) == Ok(StageOfIdentifier(Lower(a)))
  {
    SplitModel(a, b, c);
  }

  // ---------------------------------------------------------------------------
  // Compiler selection and inputs
  // ---------------------------------------------------------------------------

  datatype Compiler = FXC | DXC

  /**
   * The first steps of `CompileFromSource`: the model must split into exactly
   * three '_' tokens (an assertion in the source), a model whose second token
   * starts with '5' goes to FXC and any other to DXC, and the stage must be
   * known (the stage-name lookup `at` throws otherwise).
   */
  function SelectCompiler(shaderModel: string): (r: Result<(Compiler, ShaderStage), string>)
    ensures r.Ok? ==> |Split(shaderModel, ModelDelims)| == 3 && r.value.1 != Uninitialized
    ensures r.Ok? ==> Split(shaderModel, ModelDelims)[1] != []
    ensures r.Ok? ==> (r.value.0 == FXC <==> Split(shaderModel, ModelDelims)[1][0] == '5')
    ensures r.Ok? ==> GetShaderStageEnumFromShaderModel(shaderModel) == Ok(r.value.1)
  {
    var tokens := Split(shaderModel, ModelDelims);
    if |tokens| != 3 then Err("shader model must have three '_' tokens")
    else
      SplitWellFormed(shaderModel, ModelDelims);
      var compiler := if tokens[1][0] == '5' then FXC else DXC;
      var stage := StageOfIdentifier(Lower(tokens[0]));
      if stage == Uninitialized then Err("unknown shader stage")
      else Ok((compiler, stage))
  }

  /** For `stage_major_minor` the compiler is FXC iff the major version starts with '5'. */
  lemma SelectCompilerOfModel(a: string, b: string, c: string)
    requires ModelParts(a, b, c)
    ensures SelectCompiler(a + "_" + b + "_" + c).Ok? <==> StageOfIdentifier(Lower(a)) != Uninitialized
    ensures SelectCompiler(a + "_" + b + "_" + c).Ok? ==>
      SelectCompiler(a + "_" + b + "_" + c).value == (if b[0] == '5' then FXC else DXC, StageOfIdentifier(Lower(a)))
  {
    SplitModel(a, b, c);
  }

  /** `FShaderMacro`. */
  datatype ShaderMacro = ShaderMacro(name: string, value: string)

  /** `D3D_SHADER_MACRO`: a name/value pair, or the null pair closing the array. */
  datatype D3DMacro = D3DDefine(name: string, definition: string) | D3DNull

  /** The FXC macro array: every macro as a pair, in order, then the null pair. */
  method BuildFxcMacros(macros: seq<ShaderMacro>) returns (d3dMacros: array<D3DMacro>)
    ensures fresh(d3dMacros)
    ensures d3dMacros.Length == |macros| + 1
    ensures forall i :: 0 <= i < |macros| ==> d3dMacros[i] == D3DDefine(macros[i].name, macros[i].value)
    ensures d3dMacros[|macros|] == D3DNull
  {
    d3dMacros := new D3DMacro[|macros| + 1](_ => D3DNull);
    var i := 0;
    while i < |macros|
      invariant 0 <= i <= |macros|
      invariant forall k :: 0 <= k < i ==> d3dMacros[k] == D3DDefine(macros[k].name, macros[k].value)
    {
      d3dMacros[i] := D3DDefine(macros[i].name, macros[i].value);
      i := i + 1;
    }
    d3dMacros[i] := D3DNull;
  }

  /** The D3DCompile flags the DXC argument list translates. */
  datatype CompileFlag = Debug | OptimizationLevel0 | SkipOptimization | DebugNameForSource | DebugNameForBinary

  /** The flags `CompileFromSource` passes to DXC: none (the value is a constant 0). */
  const DxcCompileFlags: set<CompileFlag> := {}

  /** The arguments contributed by the compile flags; the two debug-name flags exclude each other. */
  function FlagArgs(flags: set<CompileFlag>): (r: seq<string>)
    ensures flags == {} ==> r == []
    ensures |r| <= 4
  {
    (if Debug in flags then ["-Zi"] else [])
    + (if OptimizationLevel0 in flags then ["-O0"] else [])
    + (if SkipOptimization in flags then ["-0d"] else [])
    + (if DebugNameForSource in flags then ["-Zss"] else if DebugNameForBinary in flags then ["-Zsb"] else [])
  }

  function DefineArg(m: ShaderMacro): string
  {
    m.name + "=" + m.value
  }

  /** "-D", "Name=Value" for every macro, in order. */
  function DefineArgs(macros: seq<ShaderMacro>): (r: seq<string>)
    ensures |r| == 2 * |macros|
    ensures forall i :: 0 <= i < |macros| ==> r[2 * i] == "-D" && r[2 * i + 1] == DefineArg(macros[i])
  {
    if macros == [] then []
    else
      var r := DefineArgs(macros[..|macros| - 1]) + ["-D", DefineArg(macros[|macros| - 1])];
      assert forall i :: 0 <= i < |macros| - 1 ==> macros[..|macros| - 1][i] == macros[i];
      r
  }

  /** The whole DXC argument list. */
  function DxcArguments(flags: set<CompileFlag>, macros: seq<ShaderMacro>, entryPoint: string, shaderModel: string, parentFolder: string): seq<string>
  {
    FlagArgs(flags) + DefineArgs(macros) + ["-E", entryPoint, "-T", Lower(shaderModel), "-I", parentFolder]
  }

  /** With the flags the source uses, the list is the defines, then entry point, model and include folder. */
  lemma DxcArgumentsShape(macros: seq<ShaderMacro>, entryPoint: string, shaderModel: string, parentFolder: string)
    ensures var args := DxcArguments(DxcCompileFlags, macros, entryPoint, shaderModel, parentFolder);
      |args| == 2 * |macros| + 6
      && (forall i :: 0 <= i < |macros| ==> args[2 * i] == "-D" && args[2 * i + 1] == macros[i].name + "=" + macros[i].value)
      && args[2 * |macros|..] == ["-E", entryPoint, "-T", Lower(shaderModel), "-I", parentFolder]
  {
    var args := DxcArguments(DxcCompileFlags, macros, entryPoint, shaderModel, parentFolder);
    assert FlagArgs(DxcCompileFlags) == [];
    assert args == DefineArgs(macros) + ["-E", entryPoint, "-T", Lower(shaderModel), "-I", parentFolder];
  }

  /** The first arguments pushed: one per compile flag that is set. */
  method PushFlagArgs(flags: set<CompileFlag>) returns (ppArgs: seq<string>)
    ensures ppArgs == FlagArgs(flags)
  {
    ppArgs := [];
    if Debug in flags { ppArgs := ppArgs + ["-Zi"]; }
    if OptimizationLevel0 in flags { ppArgs := ppArgs + ["-O0"]; }
    if SkipOptimization in flags { ppArgs := ppArgs + ["-0d"]; }
    if DebugNameForSource in flags { ppArgs := ppArgs + ["-Zss"]; }
    else if DebugNameForBinary in flags { ppArgs := ppArgs + ["-Zsb"]; }
  }

  /** The argument list as `CompileFromSource` pushes it, piece by piece. */
  method BuildDxcArguments(flags: set<CompileFlag>, macros: seq<ShaderMacro>, entryPoint: string, shaderModel: string, parentFolder: string)
    returns (ppArgs: seq<string>)
    ensures ppArgs == DxcArguments(flags, macros, entryPoint, shaderModel, parentFolder)
  {
    var unicodeDefineArgs: seq<string> := [];
    var i := 0;
    while i < |macros|
      invariant 0 <= i <= |macros|
      invariant |unicodeDefineArgs| == i
      invariant forall k :: 0 <= k < i ==> unicodeDefineArgs[k] == DefineArg(macros[k])
    {
      unicodeDefineArgs := unicodeDefineArgs + [macros[i].name + "=" + macros[i].value];
      i := i + 1;
    }

    ppArgs := PushFlagArgs(flags);

    var j := 0;
    while j < |unicodeDefineArgs|
      invariant 0 <= j <= |macros|
      invariant |unicodeDefineArgs| == |macros|
      invariant forall k :: 0 <= k < |macros| ==> unicodeDefineArgs[k] == DefineArg(macros[k])
      invariant ppArgs == FlagArgs(flags) + DefineArgs(macros[..j])
    {
      assert macros[..j + 1][..j] == macros[..j];
      ppArgs := ppArgs + ["-D", unicodeDefineArgs[j]];
      j := j + 1;
    }
    assert macros[..|macros|] == macros;

    ppArgs := ppArgs + ["-E", entryPoint];
    ppArgs := ppArgs + ["-T", Lower(shaderModel)];
    ppArgs := ppArgs + ["-I", parentFolder];
  }

  // ---------------------------------------------------------------------------
  // Macro hash
  // ---------------------------------------------------------------------------

  /** Name₁Value₁…NameₖValueₖ. */
  function ConcatMacros(macros: seq<ShaderMacro>): string
  {
    if macros == [] then []
    else ConcatMacros(macros[..|macros| - 1]) + macros[|macros| - 1].name + macros[|macros| - 1].value
  }

  lemma ConcatMacrosSingle(m: ShaderMacro)
    ensures ConcatMacros([m]) == m.name + m.value
  {
    assert [m][..0] == [];
  }

  lemma {:induction false} ConcatMacrosAppend(a: seq<ShaderMacro>, b: seq<ShaderMacro>)
    ensures ConcatMacros(a + b) == ConcatMacros(a) + ConcatMacros(b)
    decreases |b|
  {
    if b == [] {
      assert a + b == a;
    } else {
      var n := |b| - 1;
      assert (a + b)[..|a + b| - 1] == a + b[..n];
      ConcatMacrosAppend(a, b[..n]);
    }
  }

  /** `GeneratePreprocessorDefinitionsHash`: 0 for no macros, else the hash of the concatenation. */
  method GeneratePreprocessorDefinitionsHash(macros: seq<ShaderMacro>, hash: string -> nat) returns (r: nat)
    ensures macros == [] ==> r == 0
    ensures macros != [] ==> r == hash(ConcatMacros(macros))
  {
    if macros == [] {
      return 0;
    }
    var concatenatedMacros: string := [];
    var i := 0;
    while i < |macros|
      invariant 0 <= i <= |macros|
      invariant concatenatedMacros == ConcatMacros(macros[..i])
    {
      assert macros[..i + 1][..i] == macros[..i];
      concatenatedMacros := concatenatedMacros + macros[i].name + macros[i].value;
      i := i + 1;
    }
    assert macros[..i] == macros;
    r := hash(concatenatedMacros);
  }

  /**
   * The hash only sees the concatenation, so moving text across a
   * name/value or macro boundary does not change it: ("AB", "") and
   * ("A", "B") hash alike.
   */
  lemma HashSeesOnlyConcatenation(name1: string, value1: string, name2: string, value2: string)
    requires name1 + value1 == name2 + value2
    ensures ConcatMacros([ShaderMacro(name1, value1)]) == ConcatMacros([ShaderMacro(name2, value2)])
  {
    ConcatMacrosSingle(ShaderMacro(name1, value1));
    ConcatMacrosSingle(ShaderMacro(name2, value2));
  }

  // ---------------------------------------------------------------------------
  // Compiled blob
  // ---------------------------------------------------------------------------

  /** `Shader::FBlob`: the byte code held by an FXC blob, a DXC blob, or neither. */
  datatype Blob = Blob(d3dBlob: Option<seq<bv8>>, dxcBlob: Option<seq<bv8>>)
  {
    predicate IsNull() { d3dBlob.None? && dxcBlob.None? }
  }

  /** `GetByteCode`: the FXC blob's buffer first, else the DXC one; asking a null blob is an error. */
  function GetByteCode(b: Blob): (r: Result<seq<bv8>, string>)
    ensures r.Err? <==> b.IsNull()
    ensures b.d3dBlob.Some? ==> r == Ok(b.d3dBlob.value)
    ensures b.d3dBlob.None? && b.dxcBlob.Some? ==> r == Ok(b.dxcBlob.value)
  {
    if b.d3dBlob.Some? then Ok(b.d3dBlob.value)
    else if b.dxcBlob.Some? then Ok(b.dxcBlob.value)
    else Err("byte code of a null blob")
  }

  /** `GetByteCodeSize`: the size of the same buffer, 0 for a null blob. */
  function GetByteCodeSize(b: Blob): (r: nat)
    ensures b.IsNull() ==> r == 0
    ensures GetByteCode(b).Ok? ==> r == |GetByteCode(b).value|
  {
    if b.d3dBlob.Some? then |b.d3dBlob.value|
    else if b.dxcBlob.Some? then |b.dxcBlob.value|
    else 0
  }
}
