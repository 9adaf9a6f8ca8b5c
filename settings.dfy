/**
 * Engine settings (VQEngine_Main.cpp): the defaults, the settings file
 * ("Data/EngineSettings.ini") and the command line, applied in that order,
 * and the quit rule of the main thread's tick.
 *
 * Reading the file, `istringstream >> bool` and `atoi` are not modelled: the
 * file arrives as its lines (None when it cannot be opened) and the two value
 * parsers are parameters.
 */
module EngineSettings {
  import opened Wrappers
  import opened StrUtil

  datatype GraphicsSettings = GraphicsSettings(
    bFullscreen: bool, bVsync: bool, bUseTripleBuffering: bool,
    renderResolutionX: int, renderResolutionY: int)

  datatype Settings = Settings(
    gfx: GraphicsSettings,
    bAutomatedTestRun: bool, numAutomatedTestFrames: int,
    debugWindowWidth: int, debugWindowHeight: int,
    mainWindowWidth: int, mainWindowHeight: int,
    mainWindowTitle: string, debugWindowTitle: string)

  /**
   * The override flags of FStartupParameters, one per overridable setting
   * (bOverrideGFXSetting_bFullscreen, ..., bOverrideENGSetting_bTestFrames).
   * RenderWidth and RenderHeight are the flags the source calls Width and
   * Height of the graphics settings.
   */
  datatype Override =
    | Fullscreen | VSync | TripleBuffering | RenderWidth | RenderHeight
    | MainWindowWidth | MainWindowHeight | AutomatedTest | TestFrames

  /** Settings plus the set of override flags that are raised in this layer. */
  datatype StartupParameters = StartupParameters(engineSettings: Settings, overrides: set<Override>)

  const ZeroSettings := Settings(GraphicsSettings(false, false, false, 0, 0), false, 0, 0, 0, 0, 0, "", "")

  /** A value-initialised FStartupParameters: nothing is overridden. */
  const NoOverrides := StartupParameters(ZeroSettings, {})

  /** The built-in defaults; the main window title names the build configuration. */
  function Defaults(debugBuild: bool): Settings
  {
    Settings(
      GraphicsSettings(false, false, true, 1920, 1080),
      false, 100,
      600, 600,
      1920, 1080,
      "VQEngine v0.1.0-" + (if debugBuild then "Debug" else "Release"),
      "VQDebugging")
  }

  // ---------------------------------------------------------------------------
  // Override layers
  // ---------------------------------------------------------------------------

  /** One override layer over the graphics settings. */
  function OverlayGraphics(g: GraphicsSettings, p: StartupParameters): GraphicsSettings
  {
    var v := p.engineSettings.gfx;
    GraphicsSettings(
      if Fullscreen in p.overrides then v.bFullscreen else g.bFullscreen,
      if VSync in p.overrides then v.bVsync else g.bVsync,
      if TripleBuffering in p.overrides then v.bUseTripleBuffering else g.bUseTripleBuffering,
      if RenderWidth in p.overrides then v.renderResolutionX else g.renderResolutionX,
      if RenderHeight in p.overrides then v.renderResolutionY else g.renderResolutionY)
  }

  /**
   * One override layer over `s`. Within a layer the test-frames override comes
   * last: it forces an automated test run whatever the automated-test override said.
   */
  function Overlay(s: Settings, p: StartupParameters): Settings
  {
    var v := p.engineSettings;
    s.(gfx := OverlayGraphics(s.gfx, p),
       mainWindowWidth := if MainWindowWidth in p.overrides then v.mainWindowWidth else s.mainWindowWidth,
       mainWindowHeight := if MainWindowHeight in p.overrides then v.mainWindowHeight else s.mainWindowHeight,
       bAutomatedTestRun :=
         if TestFrames in p.overrides then true
         else if AutomatedTest in p.overrides then v.bAutomatedTestRun
         else s.bAutomatedTestRun,
       numAutomatedTestFrames := if TestFrames in p.overrides then v.numAutomatedTestFrames else s.numAutomatedTestFrames)
  }

  /** A layer that overrides nothing leaves the settings as they are. */
  lemma OverlayNothing(s: Settings, p: StartupParameters)
    requires p.overrides == {}
    ensures Overlay(s, p) == s
  {
  }

  /** Applying the same layer twice is applying it once. */
  lemma OverlayIdempotent(s: Settings, p: StartupParameters)
    ensures Overlay(Overlay(s, p), p) == Overlay(s, p)
  {
  }

  /** The graphics part of one override layer, assignment by assignment. */
  method ApplyGraphicsOverrides(gfx: GraphicsSettings, p: StartupParameters) returns (r: GraphicsSettings)
    ensures r == OverlayGraphics(gfx, p)
  {
    r := gfx;
    var v := p.engineSettings.gfx;
    if Fullscreen in p.overrides      { r := r.(bFullscreen := v.bFullscreen); }
    if VSync in p.overrides           { r := r.(bVsync := v.bVsync); }
    if TripleBuffering in p.overrides { r := r.(bUseTripleBuffering := v.bUseTripleBuffering); }
    if RenderWidth in p.overrides     { r := r.(renderResolutionX := v.renderResolutionX); }
    if RenderHeight in p.overrides    { r := r.(renderResolutionY := v.renderResolutionY); }
  }

  /** One override layer, assignment by assignment. */
  method ApplyOverrides(settings: Settings, p: StartupParameters) returns (r: Settings)
    ensures r == Overlay(settings, p)
  {
    var gfx := ApplyGraphicsOverrides(settings.gfx, p);
    var v := p.engineSettings;
    var mainWidth, mainHeight := settings.mainWindowWidth, settings.mainWindowHeight;
    var testRun, testFrames := settings.bAutomatedTestRun, settings.numAutomatedTestFrames;
    if MainWindowWidth in p.overrides  { mainWidth := v.mainWindowWidth; }
    if MainWindowHeight in p.overrides { mainHeight := v.mainWindowHeight; }
    if AutomatedTest in p.overrides    { testRun := v.bAutomatedTestRun; }
    if TestFrames in p.overrides {
      testRun := true;
      testFrames := v.numAutomatedTestFrames;
    }
    r := settings.(gfx := gfx, mainWindowWidth := mainWidth, mainWindowHeight := mainHeight,
                   bAutomatedTestRun := testRun, numAutomatedTestFrames := testFrames);
  }

  /** The value a setting ends up with: command line over file over default. */
  function Pick<T>(cmdFlag: bool, cmdValue: T, fileFlag: bool, fileValue: T, default: T): T
  {
    if cmdFlag then cmdValue else if fileFlag then fileValue else default
  }

  /**
   * VQEngine::InititalizeEngineSettings: defaults, then the settings file's
   * overrides, then the command line's. Every setting takes the command-line
   * value if it is overridden there, else the file's if overridden there, else
   * the default; a test-frames override in either layer forces a test run.
   */
  method InitializeEngineSettings(params: StartupParameters, paramFile: StartupParameters, debugBuild: bool)
    returns (settings: Settings)
    ensures var d, c, f := Defaults(debugBuild), params, paramFile;
      var cv, fv := c.engineSettings, f.engineSettings;
      && settings.gfx.bFullscreen == Pick(Fullscreen in c.overrides, cv.gfx.bFullscreen, Fullscreen in f.overrides, fv.gfx.bFullscreen, d.gfx.bFullscreen)
      && settings.gfx.bVsync == Pick(VSync in c.overrides, cv.gfx.bVsync, VSync in f.overrides, fv.gfx.bVsync, d.gfx.bVsync)
      && settings.gfx.bUseTripleBuffering
         == Pick(TripleBuffering in c.overrides, cv.gfx.bUseTripleBuffering, TripleBuffering in f.overrides, fv.gfx.bUseTripleBuffering, d.gfx.bUseTripleBuffering)
      && settings.gfx.renderResolutionX
         == Pick(RenderWidth in c.overrides, cv.gfx.renderResolutionX, RenderWidth in f.overrides, fv.gfx.renderResolutionX, d.gfx.renderResolutionX)
      && settings.gfx.renderResolutionY
         == Pick(RenderHeight in c.overrides, cv.gfx.renderResolutionY, RenderHeight in f.overrides, fv.gfx.renderResolutionY, d.gfx.renderResolutionY)
      && settings.mainWindowWidth
         == Pick(MainWindowWidth in c.overrides, cv.mainWindowWidth, MainWindowWidth in f.overrides, fv.mainWindowWidth, d.mainWindowWidth)
      && settings.mainWindowHeight
         == Pick(MainWindowHeight in c.overrides, cv.mainWindowHeight, MainWindowHeight in f.overrides, fv.mainWindowHeight, d.mainWindowHeight)
      && settings.bAutomatedTestRun
         == Pick(TestFrames in c.overrides || AutomatedTest in c.overrides, TestFrames in c.overrides || cv.bAutomatedTestRun,
                 TestFrames in f.overrides || AutomatedTest in f.overrides, TestFrames in f.overrides || fv.bAutomatedTestRun, false)
      && settings.numAutomatedTestFrames
         == Pick(TestFrames in c.overrides, cv.numAutomatedTestFrames, TestFrames in f.overrides, fv.numAutomatedTestFrames, 100)
      && settings.debugWindowWidth == 600 && settings.debugWindowHeight == 600
      && settings.mainWindowTitle == d.mainWindowTitle && settings.debugWindowTitle == "VQDebugging"
  {
    settings := Defaults(debugBuild);
    settings := ApplyOverrides(settings, paramFile);
    settings := ApplyOverrides(settings, params);
  }

  /** 2^64: the render-loop counter is an unsigned 64-bit integer. */
  const U64_MODULUS: nat := 0x1_0000_0000_0000_0000

  /**
   * The value a signed frame count takes when it is compared with the
   * unsigned 64-bit render-loop counter: a negative count converts to
   * 2^64 plus the count.
   */
  function AsUnsigned64(v: int): (r: nat)
    ensures r < U64_MODULUS
    ensures 0 <= v < U64_MODULUS ==> r == v
    ensures 0 - U64_MODULUS <= v < 0 ==> r == U64_MODULUS + v
  {
    v % U64_MODULUS
  }

  /**
   * VQEngine::MainThread_Tick posts a quit when the main window is closed, and
   * in an automated test run once the render loop has run the requested
   * number of frames. The signed frame count is compared with the unsigned
   * counter, so it is converted to unsigned first.
   */
  function ShouldPostQuit(settings: Settings, numRenderLoopsExecuted: nat, mainWindowClosed: bool): (r: bool)
  {
    mainWindowClosed
    || (settings.bAutomatedTestRun && AsUnsigned64(settings.numAutomatedTestFrames) <= numRenderLoopsExecuted)
  }

  /**
   * Outside a test run only the window decides; in a test run with a
   * non-negative frame count the quit comes exactly from frame
   * NumAutomatedTestFrames on and stays requested; a negative count converts
   * to at least 2^64 - 2^31, so no counter value below that ever quits.
   */
  lemma QuitRule(settings: Settings, n: nat, m: nat)
    ensures !settings.bAutomatedTestRun ==> (ShouldPostQuit(settings, n, false) <==> false)
    ensures settings.bAutomatedTestRun && 0 <= settings.numAutomatedTestFrames < U64_MODULUS ==>
      (ShouldPostQuit(settings, n, false) <==> settings.numAutomatedTestFrames <= n)
    ensures -0x8000_0000 <= settings.numAutomatedTestFrames < 0 && n < U64_MODULUS - 0x8000_0000 ==>
      !ShouldPostQuit(settings, n, false)
    ensures n <= m && ShouldPostQuit(settings, n, false) ==> ShouldPostQuit(settings, m, false)
    ensures ShouldPostQuit(settings, n, true)
  {
  }

  // ---------------------------------------------------------------------------
  // The INI line parser
  // ---------------------------------------------------------------------------

  datatype NameValue = NameValue(name: string, value: string)

  /**
   * ParseLineINI: "[name]..." gives (name, ""), where name is the first
   * ']'-separated token after the '['; any other line gives the first two
   * '='-separated tokens. An empty line, a section tag with no name and an
   * assignment with fewer than two tokens fail the source's assertions (the
   * section case indexes an empty token list).
   */
  function ParseLineINI(iniLine: string): (r: Result<NameValue, string>)
    ensures iniLine == [] ==> r.Err?
    ensures r.Ok? && iniLine[0] == '[' ==> r.value.value == [] && r.value.name != [] && ']' !in r.value.name
    ensures r.Ok? && iniLine[0] != '[' ==>
      r.value.name != [] && r.value.value != [] && '=' !in r.value.name && '=' !in r.value.value
  {
    if iniLine == [] then Err("empty settings line")
    else if iniLine[0] == '[' then
      var tokens := Split(iniLine[1..], {']'});
      SplitWellFormed(iniLine[1..], {']'});
      if |tokens| == 0 then Err("section tag without a name")
      else Ok(NameValue(tokens[0], []))
    else
      var tokens := Split(iniLine, {'='});
      SplitWellFormed(iniLine, {'='});
      if |tokens| < 2 then Err("setting without a value")
      else Ok(NameValue(tokens[0], tokens[1]))
  }

  /** "[name]rest" is a section tag named `name`. */
  lemma ParseSectionTag(name: string, rest: string)
    requires name != [] && ']' !in name
    ensures ParseLineINI("[" + name + "]" + rest) == Ok(NameValue(name, []))
  {
    var line := "[" + name + "]" + rest;
    assert line[1..] == name + [']'] + rest;
    SplitLeadingToken(name, ']', rest, {']'});
  }

  /** "name=value" gives exactly (name, value). */
  lemma ParseAssignment(name: string, value: string)
    requires name != [] && value != [] && '=' !in name && '=' !in value && name[0] != '['
    ensures ParseLineINI(name + "=" + value) == Ok(NameValue(name, value))
  {
    SplitLeadingToken(name, '=', value, {'='});
    SplitSingleToken(value, {'='});
  }

  /** "name=" and "=value" have a single token and fail. */
  lemma ParseMissingValue(name: string)
    requires name != [] && '=' !in name && name[0] != '['
    ensures ParseLineINI(name + "=").Err?
    ensures ParseLineINI("=" + name).Err?
  {
    SplitSingleToken(name, {'='});
    SplitFromAtDelim(name, '=', [], {'='}, []);
    assert name + "=" == name + ['='] + [];
    SplitFromAtDelim([], '=', name, {'='}, []);
    assert "=" + name == [] + ['='] + name;
  }

  // ---------------------------------------------------------------------------
  // The settings file
  // ---------------------------------------------------------------------------

  /** The override flags a settings file can raise. */
  const FileOverrides: set<Override> := {VSync, RenderWidth, RenderHeight, MainWindowWidth, MainWindowHeight}

  /** The names the settings file understands, with the override flag each one raises. */
  function FileSettingOf(name: string): (r: Option<Override>)
    ensures r.Some? ==> r.value in FileOverrides
  {
    if name == "VSync" then Some(VSync)
    else if name == "ResolutionX" then Some(RenderWidth)
    else if name == "ResolutionY" then Some(RenderHeight)
    else if name == "Width" then Some(MainWindowWidth)
    else if name == "Height" then Some(MainWindowHeight)
    else None
  }

  /** The value a file setting writes: a bool for VSync, an int for the others. */
  function SetFileValue(v: Settings, flag: Override, value: string,
                        parseBool: string -> bool, parseInt: string -> int): Settings
  {
    match flag
    case VSync => v.(gfx := v.gfx.(bVsync := parseBool(value)))
    case RenderWidth => v.(gfx := v.gfx.(renderResolutionX := parseInt(value)))
    case RenderHeight => v.(gfx := v.gfx.(renderResolutionY := parseInt(value)))
    case MainWindowWidth => v.(mainWindowWidth := parseInt(value))
    case MainWindowHeight => v.(mainWindowHeight := parseInt(value))
    case _ => v
  }

  /** A recognised setting raises its own flag and stores its value; any other name does nothing. */
  function ApplySetting(p: StartupParameters, name: string, value: string,
                        parseBool: string -> bool, parseInt: string -> int): StartupParameters
  {
    match FileSettingOf(name)
    case None => p
    case Some(flag) =>
      StartupParameters(SetFileValue(p.engineSettings, flag, value, parseBool, parseInt), p.overrides + {flag})
  }

  predicate IsHeader(name: string)
  {
    name == "Graphics" || name == "Engine"
  }

  predicate IsSkipped(line: string)
  {
    line == [] || line[0] == ';'
  }

  /** The effect of one line of the file. */
  function ApplyLine(p: StartupParameters, line: string,
                     parseBool: string -> bool, parseInt: string -> int): Result<StartupParameters, string>
  {
    if IsSkipped(line) then Ok(p)
    else
      match ParseLineINI(line)
      case Err(e) => Err(e)
      case Ok(nv) => if IsHeader(nv.name) then Ok(p) else Ok(ApplySetting(p, nv.name, nv.value, parseBool, parseInt))
  }

  /** The lines applied in order, starting from no overrides; the first bad line fails the whole file. */
  function ApplyLines(lines: seq<string>, parseBool: string -> bool, parseInt: string -> int): Result<StartupParameters, string>
  {
    if lines == [] then Ok(NoOverrides)
    else
      match ApplyLines(lines[..|lines| - 1], parseBool, parseInt)
      case Err(e) => Err(e)
      case Ok(p) => ApplyLine(p, lines[|lines| - 1], parseBool, parseInt)
  }

  /**
   * VQEngine::ParseEngineSettingsFile: no file means no overrides; otherwise
   * comment and empty lines are skipped, section headers only set the current
   * section, and every other line is applied as a setting.
   */
  method ParseEngineSettingsFile(file: Option<seq<string>>, parseBool: string -> bool, parseInt: string -> int)
    returns (r: Result<StartupParameters, string>)
    ensures file.None? ==> r == Ok(NoOverrides)
    ensures file.Some? ==> r == ApplyLines(file.value, parseBool, parseInt)
  {
    var params := NoOverrides;
    if file.None? {
      return Ok(params);
    }
    var lines := file.value;
    var currSection: string := [];
    var i := 0;
    while i < |lines|
      invariant 0 <= i <= |lines|
      invariant ApplyLines(lines[..i], parseBool, parseInt) == Ok(params)
    {
      var line := lines[i];
      assert lines[..i + 1][..i] == lines[..i];
      if line == [] || line[0] == ';' {
        i := i + 1;
        continue;
      }
      var nameValue := ParseLineINI(line);
      if nameValue.Err? {
        FirstErrorWins(lines, i + 1, parseBool, parseInt);
        return Err(nameValue.error);
      }
      var settingName, settingValue := nameValue.value.name, nameValue.value.value;
      if settingName == "Graphics" || settingName == "Engine" {
        currSection := settingName;
        i := i + 1;
        continue;
      }
      ghost var before := params;
      var settings := params.engineSettings;
      if settingName == "VSync" {
        params := params.(overrides := params.overrides + {VSync});
        params := params.(engineSettings := settings.(gfx := settings.gfx.(bVsync := parseBool(settingValue))));
      } else if settingName == "ResolutionX" {
        params := params.(overrides := params.overrides + {RenderWidth});
        params := params.(engineSettings := settings.(gfx := settings.gfx.(renderResolutionX := parseInt(settingValue))));
      } else if settingName == "ResolutionY" {
        params := params.(overrides := params.overrides + {RenderHeight});
        params := params.(engineSettings := settings.(gfx := settings.gfx.(renderResolutionY := parseInt(settingValue))));
      } else if settingName == "Width" {
        params := params.(overrides := params.overrides + {MainWindowWidth});
        params := params.(engineSettings := settings.(mainWindowWidth := parseInt(settingValue)));
      } else if settingName == "Height" {
        params := params.(overrides := params.overrides + {MainWindowHeight});
        params := params.(engineSettings := settings.(mainWindowHeight := parseInt(settingValue)));
      }
      assert params == ApplySetting(before, settingName, settingValue, parseBool, parseInt);
      i := i + 1;
    }
    assert lines[..i] == lines;
    return Ok(params);
  }

  /** Once a line fails, the file fails with that line's error. */
  lemma {:induction false} FirstErrorWins(lines: seq<string>, i: nat, parseBool: string -> bool, parseInt: string -> int)
    requires i <= |lines|
    requires ApplyLines(lines[..i], parseBool, parseInt).Err?
    ensures ApplyLines(lines, parseBool, parseInt) == ApplyLines(lines[..i], parseBool, parseInt)
    decreases |lines|
  {
    if i < |lines| {
      var init := lines[..|lines| - 1];
      assert init[..i] == lines[..i];
      FirstErrorWins(init, i, parseBool, parseInt);
    } else {
      assert lines[..i] == lines;
    }
  }

  /**
   * A settings file can only raise the VSync, render-resolution and
   * main-window-size overrides: fullscreen, triple buffering and the
   * automated-test settings are never overridden from it.
   */
  lemma {:induction false} FileOverridesOnlyItsKeys(lines: seq<string>, parseBool: string -> bool, parseInt: string -> int)
    requires ApplyLines(lines, parseBool, parseInt).Ok?
    ensures ApplyLines(lines, parseBool, parseInt).value.overrides <= FileOverrides
  {
    if lines != [] {
      FileOverridesOnlyItsKeys(lines[..|lines| - 1], parseBool, parseInt);
    }
  }

  /** Comment lines, empty lines, section headers and unknown names change nothing. */
  lemma LinesWithoutEffect(p: StartupParameters, line: string, parseBool: string -> bool, parseInt: string -> int)
    requires IsSkipped(line)
          || (ParseLineINI(line).Ok? && FileSettingOf(ParseLineINI(line).value.name).None?)
    ensures ApplyLine(p, line, parseBool, parseInt) == Ok(p)
  {
  }

  /**
   * Appending "name=value" for one of the five settings applies that setting
   * to what the earlier lines gave, so the later of two such lines wins.
   */
  lemma SettingLine(lines: seq<string>, name: string, value: string, parseBool: string -> bool, parseInt: string -> int)
    requires FileSettingOf(name).Some? && value != [] && '=' !in value
    requires ApplyLines(lines, parseBool, parseInt).Ok?
    ensures ApplyLines(lines + [name + "=" + value], parseBool, parseInt)
         == Ok(ApplySetting(ApplyLines(lines, parseBool, parseInt).value, name, value, parseBool, parseInt))
  {
    ParseAssignment(name, value);
    var all := lines + [name + "=" + value];
    assert all[..|all| - 1] == lines;
  }

  /**
   * A recognised setting raises exactly its own flag and changes exactly its
   * own value: ResolutionX the render width, Width the main window width, and
   * so on; the fields it does not own are untouched.
   */
  lemma ApplySettingOwnsOneField(p: StartupParameters, name: string, value: string,
                                 parseBool: string -> bool, parseInt: string -> int)
    requires FileSettingOf(name).Some?
    ensures var q, flag := ApplySetting(p, name, value, parseBool, parseInt), FileSettingOf(name).value;
      && q.overrides == p.overrides + {flag}
      && q.engineSettings.gfx.bVsync == (if flag == VSync then parseBool(value) else p.engineSettings.gfx.bVsync)
      && q.engineSettings.gfx.renderResolutionX
         == (if flag == RenderWidth then parseInt(value) else p.engineSettings.gfx.renderResolutionX)
      && q.engineSettings.gfx.renderResolutionY
         == (if flag == RenderHeight then parseInt(value) else p.engineSettings.gfx.renderResolutionY)
      && q.engineSettings.mainWindowWidth
         == (if flag == MainWindowWidth then parseInt(value) else p.engineSettings.mainWindowWidth)
      && q.engineSettings.mainWindowHeight
         == (if flag == MainWindowHeight then parseInt(value) else p.engineSettings.mainWindowHeight)
      && q.engineSettings.gfx.bFullscreen == p.engineSettings.gfx.bFullscreen
      && q.engineSettings.gfx.bUseTripleBuffering == p.engineSettings.gfx.bUseTripleBuffering
      && q.engineSettings.bAutomatedTestRun == p.engineSettings.bAutomatedTestRun
      && q.engineSettings.numAutomatedTestFrames == p.engineSettings.numAutomatedTestFrames
  {
    var flag := FileSettingOf(name).value;
    match flag
    case VSync =>
    case RenderWidth =>
    case RenderHeight =>
    case MainWindowWidth =>
    case MainWindowHeight =>
  }
}
