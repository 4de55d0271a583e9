/** The native variant of native.go: a web service with a UI window pointed at it. */
module Native {
  import opened Wrappers
  import opened Paths
  import opened Teardown
  import opened Addressing
  import opened WebService

  /** native.go:25-29. */
  datatype NativeConfig = NativeConfig(show: bool, width: int, height: int)

  /** native.go:19-22. */
  datatype Config = Config(web: WebConfig, ui: NativeConfig)

  /** The UI window NewNative opens, with the size it is opened at. */
  datatype Window = Window(width: int, height: int)

  /** The configuration file NewNative looks for: its base name and the directory searched. */
  datatype ConfigFile = ConfigFile(name: string, searchPath: string)

  /** The window size used when none is configured. */
  const DefaultDimension := 500

  /** native.go:140-147: the configured width or height when positive, the default otherwise. */
  function Dimension(configured: int): (d: int)
    ensures d > 0
    ensures configured > 0 ==> d == configured
    ensures d != configured ==> d == DefaultDimension
  {
    if configured > 0 then configured else DefaultDimension
  }

  /** The window NewNative opens for a UI configuration. */
  function WindowFor(ui: NativeConfig): (w: Window)
    ensures w.width > 0 && w.height > 0
    ensures w.width == Dimension(ui.width) && w.height == Dimension(ui.height)
  {
    Window(Dimension(ui.width), Dimension(ui.height))
  }

  /** native.go:86-91, 130-134: an explicit configuration wins over the file's
      "server" and "ui" sections. */
  function ChooseConfig(conf: Option<Config>, fromFile: Config): (c: Config)
    ensures conf.Some? ==> c == conf.value
    ensures conf.None? ==> c == fromFile
  {
    conf.GetOr(fromFile)
  }

  /** native.go:72-79: the file is looked up, as "config_" followed by the OS name in
      the resource directory, only when no configuration was given. */
  function ConfigLookup(conf: Option<Config>, resourceDir: string, goos: string): (f: Option<ConfigFile>)
    ensures f.Some? <==> conf.None?
    ensures f.Some? ==> f.value.searchPath == resourceDir && f.value.name == "config_" + goos
  {
    if conf.None? then Some(ConfigFile("config_" + goos, resourceDir)) else None
  }

  /** native.go:56-66: outside a terminal, the "Resources" directory two levels above
      the executable; in a terminal, the working directory. */
  function ResourceDir(isTerminal: bool, executable: string, workingDir: string): (dir: string)
    ensures isTerminal ==> dir == workingDir
    ensures !isTerminal ==> dir == Join(Dir(Dir(executable)), "Resources")
  {
    if !isTerminal then Join(Dir(Dir(executable)), "Resources") else workingDir
  }

  /** For an executable inside an application bundle, "<bundle>/Contents/MacOS/<binary>",
      the resource directory is "<bundle>/Contents/Resources". */
  lemma BundleResources(contents: string, binary: string)
    requires contents != "" && contents[|contents| - 1] != '/'
    requires IsName(binary)
    ensures ResourceDir(false, contents + "/MacOS/" + binary, "") == contents + "/Resources"
  {
    var macos := Join(contents, "MacOS");
    assert macos == contents + "/MacOS";
    assert contents + "/MacOS/" + binary == Join(macos, binary);
    DirOfJoin(macos, binary);
    DirOfJoin(contents, "MacOS");
  }

  /** native.go:37-43; the `Exit` channel is not modelled. */
  class App {
    var name: string
    var service: Service
    var cwd: string
    var ui: Option<Window>

    constructor (service: Service, cwd: string, ui: Option<Window>)
      ensures this.name == "" && this.service == service && this.cwd == cwd && this.ui == ui
    {
      name := "";
      this.service := service;
      this.cwd := cwd;
      this.ui := ui;
    }

    /** native.go:170-175: the service first, then the UI when there is one. */
    method Close(t: Trace)
      modifies t
      ensures t.events == old(t.events) + AppCloseEvents(service.controllers, ui.Some?)
    {
      service.Close(t);
      if ui.Some? {
        t.Record(UiClosed);
      }
    }
  }

  /** native.go:46-157. `isTerminal`, `executable` and `workingDir` are what the
      terminal check, os.Executable and os.Getwd report, and `goos` is the OS name;
      `fromFile` is what the configuration file holds, used only when `conf` is nil.
      `lookup` is the configuration file NewNative asks the configuration library to read, if any. */
  method NewNative(conf: Option<Config>, isTerminal: bool, executable: string, workingDir: string,
                   goos: string, fromFile: Config)
    returns (app: App, lookup: Option<ConfigFile>)
    ensures fresh(app) && fresh(app.service)
    ensures app.name == "" && app.cwd == ResourceDir(isTerminal, executable, workingDir)
    ensures lookup == ConfigLookup(conf, app.cwd, goos)
    ensures var c := ChooseConfig(conf, fromFile);
      && app.ui == Some(WindowFor(c.ui))
      && app.service.config != null
      && fresh(app.service.config)
      && app.service.config.value == WithDefaultHost(c.web)
      && app.service.name == c.web.name
      && app.service.serverAddr == AddrString(ListenAddress(c.web.host, c.web.port))
      && app.service.home == HomeUrl(app.service.serverAddr)
    ensures app.service.controllers == []
  {
    var resourceDir := ".";
    if !isTerminal {
      resourceDir := Join(Dir(Dir(executable)), "Resources");
    } else {
      resourceDir := workingDir;
    }
    lookup := None;
    if conf.None? {
      lookup := Some(ConfigFile("config_" + goos, resourceDir));
    }
    var serverConfig := if conf.None? then fromFile.web else conf.value.web;
    // NewWeb receives a pointer to this local copy, so `conf` itself is never written.
    var local := new WebConfigRef(serverConfig);
    var wapp := NewWeb(local, serverConfig);
    var uiConfig := if conf.None? then fromFile.ui else conf.value.ui;
    var width := 500;
    if uiConfig.width > 0 {
      width := uiConfig.width;
    }
    var height := 500;
    if uiConfig.height > 0 {
      height := uiConfig.height;
    }
    app := new App(wapp, resourceDir, Some(Window(width, height)));
  }
}
