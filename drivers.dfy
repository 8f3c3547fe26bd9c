/** DriverManager: one thread-local driver slot (a single sequential thread
    here) and a shared driver for attach mode. Building a browser is the
    browser library's business: a `Launcher` says, for each request, whether
    it yields a driver or fails. */
module Drivers {
  import opened Common
  import opened JavaText
  import Configuration

  datatype Browser = Chrome | Firefox | Edge | Safari

  /** A handle on a running browser session. */
  datatype Driver = Driver(session: nat)

  /** What is asked of the browser library. */
  datatype LaunchRequest =
    | LaunchLocal(browser: Browser, headless: bool)
    | LaunchRemote(browser: Browser, url: string, headless: bool)
    | AttachToDebugger(port: Int32)                 // ChromeDriver with debuggerAddress localhost:port
    | LaunchWithDebugPort(port: Int32, headless: bool)

  datatype LaunchError = MalformedUrl | LaunchFailed

  type Launcher = LaunchRequest -> Result<Driver, LaunchError>

  datatype InitError =
    | UnsupportedBrowser(name: string)     // IllegalArgumentException
    | InvalidRemoteUrl(url: Option<string>) // RuntimeException wrapping MalformedURLException
    | DriverFailed                          // whatever the driver constructor throws

  /** The timeouts and window setting configureDriver applies. */
  datatype DriverSettings = DriverSettings(implicitWaitSeconds: Int32, pageLoadTimeoutSeconds: Int32, maximize: bool)

  /** The switch of initLocalDriver over the lower-cased browser name. */
  function LocalBrowser(name: string): (r: Option<Browser>)
    ensures r.Some? <==> ToLower(name) in {"chrome", "firefox", "edge", "safari"}
    ensures r == Some(Chrome) <==> ToLower(name) == "chrome"
    ensures r == Some(Firefox) <==> ToLower(name) == "firefox"
    ensures r == Some(Edge) <==> ToLower(name) == "edge"
    ensures r == Some(Safari) <==> ToLower(name) == "safari"
  {
    match ToLower(name)
    case "chrome" => Some(Chrome)
    case "firefox" => Some(Firefox)
    case "edge" => Some(Edge)
    case "safari" => Some(Safari)
    case _ => None
  }

  /** The switch of initRemoteDriver: the grid takes no Safari. */
  function RemoteBrowser(name: string): (r: Option<Browser>)
    ensures r.Some? <==> ToLower(name) in {"chrome", "firefox", "edge"}
    ensures r.Some? ==> r.value != Safari && r == LocalBrowser(name)
  {
    match ToLower(name)
    case "chrome" => Some(Chrome)
    case "firefox" => Some(Firefox)
    case "edge" => Some(Edge)
    case _ => None
  }

  /** What initLocalDriver produces for a configured browser name. */
  function LocalInit(name: string, headless: bool, launch: Launcher): (r: Result<Driver, InitError>)
    ensures LocalBrowser(name).None? ==> r == Err(UnsupportedBrowser(ToLower(name)))
    ensures LocalBrowser(name).Some? && r.Ok? ==> launch(LaunchLocal(LocalBrowser(name).value, headless)) == Ok(r.value)
    ensures r.Err? && LocalBrowser(name).Some? ==> r.error == DriverFailed
    ensures LocalBrowser(name).Some? && launch(LaunchLocal(LocalBrowser(name).value, headless)).Ok? ==>
      r == Ok(launch(LaunchLocal(LocalBrowser(name).value, headless)).value)
  {
    match LocalBrowser(name)
    case None => Err(UnsupportedBrowser(ToLower(name)))
    case Some(b) =>
      match launch(LaunchLocal(b, headless))
      case Ok(d) => Ok(d)
      case Err(_) => Err(DriverFailed)
  }

  /** What initRemoteDriver produces: the browser name is checked first, then
      the grid URL (an absent URL is malformed), then the session. */
  function RemoteInit(name: string, url: Option<string>, headless: bool, launch: Launcher): (r: Result<Driver, InitError>)
    ensures RemoteBrowser(name).None? ==> r == Err(UnsupportedBrowser(ToLower(name)))
    ensures RemoteBrowser(name).Some? && url.None? ==> r == Err(InvalidRemoteUrl(None))
    ensures r.Ok? ==> (url.Some? && RemoteBrowser(name).Some?
      && launch(LaunchRemote(RemoteBrowser(name).value, url.value, headless)) == Ok(r.value))
    ensures RemoteBrowser(name).Some? && url.Some? ==>
      var outcome := launch(LaunchRemote(RemoteBrowser(name).value, url.value, headless));
      && (outcome.Ok? ==> r == Ok(outcome.value))
      && (outcome == Err(MalformedUrl) ==> r == Err(InvalidRemoteUrl(url)))
      && (outcome == Err(LaunchFailed) ==> r == Err(DriverFailed))
  {
    match RemoteBrowser(name)
    case None => Err(UnsupportedBrowser(ToLower(name)))
    case Some(b) =>
      if url.None? then Err(InvalidRemoteUrl(None))
      else
        match launch(LaunchRemote(b, url.value, headless))
        case Ok(d) => Ok(d)
        case Err(MalformedUrl) => Err(InvalidRemoteUrl(url))
        case Err(LaunchFailed) => Err(DriverFailed)
  }

  /** Safari is accepted locally but refused by the grid. */
  lemma SafariIsLocalOnly(name: string, url: Option<string>, headless: bool, launch: Launcher)
    requires ToLower(name) == "safari"
    ensures LocalBrowser(name) == Some(Safari)
    ensures RemoteInit(name, url, headless, launch) == Err(UnsupportedBrowser("safari"))
  {
  }

  /** A browser name is accepted whatever case it is written in. */
  lemma BrowserNameIsCaseInsensitive(name: string)
    ensures LocalBrowser(ToUpper(name)) == LocalBrowser(name)
    ensures RemoteBrowser(ToUpper(name)) == RemoteBrowser(name)
  {
    LowerOfUpper(name);
  }

  class DriverManager {
    const config: Configuration.ConfigManager
    var threadDriver: Option<Driver>       // driverThreadLocal
    var sharedDriver: Option<Driver>       // sharedDriver (None is null)
    var sharedInitialized: bool            // isSharedDriverInitialized
    var quitSent: seq<Driver>              // drivers told to quit, oldest first

    /** The shared driver is present exactly when it is flagged initialised. */
    ghost predicate Valid()
      reads this
    {
      sharedInitialized <==> sharedDriver.Some?
    }

    constructor (config: Configuration.ConfigManager)
      ensures Valid() && this.config == config
      ensures threadDriver.None? && sharedDriver.None? && !sharedInitialized && quitSent == []
    {
      this.config := config;
      threadDriver := None;
      sharedDriver := None;
      sharedInitialized := false;
      quitSent := [];
    }

    /** getDriver: the shared driver in attach mode once it is initialised,
        the thread's own driver otherwise. */
    function GetDriver(): (r: Option<Driver>)
      reads this, config
      requires Valid()
      ensures config.IsAttachBrowserMode() && sharedInitialized ==> r.Some? && r == sharedDriver
      ensures !(config.IsAttachBrowserMode() && sharedInitialized) ==> r == threadDriver
    {
      if config.IsAttachBrowserMode() && sharedInitialized then sharedDriver else threadDriver
    }

    /** configureDriver: the settings sent to the current driver, if there is one. */
    function Settings(): (r: Option<DriverSettings>)
      reads this, config
      requires Valid()
      ensures r.Some? <==> GetDriver().Some?
      ensures r.Some? ==> (r.value.implicitWaitSeconds == config.GetImplicitWait()
        && r.value.pageLoadTimeoutSeconds == config.GetPageLoadTimeout()
        && r.value.maximize == config.GetBooleanProperty("browser.maximize"))
    {
      if GetDriver().None? then None
      else Some(DriverSettings(config.GetImplicitWait(), config.GetPageLoadTimeout(),
                               config.GetBooleanProperty("browser.maximize")))
    }

    /** initDriver: attach mode first, then remote execution, then a local
        browser; on success the new driver is configured and returned by getDriver. */
    method InitDriver(launch: Launcher) returns (r: Result<DriverSettings, InitError>)
      requires Valid()
      modifies this
      ensures Valid()
      ensures quitSent == old(quitSent)
      ensures config.IsAttachBrowserMode() ==> threadDriver == old(threadDriver)
      ensures config.IsAttachBrowserMode() && old(sharedInitialized) ==>
        sharedDriver == old(sharedDriver) && sharedInitialized
      ensures config.IsAttachBrowserMode() && !old(sharedInitialized) ==>
        var a := AttachInit(config.GetDebugPort(), config.IsHeadless(), launch);
        (a.Ok? ==> r.Ok? && sharedDriver == Some(a.value)) && (a.Err? ==> r == Err(a.error) && sharedDriver == old(sharedDriver))
      ensures config.IsAttachBrowserMode() && old(sharedInitialized) ==> r.Ok?
      ensures !config.IsAttachBrowserMode() ==> sharedDriver == old(sharedDriver) && sharedInitialized == old(sharedInitialized)
      ensures !config.IsAttachBrowserMode() && config.IsRemoteExecution() ==>
        var d := RemoteInit(config.GetBrowser(), config.GetRemoteUrl(), config.IsHeadless(), launch);
        (d.Ok? ==> r.Ok? && threadDriver == Some(d.value)) && (d.Err? ==> r == Err(d.error) && threadDriver == old(threadDriver))
      ensures !config.IsAttachBrowserMode() && !config.IsRemoteExecution() ==>
        var d := LocalInit(config.GetBrowser(), config.IsHeadless(), launch);
        (d.Ok? ==> r.Ok? && threadDriver == Some(d.value)) && (d.Err? ==> r == Err(d.error) && threadDriver == old(threadDriver))
      ensures r.Ok? ==> GetDriver().Some? && Settings() == Some(r.value)
    {
      var outcome: Result<(), InitError>;
      if config.IsAttachBrowserMode() {
        outcome := InitAttachedBrowser(launch);
        if outcome.Err? {
          return Err(outcome.error);
        }
      } else if config.IsRemoteExecution() {
        outcome := InitRemoteDriver(launch);
        if outcome.Err? {
          return Err(outcome.error);
        }
      } else {
        outcome := InitLocalDriver(launch);
        if outcome.Err? {
          return Err(outcome.error);
        }
      }
      return Ok(Settings().value);
    }

    /** initLocalDriver. */
    method InitLocalDriver(launch: Launcher) returns (r: Result<(), InitError>)
      requires Valid()
      modifies this`threadDriver
      ensures Valid()
      ensures var d := LocalInit(config.GetBrowser(), config.IsHeadless(), launch);
        (d.Ok? ==> r.Ok? && threadDriver == Some(d.value))
        && (d.Err? ==> r == Err(d.error) && threadDriver == old(threadDriver))
    {
      var d := LocalInit(config.GetBrowser(), config.IsHeadless(), launch);
      if d.Err? {
        return Err(d.error);
      }
      threadDriver := Some(d.value);
      return Ok(());
    }

    /** initRemoteDriver. */
    method InitRemoteDriver(launch: Launcher) returns (r: Result<(), InitError>)
      requires Valid()
      modifies this`threadDriver
      ensures Valid()
      ensures var d := RemoteInit(config.GetBrowser(), config.GetRemoteUrl(), config.IsHeadless(), launch);
        (d.Ok? ==> r.Ok? && threadDriver == Some(d.value))
        && (d.Err? ==> r == Err(d.error) && threadDriver == old(threadDriver))
    {
      var d := RemoteInit(config.GetBrowser(), config.GetRemoteUrl(), config.IsHeadless(), launch);
      if d.Err? {
        return Err(d.error);
      }
      threadDriver := Some(d.value);
      return Ok(());
    }

    /** initAttachedBrowser: reuse an initialised shared driver; otherwise
        attach to the debug port, and if that fails start a browser on it. */
    method InitAttachedBrowser(launch: Launcher) returns (r: Result<(), InitError>)
      requires Valid()
      modifies this`sharedDriver, this`sharedInitialized
      ensures Valid()
      ensures old(sharedInitialized) ==> r.Ok? && sharedDriver == old(sharedDriver)
      ensures !old(sharedInitialized) ==>
        var a := AttachInit(config.GetDebugPort(), config.IsHeadless(), launch);
        (a.Ok? ==> r.Ok? && sharedDriver == Some(a.value))
        && (a.Err? ==> r == Err(a.error) && sharedDriver == old(sharedDriver))
      ensures r.Ok? ==> sharedInitialized
    {
      if sharedInitialized && sharedDriver.Some? {
        return Ok(());
      }
      var port := config.GetDebugPort();
      var attached := launch(AttachToDebugger(port));
      if attached.Ok? {
        sharedDriver := Some(attached.value);
        sharedInitialized := true;
        return Ok(());
      }
      r := StartBrowserWithDebugPort(port, launch);
    }

    /** startBrowserWithDebugPort: a fresh Chrome with remote debugging on
        the port becomes the shared driver. */
    method StartBrowserWithDebugPort(port: Int32, launch: Launcher) returns (r: Result<(), InitError>)
      requires Valid()
      modifies this`sharedDriver, this`sharedInitialized
      ensures Valid()
      ensures var l := launch(LaunchWithDebugPort(port, config.IsHeadless()));
        (l.Ok? ==> r.Ok? && sharedDriver == Some(l.value))
        && (l.Err? ==> r == Err(DriverFailed) && sharedDriver == old(sharedDriver))
    {
      var launched := launch(LaunchWithDebugPort(port, config.IsHeadless()));
      if launched.Err? {
        return Err(DriverFailed);
      }
      sharedDriver := Some(launched.value);
      sharedInitialized := true;
      return Ok(());
    }

    /** quitDriver: nothing in attach mode; otherwise the thread's driver is
        told to quit and the slot is emptied, whether or not quitting throws. */
    method QuitDriver()
      requires Valid()
      modifies this`threadDriver, this`quitSent
      ensures Valid()
      ensures config.IsAttachBrowserMode() ==> threadDriver == old(threadDriver) && quitSent == old(quitSent)
      ensures !config.IsAttachBrowserMode() ==> (threadDriver.None?
        && quitSent == old(quitSent) + (if old(threadDriver).Some? then [old(threadDriver).value] else []))
    {
      if config.IsAttachBrowserMode() {
        return;
      }
      if threadDriver.Some? {
        quitSent := quitSent + [threadDriver.value];
        threadDriver := None;
      }
    }

    /** forceQuitAll: the thread's driver and the shared one are both told to
        quit and dropped, in that order. */
    method ForceQuitAll()
      requires Valid()
      modifies this`threadDriver, this`sharedDriver, this`sharedInitialized, this`quitSent
      ensures Valid()
      ensures threadDriver.None? && sharedDriver.None? && !sharedInitialized
      ensures quitSent == old(quitSent)
        + (if old(threadDriver).Some? then [old(threadDriver).value] else [])
        + (if old(sharedDriver).Some? then [old(sharedDriver).value] else [])
    {
      var sent := quitSent;
      if threadDriver.Some? {
        sent := sent + [threadDriver.value];
        threadDriver := None;
      }
      if sharedDriver.Some? {
        sent := sent + [sharedDriver.value];
        sharedDriver := None;
        sharedInitialized := false;
      }
      quitSent := sent;
    }
  }

  /** What initAttachedBrowser produces when nothing is shared yet: the
      attached session, else a browser started on the debug port. */
  function AttachInit(port: Int32, headless: bool, launch: Launcher): (r: Result<Driver, InitError>)
    ensures launch(AttachToDebugger(port)).Ok? ==> r == Ok(launch(AttachToDebugger(port)).value)
    ensures launch(AttachToDebugger(port)).Err? && launch(LaunchWithDebugPort(port, headless)).Ok? ==>
      r == Ok(launch(LaunchWithDebugPort(port, headless)).value)
    ensures r.Err? ==> (r.error == DriverFailed
      && launch(AttachToDebugger(port)).Err? && launch(LaunchWithDebugPort(port, headless)).Err?)
  {
    match launch(AttachToDebugger(port))
    case Ok(d) => Ok(d)
    case Err(_) =>
      match launch(LaunchWithDebugPort(port, headless))
      case Ok(d) => Ok(d)
      case Err(_) => Err(DriverFailed)
  }
}
