/**
 * Where the configuration directory lives, by operating system. GOOS, the
 * home-directory lookup and the APPDATA variable are parameters.
 */
module AppPath {
  import opened Wrappers
  import opened Strings

  /** The directory, or a panic; `nilError` is the panic(nil) reached on windows with no APPDATA. */
  datatype PathOutcome = ConfigPath(path: string) | Panic(nilError: bool)

  /** GetConfigPath; `home` is None when os.UserHomeDir fails. */
  function GetConfigPath(goos: string, home: Option<string>, appData: string): (r: PathOutcome)
    ensures home.None? ==> r == Panic(false)
    ensures home.Some? && goos == "windows" ==>
      r == if appData != "" then ConfigPath(appData + "\\httpzen") else Panic(true)
    ensures home.Some? && goos == "darwin" ==> r == ConfigPath(home.value + "/Library/Application Support/httpzen")
    ensures home.Some? && goos != "windows" && goos != "darwin" ==> r == ConfigPath(home.value + "/.config/httpzen")
  {
    if home.Some? then
      if goos == "windows" then
        if appData != "" then ConfigPath(appData + "\\httpzen") else Panic(true)
      else if goos == "darwin" then ConfigPath(home.value + "/Library/Application Support/httpzen")
      else ConfigPath(home.value + "/.config/httpzen")
    else Panic(false)
  }

  /** Every path handed out names the httpzen directory. */
  lemma PathEndsWithHttpzen(goos: string, home: Option<string>, appData: string)
    requires GetConfigPath(goos, home, appData).ConfigPath?
    ensures HasSuffix(GetConfigPath(goos, home, appData).path, "httpzen")
  {
    var p := GetConfigPath(goos, home, appData).path;
    var tail := "httpzen";
    assert p[|p| - |tail|..] == tail;
  }

  /** On windows the home directory only matters for whether its lookup failed. */
  lemma WindowsIgnoresHome(h1: string, h2: string, appData: string)
    ensures GetConfigPath("windows", Some(h1), appData) == GetConfigPath("windows", Some(h2), appData)
  {
  }
}
