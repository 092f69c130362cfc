/**
 * Where the desktop client keeps its application data, and the script that
 * creates that directory: the platform name, the environment and the home
 * directory go in, a path comes out.
 *
 * `os.path.join` is modelled for what the script joins onto a base: fixed
 * plain names, with no separator and no drive. On Windows the separators
 * are the backslash and the slash and a bare drive such as `C:` takes the
 * name without a separator; elsewhere the slash is the only separator.
 */
module AppData {

  /** A component with no separator and no drive, as every name the script joins is. */
  predicate PlainName(part: string)
  {
    |part| > 0 && forall i :: 0 <= i < |part| ==> part[i] != '/' && part[i] != '\\' && part[i] != ':'
  }

  predicate IsSep(windows: bool, c: char)
  {
    c == '/' || (windows && c == '\\')
  }

  /** A bare drive such as `C:`, after which ntpath adds no separator. */
  predicate BareDrive(windows: bool, base: string)
  {
    windows && |base| == 2 && base[1] == ':'
  }

  /** The separator a join inserts between a base and a name. */
  function Sep(windows: bool): string
  {
    if windows then "\\" else "/"
  }

  /** `os.path.join(base, part)` for a plain name. */
  function Join(windows: bool, base: string, part: string): (r: string)
    requires PlainName(part)
    ensures base == "" || IsSep(windows, base[|base| - 1]) || BareDrive(windows, base) ==> r == base + part
    ensures !(base == "" || IsSep(windows, base[|base| - 1]) || BareDrive(windows, base)) ==> r == base + Sep(windows) + part
  {
    if base == "" then part
    else if IsSep(windows, base[|base| - 1]) then base + part
    else if BareDrive(windows, base) then base + part
    else base + Sep(windows) + part
  }

  /** `name` is the whole last component of `path`. */
  predicate LastComponent(windows: bool, path: string, name: string)
  {
    |path| >= |name| && path[|path| - |name|..] == name &&
    (|path| == |name| || IsSep(windows, path[|path| - |name| - 1]) || (windows && path[|path| - |name| - 1] == ':'))
  }

  /** Joining a plain name makes it the last component. */
  lemma JoinLast(windows: bool, base: string, part: string)
    requires PlainName(part)
    ensures LastComponent(windows, Join(windows, base, part), part)
  {
    var r := Join(windows, base, part);
    assert r[|r| - |part|..] == part;
    if base != "" {
      assert r[|r| - |part| - 1] == if IsSep(windows, base[|base| - 1]) || BareDrive(windows, base) then base[|base| - 1] else Sep(windows)[0];
    }
  }

  /** `get_claude_appdata_dir`. */
  function GetClaudeAppdataDir(system: string, env: map<string, string>, home: string): (r: string)
    ensures LastComponent(system == "Windows", r, "Claude")
  {
    var windows := system == "Windows";
    var base :=
      if windows then
        if "APPDATA" in env && env["APPDATA"] != "" then env["APPDATA"]
        else Join(true, Join(true, home, "AppData"), "Roaming")
      else if system == "Darwin" then
        Join(false, Join(false, home, "Library"), "Application Support")
      else if "XDG_CONFIG_HOME" in env then env["XDG_CONFIG_HOME"]
      else Join(false, home, ".config");
    JoinLast(windows, base, "Claude");
    Join(windows, base, "Claude")
  }

  /** A home directory written without a trailing separator or a bare drive, as `expanduser` returns it. */
  predicate PlainHome(windows: bool, home: string)
  {
    home != "" && !IsSep(windows, home[|home| - 1]) && !BareDrive(windows, home)
  }

  /** On Windows a non-empty APPDATA is the parent of the directory. */
  lemma WindowsAppData(env: map<string, string>, home: string)
    requires "APPDATA" in env && env["APPDATA"] != ""
    ensures var a := env["APPDATA"];
            GetClaudeAppdataDir("Windows", env, home) ==
              if IsSep(true, a[|a| - 1]) || BareDrive(true, a) then a + "Claude" else a + "\\Claude"
  {
  }

  /** On Windows an APPDATA that is unset or empty falls back to the roaming folder under the home directory. */
  lemma WindowsFallback(env: map<string, string>, home: string)
    requires "APPDATA" !in env || env["APPDATA"] == ""
    requires PlainHome(true, home)
    ensures GetClaudeAppdataDir("Windows", env, home) == home + "\\AppData\\Roaming\\Claude"
  {
    var a := Join(true, home, "AppData");
    assert a == home + "\\AppData";
    var b := Join(true, a, "Roaming");
    assert b == home + "\\AppData\\Roaming" by { assert a[|a| - 1] == 'a'; }
    assert b[|b| - 1] == 'g';
  }

  /** On macOS the directory is under Library/Application Support, whatever the environment says. */
  lemma DarwinPath(env: map<string, string>, home: string)
    requires PlainHome(false, home)
    ensures GetClaudeAppdataDir("Darwin", env, home) == home + "/Library/Application Support/Claude"
  {
    var a := Join(false, home, "Library");
    assert a == home + "/Library";
    var b := Join(false, a, "Application Support");
    assert b == home + "/Library/Application Support" by { assert a[|a| - 1] == 'y'; }
    assert b[|b| - 1] == 't';
    assert GetClaudeAppdataDir("Darwin", env, home) == b + "/" + "Claude";
  }

  /**
   * Elsewhere XDG_CONFIG_HOME is the parent whenever it is set, even to the
   * empty string, which leaves the relative path `Claude`; only when it is
   * unset does the directory go under ~/.config.
   */
  lemma PosixBase(system: string, env: map<string, string>, home: string)
    requires system != "Windows" && system != "Darwin"
    ensures "XDG_CONFIG_HOME" in env && env["XDG_CONFIG_HOME"] == "" ==>
              GetClaudeAppdataDir(system, env, home) == "Claude"
    ensures "XDG_CONFIG_HOME" in env ==>
              GetClaudeAppdataDir(system, env, home) == Join(false, env["XDG_CONFIG_HOME"], "Claude")
    ensures "XDG_CONFIG_HOME" !in env && PlainHome(false, home) ==>
              GetClaudeAppdataDir(system, env, home) == home + "/.config/Claude"
  {
    if "XDG_CONFIG_HOME" !in env && PlainHome(false, home) {
      var a := Join(false, home, ".config");
      assert a == home + "/.config";
      assert a[|a| - 1] == 'g';
    }
  }

  // ---------------------------------------------------------------------
  // The script.
  // ---------------------------------------------------------------------

  /** What the file system holds at a path. */
  datatype Entry = Directory | NonDirectory

  /** What the script did: found the directory, created it, or failed to create it. */
  datatype CreateOutcome =
    | AlreadyExists(target: string)
    | Created(target: string, fs: map<string, Entry>)
    | FileExistsError(target: string)

  /**
   * `main`: the directory is created only when the target is not already a
   * directory; creating over a file that is not a directory raises.
   */
  function CreateDirectory(system: string, env: map<string, string>, home: string, fs: map<string, Entry>): (o: CreateOutcome)
    ensures o.target == GetClaudeAppdataDir(system, env, home)
    ensures o.AlreadyExists? <==> o.target in fs && fs[o.target] == Directory
    ensures o.Created? <==> o.target !in fs
    ensures o.Created? ==> o.fs == fs[o.target := Directory]
    ensures o.FileExistsError? <==> o.target in fs && fs[o.target].NonDirectory?
  {
    var target := GetClaudeAppdataDir(system, env, home);
    if target in fs && fs[target] == Directory then AlreadyExists(target)
    else if target in fs then FileExistsError(target)
    else Created(target, fs[target := Directory])
  }

  /** A second run, on what the first one left, finds the same directory and creates nothing. */
  lemma CreateIdempotent(system: string, env: map<string, string>, home: string, fs: map<string, Entry>)
    ensures var first := CreateDirectory(system, env, home, fs);
            first.Created? ==> CreateDirectory(system, env, home, first.fs) == AlreadyExists(first.target)
  {
  }
}
