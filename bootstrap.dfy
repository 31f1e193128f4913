/**
 * The `main` that `#[main("Name")]` generates: the version short-circuit and
 * the choice of process role from the file stem of argv[0], matched exactly
 * against three names built from the engine's lower-cased name.
 *
 * Effects become values: what is printed to stdout or stderr and the code
 * passed to `process::exit` form an `Exit`; a panic (`unwrap` on a missing
 * argv[0] slice or on a flag-parsing error) is `Panic`; the three roles are
 * the calls `main` hands control to.
 */
module Bootstrap {
  import opened Base

  // ---------------------------------------------------------------------------
  // The engine name

  /** Characters that may appear in the macro argument, which must form the identifier `{name}Engine`. */
  predicate IdentChar(c: char)
  {
    ('a' <= c <= 'z') || ('A' <= c <= 'Z') || ('0' <= c <= '9') || c == '_' || c as int >= 0x80
  }

  /** The macro argument: `format_ident!("{}Engine", name)` only accepts an identifier prefix. */
  predicate IsEngineIdent(name: string)
  {
    (forall i :: 0 <= i < |name| ==> IdentChar(name[i])) &&
    (|name| > 0 ==> !('0' <= name[0] <= '9'))
  }

  function LowerChar(c: char): char
  {
    if 'A' <= c <= 'Z' then (c as int + 32) as char else c
  }

  /** `str::to_lowercase`, for the ASCII letters. */
  function Lower(s: string): string
  {
    if s == [] then [] else [LowerChar(s[0])] + Lower(s[1..])
  }

  /** Line 11 and lines 53-55: `Engine::name()` is the lower-cased macro argument. */
  function EngineName(macroArg: string): string
  {
    Lower(macroArg)
  }

  lemma {:induction false} LowerAt(s: string, i: nat)
    requires i < |s|
    ensures |Lower(s)| == |s|
    ensures Lower(s)[i] == LowerChar(s[i])
  {
    if i > 0 {
      LowerAt(s[1..], i - 1);
    } else if |s| > 1 {
      LowerAt(s[1..], 0);
    }
  }

  lemma {:induction false} LowerLength(s: string)
    ensures |Lower(s)| == |s|
  {
    if s != [] {
      LowerLength(s[1..]);
    }
  }

  /** The engine name has no upper-case ASCII letter and lower-casing it again changes nothing. */
  lemma EngineNameIsLowerCase(macroArg: string)
    ensures forall i :: 0 <= i < |EngineName(macroArg)| ==> !('A' <= EngineName(macroArg)[i] <= 'Z')
    ensures Lower(EngineName(macroArg)) == EngineName(macroArg)
    ensures |EngineName(macroArg)| == |macroArg|
  {
    var l := EngineName(macroArg);
    LowerLength(macroArg);
    LowerLength(l);
    forall i | 0 <= i < |l|
      ensures !('A' <= l[i] <= 'Z') && Lower(l)[i] == l[i]
    {
      LowerAt(macroArg, i);
      LowerAt(l, i);
    }
  }

  /** Lower-casing an identifier keeps it free of the path characters '/' and '.'. */
  lemma EngineNameHasNoPathChars(macroArg: string)
    requires IsEngineIdent(macroArg)
    ensures NoPathChars(EngineName(macroArg))
  {
    var l := EngineName(macroArg);
    LowerLength(macroArg);
    forall i | 0 <= i < |l|
      ensures l[i] != '/' && l[i] != '.'
    {
      LowerAt(macroArg, i);
    }
  }

  // ---------------------------------------------------------------------------
  // The file stem of argv[0] (`Path::file_stem().unwrap_or_default()`)

  predicate NoPathChars(s: string)
  {
    '/' !in s && '.' !in s
  }

  /** Drops trailing separators and trailing `.` components, as `Path::components` does. */
  function TrimTail(p: string): string
    decreases |p|
  {
    if |p| > 0 && p[|p| - 1] == '/' then TrimTail(p[..|p| - 1])
    else if |p| == 1 && p[0] == '.' then ""
    else if |p| >= 2 && p[|p| - 1] == '.' && p[|p| - 2] == '/' then TrimTail(p[..|p| - 2])
    else p
  }

  /** The text after the last '/'. */
  function AfterLastSlash(s: string): (r: string)
    ensures |r| <= |s| && r == s[|s| - |r|..]
    ensures '/' !in r
    ensures |r| < |s| ==> s[|s| - |r| - 1] == '/'
  {
    if s == [] then []
    else if s[|s| - 1] == '/' then []
    else AfterLastSlash(s[..|s| - 1]) + [s[|s| - 1]]
  }

  /** `Path::file_name`: the last normal component; none for an empty path, a root or a trailing `..`. */
  function FileName(p: string): Option<string>
  {
    var last := AfterLastSlash(TrimTail(p));
    if last == "" || last == ".." then None else Some(last)
  }

  /** The position of the last '.', if any. */
  function LastDot(s: string): (r: Option<nat>)
    ensures r.Some? ==> r.value < |s| && s[r.value] == '.' && '.' !in s[r.value + 1..]
    ensures r.None? ==> '.' !in s
  {
    if s == [] then None
    else if s[|s| - 1] == '.' then Some(|s| - 1)
    else LastDot(s[..|s| - 1])
  }

  /** The stem of a file name: up to its last '.', unless that '.' starts the name. */
  function StemOf(file: string): string
  {
    if file == ".." then file
    else match LastDot(file)
      case None => file
      case Some(k) => if k == 0 then file else file[..k]
  }

  /** Lines 108-109: the stem of argv[0], or the empty string when there is none. */
  function FileStem(p: string): string
  {
    match FileName(p)
    case None => ""
    case Some(f) => StemOf(f)
  }

  lemma {:induction false} AfterLastSlashOfName(dir: string, n: string)
    requires '/' !in n
    ensures AfterLastSlash(dir + "/" + n) == n
    decreases |n|
  {
    var p := dir + "/" + n;
    if n == [] {
      assert p[|p| - 1] == '/';
    } else {
      var m := n[..|n| - 1];
      assert p[..|p| - 1] == dir + "/" + m;
      assert p[|p| - 1] == n[|n| - 1];
      AfterLastSlashOfName(dir, m);
      assert m + [n[|n| - 1]] == n;
    }
  }

  lemma {:induction false} AfterLastSlashOfBare(n: string)
    requires '/' !in n
    ensures AfterLastSlash(n) == n
    decreases |n|
  {
    if n != [] {
      var m, c := n[..|n| - 1], n[|n| - 1];
      assert m + [c] == n;
      assert c in n;
      assert '/' !in m by {
        forall x | x in m ensures x in n { }
      }
      AfterLastSlashOfBare(m);
      assert AfterLastSlash(n) == AfterLastSlash(m) + [c];
    }
  }

  /** A path whose last character is neither '/' nor a lone '.' component is its own trimmed form. */
  lemma TrimTailKeeps(p: string)
    requires |p| >= 1 && p[|p| - 1] != '/' && p != "."
    requires |p| >= 2 ==> !(p[|p| - 1] == '.' && p[|p| - 2] == '/')
    ensures TrimTail(p) == p
  {
  }

  /** A name placed under a directory, or given bare, is the path's file name. */
  lemma FileNameOfPlacedName(dir: string, file: string)
    requires file != [] && '/' !in file && file != "." && file != ".."
    ensures FileName(dir + "/" + file) == Some(file)
    ensures FileName(file) == Some(file)
  {
    var p := dir + "/" + file;
    assert p[|p| - 1] == file[|file| - 1];
    assert file[|file| - 1] in file;
    if |file| >= 2 {
      assert p[|p| - 2] == file[|file| - 2];
      assert file[|file| - 2] in file;
    } else {
      assert p[|p| - 2] == '/';
    }
    TrimTailKeeps(p);
    AfterLastSlashOfName(dir, file);
    if |file| >= 2 {
      assert file[|file| - 2] in file;
    }
    TrimTailKeeps(file);
    AfterLastSlashOfBare(file);
  }

  lemma StemOfPlain(n: string)
    requires '.' !in n
    ensures StemOf(n) == n
  {
    assert n != ".." by {
      assert ".."[0] == '.';
    }
    assert LastDot(n).None?;
  }

  /** A file name with no '.' and no '/' is its own stem, whatever directory it sits in. */
  lemma StemOfInstalledBinary(dir: string, n: string)
    requires n != [] && NoPathChars(n)
    ensures FileStem(dir + "/" + n) == n
    ensures FileStem(n) == n
  {
    assert n[0] in n;
    assert n != "." && n != "..";
    FileNameOfPlacedName(dir, n);
    StemOfPlain(n);
  }

  /** The last '.' of `name.ext` is the one just after `name`. */
  lemma LastDotOfSuffixedName(n: string, ext: string)
    requires NoPathChars(n) && NoPathChars(ext)
    ensures LastDot(n + "." + ext) == Some(|n|)
  {
    var file := n + "." + ext;
    assert file[|n|] == '.';
    assert file[|n| + 1..] == ext;
  }

  lemma {:induction false} SuffixedNameIsPlain(n: string, ext: string)
    requires n != [] && NoPathChars(n) && NoPathChars(ext)
    ensures var file := n + "." + ext;
            file != [] && '/' !in file && file != "." && file != ".."
  {
    var file := n + "." + ext;
    assert file[0] == n[0] && n[0] in n;
    forall i | 0 <= i < |file| ensures file[i] != '/' {
      if i < |n| { assert file[i] == n[i] && n[i] in n; }
      else if i > |n| { assert file[i] == ext[i - |n| - 1] && ext[i - |n| - 1] in ext; }
    }
  }

  /** An extension after the stem is dropped: `dir/name.ext` has stem `name`. */
  lemma StemDropsExtension(dir: string, n: string, ext: string)
    requires n != [] && NoPathChars(n) && NoPathChars(ext)
    ensures FileStem(dir + "/" + (n + "." + ext)) == n
  {
    var file := n + "." + ext;
    SuffixedNameIsPlain(n, ext);
    FileNameOfPlacedName(dir, file);
    LastDotOfSuffixedName(n, ext);
    assert file[..|n|] == n;
  }

  // ---------------------------------------------------------------------------
  // The three role names and the dispatch of lines 121-148

  function CliName(lower: string): string { "containerd-shim-" + lower + "-v1" }
  function ClientName(lower: string): string { "containerd-shim-" + lower + "d-v1" }
  function DaemonName(lower: string): string { "containerd-" + lower + "d" }

  /** The runtime id the per-container CLI runs under. */
  function RuntimeId(lower: string): string { "io.containerd." + lower + ".v1" }

  /** The manager daemon's control socket: fixed, whatever the engine. */
  const DAEMON_SOCKET: string := "unix:///run/io.containerd.wasmwasi.v1/manager.sock"

  const USAGE_EXIT: i32 := 137

  /** The panic message of `Result::unwrap` on an error; the error's `Debug` form that follows it is not modelled. */
  const UNWRAP_ERR: string := "called `Result::unwrap()` on an `Err` value"

  function UsageMessage(cli: string, client: string, daemon: string): string
  {
    "error: unrecognized binary name, expected one of " + cli + ", " + client + ", or " + daemon + "."
  }

  /** The flags `shim::parse` yields; only `version` is read here. */
  datatype Flags = Flags(version: bool)

  /** Where control goes when `main` runs. */
  datatype Launch =
    | Panic(reason: string)
    | Exit(code: i32, stdout: seq<string>, stderr: seq<string>)
    | RunShimCli(runtimeId: string)       // `shim::run::<ShimCli<Instance>>(&id, None)`
    | RunManagerClient(shimName: string)  // `shim::run::<manager::Shim>(&shim_client, None)`
    | ServeManager(socket: string)        // the ttrpc manager service, then block forever

  /** The four lines and the blank line printed for `--version`; the runtime line keeps the argument's case. */
  function VersionLines(argv0: string, macroArg: string, pkgVersion: string, gitHash: string): seq<string>
  {
    [argv0 + ":", "  Runtime: " + macroArg, "  Version: " + pkgVersion, "  Revision: " + gitHash, ""]
  }

  /** Lines 121-148: exact comparison against the three names, in order. */
  function Dispatch(lower: string, argv0: string): Launch
  {
    var cli := CliName(lower);
    var client := ClientName(lower);
    var daemon := DaemonName(lower);
    if argv0 == cli then RunShimCli(RuntimeId(lower))
    else if argv0 == client then RunManagerClient(client)
    else if argv0 == daemon then ServeManager(DAEMON_SOCKET)
    else Exit(USAGE_EXIT, [], [UsageMessage(cli, client, daemon)])
  }

  /**
   * Lines 105-148. `parse` is the flag parser, applied to the arguments after
   * argv[0]; `pkgVersion` and `gitHash` are the build-time constants.
   */
  function Main(macroArg: string, args: seq<string>, parse: seq<string> -> Result<Flags, Error>,
                pkgVersion: string, gitHash: string): Launch
  {
    if |args| == 0 then Panic("range start index 1 out of range for slice of length 0")
    else match parse(args[1..])
      case Err(_) => Panic(UNWRAP_ERR)
      case Ok(flags) =>
        var argv0 := FileStem(args[0]);
        if flags.version then Exit(0, VersionLines(argv0, macroArg, pkgVersion, gitHash), [])
        else Dispatch(EngineName(macroArg), argv0)
  }

  /** The three names differ in length, so at most one branch of the chain can match. */
  lemma RoleNamesDistinct(lower: string)
    ensures |CliName(lower)| == |lower| + 19
    ensures |ClientName(lower)| == |lower| + 20
    ensures |DaemonName(lower)| == |lower| + 12
    ensures CliName(lower) != ClientName(lower)
    ensures CliName(lower) != DaemonName(lower)
    ensures ClientName(lower) != DaemonName(lower)
  {
  }

  /** Each role is chosen exactly when the stem equals its name; anything else is a usage error exiting 137. */
  lemma DispatchSelectsRole(lower: string, argv0: string)
    ensures Dispatch(lower, argv0) == RunShimCli(RuntimeId(lower)) <==> argv0 == CliName(lower)
    ensures Dispatch(lower, argv0) == RunManagerClient(ClientName(lower)) <==> argv0 == ClientName(lower)
    ensures Dispatch(lower, argv0) == ServeManager(DAEMON_SOCKET) <==> argv0 == DaemonName(lower)
    ensures Dispatch(lower, argv0).Exit? <==>
              argv0 != CliName(lower) && argv0 != ClientName(lower) && argv0 != DaemonName(lower)
    ensures Dispatch(lower, argv0).Exit? ==> Dispatch(lower, argv0).code == USAGE_EXIT
  {
    RoleNamesDistinct(lower);
  }

  predicate OccursAt(text: string, word: string, i: int)
  {
    0 <= i <= |text| - |word| && text[i..i + |word|] == word
  }

  ghost predicate Mentions(text: string, word: string)
  {
    exists i :: OccursAt(text, word, i)
  }

  /** The usage text contains each of the three names it is given. */
  lemma UsageMessageMentions(cli: string, client: string, daemon: string)
    ensures Mentions(UsageMessage(cli, client, daemon), cli)
    ensures Mentions(UsageMessage(cli, client, daemon), client)
    ensures Mentions(UsageMessage(cli, client, daemon), daemon)
  {
    var prefix := "error: unrecognized binary name, expected one of ";
    var msg := UsageMessage(cli, client, daemon);
    var i0 := |prefix|;
    var i1 := i0 + |cli| + 2;
    var i2 := i1 + |client| + 5;
    assert msg[i0..i0 + |cli|] == cli;
    assert OccursAt(msg, cli, i0);
    assert msg[i1..i1 + |client|] == client;
    assert OccursAt(msg, client, i1);
    assert msg[i2..i2 + |daemon|] == daemon;
    assert OccursAt(msg, daemon, i2);
  }

  /** The usage error names all three expected binaries and goes to stderr. */
  lemma UsageNamesAllRoles(lower: string, argv0: string)
    requires argv0 != CliName(lower) && argv0 != ClientName(lower) && argv0 != DaemonName(lower)
    ensures Dispatch(lower, argv0).Exit? && Dispatch(lower, argv0).stdout == []
    ensures |Dispatch(lower, argv0).stderr| == 1
    ensures Mentions(Dispatch(lower, argv0).stderr[0], CliName(lower))
    ensures Mentions(Dispatch(lower, argv0).stderr[0], ClientName(lower))
    ensures Mentions(Dispatch(lower, argv0).stderr[0], DaemonName(lower))
  {
    UsageMessageMentions(CliName(lower), ClientName(lower), DaemonName(lower));
  }

  /** `main` hands over to a role or exits; it never panics once the flags are parsed. */
  lemma DispatchNeverPanics(lower: string, argv0: string)
    ensures !Dispatch(lower, argv0).Panic?
  {
  }

  /** Without argv[0], or when the flags do not parse, `main` panics before printing anything. */
  lemma StartupPanics(macroArg: string, args: seq<string>, parse: seq<string> -> Result<Flags, Error>,
                      pkgVersion: string, gitHash: string)
    ensures |args| == 0 ==> Main(macroArg, args, parse, pkgVersion, gitHash).Panic?
    ensures |args| > 0 && parse(args[1..]).Err? ==>
              Main(macroArg, args, parse, pkgVersion, gitHash) == Panic(UNWRAP_ERR)
    ensures Main(macroArg, args, parse, pkgVersion, gitHash).Panic? <==>
              |args| == 0 || parse(args[1..]).Err?
  {
    if |args| > 0 && parse(args[1..]).Ok? && !parse(args[1..]).value.version {
      DispatchNeverPanics(EngineName(macroArg), FileStem(args[0]));
    }
  }

  /** `--version` prints the version block and exits 0 before any role is considered. */
  lemma VersionShortCircuits(macroArg: string, args: seq<string>, parse: seq<string> -> Result<Flags, Error>,
                             pkgVersion: string, gitHash: string)
    requires |args| > 0 && parse(args[1..]) == Ok(Flags(true))
    ensures Main(macroArg, args, parse, pkgVersion, gitHash)
            == Exit(0, VersionLines(FileStem(args[0]), macroArg, pkgVersion, gitHash), [])
  {
  }

  /**
   * A binary installed under any directory as one of the three names runs
   * that role: `containerd-shim-<lower>-v1` the CLI under `io.containerd.<lower>.v1`,
   * `containerd-shim-<lower>d-v1` the manager client, `containerd-<lower>d` the daemon.
   */
  lemma InstalledBinarySelectsRole(macroArg: string, dir: string, rest: seq<string>,
                                   parse: seq<string> -> Result<Flags, Error>, pkgVersion: string, gitHash: string)
    requires IsEngineIdent(macroArg)
    requires parse(rest) == Ok(Flags(false))
    ensures var lower := EngineName(macroArg);
            Main(macroArg, [dir + "/" + CliName(lower)] + rest, parse, pkgVersion, gitHash) == RunShimCli(RuntimeId(lower)) &&
            Main(macroArg, [dir + "/" + ClientName(lower)] + rest, parse, pkgVersion, gitHash) == RunManagerClient(ClientName(lower)) &&
            Main(macroArg, [dir + "/" + DaemonName(lower)] + rest, parse, pkgVersion, gitHash) == ServeManager(DAEMON_SOCKET)
  {
    var lower := EngineName(macroArg);
    EngineNameHasNoPathChars(macroArg);
    NameHasNoPathChars(lower);
    StemOfInstalledBinary(dir, CliName(lower));
    StemOfInstalledBinary(dir, ClientName(lower));
    StemOfInstalledBinary(dir, DaemonName(lower));
    assert ([dir + "/" + CliName(lower)] + rest)[1..] == rest;
    assert ([dir + "/" + ClientName(lower)] + rest)[1..] == rest;
    assert ([dir + "/" + DaemonName(lower)] + rest)[1..] == rest;
    DispatchSelectsRole(lower, CliName(lower));
    DispatchSelectsRole(lower, ClientName(lower));
    DispatchSelectsRole(lower, DaemonName(lower));
  }

  /** The role names add only '-', letters and digits to the engine name. */
  lemma NameHasNoPathChars(lower: string)
    requires NoPathChars(lower)
    ensures NoPathChars(CliName(lower)) && NoPathChars(ClientName(lower)) && NoPathChars(DaemonName(lower))
  {
    var a, b, c := CliName(lower), ClientName(lower), DaemonName(lower);
    forall i | 0 <= i < |a| ensures a[i] != '/' && a[i] != '.' {
      if 16 <= i < 16 + |lower| { assert a[i] == lower[i - 16]; }
    }
    forall i | 0 <= i < |b| ensures b[i] != '/' && b[i] != '.' {
      if 16 <= i < 16 + |lower| { assert b[i] == lower[i - 16]; }
    }
    forall i | 0 <= i < |c| ensures c[i] != '/' && c[i] != '.' {
      if 11 <= i < 11 + |lower| { assert c[i] == lower[i - 11]; }
    }
  }
}
