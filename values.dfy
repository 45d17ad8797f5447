/**
 * Values shared by the status engine of the CS50 IDE "info" plugin: the
 * JavaScript numbers it keeps (with their NaN case), the snapshot printed by
 * the `.info50` helper script, the environment of one IDE session, and the
 * outside effects the engine causes (runner calls, console lines, API calls).
 */
module Values {

  datatype Option<+T> = None | Some(value: T)

  /** Revision of the helper script this plugin ships. */
  const INFO_VER: real := 1.0
  /** Refresh rate, in seconds, used when the stored one is unusable. */
  const DEFAULT_REFRESH: real := 30.0
  /** Directory, file name and permission bits of the helper script. */
  const BIN: string := "~/bin/"
  const SCRIPT: string := ".info50"
  const PERMISSIONS: string := "755"
  /** Caption shown while no version is known. */
  const UNAVAILABLE: string := "n/a"

  /** A JavaScript number as the engine sees it: NaN, or a finite value. */
  datatype Number = NaN | Num(v: real)

  /** `isNaN(n) || n < 1`: the refresh-rate validation. */
  predicate InvalidRate(n: Number) {
    n.NaN? || n.v < 1.0
  }

  /** `a !== b` on numbers: NaN differs from everything, itself included. */
  predicate StrictlyDiffers(a: Number, b: Number) {
    a.NaN? || b.NaN? || a.v != b.v
  }

  /** `n + k`; NaN absorbs. */
  function Plus(n: Number, k: real): Number {
    if n.NaN? then NaN else Num(n.v + k)
  }

  /** `n * k`; NaN absorbs. */
  function Times(n: Number, k: real): Number {
    if n.NaN? then NaN else Num(n.v * k)
  }

  /**
   * The `host` key of the parsed output may be missing, a string, or some
   * other JSON value; only its being a string matters to the engine.
   */
  datatype HostValue = HostString(s: string) | HostOther

  /** The parsed JSON object printed by the helper script. */
  datatype Stats = Stats(version: string, host: Option<HostValue>, user: string, passwd: string)

  /** Classes of runner failure the result handler distinguishes. */
  datatype ErrorKind = Disconnect | NotFound | Access | Other

  /** Maps the runner's `err.code` (possibly absent) to its class. */
  function Classify(code: Option<string>): (k: ErrorKind)
    ensures k == Disconnect <==> code == Some("EDISCONNECT")
    ensures k == NotFound <==> code == Some("ENOENT")
    ensures k == Access <==> code == Some("EACCES")
  {
    if code == Some("EDISCONNECT") then Disconnect
    else if code == Some("ENOENT") then NotFound
    else if code == Some("EACCES") then Access
    else Other
  }

  /** What `JSON.parse(stdout)` gives: a record, or a thrown SyntaxError. */
  datatype ParseResult = Parsed(stats: Stats) | Malformed

  /** The completion of one runner call: an error object with a code, or output. */
  datatype RunnerResult = Failed(code: Option<string>) | Output(parsed: ParseResult)

  /** The positional arguments passed to `.info50`. */
  datatype RunnerArgs = RunnerArgs(domain: Option<string>, hash: string, buffer: Number)

  /** The steps of installing the helper script, each of which can fail. */
  datatype InstallStep = WriteStep | ChmodStep

  /** How the asynchronous install of the helper script ended. */
  datatype InstallOutcome = InstallFailed(step: InstallStep) | Installed

  /** The answer of the remote project API. */
  datatype ProjectResponse =
    | ApiError
    | Project(ownerId: string, visibility: string, appAccess: string)

  /** Outside effects, in the order the engine causes them. */
  datatype Effect =
    | ExecInfo50(args: RunnerArgs)        // proc.execFile(".info50", {args, cwd: BIN})
    | RequestSharedStatus                 // api.project.get
    | ConsoleLog(message: string)         // console.log
    | ConsoleError(step: InstallStep)     // console.error of an install failure

  /** The parts of the IDE session the engine reads but never changes. */
  datatype Env = Env(hostname: string, hosted: bool, myUserId: string, myClientId: string)

  /** The token that tells concurrent clients apart: `myUserId + "-" + myClientId`. */
  function Hash(env: Env): (h: string)
    ensures |h| == |env.myUserId| + 1 + |env.myClientId|
    ensures h[..|env.myUserId|] == env.myUserId
    ensures h[|env.myUserId|] == '-'
    ensures h[|env.myUserId| + 1..] == env.myClientId
  {
    env.myUserId + "-" + env.myClientId
  }

  /**
   * The lodash ERROR_TEMP message, filled in: it opens by naming the action
   * and the file, then advises chmod-ing the directory and the file with the
   * given bits, and closes by asking for a reload.
   */
  function ErrorMessage(action: string, code: string, dir: string, file: string): (m: string)
    ensures var head := "Could not " + action + " " + file;
            |head| <= |m| && m[..|head|] == head
    ensures var head := "Could not " + action + " " + file;
            var fix := ". Try chmod " + code + " " + dir + ", chmod " + code + " " + file;
            |head| + |fix| <= |m| && m[|head|..|head| + |fix|] == fix
    ensures var tail := ", then reload the page!";
            |tail| <= |m| && m[|m| - |tail|..] == tail
    ensures |m| == |"Could not " + action + " " + file|
                   + |". Try chmod " + code + " " + dir + ", chmod " + code + " " + file|
                   + |", then reload the page!"|
  {
    var head := "Could not " + action + " " + file;
    var middle := ". Try chmod " + code + " " + dir + ", chmod " + code + " " + file;
    var tail := ", then reload the page!";
    assert (head + middle + tail)[..|head|] == head;
    assert (head + middle + tail)[|head|..|head| + |middle|] == middle;
    assert (head + middle + tail)[|head + middle|..] == tail;
    head + middle + tail
  }

  /**
   * The diagnostic `rewrite` prints: it opens by naming the script's path,
   * advises `chmod 755` on the directory and on the script, and closes by
   * asking for a reload.
   */
  function AccessDiagnostic(): (d: string)
    ensures var head := "Could not access " + BIN + SCRIPT;
            |head| <= |d| && d[..|head|] == head
    ensures var head := "Could not access " + BIN + SCRIPT;
            var fix := ". Try chmod " + PERMISSIONS + " " + BIN + ", chmod " + PERMISSIONS + " " + BIN + SCRIPT;
            |head| + |fix| <= |d| && d[|head|..|head| + |fix|] == fix
    ensures |d| == |"Could not access " + BIN + SCRIPT|
                   + |". Try chmod " + PERMISSIONS + " " + BIN + ", chmod " + PERMISSIONS + " " + BIN + SCRIPT|
                   + |", then reload the page!"|
    ensures |", then reload the page!"| <= |d| && d[|d| - 23..] == ", then reload the page!"
  {
    var file := BIN + SCRIPT;
    assert "Could not " + "access" + " " + file == "Could not access " + BIN + SCRIPT;
    assert ". Try chmod " + PERMISSIONS + " " + BIN + ", chmod " + PERMISSIONS + " " + file
        == ". Try chmod " + PERMISSIONS + " " + BIN + ", chmod " + PERMISSIONS + " " + BIN + SCRIPT;
    ErrorMessage("access", PERMISSIONS, BIN, file)
  }
}
