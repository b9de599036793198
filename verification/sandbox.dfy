/** The command sandbox: `SandboxExecutor` of manus-backend/app/services/sandbox.py. The process
  * itself is a parameter `spawn` from (command, working directory, timeout, disk) to its outcome and
  * the disk it leaves behind, and the measured duration is an opaque text. */
module Sandbox {
  import opened Text
  import opened Paths
  import opened Workspace

  const BlockedCommands: seq<string> :=
    ["rm -rf /", "dd if=", "mkfs", ":(){ :|:& };:", "> /dev/sda", "chmod -R 777 /"]

  const DangerousPatterns: seq<string> :=
    ["rm -rf", "sudo ", "su -", "/etc/", "/sys/", "/proc/", "/dev/"]

  /** The text the patterns are looked for in: lower-cased, then stripped. */
  function Normalized(command: string): string
  {
    Strip(Lower(command))
  }

  /** No pattern of `pats` occurs in `s`. */
  predicate NoneOccurs(s: string, pats: seq<string>)
  {
    forall j :: 0 <= j < |pats| ==> !Contains(s, pats[j])
  }

  /** `_is_command_safe`: no blocked command and no dangerous pattern occurs in the normalised text. */
  predicate Safe(command: string)
  {
    NoneOccurs(Normalized(command), BlockedCommands) && NoneOccurs(Normalized(command), DangerousPatterns)
  }

  /** One `for` loop of `_is_command_safe`: the patterns in turn, stopping at the first that occurs. */
  method ScanPatterns(s: string, pats: seq<string>) returns (clear: bool)
    ensures clear == NoneOccurs(s, pats)
  {
    for i := 0 to |pats|
      invariant forall j :: 0 <= j < i ==> !Contains(s, pats[j])
    {
      if Contains(s, pats[i]) {
        return false;
      }
    }
    return true;
  }

  /** `_is_command_safe` as written: the two lists in turn, returning at the first hit. */
  method IsCommandSafe(command: string) returns (safe: bool)
    ensures safe == Safe(command)
  {
    var lowered := Normalized(command);
    safe := ScanPatterns(lowered, BlockedCommands);
    if safe {
      safe := ScanPatterns(lowered, DangerousPatterns);
    }
  }

  /** A lower-case pattern without whitespace at its ends survives normalisation of the command. */
  lemma NormalizedContains(command: string, pat: string)
    requires |pat| > 0 && Lower(pat) == pat && !IsSpace(pat[0]) && !IsSpace(pat[|pat| - 1])
    requires Contains(command, pat)
    ensures Contains(Normalized(command), pat)
  {
    ContainsLower(command, pat);
    ContainsStrip(Lower(command), pat);
  }

  lemma OccurrenceBreaks(s: string, pats: seq<string>, pat: string)
    requires pat in pats && Contains(s, pat)
    ensures !NoneOccurs(s, pats)
  {
    var j :| 0 <= j < |pats| && pats[j] == pat;
  }

  /** Any command in which a lower-case pattern of either list occurs is refused, whatever its case
    * and surrounding whitespace, provided the pattern neither starts nor ends with whitespace. */
  lemma PatternBlocks(command: string, pat: string)
    requires pat in BlockedCommands || pat in DangerousPatterns
    requires |pat| > 0 && Lower(pat) == pat && !IsSpace(pat[0]) && !IsSpace(pat[|pat| - 1])
    requires Contains(command, pat)
    ensures !Safe(command)
  {
    NormalizedContains(command, pat);
    if pat in BlockedCommands {
      OccurrenceBreaks(Normalized(command), BlockedCommands, pat);
    } else {
      OccurrenceBreaks(Normalized(command), DangerousPatterns, pat);
    }
  }

  /** "rm -rf /" is refused in any casing and with any surrounding text. */
  lemma RmRfRootBlocked(command: string)
    requires Contains(command, "rm -rf /")
    ensures !Safe(command)
  {
    assert Lower("rm -rf /") == "rm -rf /";
    assert BlockedCommands[0] == "rm -rf /";
    PatternBlocks(command, "rm -rf /");
  }

  lemma {:induction false} ContainsChar(s: string, pat: string, c: char)
    requires Contains(s, pat) && c in pat
    ensures c in s
  {
    ContainsIffOccurs(s, pat);
    var i: nat :| OccursAt(s, pat, i);
    var k :| 0 <= k < |pat| && pat[k] == c;
    assert s[i + k] == s[i..i + |pat|][k];
  }

  lemma LowerCharNotUpper(x: char, c: char)
    requires 'A' <= c <= 'Z'
    ensures LowerChar(x) != c
  {
  }

  lemma LowerNoUpper(s: string, c: char)
    requires 'A' <= c <= 'Z'
    ensures c !in Lower(s)
  {
    forall k | 0 <= k < |s| ensures Lower(s)[k] != c {
      LowerCharNotUpper(s[k], c);
    }
  }

  lemma StripKeepsAbsent(s: string, c: char)
    requires c !in s
    ensures c !in Strip(s)
  {
    var m := StripLeft(s);
    assert c !in m by {
      forall k | 0 <= k < |m| ensures m[k] != c {
        assert m[k] == s[|s| - |m| + k];
      }
    }
    var n := StripRight(m);
    assert c !in n by {
      forall k | 0 <= k < |n| ensures n[k] != c {
        assert n[k] == m[k];
      }
    }
  }

  /** No upper-case ASCII letter survives normalisation. */
  lemma NoUpperInNormalized(command: string, c: char)
    requires 'A' <= c <= 'Z'
    ensures c !in Normalized(command)
  {
    LowerNoUpper(command, c);
    StripKeepsAbsent(Lower(command), c);
  }

  /** The upper-case 'R' of "chmod -R 777 /" can never occur in the lower-cased command, so that entry
    * matches nothing; the command it names passes the whole check. */
  lemma ChmodEntryIsDead(command: string)
    ensures !Contains(Normalized(command), "chmod -R 777 /")
  {
    var n := Normalized(command);
    NoUpperInNormalized(command, 'R');
    if Contains(n, "chmod -R 777 /") {
      ContainsChar(n, "chmod -R 777 /", 'R');
    }
  }

  /** For each pattern, a character that does not occur in "chmod -r 777 /". */
  function Absent(pat: string): char
  {
    if pat == "dd if=" then '=' else if pat == ":(){ :|:& };:" then '('
    else if pat == "> /dev/sda" then '>' else if pat == "chmod -R 777 /" then 'R'
    else if pat == "sudo " || pat == "su -" then 'u' else if pat == "/sys/" then 'y'
    else if pat == "/proc/" then 'p' else if pat == "/etc/" || pat == "/dev/" then 'e'
    else 'f'
  }

  lemma ChmodLowered(s: string, t: string)
    requires s == "chmod -R 777 /" && t == "chmod -r 777 /"
    ensures Lower(s) == t
  {
    forall i | 0 <= i < |s| ensures Lower(s)[i] == t[i] {
      assert Lower(s)[i] == LowerChar(s[i]);
    }
  }

  lemma ChmodStripped(t: string)
    requires t == "chmod -r 777 /"
    ensures Strip(t) == t
  {
    assert StripLeft(t) == t;
  }

  lemma ChmodNormalized(s: string, t: string)
    requires s == "chmod -R 777 /" && t == "chmod -r 777 /"
    ensures Normalized(s) == t
  {
    ChmodLowered(s, t);
    ChmodStripped(t);
  }

  /** Each pattern holds a character that `n` lacks. */
  predicate EachHasAbsent(n: string, pats: seq<string>)
  {
    forall j :: 0 <= j < |pats| ==> Absent(pats[j]) in pats[j] && Absent(pats[j]) !in n
  }

  /** ... so none of them occurs in `n`. */
  lemma AbsentRulesOut(n: string, pats: seq<string>)
    requires EachHasAbsent(n, pats)
    ensures NoneOccurs(n, pats)
  {
    forall j | 0 <= j < |pats| ensures !Contains(n, pats[j]) {
      if Contains(n, pats[j]) {
        ContainsChar(n, pats[j], Absent(pats[j]));
      }
    }
  }

  lemma AbsentFromBlocked(n: string)
    requires n == "chmod -r 777 /"
    ensures EachHasAbsent(n, BlockedCommands)
  {
  }

  lemma AbsentFromDangerous(n: string)
    requires n == "chmod -r 777 /"
    ensures EachHasAbsent(n, DangerousPatterns)
  {
  }

  /** The very command the last blocked entry names is accepted. */
  lemma ChmodCommandAccepted(s: string)
    requires s == "chmod -R 777 /"
    ensures Safe(s)
  {
    var n := "chmod -r 777 /";
    ChmodNormalized(s, n);
    AbsentFromBlocked(n);
    AbsentRulesOut(n, BlockedCommands);
    AbsentFromDangerous(n);
    AbsentRulesOut(n, DangerousPatterns);
  }

  // ---------------------------------------------------------------------------
  // Output truncation

  const TruncationMarker := "\n... (truncado)"

  /** A stream longer than `max` keeps its first `max` characters and gets the marker. */
  function Truncate(s: string, max: nat): string
  {
    if |s| > max then s[..max] + TruncationMarker else s
  }

  lemma TruncateSpec(s: string, max: nat)
    ensures |s| <= max ==> Truncate(s, max) == s
    ensures |s| > max ==> |Truncate(s, max)| == max + |TruncationMarker|
    ensures |Truncate(s, max)| <= max + |TruncationMarker|
    ensures var k := if |s| <= max then |s| else max;
            k <= |Truncate(s, max)| && Truncate(s, max)[..k] == s[..k]
  {
  }

  // ---------------------------------------------------------------------------
  // run_command

  /** How the spawned process ended: normally, by the timeout, or by an exception from the spawn. */
  datatype Outcome = Completed(code: int, stdout: string, stderr: string) | TimedOut | SpawnFailed(message: string)

  /** What a spawned shell command leaves behind: how it ended, and the disk after whatever the
    * command itself did to the files. */
  datatype Spawned = Spawned(outcome: Outcome, fs: Fs)

  /** The operating system running a shell command from (command, working directory, timeout, disk). */
  type Spawn = (string, Path, int, Fs) -> Spawned

  /** Whatever a command does to the files, the operating system keeps its disk a tree. */
  ghost predicate KeepsTree(spawn: Spawn)
  {
    forall command, dir, t, fs :: WellFormed(fs) ==> WellFormed(spawn(command, dir, t, fs).fs)
  }

  /** `duration`: the integer 0 of the early refusals, or a measured float shown as opaque text. */
  datatype Duration = Zero | Measured(text: string)

  datatype CommandResult = CommandResult(success: bool, stdout: string, stderr: string, returncode: int, duration: Duration)

  const BlockedMessage := "ERRO: Comando bloqueado por política de segurança"
  const OutsideMessage := "ERRO: Diretório fora do workspace"
  const NoneCommandMessage := "ERRO: 'NoneType' object has no attribute 'lower'"

  function Failed(stderr: string, duration: Duration): CommandResult
  {
    CommandResult(false, "", stderr, 1, duration)
  }

  /** `run_command`: refusal of unsafe commands, then of working directories outside the workspace
    * (both before any effect), then the creation of the working directory, the default timeout, the
    * process and its outcome. A missing command fails inside the safety check. */
  function Run(fs: Fs, root: Path, maxTimeout: int, maxOutput: nat, command: Option<string>, cwd: string,
               timeout: Option<int>, spawn: Spawn, elapsed: string): (CommandResult, Fs)
  {
    match command
    case None => (Failed(NoneCommandMessage, Measured(elapsed)), fs)
    case Some(cmd) =>
      if !Safe(cmd) then (Failed(BlockedMessage, Zero), fs)
      else match Resolve(root, cwd)
      case None => (Failed(OutsideMessage, Zero), fs)
      case Some(dir) =>
        match Mkdirs(fs, dir)
        case Err(e) => (Failed("ERRO: " + Message(Os(e)), Measured(elapsed)), fs)
        case Ok(fs1) =>
          var t := if timeout.Some? then timeout.value else maxTimeout;
          var process := spawn(cmd, dir, t, fs1);
          var result := match process.outcome
            case SpawnFailed(msg) => Failed("ERRO: " + msg, Measured(elapsed))
            case TimedOut => CommandResult(false, "", "ERRO: Comando excedeu timeout de " + IntToString(t) + "s", 124, Measured(elapsed))
            case Completed(code, out, err) =>
              CommandResult(code == 0, Truncate(out, maxOutput), Truncate(err, maxOutput), code, Measured(elapsed));
          (result, process.fs)
  }

  /** A refused command gets the policy message with code 1 and duration 0, before the working
    * directory is looked at and without running anything: the result is the same for every `cwd` and
    * every process, and the disk is untouched. */
  lemma BlockedFirst(fs: Fs, root: Path, maxTimeout: int, maxOutput: nat, cmd: string, cwd: string, cwd': string,
                     timeout: Option<int>, spawn: Spawn, spawn': Spawn,
                     elapsed: string)
    requires !Safe(cmd)
    ensures Run(fs, root, maxTimeout, maxOutput, Some(cmd), cwd, timeout, spawn, elapsed)
            == (CommandResult(false, "", BlockedMessage, 1, Zero), fs)
            == Run(fs, root, maxTimeout, maxOutput, Some(cmd), cwd', timeout, spawn', elapsed)
  {
  }

  /** A working directory the guard refuses gets its message with code 1 and nothing runs. */
  lemma OutsideRefused(fs: Fs, root: Path, maxTimeout: int, maxOutput: nat, cmd: string, cwd: string,
                       timeout: Option<int>, spawn: Spawn, spawn': Spawn,
                       elapsed: string)
    requires Safe(cmd) && Resolve(root, cwd).None?
    ensures Run(fs, root, maxTimeout, maxOutput, Some(cmd), cwd, timeout, spawn, elapsed)
            == (CommandResult(false, "", OutsideMessage, 1, Zero), fs)
            == Run(fs, root, maxTimeout, maxOutput, Some(cmd), cwd, timeout, spawn', elapsed)
  {
  }

  /** Without a timeout the configured maximum is used, exactly as if it had been passed. */
  lemma DefaultTimeout(fs: Fs, root: Path, maxTimeout: int, maxOutput: nat, command: Option<string>, cwd: string,
                       spawn: Spawn, elapsed: string)
    ensures Run(fs, root, maxTimeout, maxOutput, command, cwd, None, spawn, elapsed)
            == Run(fs, root, maxTimeout, maxOutput, command, cwd, Some(maxTimeout), spawn, elapsed)
  {
  }

  /** The process sees the command, the resolved working directory, the effective timeout and the
    * disk with that directory made, and the disk it leaves is the new disk. When the spawn raises, the
    * result has code 1 and the exception's text; when the process times out, code 124 and no output;
    * on completion, success means code 0 and each stream is truncated on its own. */
  lemma ProcessOutcome(fs: Fs, root: Path, maxTimeout: int, maxOutput: nat, cmd: string, cwd: string,
                       timeout: Option<int>, spawn: Spawn, elapsed: string)
    requires Safe(cmd) && Resolve(root, cwd).Some? && Mkdirs(fs, Resolve(root, cwd).value).Ok?
    ensures var dir := Resolve(root, cwd).value;
            var t := if timeout.Some? then timeout.value else maxTimeout;
            var process := spawn(cmd, dir, t, Mkdirs(fs, dir).value);
            var (r, fs1) := Run(fs, root, maxTimeout, maxOutput, Some(cmd), cwd, timeout, spawn, elapsed);
            && fs1 == process.fs
            && r.duration == Measured(elapsed)
            && (process.outcome.SpawnFailed? ==>
                  !r.success && r.stdout == "" && r.stderr == "ERRO: " + process.outcome.message && r.returncode == 1)
            && (process.outcome.TimedOut? ==>
                  && !r.success && r.stdout == "" && r.returncode == 124
                  && r.stderr == "ERRO: Comando excedeu timeout de " + IntToString(t) + "s")
            && (process.outcome.Completed? ==>
                  && r.success == (process.outcome.code == 0)
                  && r.returncode == process.outcome.code
                  && r.stdout == Truncate(process.outcome.stdout, maxOutput)
                  && r.stderr == Truncate(process.outcome.stderr, maxOutput))
  {
  }

  /** Success is reported only for a process that ran to completion with code 0. */
  lemma SuccessMeansZero(fs: Fs, root: Path, maxTimeout: int, maxOutput: nat, command: Option<string>, cwd: string,
                         timeout: Option<int>, spawn: Spawn, elapsed: string)
    ensures var r := Run(fs, root, maxTimeout, maxOutput, command, cwd, timeout, spawn, elapsed).0;
            r.success ==> r.returncode == 0 && r.duration.Measured? && command.Some? && Safe(command.value)
    ensures var r := Run(fs, root, maxTimeout, maxOutput, command, cwd, timeout, spawn, elapsed).0;
            !r.success ==> r.returncode != 0
  {
    if command.Some? && Safe(command.value) && Resolve(root, cwd).Some? {
      var dir := Resolve(root, cwd).value;
      if Mkdirs(fs, dir).Ok? {
        var t := if timeout.Some? then timeout.value else maxTimeout;
        var r := Run(fs, root, maxTimeout, maxOutput, command, cwd, timeout, spawn, elapsed).0;
        match spawn(command.value, dir, t, Mkdirs(fs, dir).value).outcome
        case SpawnFailed(_) => assert !r.success && r.returncode == 1;
        case TimedOut => assert !r.success && r.returncode == 124;
        case Completed(code, _, _) => assert r.success == (code == 0) && r.returncode == code;
      }
    }
  }

  /** Running a command keeps the disk well formed, given an operating system that keeps it a tree. */
  lemma RunKeepsWellFormed(fs: Fs, root: Path, maxTimeout: int, maxOutput: nat, command: Option<string>, cwd: string,
                           timeout: Option<int>, spawn: Spawn, elapsed: string)
    requires WellFormed(fs) && PlainPath(root) && |root| > 0 && KeepsTree(spawn)
    ensures WellFormed(Run(fs, root, maxTimeout, maxOutput, command, cwd, timeout, spawn, elapsed).1)
  {
    if Resolve(root, cwd).Some? {
      ResolvedShape(root, cwd);
      MkdirsSpec(fs, Resolve(root, cwd).value);
    }
  }

  /** `SandboxExecutor`: runs commands for one session inside `<workspace_dir>/<session_id>`. */
  class SandboxExecutor {
    const disk: Disk
    const root: Path
    const maxTimeout: int
    const maxOutput: nat

    ghost predicate Valid()
      reads this, disk
    {
      WellFormed(disk.fs) && PlainPath(root) && |root| > 0
    }

    /** Creating the executor creates its workspace directory. */
    constructor(disk: Disk, workspaceDir: Path, sessionId: string, maxTimeout: int, maxOutput: nat)
      requires WellFormed(disk.fs) && PlainPath(workspaceDir) && PlainSegment(sessionId)
      requires Mkdirs(disk.fs, workspaceDir + [sessionId]).Ok?
      modifies disk
      ensures Valid() && this.disk == disk && root == workspaceDir + [sessionId]
      ensures this.maxTimeout == maxTimeout && this.maxOutput == maxOutput
      ensures disk.fs == Mkdirs(old(disk.fs), root).value
    {
      this.disk := disk;
      this.root := workspaceDir + [sessionId];
      this.maxTimeout := maxTimeout;
      this.maxOutput := maxOutput;
      new;
      MkdirsSpec(disk.fs, root);
      disk.fs := Mkdirs(disk.fs, root).value;
    }

    method RunCommand(command: Option<string>, cwd: string, timeout: Option<int>,
                      spawn: Spawn, elapsed: string) returns (r: CommandResult)
      requires Valid() && KeepsTree(spawn)
      modifies disk
      ensures Valid()
      ensures (r, disk.fs) == Run(old(disk.fs), root, maxTimeout, maxOutput, command, cwd, timeout, spawn, elapsed)
    {
      RunKeepsWellFormed(disk.fs, root, maxTimeout, maxOutput, command, cwd, timeout, spawn, elapsed);
      if command.None? {
        return Failed(NoneCommandMessage, Measured(elapsed));
      }
      var cmd := command.value;
      var safe := IsCommandSafe(cmd);
      if !safe {
        return Failed(BlockedMessage, Zero);
      }
      var workDir := Resolve(root, cwd);
      if workDir.None? {
        return Failed(OutsideMessage, Zero);
      }
      var dir := workDir.value;
      var made := Mkdirs(disk.fs, dir);
      if made.Err? {
        return Failed("ERRO: " + Message(Os(made.error)), Measured(elapsed));
      }
      disk.fs := made.value;
      var t := maxTimeout;
      if timeout.Some? {
        t := timeout.value;
      }
      var process := spawn(cmd, dir, t, disk.fs);
      disk.fs := process.fs;
      match process.outcome {
        case SpawnFailed(msg) =>
          r := Failed("ERRO: " + msg, Measured(elapsed));
        case TimedOut =>
          r := CommandResult(false, "", "ERRO: Comando excedeu timeout de " + IntToString(t) + "s", 124, Measured(elapsed));
        case Completed(code, out, err) =>
          var stdout := out;
          var stderr := err;
          if |stdout| > maxOutput {
            stdout := stdout[..maxOutput] + TruncationMarker;
          }
          if |stderr| > maxOutput {
            stderr := stderr[..maxOutput] + TruncationMarker;
          }
          r := CommandResult(code == 0, stdout, stderr, code, Measured(elapsed));
      }
    }
  }
}
