/** The tool gateway of manus-backend/app/services/agent_orchestrator.py: `execute_tool` dispatches a
  * tool call from the model to the sandbox or the file store and formats the text the model reads
  * back; `_format_tree` draws a listing as an ASCII tree. */
module Gateway {
  import opened Text
  import opened Paths
  import opened Workspace
  import opened Sandbox

  /** The arguments of a tool call; a key that is absent reads as `None`. */
  type Args = map<string, string>

  function Get(args: Args, key: string): Option<string>
  {
    if key in args then Some(args[key]) else None
  }

  function GetOr(args: Args, key: string, default: string): string
  {
    if key in args then args[key] else default
  }

  /** An optional argument inside an f-string: `None` prints as "None". */
  function Show(o: Option<string>): string
  {
    match o
    case None => "None"
    case Some(s) => s
  }

  /** `f"{duration:.2f}"`: the integer 0 prints as "0.00"; a measured duration is given as text. */
  function ShowDuration(d: Duration): string
  {
    match d
    case Zero => "0.00"
    case Measured(text) => text
  }

  /** The settings the services read, and the environment a command runs in: the operating system
    * that runs it, and the measured duration. */
  datatype Config = Config(root: Path, maxFileSize: nat, maxTimeout: int, maxOutput: nat)
  datatype Machine = Machine(spawn: Spawn, elapsed: string)

  /** What `execute_tool` returns: `success` and the `output` text (the raw `result` is not kept). */
  datatype ToolResult = ToolResult(success: bool, output: string)

  /** The text the model gets back for `run_command`: header lines, then each non-empty stream. */
  function CommandOutput(command: Option<string>, r: CommandResult): string
  {
    Header(command, r) + Section("STDOUT", r.stdout) + Section("STDERR", r.stderr)
  }

  function Header(command: Option<string>, r: CommandResult): string
  {
    "Comando: " + Show(command) + "\n"
    + "Código de retorno: " + IntToString(r.returncode) + "\n"
    + "Duração: " + ShowDuration(r.duration) + "s\n\n"
  }

  /** A labelled stream, present only when the stream is not empty. */
  function Section(name: string, body: string): string
  {
    if body != "" then name + ":\n" + body + "\n" else ""
  }

  // ---------------------------------------------------------------------------
  // _format_tree

  function Connector(isLast: bool): string
  {
    if isLast then "└── " else "├── "
  }

  function Extension(isLast: bool): string
  {
    if isLast then "    " else "│   "
  }

  /** One line for `node`, then its children one level deeper, the last of them drawn as last. */
  function FormatTree(node: Node, prefix: string, isLast: bool): string
    decreases node, 1
  {
    prefix + Connector(isLast) + node.name + "\n"
    + match node.children
      case Nodes(kids) => FormatChildren(node, kids, prefix + Extension(isLast), 0)
      case Unset => ""
  }

  /** The loop over the children from index `i` on; child `i` is last when it is the final one. */
  function FormatChildren(parent: Node, kids: seq<Node>, prefix: string, i: nat): string
    requires parent.children == Nodes(kids) && i <= |kids|
    decreases parent, 0, |kids| - i
  {
    if i == |kids| then ""
    else
      assert kids[i] in parent.children.list;
      FormatTree(kids[i], prefix, i == |kids| - 1) + FormatChildren(parent, kids, prefix, i + 1)
  }

  /** The number of nodes of a tree. */
  function Size(node: Node): nat
    decreases node, 1
  {
    1 + match node.children
        case Nodes(kids) => SizeFrom(node, kids, 0)
        case Unset => 0
  }

  function SizeFrom(parent: Node, kids: seq<Node>, i: nat): nat
    requires parent.children == Nodes(kids) && i <= |kids|
    decreases parent, 0, |kids| - i
  {
    if i == |kids| then 0
    else
      assert kids[i] in parent.children.list;
      Size(kids[i]) + SizeFrom(parent, kids, i + 1)
  }

  /** No node name holds a line break. */
  predicate SingleLineNames(node: Node)
    decreases node, 1
  {
    '\n' !in node.name
    && match node.children
       case Nodes(kids) => SingleLinesFrom(node, kids, 0)
       case Unset => true
  }

  predicate SingleLinesFrom(parent: Node, kids: seq<Node>, i: nat)
    requires parent.children == Nodes(kids) && i <= |kids|
    decreases parent, 0, |kids| - i
  {
    i == |kids| || (assert kids[i] in parent.children.list; SingleLineNames(kids[i]) && SingleLinesFrom(parent, kids, i + 1))
  }

  function Count(s: string, c: char): nat
  {
    if s == [] then 0 else (if s[0] == c then 1 else 0) + Count(s[1..], c)
  }

  lemma {:induction false} CountAppend(a: string, b: string, c: char)
    ensures Count(a + b, c) == Count(a, c) + Count(b, c)
  {
    if a == [] {
      assert a + b == b;
    } else {
      assert (a + b)[0] == a[0];
      assert (a + b)[1..] == a[1..] + b;
      CountAppend(a[1..], b, c);
    }
  }

  lemma {:induction false} CountAbsent(s: string, c: char)
    requires c !in s
    ensures Count(s, c) == 0
  {
    if s != [] {
      CountAbsent(s[1..], c);
    }
  }

  /** The rendering has exactly one line per node: as many line breaks as the tree has nodes. */
  lemma {:induction false} FormatTreeLines(node: Node, prefix: string, isLast: bool)
    requires SingleLineNames(node) && '\n' !in prefix
    ensures Count(FormatTree(node, prefix, isLast), '\n') == Size(node)
    decreases node, 1
  {
    var head := prefix + Connector(isLast) + node.name;
    CountAbsent(head, '\n');
    CountAppend(head, "\n", '\n');
    match node.children {
      case Nodes(kids) =>
        FormatChildrenLines(node, kids, prefix + Extension(isLast), 0);
        CountAppend(head + "\n", FormatChildren(node, kids, prefix + Extension(isLast), 0), '\n');
      case Unset =>
        CountAppend(head + "\n", "", '\n');
    }
  }

  lemma {:induction false} FormatChildrenLines(parent: Node, kids: seq<Node>, prefix: string, i: nat)
    requires parent.children == Nodes(kids) && i <= |kids|
    requires SingleLinesFrom(parent, kids, i) && '\n' !in prefix
    ensures Count(FormatChildren(parent, kids, prefix, i), '\n') == SizeFrom(parent, kids, i)
    decreases parent, 0, |kids| - i
  {
    if i < |kids| {
      assert kids[i] in parent.children.list;
      FormatTreeLines(kids[i], prefix, i == |kids| - 1);
      FormatChildrenLines(parent, kids, prefix, i + 1);
      CountAppend(FormatTree(kids[i], prefix, i == |kids| - 1), FormatChildren(parent, kids, prefix, i + 1), '\n');
    }
  }

  /** A node without children, or with an empty list, is one line; otherwise its first child follows
    * that line, one level deeper, drawn as last exactly when it is the only child. */
  lemma FormatTreeShape(node: Node, prefix: string, isLast: bool)
    ensures var line := prefix + Connector(isLast) + node.name + "\n";
            && line <= FormatTree(node, prefix, isLast)
            && (node.children == Unset || node.children == Nodes([]) ==> FormatTree(node, prefix, isLast) == line)
            && (node.children.Nodes? && node.children.list != [] ==>
                  var kids := node.children.list;
                  FormatTree(node, prefix, isLast)
                  == line + FormatTree(kids[0], prefix + Extension(isLast), |kids| == 1)
                     + FormatChildren(node, kids, prefix + Extension(isLast), 1))
  {
  }

  // ---------------------------------------------------------------------------
  // execute_tool

  /** The outcome text of a file tool: its success text, or the failure prefix and the error. */
  function FileOutput(r: Reply, onSuccess: string, failurePrefix: string): string
  {
    if r.Failure? then failurePrefix + Message(r.error) else onSuccess
  }

  /** The text `execute_tool` returns for `write_file`; the size is the service's own `size`. */
  function WriteOutput(path: Option<string>, r: Reply): string
  {
    var text := if r.Written? then "✓ Arquivo '" + Show(path) + "' criado com sucesso (" + NatToString(r.size) + " bytes)" else "";
    FileOutput(r, text, "✗ Erro ao criar arquivo: ")
  }

  /** The text `execute_tool` returns for `read_file`. */
  function ReadOutput(path: Option<string>, r: Reply): string
  {
    var text := if r.Content? then "Conteúdo de '" + Show(path) + "':\n\n" + r.content else "";
    FileOutput(r, text, "✗ Erro ao ler arquivo: ")
  }

  /** The text `execute_tool` returns for `list_files`: a heading, then the drawn tree. */
  function ListOutput(path: string, r: Reply): string
  {
    var text := if r.Listing? then "Estrutura de arquivos em '" + path + "':\n\n" + FormatTree(r.tree, "", true) else "";
    FileOutput(r, text, "✗ Erro ao listar arquivos: ")
  }

  /** `execute_tool` on the disk: the four tools by name, anything else refused without effect. */
  function Execute(fs: Fs, cfg: Config, machine: Machine, name: string, args: Args): (ToolResult, Fs)
  {
    if name == "run_command" then
      var (r, fs1) := Run(fs, cfg.root, cfg.maxTimeout, cfg.maxOutput, Get(args, "command"),
                          GetOr(args, "cwd", "."), None, machine.spawn, machine.elapsed);
      (ToolResult(r.success, CommandOutput(Get(args, "command"), r)), fs1)
    else if name == "write_file" then
      var (r, fs1) := WriteArgs(fs, cfg.root, cfg.maxFileSize, Get(args, "path"), Get(args, "content"));
      (ToolResult(r.Success(), WriteOutput(Get(args, "path"), r)), fs1)
    else if name == "read_file" then
      var r := ReadArg(fs, cfg.root, Get(args, "path"));
      (ToolResult(r.Success(), ReadOutput(Get(args, "path"), r)), fs)
    else if name == "list_files" then
      var r := List(fs, cfg.root, GetOr(args, "path", "."));
      (ToolResult(r.Success(), ListOutput(GetOr(args, "path", "."), r)), fs)
    else
      (ToolResult(false, "Tool desconhecida: " + name), fs)
  }

  predicate KnownTool(name: string)
  {
    name in {"run_command", "write_file", "read_file", "list_files"}
  }

  /** A name other than the four tools fails with its own message and changes nothing. */
  lemma UnknownTool(fs: Fs, cfg: Config, machine: Machine, name: string, args: Args)
    requires !KnownTool(name)
    ensures Execute(fs, cfg, machine, name, args) == (ToolResult(false, "Tool desconhecida: " + name), fs)
  {
  }

  /** For a known tool, `success` is the service's own `success`, and the disk changes only through a
    * command run or a write. */
  lemma KnownToolMirrors(fs: Fs, cfg: Config, machine: Machine, name: string, args: Args)
    requires KnownTool(name)
    ensures var (t, fs1) := Execute(fs, cfg, machine, name, args);
            && (name == "run_command" ==>
                  var (r, fs2) := Run(fs, cfg.root, cfg.maxTimeout, cfg.maxOutput, Get(args, "command"),
                                      GetOr(args, "cwd", "."), None, machine.spawn, machine.elapsed);
                  t.success == r.success && fs1 == fs2)
            && (name == "write_file" ==>
                  var (r, fs2) := WriteArgs(fs, cfg.root, cfg.maxFileSize, Get(args, "path"), Get(args, "content"));
                  t.success == r.Success() && fs1 == fs2)
            && (name == "read_file" ==> t.success == ReadArg(fs, cfg.root, Get(args, "path")).Success() && fs1 == fs)
            && (name == "list_files" ==> t.success == List(fs, cfg.root, GetOr(args, "path", ".")).Success() && fs1 == fs)
  {
  }

  /** A command that ran to completion: success means exit code 0, and the text the model reads has
    * a STDOUT and a STDERR section exactly for the streams that are not empty, each truncated on its
    * own. */
  lemma CompletedCommand(fs: Fs, cfg: Config, machine: Machine, args: Args, code: int, out: string, err: string)
    requires "command" in args && Safe(args["command"])
    requires Resolve(cfg.root, GetOr(args, "cwd", ".")).Some?
    requires Mkdirs(fs, Resolve(cfg.root, GetOr(args, "cwd", ".")).value).Ok?
    requires var dir := Resolve(cfg.root, GetOr(args, "cwd", ".")).value;
             machine.spawn(args["command"], dir, cfg.maxTimeout, Mkdirs(fs, dir).value).outcome == Completed(code, out, err)
    ensures var t := Execute(fs, cfg, machine, "run_command", args).0;
            var r := CommandResult(code == 0, Truncate(out, cfg.maxOutput), Truncate(err, cfg.maxOutput), code, Measured(machine.elapsed));
            && t.success == (code == 0)
            && t.output == Header(Some(args["command"]), r)
                           + Section("STDOUT", Truncate(out, cfg.maxOutput)) + Section("STDERR", Truncate(err, cfg.maxOutput))
            && (Section("STDOUT", Truncate(out, cfg.maxOutput)) == "" <==> out == "")
            && (Section("STDERR", Truncate(err, cfg.maxOutput)) == "" <==> err == "")
  {
    var cmd, cwd := args["command"], GetOr(args, "cwd", ".");
    ProcessOutcome(fs, cfg.root, cfg.maxTimeout, cfg.maxOutput, cmd, cwd, None, machine.spawn, machine.elapsed);
    var r := Run(fs, cfg.root, cfg.maxTimeout, cfg.maxOutput, Some(cmd), cwd, None, machine.spawn, machine.elapsed).0;
    assert r == CommandResult(code == 0, Truncate(out, cfg.maxOutput), Truncate(err, cfg.maxOutput), code, Measured(machine.elapsed));
    ExecuteCommand(fs, cfg, machine, args);
    SectionOfTruncated("STDOUT", out, cfg.maxOutput);
    SectionOfTruncated("STDERR", err, cfg.maxOutput);
  }

  lemma ExecuteCommand(fs: Fs, cfg: Config, machine: Machine, args: Args)
    requires "command" in args
    ensures var (r, fs1) := Run(fs, cfg.root, cfg.maxTimeout, cfg.maxOutput, Some(args["command"]),
                                GetOr(args, "cwd", "."), None, machine.spawn, machine.elapsed);
            Execute(fs, cfg, machine, "run_command", args) == (ToolResult(r.success, CommandOutput(Some(args["command"]), r)), fs1)
  {
    assert Get(args, "command") == Some(args["command"]);
  }

  lemma SectionOfTruncated(name: string, s: string, max: nat)
    ensures Section(name, Truncate(s, max)) == "" <==> s == ""
  {
    if s != "" {
      assert Truncate(s, max) != "";
    }
  }

  /** The kind of an agent action: "command" for `run_command`, otherwise "file_" and the tool name
    * with every "_file" removed. */
  function ActionKind(name: string): string
  {
    if name == "run_command" then "command" else "file_" + RemoveAll(name, "_file")
  }

  lemma {:induction false} RemoveKeep(s: string, t: string)
    requires '_' !in s
    ensures RemoveAll(s + t, "_file") == s + RemoveAll(t, "_file")
  {
    if s == [] {
      assert s + t == t;
    } else {
      assert (s + t)[0] == s[0];
      assert (s + t)[1..] == s[1..] + t;
      RemoveKeep(s[1..], t);
      assert s == [s[0]] + s[1..];
    }
  }

  lemma RemoveWhole(rest: string)
    ensures RemoveAll("_file" + rest, "_file") == RemoveAll(rest, "_file")
  {
    assert ("_file" + rest)[5..] == rest;
  }

  /** A tool named "<stem>_file", such as `write_file` or `read_file`, is reported as a
    * "file_<stem>" action. */
  lemma ActionKindFile(stem: string)
    requires '_' !in stem
    ensures ActionKind(stem + "_file") == "file_" + stem
  {
    var name := stem + "_file";
    assert name[|name| - 1] == 'e';
    assert name == stem + ("_file" + "");
    RemoveWhole("");
    RemoveKeep(stem, "_file" + "");
  }

  /** `list_files` loses only its "_file" and is reported as "file_lists". */
  lemma ActionKindList(name: string)
    requires name == "list_files"
    ensures ActionKind(name) == "file_lists"
  {
    assert name == "list" + ("_file" + "s");
    RemoveWhole("s");
    assert RemoveAll("s", "_file") == "s" by { assert "s"[1..] == ""; }
    RemoveKeep("list", "_file" + "s");
  }
}
