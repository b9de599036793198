/** The frontend state store of manus-frontend/src/store.ts: open files, chat messages, plan steps,
  * agent actions, projects and terminal text, each action replacing some fields of the state. */
module Store {
  import opened Text

  // ---------------------------------------------------------------------------
  // Records

  datatype Project = Project(id: string, name: string, path: string, createdAt: int, lastModified: int)

  datatype Role = UserRole | AssistantRole | SystemRole

  datatype ChatMessage = ChatMessage(id: string, role: Role, content: string, timestamp: int)

  datatype StepStatus = Pending | InProgress | Completed | StepError

  datatype PlanStep = PlanStep(id: string, title: string, status: StepStatus, description: Option<string>)

  datatype ActionStatus = Running | Succeeded | Failed

  datatype AgentAction = AgentAction(id: string, kind: string, description: string, timestamp: int,
                                     status: ActionStatus, output: Option<string>)

  datatype Mode = AssistantMode | AgentMode

  /** The JSON object `sendMessage` writes to the socket: `{type: 'chat', content, mode}`. */
  datatype Frame = ChatFrame(content: string, mode: Mode)

  // ---------------------------------------------------------------------------
  // Partial updates (`{ ...record, ...updates }`)

  /** A `Partial<PlanStep>`: each field is either absent or given; an optional field can be given as
    * `undefined` (`Some(None)`). */
  datatype StepPatch = StepPatch(id: Option<string>, title: Option<string>, status: Option<StepStatus>,
                                 description: Option<Option<string>>)

  datatype ActionPatch = ActionPatch(id: Option<string>, kind: Option<string>, description: Option<string>,
                                     timestamp: Option<int>, status: Option<ActionStatus>,
                                     output: Option<Option<string>>)

  function Pick<T>(given: Option<T>, current: T): T
  {
    if given.Some? then given.value else current
  }

  function MergeStep(s: PlanStep, u: StepPatch): PlanStep
  {
    PlanStep(Pick(u.id, s.id), Pick(u.title, s.title), Pick(u.status, s.status), Pick(u.description, s.description))
  }

  function MergeAction(a: AgentAction, u: ActionPatch): AgentAction
  {
    AgentAction(Pick(u.id, a.id), Pick(u.kind, a.kind), Pick(u.description, a.description),
                Pick(u.timestamp, a.timestamp), Pick(u.status, a.status), Pick(u.output, a.output))
  }

  /** Spreading a patch twice is spreading it once. */
  lemma MergeStepIdempotent(s: PlanStep, u: StepPatch)
    ensures MergeStep(MergeStep(s, u), u) == MergeStep(s, u)
  {
  }

  lemma MergeActionIdempotent(a: AgentAction, u: ActionPatch)
    ensures MergeAction(MergeAction(a, u), u) == MergeAction(a, u)
  {
  }

  /** `xs.map(x => sel(x) ? f(x) : x)`. */
  function MapWhere<T>(xs: seq<T>, sel: T -> bool, f: T -> T): (r: seq<T>)
    ensures |r| == |xs|
    ensures forall i :: 0 <= i < |xs| ==> r[i] == if sel(xs[i]) then f(xs[i]) else xs[i]
  {
    if xs == [] then [] else [if sel(xs[0]) then f(xs[0]) else xs[0]] + MapWhere(xs[1..], sel, f)
  }

  function UpdateSteps(steps: seq<PlanStep>, id: string, u: StepPatch): (r: seq<PlanStep>)
    ensures |r| == |steps|
    ensures forall i :: 0 <= i < |steps| ==> r[i] == if steps[i].id == id then MergeStep(steps[i], u) else steps[i]
  {
    MapWhere(steps, (s: PlanStep) => s.id == id, (s: PlanStep) => MergeStep(s, u))
  }

  function UpdateActions(actions: seq<AgentAction>, id: string, u: ActionPatch): (r: seq<AgentAction>)
    ensures |r| == |actions|
    ensures forall i :: 0 <= i < |actions| ==> r[i] == if actions[i].id == id then MergeAction(actions[i], u) else actions[i]
  {
    MapWhere(actions, (a: AgentAction) => a.id == id, (a: AgentAction) => MergeAction(a, u))
  }

  /** Applying the same update twice is applying it once, even when the patch renames the step. */
  lemma {:induction false} UpdateStepsIdempotent(steps: seq<PlanStep>, id: string, u: StepPatch)
    ensures UpdateSteps(UpdateSteps(steps, id, u), id, u) == UpdateSteps(steps, id, u)
  {
    var r := UpdateSteps(steps, id, u);
    var rr := UpdateSteps(r, id, u);
    forall i | 0 <= i < |steps| ensures rr[i] == r[i] {
      MergeStepIdempotent(steps[i], u);
    }
  }

  /** Updates of two different steps by patches that keep ids commute. */
  lemma UpdateStepsCommute(steps: seq<PlanStep>, a: string, u: StepPatch, b: string, v: StepPatch)
    requires a != b && u.id.None? && v.id.None?
    ensures UpdateSteps(UpdateSteps(steps, a, u), b, v) == UpdateSteps(UpdateSteps(steps, b, v), a, u)
  {
    var left := UpdateSteps(UpdateSteps(steps, a, u), b, v);
    var right := UpdateSteps(UpdateSteps(steps, b, v), a, u);
    forall i | 0 <= i < |steps| ensures left[i] == right[i] {
    }
  }

  /** Updating actions twice with the same patch is updating them once. */
  lemma {:induction false} UpdateActionsIdempotent(actions: seq<AgentAction>, id: string, u: ActionPatch)
    ensures UpdateActions(UpdateActions(actions, id, u), id, u) == UpdateActions(actions, id, u)
  {
    var r := UpdateActions(actions, id, u);
    var rr := UpdateActions(r, id, u);
    forall i | 0 <= i < |actions| ensures rr[i] == r[i] {
      MergeActionIdempotent(actions[i], u);
    }
  }

  // ---------------------------------------------------------------------------
  // The store state and its actions

  datatype StoreState = StoreState(
    projects: seq<Project>,
    openFiles: map<string, string>,
    activeFile: Option<string>,
    messages: seq<ChatMessage>,
    isStreaming: bool,
    agentMode: Mode,
    planSteps: seq<PlanStep>,
    agentActions: seq<AgentAction>,
    terminalOutput: string)

  /** The initial state of the store. */
  const Initial := StoreState([], map[], None, [], false, AssistantMode, [], [], "")

  function OpenFile(s: StoreState, path: string, content: string): StoreState
  {
    s.(openFiles := s.openFiles[path := content], activeFile := Some(path))
  }

  function CloseFile(s: StoreState, path: string): StoreState
  {
    s.(openFiles := s.openFiles - {path}, activeFile := if s.activeFile == Some(path) then None else s.activeFile)
  }

  function UpdateFileContent(s: StoreState, path: string, content: string): StoreState
  {
    s.(openFiles := s.openFiles[path := content])
  }

  function AppendTerminalOutput(s: StoreState, output: string): StoreState
  {
    s.(terminalOutput := s.terminalOutput + output)
  }

  /** The user message `sendMessage` adds: the id is the clock's decimal text. */
  function UserMessage(content: string, idClock: nat, clock: int): ChatMessage
  {
    ChatMessage(NatToString(idClock), UserRole, content, clock)
  }

  /** `sendMessage`: the state after it and the frame written when the socket is open. */
  function SendMessage(s: StoreState, content: string, idClock: nat, clock: int, socketOpen: bool): (StoreState, Option<Frame>)
  {
    var s1 := s.(messages := s.messages + [UserMessage(content, idClock, clock)]);
    if socketOpen then (s1.(isStreaming := true), Some(ChatFrame(content, s.agentMode))) else (s1, None)
  }

  // ---------------------------------------------------------------------------
  // Properties of the actions

  /** Opening makes the file active with that content; closing it again removes it and clears the
    * active file, whatever was open before. */
  lemma OpenThenClose(s: StoreState, path: string, content: string)
    ensures OpenFile(s, path, content).openFiles[path] == content
    ensures OpenFile(s, path, content).activeFile == Some(path)
    ensures CloseFile(OpenFile(s, path, content), path)
            == s.(openFiles := s.openFiles - {path}, activeFile := None)
  {
  }

  /** Closing clears the active file exactly when it was the closed one, and touches no other file. */
  lemma CloseFileSpec(s: StoreState, path: string)
    ensures var r := CloseFile(s, path);
            && path !in r.openFiles
            && (forall p :: p != path ==> (p in r.openFiles <==> p in s.openFiles))
            && (forall p :: p != path && p in s.openFiles ==> r.openFiles[p] == s.openFiles[p])
            && (r.activeFile.None? <==> s.activeFile == Some(path) || s.activeFile.None?)
            && (s.activeFile != Some(path) ==> r.activeFile == s.activeFile)
  {
  }

  /** Editing an open file is opening it again with the new content when it is already active, and
    * otherwise leaves the active file alone; only the edited entry changes. */
  lemma UpdateFileContentSpec(s: StoreState, path: string, c1: string, c2: string)
    ensures UpdateFileContent(OpenFile(s, path, c1), path, c2) == OpenFile(s, path, c2)
    ensures var r := UpdateFileContent(s, path, c2);
            && r.activeFile == s.activeFile
            && r.openFiles[path] == c2
            && (forall p :: p != path ==> (p in r.openFiles <==> p in s.openFiles))
            && (forall p :: p != path && p in s.openFiles ==> r.openFiles[p] == s.openFiles[p])
  {
    var a := UpdateFileContent(OpenFile(s, path, c1), path, c2);
    var b := OpenFile(s, path, c2);
    assert a.openFiles == b.openFiles;
  }

  /** Appending output twice is appending the concatenation; clearing then appending leaves exactly
    * what was appended. */
  lemma TerminalOutputSpec(s: StoreState, a: string, b: string)
    ensures AppendTerminalOutput(AppendTerminalOutput(s, a), b) == AppendTerminalOutput(s, a + b)
    ensures AppendTerminalOutput(s.(terminalOutput := ""), a).terminalOutput == a
  {
    assert (s.terminalOutput + a) + b == s.terminalOutput + (a + b);
    assert "" + a == a;
  }

  /** `sendMessage` always records the user's message; it writes a frame carrying the content and the
    * current mode, and starts streaming, exactly when the socket is open. */
  lemma SendMessageSpec(s: StoreState, content: string, idClock: nat, clock: int, socketOpen: bool)
    ensures var (r, frame) := SendMessage(s, content, idClock, clock, socketOpen);
            && |r.messages| == |s.messages| + 1
            && r.messages[..|s.messages|] == s.messages
            && r.messages[|s.messages|].role == UserRole
            && r.messages[|s.messages|].content == content
            && r.messages[|s.messages|].id != ""
            && (frame.Some? <==> socketOpen)
            && (socketOpen ==> frame.value == ChatFrame(content, s.agentMode))
            && r.isStreaming == (s.isStreaming || socketOpen)
            && r.(messages := s.messages, isStreaming := s.isStreaming) == s
  {
    var (r, frame) := SendMessage(s, content, idClock, clock, socketOpen);
    assert r.messages == s.messages + [UserMessage(content, idClock, clock)];
  }

  // ---------------------------------------------------------------------------
  // The store object

  class AppStore {
    var projects: seq<Project>
    var openFiles: map<string, string>
    var activeFile: Option<string>
    var messages: seq<ChatMessage>
    var isStreaming: bool
    var agentMode: Mode
    var planSteps: seq<PlanStep>
    var agentActions: seq<AgentAction>
    var terminalOutput: string

    /** The fields as one value. */
    function State(): StoreState
      reads this
    {
      StoreState(projects, openFiles, activeFile, messages, isStreaming, agentMode, planSteps, agentActions, terminalOutput)
    }

    constructor()
      ensures State() == Initial
    {
      projects, openFiles, activeFile := [], map[], None;
      messages, isStreaming, agentMode := [], false, AssistantMode;
      planSteps, agentActions, terminalOutput := [], [], "";
    }

    method AddProject(project: Project)
      modifies this
      ensures State() == old(State()).(projects := old(projects) + [project])
    {
      projects := projects + [project];
    }

    method OpenFileAction(path: string, content: string)
      modifies this
      ensures State() == OpenFile(old(State()), path, content)
    {
      openFiles := openFiles[path := content];
      activeFile := Some(path);
    }

    method CloseFileAction(path: string)
      modifies this
      ensures State() == CloseFile(old(State()), path)
    {
      openFiles := openFiles - {path};
      if activeFile == Some(path) {
        activeFile := None;
      }
    }

    method UpdateFileContentAction(path: string, content: string)
      modifies this
      ensures State() == UpdateFileContent(old(State()), path, content)
    {
      openFiles := openFiles[path := content];
    }

    method AddMessage(message: ChatMessage)
      modifies this
      ensures State() == old(State()).(messages := old(messages) + [message])
    {
      messages := messages + [message];
    }

    method UpdatePlanStep(id: string, updates: StepPatch)
      modifies this
      ensures State() == old(State()).(planSteps := UpdateSteps(old(planSteps), id, updates))
    {
      planSteps := UpdateSteps(planSteps, id, updates);
    }

    method AddAgentAction(action: AgentAction)
      modifies this
      ensures State() == old(State()).(agentActions := old(agentActions) + [action])
    {
      agentActions := agentActions + [action];
    }

    method UpdateAgentAction(id: string, updates: ActionPatch)
      modifies this
      ensures State() == old(State()).(agentActions := UpdateActions(old(agentActions), id, updates))
    {
      agentActions := UpdateActions(agentActions, id, updates);
    }

    method AppendTerminalOutputAction(output: string)
      modifies this
      ensures State() == AppendTerminalOutput(old(State()), output)
    {
      terminalOutput := terminalOutput + output;
    }

    method ClearTerminalOutput()
      modifies this
      ensures State() == old(State()).(terminalOutput := "")
    {
      terminalOutput := "";
    }

    /** `sendMessage`, with the two clock readings and whether the socket is open as inputs; the frame
      * written to the socket is returned. */
    method SendMessageAction(content: string, idClock: nat, clock: int, socketOpen: bool) returns (sent: Option<Frame>)
      modifies this
      ensures (State(), sent) == SendMessage(old(State()), content, idClock, clock, socketOpen)
    {
      AddMessage(UserMessage(content, idClock, clock));
      sent := None;
      if socketOpen {
        sent := Some(ChatFrame(content, agentMode));
        isStreaming := true;
      }
    }
  }
}
