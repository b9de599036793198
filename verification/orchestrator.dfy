/** The agent loop of manus-backend/app/services/agent_orchestrator.py: `process_message` streams a
  * reply from the model, runs the tool the model asks for, feeds the result back and asks again, for
  * at most ten rounds. Every event the generator yields is collected, in order, into one sequence. */
module Orchestrator {
  import opened Text
  import opened Paths
  import opened Workspace
  import opened Sandbox
  import opened Gateway

  // ---------------------------------------------------------------------------
  // The conversation

  /** A content block of a complete model message; blocks of any other type are `OtherBlock`. */
  datatype Block = TextBlock(text: string) | ToolUseBlock(id: string, name: string, input: Args) | OtherBlock

  datatype Role = User | Assistant

  /** The `content` of a history entry: plain text, the model's blocks, or one tool result. */
  datatype Body = Plain(text: string) | Blocks(blocks: seq<Block>) | ToolReply(toolUseId: string, output: string)

  datatype Turn = Turn(role: Role, content: Body)

  /** The chunks `chat_stream` yields: text, the start of a tool use, a piece of tool input, the final
    * message, or the error the client reports when the stream fails. */
  datatype Chunk =
    | TextDelta(text: string)
    | ToolUseStart(toolId: string, toolName: string)
    | ToolInputDelta(input: string)
    | MessageComplete(content: seq<Block>)
    | StreamError(error: string)

  /** The model: the streamed reply to the `n`-th call within one message (counting from 0), for a
    * history, with or without the tools offered. Two calls with the same history may stream
    * different replies, as after a failed stream. */
  type Provider = (nat, seq<Turn>, bool) -> seq<Chunk>

  // ---------------------------------------------------------------------------
  // Events

  datatype Status = Running | Succeeded | Errored

  /** The action description: the tool and its input when it starts, "<tool> concluído" when it ends. */
  datatype Description = Invocation(tool: string, input: Args) | Note(text: string)

  datatype Action = Action(kind: string, description: Description, status: Status, output: Option<string>)

  datatype Event =
    | MessageChunk(content: string)
    | ToolUseStarted(toolName: string)
    | AgentAction(action: Action)
    | TerminalOutput(output: string)
    | MessageCompleted(content: string)
    | ErrorEvent(error: string)

  /** The events that end `process_message`. */
  predicate Terminal(e: Event)
  {
    e.MessageCompleted? || e.ErrorEvent?
  }

  predicate NoTerminal(events: seq<Event>)
  {
    forall j :: 0 <= j < |events| ==> !Terminal(events[j])
  }

  /** Exactly one terminal event, the last. */
  predicate Ending(events: seq<Event>)
  {
    && events != []
    && Terminal(events[|events| - 1])
    && forall j :: 0 <= j < |events| - 1 ==> !Terminal(events[j])
  }

  const MaxIterations: nat := 10
  const IterationLimitMessage := "Número máximo de iterações atingido"

  // ---------------------------------------------------------------------------
  // One round: the stream of one reply

  /** The first tool use of a message, the only one the loop answers. */
  function FirstToolUse(blocks: seq<Block>): (r: Option<nat>)
    ensures r.Some? ==> r.value < |blocks| && blocks[r.value].ToolUseBlock?
                        && forall j :: 0 <= j < r.value ==> !blocks[j].ToolUseBlock?
    ensures r.None? ==> forall j :: 0 <= j < |blocks| ==> !blocks[j].ToolUseBlock?
  {
    FirstToolUseFrom(blocks, 0)
  }

  function FirstToolUseFrom(blocks: seq<Block>, i: nat): (r: Option<nat>)
    requires i <= |blocks|
    requires forall j :: 0 <= j < i ==> !blocks[j].ToolUseBlock?
    ensures r.Some? ==> i <= r.value < |blocks| && blocks[r.value].ToolUseBlock?
                        && forall j :: 0 <= j < r.value ==> !blocks[j].ToolUseBlock?
    ensures r.None? ==> forall j :: 0 <= j < |blocks| ==> !blocks[j].ToolUseBlock?
    decreases |blocks| - i
  {
    if i == |blocks| then None
    else if blocks[i].ToolUseBlock? then Some(i)
    else FirstToolUseFrom(blocks, i + 1)
  }

  /** The events around one tool run: running, the terminal text for a command, then the outcome. */
  function ToolEvents(name: string, input: Args, t: ToolResult): seq<Event>
  {
    [AgentAction(Action(ActionKind(name), Invocation(name, input), Running, None))]
    + (if name == "run_command" then [TerminalOutput(t.output)] else [])
    + [AgentAction(Action(ActionKind(name), Note(name + " concluído"), if t.success then Succeeded else Errored, Some(t.output)))]
  }

  /** What runs a tool: from the disk, a tool name and its input, the result and the new disk. */
  type Runner = (Fs, string, Args) -> (ToolResult, Fs)

  /** `execute_tool` with the session's settings and machine. */
  function Tools(cfg: Config, machine: Machine): Runner
  {
    (fs: Fs, name: string, input: Args) => Execute(fs, cfg, machine, name, input)
  }

  /** The history and the disk, which is all that a round changes. */
  datatype Agent = Agent(history: seq<Turn>, fs: Fs)

  /** A round's events, the state after it, and whether it ended `process_message`. */
  datatype StreamOut = StreamOut(events: seq<Event>, state: Agent, finished: bool)

  /** A complete message without a tool use: it ends the round and `process_message`. */
  predicate Ends(c: Chunk)
  {
    c.MessageComplete? && FirstToolUse(c.content).None?
  }

  /** The events one chunk yields when it does not end the round. */
  function Emit(c: Chunk, st: Agent, run: Runner): seq<Event>
  {
    match c
    case TextDelta(t) => [MessageChunk(t)]
    case ToolUseStart(_, name) => [ToolUseStarted(name)]
    case MessageComplete(blocks) =>
      (match FirstToolUse(blocks)
       case Some(i) => ToolEvents(blocks[i].name, blocks[i].input, run(st.fs, blocks[i].name, blocks[i].input).0)
       case None => [])
    case ToolInputDelta(_) => []
    case StreamError(_) => []
  }

  /** `accumulated_text` after a chunk. */
  function NextAcc(c: Chunk, acc: string): string
  {
    if c.TextDelta? then acc + c.text else acc
  }

  /** The state after a chunk: a complete message with a tool use runs its first tool use and
    * records the message and the tool's result. */
  function NextState(c: Chunk, st: Agent, run: Runner): Agent
  {
    if c.MessageComplete? && FirstToolUse(c.content).Some? then
      var b := c.content[FirstToolUse(c.content).value];
      var (t, fs1) := run(st.fs, b.name, b.input);
      Agent(st.history + [Turn(Assistant, Blocks(c.content)), Turn(User, ToolReply(b.id, t.output))], fs1)
    else st
  }

  /** The `async for` over one stream, with `acc` the text accumulated so far in the round. A
    * complete message with a tool use runs the first one, records the exchange, and the stream goes
    * on; one without a tool use records the text and returns. Error chunks and tool input pieces
    * yield nothing. */
  function Stream(chunks: seq<Chunk>, acc: string, st: Agent, run: Runner): StreamOut
    decreases |chunks|
  {
    if chunks == [] then StreamOut([], st, false)
    else if Ends(chunks[0]) then
      StreamOut([MessageCompleted(acc)], st.(history := st.history + [Turn(Assistant, Plain(acc))]), true)
    else
      var o := Stream(chunks[1..], NextAcc(chunks[0], acc), NextState(chunks[0], st, run), run);
      o.(events := Emit(chunks[0], st, run) + o.events)
  }

  // ---------------------------------------------------------------------------
  // The loop

  /** All the events, the final state and the number of rounds (calls to the model). */
  datatype Reaction = Reaction(events: seq<Event>, state: Agent, rounds: nat)

  /** The `while iteration < max_iterations` loop from round `iteration` on. */
  function Loop(iteration: nat, st: Agent, run: Runner, provider: Provider, useTools: bool): Reaction
    requires iteration <= MaxIterations
    decreases MaxIterations - iteration, 1
  {
    if iteration == MaxIterations then Reaction([ErrorEvent(IterationLimitMessage)], st, 0)
    else Continue(iteration, Stream(provider(iteration, st.history, useTools), "", st, run), run, provider, useTools)
  }

  /** The loop after round `iteration` produced `o`: it returns when the round finished, and otherwise
    * goes on with the next round. */
  function Continue(iteration: nat, o: StreamOut, run: Runner, provider: Provider, useTools: bool): Reaction
    requires iteration < MaxIterations
    decreases MaxIterations - iteration, 0
  {
    if o.finished then Reaction(o.events, o.state, 1)
    else
      var r := Loop(iteration + 1, o.state, run, provider, useTools);
      Reaction(o.events + r.events, r.state, r.rounds + 1)
  }

  /** `process_message`: the user's message joins the history; tools are offered only in "agent" mode. */
  function Process(st: Agent, run: Runner, provider: Provider, userMessage: string, mode: string): Reaction
  {
    Loop(0, st.(history := st.history + [Turn(User, Plain(userMessage))]), run, provider, mode == "agent")
  }

  // ---------------------------------------------------------------------------
  // Properties

  /** The text of the `message_chunk` events of a sequence, in order. */
  function Streamed(events: seq<Event>): string
  {
    if events == [] then ""
    else (if events[0].MessageChunk? then events[0].content else "") + Streamed(events[1..])
  }

  lemma {:induction false} StreamedAppend(a: seq<Event>, b: seq<Event>)
    ensures Streamed(a + b) == Streamed(a) + Streamed(b)
  {
    if a == [] {
      assert a + b == b;
    } else {
      assert (a + b)[0] == a[0];
      assert (a + b)[1..] == a[1..] + b;
      StreamedAppend(a[1..], b);
    }
  }

  lemma {:induction false} NoChunksNoText(events: seq<Event>)
    requires forall j :: 0 <= j < |events| ==> !events[j].MessageChunk?
    ensures Streamed(events) == ""
  {
    if events != [] {
      NoChunksNoText(events[1..]);
    }
  }

  /** `reply` is the tool result for the first tool use of the model's message `call`. */
  predicate Answers(call: Turn, reply: Turn)
  {
    && call.role == Assistant && call.content.Blocks?
    && FirstToolUse(call.content.blocks).Some?
    && reply.role == User && reply.content.ToolReply?
    && reply.content.toolUseId == call.content.blocks[FirstToolUse(call.content.blocks).value].id
  }

  /** Turns that answer tool uses: pairs of the model's message and the user turn that answers it. */
  predicate Exchanges(turns: seq<Turn>)
  {
    && |turns| % 2 == 0
    && forall k :: 0 <= k < |turns| && k % 2 == 0 ==> k + 1 < |turns| && Answers(turns[k], turns[k + 1])
  }

  lemma ExchangesAppend(a: seq<Turn>, b: seq<Turn>)
    requires Exchanges(a) && Exchanges(b)
    ensures Exchanges(a + b)
  {
    var ab := a + b;
    forall k | 0 <= k < |ab| && k % 2 == 0
      ensures k + 1 < |ab| && Answers(ab[k], ab[k + 1])
    {
      if k < |a| {
        assert ab[k] == a[k] && ab[k + 1] == a[k + 1];
      } else {
        assert (k - |a|) % 2 == 0;
        assert ab[k] == b[k - |a|] && ab[k + 1] == b[k - |a| + 1];
      }
    }
  }

  /** What one chunk does: no terminal event, its text added to `acc`, answered exchanges added to
    * the history. */
  lemma EmitFacts(c: Chunk, acc: string, st: Agent, run: Runner)
    ensures NoTerminal(Emit(c, st, run))
    ensures acc + Streamed(Emit(c, st, run)) == NextAcc(c, acc)
    ensures st.history <= NextState(c, st, run).history
    ensures Exchanges(NextState(c, st, run).history[|st.history|..])
  {
    EmitText(c, acc, st, run);
    EmitHistory(c, st, run);
  }

  lemma EmitText(c: Chunk, acc: string, st: Agent, run: Runner)
    ensures NoTerminal(Emit(c, st, run))
    ensures acc + Streamed(Emit(c, st, run)) == NextAcc(c, acc)
  {
    var e := Emit(c, st, run);
    if c.TextDelta? {
      assert Streamed(e) == c.text + Streamed(e[1..]);
      assert e[1..] == [];
    } else {
      NoChunksNoText(e);
    }
  }

  lemma EmitHistory(c: Chunk, st: Agent, run: Runner)
    ensures st.history <= NextState(c, st, run).history
    ensures Exchanges(NextState(c, st, run).history[|st.history|..])
  {
    var h := NextState(c, st, run).history;
    if c.MessageComplete? && FirstToolUse(c.content).Some? {
      var pair := h[|st.history|..];
      assert pair[2..] == [];
    } else {
      assert h[|st.history|..] == [];
    }
  }

  /** The events of a round: no terminal event, or exactly one, at the end, carrying `acc` and the
    * text streamed before it. */
  predicate EndsOnce(events: seq<Event>, finished: bool, acc: string)
  {
    if finished then
      && events != []
      && events[|events| - 1] == MessageCompleted(acc + Streamed(events[..|events| - 1]))
      && Ending(events)
    else NoTerminal(events)
  }

  lemma EventsAssoc(a: seq<Event>, b: seq<Event>, c: seq<Event>)
    ensures a + (b + c) == (a + b) + c
  {
  }

  lemma ConcatAssoc(a: string, b: string, c: string)
    ensures a + (b + c) == (a + b) + c
  {
  }

  lemma PrependEvents(pre: seq<Event>, events: seq<Event>, finished: bool, acc: string, acc1: string)
    requires NoTerminal(pre)
    requires acc + Streamed(pre) == acc1
    requires EndsOnce(events, finished, acc1)
    ensures EndsOnce(pre + events, finished, acc)
  {
    var all := pre + events;
    var m := if finished then |all| - 1 else |all|;
    forall j | 0 <= j < m
      ensures !Terminal(all[j])
    {
      if j < |pre| {
        assert all[j] == pre[j];
      } else {
        assert all[j] == events[j - |pre|];
      }
    }
    if finished {
      var n := |events|;
      assert all[|all| - 1] == events[n - 1];
      assert all[..|all| - 1] == pre + events[..n - 1];
      StreamedAppend(pre, events[..n - 1]);
      ConcatAssoc(acc, Streamed(pre), Streamed(events[..n - 1]));
    }
  }

  /** A round ends `process_message` exactly when it yields a terminal event; that event is then its
    * last and only one, and carries `acc` followed by all the text the round streamed before it. */
  lemma {:induction false} StreamTerminal(chunks: seq<Chunk>, acc: string, st: Agent, run: Runner)
    ensures var o := Stream(chunks, acc, st, run); EndsOnce(o.events, o.finished, acc)
    decreases |chunks|
  {
    if chunks != [] {
      var o := Stream(chunks, acc, st, run);
      var c := chunks[0];
      if Ends(c) {
        assert o.events[..0] == [];
      } else {
        StreamTerminal(chunks[1..], NextAcc(c, acc), NextState(c, st, run), run);
        EmitFacts(c, acc, st, run);
        PrependEvents(Emit(c, st, run), Stream(chunks[1..], NextAcc(c, acc), NextState(c, st, run), run).events,
                      o.finished, acc, NextAcc(c, acc));
      }
    }
  }

  /** The turns a round adds: answered exchanges, then the model's text when the round finished. */
  predicate Round(turns: seq<Turn>, finished: bool)
  {
    if finished then
      |turns| >= 1 && Exchanges(turns[..|turns| - 1])
      && turns[|turns| - 1].role == Assistant && turns[|turns| - 1].content.Plain?
    else Exchanges(turns)
  }

  lemma RoundAppend(a: seq<Turn>, b: seq<Turn>, finished: bool)
    requires Exchanges(a) && Round(b, finished)
    ensures Round(a + b, finished)
  {
    if finished {
      assert (a + b)[..|a + b| - 1] == a + b[..|b| - 1];
      ExchangesAppend(a, b[..|b| - 1]);
    } else {
      ExchangesAppend(a, b);
    }
  }

  lemma SuffixSplit(x: seq<Turn>, y: seq<Turn>, z: seq<Turn>)
    requires x <= y <= z
    ensures z[|x|..] == y[|x|..] + z[|y|..]
  {
  }

  /** A round appends answered exchanges to the history, then, when it finishes, the model's text. */
  lemma {:induction false} StreamHistory(chunks: seq<Chunk>, acc: string, st: Agent, run: Runner)
    ensures var o := Stream(chunks, acc, st, run);
            st.history <= o.state.history && Round(o.state.history[|st.history|..], o.finished)
    decreases |chunks|
  {
    var o := Stream(chunks, acc, st, run);
    if chunks == [] {
      assert o.state.history[|st.history|..] == [];
    } else if Ends(chunks[0]) {
      assert o.state.history[|st.history|..] == [Turn(Assistant, Plain(acc))];
      assert [Turn(Assistant, Plain(acc))][..0] == [];
    } else {
      var c := chunks[0];
      var st1 := NextState(c, st, run);
      StreamHistory(chunks[1..], NextAcc(c, acc), st1, run);
      EmitFacts(c, acc, st, run);
      SuffixSplit(st.history, st1.history, o.state.history);
      RoundAppend(st1.history[|st.history|..], o.state.history[|st1.history|..], o.finished);
    }
  }

  /** Events without a terminal one, then events whose last and only terminal event ends them. */
  lemma AppendEnding(a: seq<Event>, b: seq<Event>)
    requires NoTerminal(a) && Ending(b)
    ensures Ending(a + b) && (a + b)[|a + b| - 1] == b[|b| - 1]
  {
    var ab := a + b;
    forall j | 0 <= j < |ab| - 1
      ensures !Terminal(ab[j])
    {
      if j < |a| {
        assert ab[j] == a[j];
      } else {
        assert ab[j] == b[j - |a|];
      }
    }
  }

  /** What the loop from round `iteration` on, started on the history `before`, promises about its
    * reaction `r`. */
  predicate LoopOutcome(iteration: nat, before: seq<Turn>, r: Reaction)
  {
    && Ending(r.events)
    && iteration + r.rounds <= MaxIterations
    && (r.events[|r.events| - 1].ErrorEvent? ==> iteration + r.rounds == MaxIterations)
    && before <= r.state.history
    && Round(r.state.history[|before|..], r.events[|r.events| - 1].MessageCompleted?)
  }

  /** `process_message` yields exactly one terminal event, as its last: the final text, or the error
    * after the tenth round that still wanted a tool; the history grows by answered exchanges and,
    * exactly when the text came, the model's text. */
  lemma {:induction false} LoopFacts(iteration: nat, st: Agent, run: Runner, provider: Provider, useTools: bool)
    requires iteration <= MaxIterations
    ensures LoopOutcome(iteration, st.history, Loop(iteration, st, run, provider, useTools))
    decreases MaxIterations - iteration, 1
  {
    if iteration == MaxIterations {
      var r := Loop(iteration, st, run, provider, useTools);
      assert r.state.history[|st.history|..] == [];
    } else {
      var chunks := provider(iteration, st.history, useTools);
      StreamTerminal(chunks, "", st, run);
      StreamHistory(chunks, "", st, run);
      ContinueFacts(iteration, st.history, Stream(chunks, "", st, run), run, provider, useTools);
    }
  }

  /** The same from the end of round `iteration`, for a round that kept to `EndsOnce` and `Round`. */
  lemma {:induction false} ContinueFacts(iteration: nat, before: seq<Turn>, o: StreamOut, run: Runner, provider: Provider, useTools: bool)
    requires iteration < MaxIterations
    requires EndsOnce(o.events, o.finished, "")
    requires before <= o.state.history && Round(o.state.history[|before|..], o.finished)
    ensures LoopOutcome(iteration, before, Continue(iteration, o, run, provider, useTools))
    decreases MaxIterations - iteration, 0
  {
    if !o.finished {
      LoopFacts(iteration + 1, o.state, run, provider, useTools);
      var r1 := Loop(iteration + 1, o.state, run, provider, useTools);
      AppendEnding(o.events, r1.events);
      SuffixSplit(before, o.state.history, r1.state.history);
      RoundAppend(o.state.history[|before|..], r1.state.history[|o.state.history|..],
                  r1.events[|r1.events| - 1].MessageCompleted?);
    }
  }

  /** The whole of `process_message`: one terminal event, last; at most ten calls to the model, and
    * the error only after all ten; the history gains the user's message, answered exchanges, and the
    * model's final text exactly when `message_complete` was yielded. */
  lemma ProcessFacts(st: Agent, run: Runner, provider: Provider, userMessage: string, mode: string)
    ensures var r := Process(st, run, provider, userMessage, mode);
            && Ending(r.events)
            && r.rounds <= MaxIterations
            && (r.events[|r.events| - 1].ErrorEvent? ==> r.rounds == MaxIterations)
            && st.history + [Turn(User, Plain(userMessage))] <= r.state.history
            && Round(r.state.history[|st.history| + 1..], r.events[|r.events| - 1].MessageCompleted?)
  {
    LoopFacts(0, st.(history := st.history + [Turn(User, Plain(userMessage))]), run, provider, mode == "agent");
  }

  /** The outputs carried by the `agent_action` events that close a tool run, in order. */
  function Finished(events: seq<Event>): seq<string>
  {
    if events == [] then []
    else
      var e := events[0];
      (if e.AgentAction? && e.action.status != Running && e.action.output.Some? then [e.action.output.value] else [])
      + Finished(events[1..])
  }

  /** The number of `agent_action` events that open a tool run. */
  function Started(events: seq<Event>): nat
  {
    if events == [] then 0
    else (if events[0].AgentAction? && events[0].action.status == Running then 1 else 0) + Started(events[1..])
  }

  /** The tool results the history records, in order. */
  function Replies(turns: seq<Turn>): seq<string>
  {
    if turns == [] then []
    else (if turns[0].content.ToolReply? then [turns[0].content.output] else []) + Replies(turns[1..])
  }

  /** Every tool run the events open is closed, and the closing actions carry exactly the results
    * the history records, in the same order. */
  predicate Lifecycle(events: seq<Event>, turns: seq<Turn>)
  {
    Finished(events) == Replies(turns) && Started(events) == |Replies(turns)|
  }

  lemma {:induction false} FinishedAppend(a: seq<Event>, b: seq<Event>)
    ensures Finished(a + b) == Finished(a) + Finished(b)
    ensures Started(a + b) == Started(a) + Started(b)
  {
    FinishedOnly(a, b);
    StartedAppend(a, b);
  }

  lemma {:induction false} FinishedOnly(a: seq<Event>, b: seq<Event>)
    ensures Finished(a + b) == Finished(a) + Finished(b)
  {
    if a == [] {
      assert a + b == b;
    } else {
      assert (a + b)[0] == a[0];
      assert (a + b)[1..] == a[1..] + b;
      FinishedOnly(a[1..], b);
    }
  }

  lemma {:induction false} StartedAppend(a: seq<Event>, b: seq<Event>)
    ensures Started(a + b) == Started(a) + Started(b)
  {
    if a == [] {
      assert a + b == b;
    } else {
      assert (a + b)[0] == a[0];
      assert (a + b)[1..] == a[1..] + b;
      StartedAppend(a[1..], b);
    }
  }

  lemma {:induction false} RepliesAppend(a: seq<Turn>, b: seq<Turn>)
    ensures Replies(a + b) == Replies(a) + Replies(b)
  {
    if a == [] {
      assert a + b == b;
    } else {
      assert (a + b)[0] == a[0];
      assert (a + b)[1..] == a[1..] + b;
      RepliesAppend(a[1..], b);
    }
  }

  lemma LifecycleAppend(e1: seq<Event>, t1: seq<Turn>, e2: seq<Event>, t2: seq<Turn>)
    requires Lifecycle(e1, t1) && Lifecycle(e2, t2)
    ensures Lifecycle(e1 + e2, t1 + t2)
  {
    FinishedAppend(e1, e2);
    RepliesAppend(t1, t2);
  }

  /** Events without tool actions, such as text or a terminal event, against turns without results. */
  lemma {:induction false} NoActions(events: seq<Event>, turns: seq<Turn>)
    requires forall j :: 0 <= j < |events| ==> !events[j].AgentAction?
    requires forall j :: 0 <= j < |turns| ==> !turns[j].content.ToolReply?
    ensures Lifecycle(events, turns)
    decreases |events| + |turns|
  {
    if events != [] {
      NoActions(events[1..], []);
    }
    if turns != [] {
      NoActions([], turns[1..]);
    }
  }

  /** One tool run: one opening action, then (for a command) its output, then the closing action
    * with the tool's result, which is also the content of the `tool_result` turn. */
  lemma ToolRunLifecycle(name: string, input: Args, t: ToolResult, call: Turn, id: string)
    ensures Lifecycle(ToolEvents(name, input, t), [call, Turn(User, ToolReply(id, t.output))])
    requires !call.content.ToolReply?
  {
    var events := ToolEvents(name, input, t);
    var open := [AgentAction(Action(ActionKind(name), Invocation(name, input), Running, None))];
    var mid := if name == "run_command" then [TerminalOutput(t.output)] else [];
    var close := [AgentAction(Action(ActionKind(name), Note(name + " concluído"), if t.success then Succeeded else Errored, Some(t.output)))];
    assert Finished(open) == [] && Started(open) == 1;
    NoActions(mid, []);
    assert Finished(close) == [t.output] && Started(close) == 0;
    FinishedAppend(open, mid);
    FinishedAppend(open + mid, close);
    var turns := [call, Turn(User, ToolReply(id, t.output))];
    assert turns[1..][1..] == [];
    assert Replies(turns) == [t.output];
  }

  /** One chunk: its events and the turns it adds keep the lifecycle. */
  lemma EmitLifecycle(c: Chunk, st: Agent, run: Runner)
    ensures st.history <= NextState(c, st, run).history
    ensures Lifecycle(Emit(c, st, run), NextState(c, st, run).history[|st.history|..])
  {
    var h := NextState(c, st, run).history;
    if c.MessageComplete? && FirstToolUse(c.content).Some? {
      var b := c.content[FirstToolUse(c.content).value];
      var t := run(st.fs, b.name, b.input).0;
      assert h[|st.history|..] == [Turn(Assistant, Blocks(c.content)), Turn(User, ToolReply(b.id, t.output))];
      ToolRunLifecycle(b.name, b.input, t, Turn(Assistant, Blocks(c.content)), b.id);
    } else {
      assert h[|st.history|..] == [];
      NoActions(Emit(c, st, run), []);
    }
  }

  /** A round keeps the lifecycle between its events and the turns it adds to the history. */
  lemma {:induction false} StreamLifecycle(chunks: seq<Chunk>, acc: string, st: Agent, run: Runner)
    ensures var o := Stream(chunks, acc, st, run);
            st.history <= o.state.history && Lifecycle(o.events, o.state.history[|st.history|..])
    decreases |chunks|
  {
    var o := Stream(chunks, acc, st, run);
    StreamHistory(chunks, acc, st, run);
    if chunks == [] {
      NoActions([], o.state.history[|st.history|..]);
    } else if Ends(chunks[0]) {
      assert o.state.history[|st.history|..] == [Turn(Assistant, Plain(acc))];
      NoActions(o.events, [Turn(Assistant, Plain(acc))]);
    } else {
      var c := chunks[0];
      var st1 := NextState(c, st, run);
      var o1 := Stream(chunks[1..], NextAcc(c, acc), st1, run);
      EmitLifecycle(c, st, run);
      StreamLifecycle(chunks[1..], NextAcc(c, acc), st1, run);
      SuffixSplit(st.history, st1.history, o.state.history);
      LifecycleAppend(Emit(c, st, run), st1.history[|st.history|..], o1.events, o.state.history[|st1.history|..]);
    }
  }

  /** The loop from round `iteration` on keeps the lifecycle over all its rounds. */
  lemma {:induction false} LoopLifecycle(iteration: nat, st: Agent, run: Runner, provider: Provider, useTools: bool)
    requires iteration <= MaxIterations
    ensures var r := Loop(iteration, st, run, provider, useTools);
            st.history <= r.state.history && Lifecycle(r.events, r.state.history[|st.history|..])
    decreases MaxIterations - iteration, 1
  {
    var r := Loop(iteration, st, run, provider, useTools);
    if iteration == MaxIterations {
      assert r.state.history[|st.history|..] == [];
      NoActions(r.events, []);
    } else {
      var o := Stream(provider(iteration, st.history, useTools), "", st, run);
      StreamLifecycle(provider(iteration, st.history, useTools), "", st, run);
      if !o.finished {
        var r1 := Loop(iteration + 1, o.state, run, provider, useTools);
        LoopLifecycle(iteration + 1, o.state, run, provider, useTools);
        SuffixSplit(st.history, o.state.history, r1.state.history);
        LifecycleAppend(o.events, o.state.history[|st.history|..], r1.events, r1.state.history[|o.state.history|..]);
      }
    }
  }

  /** `process_message`: every tool run it reports as running is reported as done, and the outputs of
    * the done actions are, in order, the tool results the history records. */
  lemma ProcessLifecycle(st: Agent, run: Runner, provider: Provider, userMessage: string, mode: string)
    ensures var r := Process(st, run, provider, userMessage, mode);
            && |st.history| + 1 <= |r.state.history|
            && Finished(r.events) == Replies(r.state.history[|st.history| + 1..])
            && Started(r.events) == |Finished(r.events)|
  {
    LoopLifecycle(0, st.(history := st.history + [Turn(User, Plain(userMessage))]), run, provider, mode == "agent");
  }

  /** A message with two tool uses gets a result for the first only: the second id is never answered. */
  lemma SecondToolUseUnanswered(chunks: seq<Chunk>, acc: string, st: Agent, run: Runner,
                                blocks: seq<Block>, i: nat, j: nat)
    requires chunks != [] && chunks[0] == MessageComplete(blocks)
    requires i < j < |blocks| && blocks[i].ToolUseBlock? && blocks[j].ToolUseBlock? && blocks[i].id != blocks[j].id
    requires forall k :: 0 <= k < i ==> !blocks[k].ToolUseBlock?
    ensures var h := st.history + [Turn(Assistant, Blocks(blocks))];
            var o := Stream(chunks, acc, st, run);
            && h <= o.state.history
            && |o.state.history| > |h|
            && o.state.history[|h|].content.ToolReply?
            && o.state.history[|h|].content.toolUseId == blocks[i].id != blocks[j].id
  {
    assert FirstToolUse(blocks) == Some(i);
    var st1 := NextState(chunks[0], st, run);
    StreamHistory(chunks[1..], acc, st1, run);
    assert |st1.history| == |st.history| + 2;
  }

  /** An error chunk from the client yields nothing and changes nothing. */
  lemma StreamErrorIgnored(m: string, rest: seq<Chunk>, acc: string, st: Agent, run: Runner)
    ensures Stream([StreamError(m)] + rest, acc, st, run) == Stream(rest, acc, st, run)
  {
    assert ([StreamError(m)] + rest)[1..] == rest;
  }

  /** A round whose stream fails leaves the history as it was, and the loop asks again: a failed
    * first call followed by a complete reply ends with that reply after two rounds. */
  lemma RetryAfterFailedRound(st: Agent, run: Runner, provider: Provider, userMessage: string, mode: string,
                              m: string, text: string)
    requires var h := st.history + [Turn(User, Plain(userMessage))];
             && provider(0, h, mode == "agent") == [StreamError(m)]
             && provider(1, h, mode == "agent") == [TextDelta(text), MessageComplete([TextBlock(text)])]
    ensures var r := Process(st, run, provider, userMessage, mode);
            && r.events == [MessageChunk(text), MessageCompleted(text)]
            && r.rounds == 2
            && r.state == Agent(st.history + [Turn(User, Plain(userMessage)), Turn(Assistant, Plain(text))], st.fs)
  {
    var st0 := st.(history := st.history + [Turn(User, Plain(userMessage))]);
    var useTools := mode == "agent";
    var failed := Stream([StreamError(m)], "", st0, run);
    assert [StreamError(m)][1..] == [];
    assert !Ends(StreamError(m)) && NextState(StreamError(m), st0, run) == st0;
    assert Stream([], "", st0, run) == StreamOut([], st0, false);
    assert failed == StreamOut([], st0, false);
    var chunks := [TextDelta(text), MessageComplete([TextBlock(text)])];
    var last := MessageComplete([TextBlock(text)]);
    assert FirstToolUse([TextBlock(text)]).None?;
    assert chunks[1..] == [last] && Ends(last);
    assert NextAcc(chunks[0], "") == text;
    var after := st0.(history := st0.history + [Turn(Assistant, Plain(text))]);
    assert Stream([last], text, st0, run) == StreamOut([MessageCompleted(text)], after, true);
    assert Stream(chunks, "", st0, run) == StreamOut([MessageChunk(text), MessageCompleted(text)], after, true);
  }

  // ---------------------------------------------------------------------------
  // The orchestrator object

  class AgentOrchestrator {
    const disk: Disk
    const files: FileManager
    const sandbox: SandboxExecutor
    var history: seq<Turn>

    ghost predicate Valid()
      reads this, files, sandbox, disk
    {
      files.disk == disk && sandbox.disk == disk && files.Valid() && sandbox.Valid() && files.root == sandbox.root
    }

    /** The settings both services were created with. */
    function Settings(): Config
      reads this, files, sandbox
    {
      Config(files.root, files.maxFileSize, sandbox.maxTimeout, sandbox.maxOutput)
    }

    /** Both services create the session's workspace directory; the history starts empty. */
    constructor(disk: Disk, workspaceDir: Path, sessionId: string, maxFileSize: nat, maxTimeout: int, maxOutput: nat)
      requires WellFormed(disk.fs) && PlainPath(workspaceDir) && PlainSegment(sessionId)
      requires Mkdirs(disk.fs, workspaceDir + [sessionId]).Ok?
      modifies disk
      ensures Valid() && history == [] && this.disk == disk
      ensures Settings() == Config(workspaceDir + [sessionId], maxFileSize, maxTimeout, maxOutput)
      ensures disk.fs == Mkdirs(old(disk.fs), workspaceDir + [sessionId]).value
    {
      this.disk := disk;
      var f := new FileManager(disk, workspaceDir, sessionId, maxFileSize);
      var s := new SandboxExecutor(disk, workspaceDir, sessionId, maxTimeout, maxOutput);
      files := f;
      sandbox := s;
      history := [];
    }

    /** `execute_tool`: the services change the disk; the result is what `Execute` describes. */
    method ExecuteTool(name: string, args: Args, machine: Machine) returns (t: ToolResult)
      requires Valid() && KeepsTree(machine.spawn)
      modifies disk
      ensures Valid()
      ensures (t, disk.fs) == Execute(old(disk.fs), Settings(), machine, name, args)
    {
      if name == "run_command" {
        var r := sandbox.RunCommand(Get(args, "command"), GetOr(args, "cwd", "."), None, machine.spawn, machine.elapsed);
        t := ToolResult(r.success, CommandOutput(Get(args, "command"), r));
      } else if name == "write_file" {
        var path := Get(args, "path");
        var content := Get(args, "content");
        var r: Reply;
        if path.None? {
          r := Failure(NoneOperand);
        } else if content.None? {
          r := files.WriteFileNoContent(path.value);
        } else {
          r := files.WriteFile(path.value, content.value);
        }
        t := ToolResult(r.Success(), WriteOutput(path, r));
      } else if name == "read_file" {
        var path := Get(args, "path");
        var r: Reply;
        if path.None? {
          r := Failure(NoneOperand);
        } else {
          r := files.ReadFile(path.value);
        }
        t := ToolResult(r.Success(), ReadOutput(path, r));
      } else if name == "list_files" {
        var path := GetOr(args, "path", ".");
        var r := files.ListFiles(path);
        t := ToolResult(r.Success(), ListOutput(path, r));
      } else {
        t := ToolResult(false, "Tool desconhecida: " + name);
      }
    }

    /** The body of the loop over a complete message's blocks from its first tool use `k`: announce
      * the action, run the tool, send a command's text to the terminal, report the outcome, and
      * record the message and the tool's result in the history. */
    method AnswerToolUse(blocks: seq<Block>, k: nat, machine: Machine) returns (emitted: seq<Event>)
      requires Valid() && KeepsTree(machine.spawn)
      requires k < |blocks| && blocks[k].ToolUseBlock? && forall m :: 0 <= m < k ==> !blocks[m].ToolUseBlock?
      modifies this, disk
      ensures Valid() && Settings() == old(Settings())
      ensures emitted == Emit(MessageComplete(blocks), old(Agent(history, disk.fs)), Tools(Settings(), machine))
      ensures Agent(history, disk.fs) == NextState(MessageComplete(blocks), old(Agent(history, disk.fs)), Tools(Settings(), machine))
    {
      assert FirstToolUse(blocks) == Some(k);
      var b := blocks[k];
      emitted := [AgentAction(Action(ActionKind(b.name), Invocation(b.name, b.input), Running, None))];
      var t := ExecuteTool(b.name, b.input, machine);
      if b.name == "run_command" {
        emitted := emitted + [TerminalOutput(t.output)];
      }
      emitted := emitted + [AgentAction(Action(ActionKind(b.name), Note(b.name + " concluído"),
                                               if t.success then Succeeded else Errored, Some(t.output)))];
      history := history + [Turn(Assistant, Blocks(blocks)), Turn(User, ToolReply(b.id, t.output))];
    }

    /** The body of the `async for` for one chunk: the events it yields, the new accumulated text,
      * and whether it returned from `process_message`. */
    method HandleChunk(c: Chunk, acc: string, machine: Machine) returns (emitted: seq<Event>, acc1: string, ended: bool)
      requires Valid() && KeepsTree(machine.spawn)
      modifies this, disk
      ensures Valid() && Settings() == old(Settings())
      ensures ended == Ends(c)
      ensures ended ==> emitted == [MessageCompleted(acc)]
                        && Agent(history, disk.fs) == old(Agent(history + [Turn(Assistant, Plain(acc))], disk.fs))
      ensures !ended ==> emitted == Emit(c, old(Agent(history, disk.fs)), Tools(Settings(), machine))
                         && acc1 == NextAcc(c, acc)
                         && Agent(history, disk.fs) == NextState(c, old(Agent(history, disk.fs)), Tools(Settings(), machine))
    {
      acc1, emitted, ended := acc, [], false;
      match c {
        case TextDelta(text) =>
          acc1 := acc + text;
          emitted := [MessageChunk(text)];
        case ToolUseStart(_, toolName) =>
          emitted := [ToolUseStarted(toolName)];
        case ToolInputDelta(_) =>
        case StreamError(_) =>
        case MessageComplete(blocks) =>
          var k := 0;
          while k < |blocks| && !blocks[k].ToolUseBlock?
            invariant k <= |blocks|
            invariant forall m :: 0 <= m < k ==> !blocks[m].ToolUseBlock?
            decreases |blocks| - k
          {
            k := k + 1;
          }
          if k == |blocks| {
            history := history + [Turn(Assistant, Plain(acc))];
            emitted := [MessageCompleted(acc)];
            ended := true;
          } else {
            emitted := AnswerToolUse(blocks, k, machine);
          }
      }
    }

    /** The `async for` over one stream, from an empty `accumulated_text`: the events yielded, and
      * whether a complete message without a tool use returned from `process_message`. */
    method StreamRound(chunks: seq<Chunk>, machine: Machine) returns (emitted: seq<Event>, finished: bool)
      requires Valid() && KeepsTree(machine.spawn)
      modifies this, disk
      ensures Valid() && Settings() == old(Settings())
      ensures var o := Stream(chunks, "", old(Agent(history, disk.fs)), Tools(Settings(), machine));
              emitted == o.events && Agent(history, disk.fs) == o.state && finished == o.finished
    {
      ghost var run := Tools(Settings(), machine);
      ghost var whole := Stream(chunks, "", Agent(history, disk.fs), run);
      var acc := "";
      emitted := [];
      var j := 0;
      while j < |chunks|
        invariant j <= |chunks|
        invariant Valid() && Tools(Settings(), machine) == run
        invariant var o := Stream(chunks[j..], acc, Agent(history, disk.fs), run);
                  emitted + o.events == whole.events && o.state == whole.state && o.finished == whole.finished
        decreases |chunks| - j
      {
        ghost var here := Agent(history, disk.fs);
        ghost var before := emitted;
        assert chunks[j..][0] == chunks[j] && chunks[j..][1..] == chunks[j + 1..];
        var more, acc1, ended := HandleChunk(chunks[j], acc, machine);
        emitted := emitted + more;
        if ended {
          return emitted, true;
        }
        EventsAssoc(before, more, Stream(chunks[j + 1..], acc1, Agent(history, disk.fs), run).events);
        acc := acc1;
        j := j + 1;
      }
      return emitted, false;
    }

    /** `process_message`: the events yielded, in order, and the new history and disk, as `Process`
      * describes them. */
    method ProcessMessage(userMessage: string, mode: string, provider: Provider, machine: Machine)
      returns (events: seq<Event>)
      requires Valid() && KeepsTree(machine.spawn)
      modifies this, disk
      ensures Valid()
      ensures var r := Process(Agent(old(history), old(disk.fs)), Tools(Settings(), machine), provider, userMessage, mode);
              events == r.events && Agent(history, disk.fs) == r.state
    {
      history := history + [Turn(User, Plain(userMessage))];
      var useTools := mode == "agent";
      ghost var run := Tools(Settings(), machine);
      ghost var total := Loop(0, Agent(history, disk.fs), run, provider, useTools);
      var iteration := 0;
      events := [];
      while iteration < MaxIterations
        invariant iteration <= MaxIterations
        invariant Valid() && Tools(Settings(), machine) == run
        invariant events + Loop(iteration, Agent(history, disk.fs), run, provider, useTools).events == total.events
        invariant Loop(iteration, Agent(history, disk.fs), run, provider, useTools).state == total.state
        decreases MaxIterations - iteration
      {
        ghost var here := Agent(history, disk.fs);
        var chunks := provider(iteration, history, useTools);
        iteration := iteration + 1;
        var emitted, finished := StreamRound(chunks, machine);
        if finished {
          events := events + emitted;
          return;
        }
        ghost var next := Loop(iteration, Agent(history, disk.fs), run, provider, useTools);
        EventsAssoc(events, emitted, next.events);
        events := events + emitted;
      }
      events := events + [ErrorEvent(IterationLimitMessage)];
    }
  }
}
