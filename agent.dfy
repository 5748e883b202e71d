/**
 * One conversational turn of the agent: the bounded loop that alternates
 * model calls with tool rounds over a growing message history, and the two
 * output helpers that shorten text for display.
 *
 * The language model is a function from the history it is shown to its
 * response; the system prompt, the tool list and the token budget are the
 * same on every call and are not represented.
 */
module Agent {
  import opened Json
  import opened Strings
  import Client
  import Tools

  // ---------------------------------------------------------------------
  // Messages
  // ---------------------------------------------------------------------

  datatype Role = User | Assistant

  /** A content block: model text, a tool request, or the answer to one. */
  datatype Block =
    | TextBlock(text: string)
    | ToolUseBlock(id: string, name: string, input: map<string, JsonValue>)
    | ToolResultBlock(toolUseId: string, content: JsonValue)

  /** A message's content is either a plain string or a list of blocks. */
  datatype Content = Plain(text: string) | Blocks(blocks: seq<Block>)

  datatype Message = Message(role: Role, content: Content)

  datatype ModelResponse = ModelResponse(content: seq<Block>, stopReason: string)

  /** The model, as a function of the history it is sent. */
  type Model = seq<Message> -> ModelResponse

  /** `execute_tool` with the client fixed: a tool name and input to the result record. */
  type Executor = (string, map<string, JsonValue>) -> JsonValue

  const MaxIterations: nat := 50
  const EndTurn: string := "end_turn"
  const ToolUseStop: string := "tool_use"

  function AssistantMessage(resp: ModelResponse): Message {
    Message(Assistant, Blocks(resp.content))
  }

  function ClientExecutor(baseUrl: string, transport: Client.Transport): Executor {
    (name, input) => Tools.ExecuteTool(name, input, baseUrl, transport)
  }

  // ---------------------------------------------------------------------
  // Tool rounds
  // ---------------------------------------------------------------------

  /** The tool-use blocks of a response, in content order. */
  function ToolUses(content: seq<Block>): (r: seq<Block>)
    ensures |r| <= |content|
    ensures forall i :: 0 <= i < |r| ==> r[i].ToolUseBlock? && r[i] in content
    ensures forall i :: 0 <= i < |content| && content[i].ToolUseBlock? ==> content[i] in r
  {
    if content == [] then []
    else
      var last := content[|content| - 1];
      var front := content[..|content| - 1];
      assert forall i :: 0 <= i < |front| ==> front[i] == content[i];
      ToolUses(front) + (if last.ToolUseBlock? then [last] else [])
  }

  /** Tool requests are collected in content order: the requests of a concatenation are concatenated. */
  lemma {:induction false} ToolUsesConcat(a: seq<Block>, b: seq<Block>)
    ensures ToolUses(a + b) == ToolUses(a) + ToolUses(b)
    decreases |b|
  {
    if b == [] {
      assert a + b == a;
    } else {
      var c := a + b;
      assert c[..|c| - 1] == a + b[..|b| - 1];
      assert c[|c| - 1] == b[|b| - 1];
      ToolUsesConcat(a, b[..|b| - 1]);
    }
  }

  /** The results list of a tool round, built block by block as the loop over the content does. */
  function ToolResults(content: seq<Block>, exec: Executor): (r: seq<Block>)
    ensures |r| <= |content|
    ensures forall i :: 0 <= i < |r| ==> r[i].ToolResultBlock?
  {
    if content == [] then []
    else
      var last := content[|content| - 1];
      var prev := ToolResults(content[..|content| - 1], exec);
      if last.ToolUseBlock? then prev + [ToolResultBlock(last.id, exec(last.name, last.input))] else prev
  }

  /**
   * A tool round answers every tool request exactly once, in order, under
   * the request's id, with what the executor returns for its name and input;
   * text blocks are skipped.
   */
  lemma {:induction false} ToolResultsAnswerRequests(content: seq<Block>, exec: Executor)
    ensures |ToolResults(content, exec)| == |ToolUses(content)|
    ensures forall i :: 0 <= i < |ToolUses(content)| ==>
      var u := ToolUses(content)[i];
      ToolResults(content, exec)[i] == ToolResultBlock(u.id, exec(u.name, u.input))
  {
    if content != [] {
      ToolResultsAnswerRequests(content[..|content| - 1], exec);
    }
  }

  // ---------------------------------------------------------------------
  // The loop, as a function
  // ---------------------------------------------------------------------

  datatype Status = Done | Stopped(reason: string) | CapReached

  /** Where a turn ends: the final history, the number of model calls, and why it stopped. */
  datatype TurnEnd = TurnEnd(history: seq<Message>, calls: nat, status: Status)

  /** The loop from a history with `fuel` model calls left. */
  function Loop(h: seq<Message>, fuel: nat, model: Model, exec: Executor): (r: TurnEnd)
    ensures r.calls <= fuel
    ensures fuel > 0 ==> r.calls >= 1
    ensures r.status == CapReached ==> r.calls == fuel
    decreases fuel
  {
    if fuel == 0 then TurnEnd(h, 0, CapReached)
    else
      var resp := model(h);
      var answered := h + [AssistantMessage(resp)];
      if resp.stopReason == EndTurn then TurnEnd(answered, 1, Done)
      else if resp.stopReason == ToolUseStop then
        var rest := Loop(answered + [Message(User, Blocks(ToolResults(resp.content, exec)))], fuel - 1, model, exec);
        TurnEnd(rest.history, rest.calls + 1, rest.status)
      else TurnEnd(answered, 1, Stopped(resp.stopReason))
  }

  /** `run_agent`: append the user message, then loop with the iteration cap. */
  function Turn(h: seq<Message>, userMessage: string, model: Model, exec: Executor): (r: TurnEnd)
    ensures 1 <= r.calls <= MaxIterations
    ensures r.status == CapReached ==> r.calls == MaxIterations
  {
    Loop(h + [Message(User, Plain(userMessage))], MaxIterations, model, exec)
  }

  /** The history the model was shown at its call number `k` (from 0), counted from `base`. */
  function Prompt(hist: seq<Message>, base: nat, k: nat): seq<Message>
    requires base + 2 * k <= |hist|
  {
    hist[..base + 2 * k]
  }

  /** The assistant message recorded for call number `k`. */
  function Answer(hist: seq<Message>, base: nat, k: nat): Message
    requires base + 2 * k < |hist|
  {
    hist[base + 2 * k]
  }

  /** The tool-result message that follows call number `k`. */
  function Results(hist: seq<Message>, base: nat, k: nat): Message
    requires base + 2 * k + 1 < |hist|
  {
    hist[base + 2 * k + 1]
  }

  /**
   * The loop only appends; each call adds its assistant message and each
   * tool round one more message.
   */
  lemma {:induction false} LoopShape(h: seq<Message>, fuel: nat, model: Model, exec: Executor)
    ensures h <= Loop(h, fuel, model, exec).history
    ensures |Loop(h, fuel, model, exec).history| ==
      |h| + 2 * Loop(h, fuel, model, exec).calls - (if Loop(h, fuel, model, exec).status == CapReached then 0 else 1)
    decreases fuel
  {
    if fuel > 0 {
      var resp := model(h);
      if resp.stopReason != EndTurn && resp.stopReason == ToolUseStop {
        var next := h + [AssistantMessage(resp)] + [Message(User, Blocks(ToolResults(resp.content, exec)))];
        LoopShape(next, fuel - 1, model, exec);
      }
    }
  }

  /** Call number `k` of the loop from `h` is call number `k - 1` of the loop after the first round. */
  lemma ShiftCall(hh: seq<Message>, b: nat, k: nat)
    requires 1 <= k && b + 2 * k < |hh|
    ensures Answer(hh, b, k) == Answer(hh, b + 2, k - 1)
    ensures Prompt(hh, b, k) == Prompt(hh, b + 2, k - 1)
    ensures b + 2 * k + 1 < |hh| ==> Results(hh, b, k) == Results(hh, b + 2, k - 1)
  {
  }

  /** Call `k`'s assistant message is the model's answer to exactly the history before it. */
  lemma {:induction false} LoopAnswers(h: seq<Message>, fuel: nat, model: Model, exec: Executor)
    ensures |h| + 2 * Loop(h, fuel, model, exec).calls <= |Loop(h, fuel, model, exec).history| + 1
    ensures
      var r := Loop(h, fuel, model, exec);
      forall k :: 0 <= k < r.calls ==> Answer(r.history, |h|, k) == AssistantMessage(model(Prompt(r.history, |h|, k)))
    decreases fuel
  {
    LoopShape(h, fuel, model, exec);
    if fuel > 0 {
      var r := Loop(h, fuel, model, exec);
      var resp := model(h);
      assert r.history[..|h|] == h;
      if resp.stopReason == ToolUseStop && resp.stopReason != EndTurn {
        var next := h + [AssistantMessage(resp)] + [Message(User, Blocks(ToolResults(resp.content, exec)))];
        LoopShape(next, fuel - 1, model, exec);
        LoopAnswers(next, fuel - 1, model, exec);
        assert r.history[|h|] == next[|h|];
        forall k | 1 <= k < r.calls
          ensures Answer(r.history, |h|, k) == AssistantMessage(model(Prompt(r.history, |h|, k)))
        {
          ShiftCall(r.history, |h|, k);
        }
      }
    }
  }

  /**
   * Every call but the last (and the last too when the cap was hit) stopped
   * for tool use and is followed by the results of its tool requests.
   */
  lemma {:induction false} LoopRounds(h: seq<Message>, fuel: nat, model: Model, exec: Executor)
    ensures
      var r := Loop(h, fuel, model, exec);
      |h| + 2 * r.calls <= |r.history| + 1 && (r.status == CapReached ==> |h| + 2 * r.calls == |r.history|)
    ensures
      var r := Loop(h, fuel, model, exec);
      forall k :: 0 <= k < r.calls && (k + 1 < r.calls || r.status == CapReached) ==>
        && model(Prompt(r.history, |h|, k)).stopReason == ToolUseStop
        && Results(r.history, |h|, k) == Message(User, Blocks(ToolResults(model(Prompt(r.history, |h|, k)).content, exec)))
    decreases fuel
  {
    LoopShape(h, fuel, model, exec);
    if fuel > 0 {
      var r := Loop(h, fuel, model, exec);
      var resp := model(h);
      assert r.history[..|h|] == h;
      if resp.stopReason == ToolUseStop && resp.stopReason != EndTurn {
        var next := h + [AssistantMessage(resp)] + [Message(User, Blocks(ToolResults(resp.content, exec)))];
        LoopShape(next, fuel - 1, model, exec);
        LoopRounds(next, fuel - 1, model, exec);
        assert Prompt(r.history, |h|, 0) == h;
        assert Results(r.history, |h|, 0) == next[|h| + 1];
        forall k | 1 <= k < r.calls && (k + 1 < r.calls || r.status == CapReached)
          ensures model(Prompt(r.history, |h|, k)).stopReason == ToolUseStop
          ensures Results(r.history, |h|, k)
            == Message(User, Blocks(ToolResults(model(Prompt(r.history, |h|, k)).content, exec)))
        {
          ShiftCall(r.history, |h|, k);
        }
      }
    }
  }

  /** A turn that ended did so on "end_turn"; any other stop reason is reported as it came. */
  lemma {:induction false} LoopEnding(h: seq<Message>, fuel: nat, model: Model, exec: Executor)
    ensures |h| + 2 * Loop(h, fuel, model, exec).calls <= |Loop(h, fuel, model, exec).history| + 1
    ensures
      var r := Loop(h, fuel, model, exec);
      r.status == Done ==> r.calls >= 1 && model(Prompt(r.history, |h|, r.calls - 1)).stopReason == EndTurn
    ensures
      var r := Loop(h, fuel, model, exec);
      r.status.Stopped? ==>
        && r.calls >= 1
        && model(Prompt(r.history, |h|, r.calls - 1)).stopReason == r.status.reason
        && r.status.reason != EndTurn && r.status.reason != ToolUseStop
    decreases fuel
  {
    LoopShape(h, fuel, model, exec);
    if fuel > 0 {
      var r := Loop(h, fuel, model, exec);
      var resp := model(h);
      assert r.history[..|h|] == h;
      if resp.stopReason == ToolUseStop && resp.stopReason != EndTurn {
        var next := h + [AssistantMessage(resp)] + [Message(User, Blocks(ToolResults(resp.content, exec)))];
        LoopShape(next, fuel - 1, model, exec);
        LoopEnding(next, fuel - 1, model, exec);
        var rest := Loop(next, fuel - 1, model, exec);
        assert r == TurnEnd(rest.history, rest.calls + 1, rest.status);
        if !rest.status.CapReached? {
          assert rest.calls >= 1;
          assert Prompt(rest.history, |h|, r.calls - 1) == Prompt(rest.history, |next|, rest.calls - 1);
        }
      }
    }
  }

  /** A model that always asks for tools is called exactly `fuel` times. */
  lemma {:induction false} AlwaysToolUseHitsCap(h: seq<Message>, fuel: nat, model: Model, exec: Executor)
    requires forall hist :: model(hist).stopReason == ToolUseStop
    ensures Loop(h, fuel, model, exec).calls == fuel
    ensures Loop(h, fuel, model, exec).status == CapReached
    decreases fuel
  {
    if fuel > 0 {
      var resp := model(h);
      AlwaysToolUseHitsCap(h + [AssistantMessage(resp)] + [Message(User, Blocks(ToolResults(resp.content, exec)))],
        fuel - 1, model, exec);
    }
  }

  // ---------------------------------------------------------------------
  // Whole turns
  // ---------------------------------------------------------------------

  /**
   * A turn keeps the earlier history, appends the user message first, calls
   * the model at least once and at most 50 times, and adds two messages per
   * call less one unless the cap ended it.
   */
  lemma TurnShape(h: seq<Message>, userMessage: string, model: Model, exec: Executor)
    ensures h + [Message(User, Plain(userMessage))] <= Turn(h, userMessage, model, exec).history
    ensures |Turn(h, userMessage, model, exec).history| == |h| + 2 * Turn(h, userMessage, model, exec).calls
      + (if Turn(h, userMessage, model, exec).status == CapReached then 1 else 0)
  {
    LoopShape(h + [Message(User, Plain(userMessage))], MaxIterations, model, exec);
  }

  /** An immediate "end_turn" adds exactly the user message and the answer. */
  lemma ImmediateEndTurn(h: seq<Message>, userMessage: string, model: Model, exec: Executor)
    requires model(h + [Message(User, Plain(userMessage))]).stopReason == EndTurn
    ensures |Turn(h, userMessage, model, exec).history| == |h| + 2
    ensures Turn(h, userMessage, model, exec) == TurnEnd(
      h + [Message(User, Plain(userMessage)), AssistantMessage(model(h + [Message(User, Plain(userMessage))]))],
      1, Done)
  {
  }

  /** Any other stop reason ends the turn at once, with no tool round. */
  lemma UnexpectedStopEndsTurn(h: seq<Message>, userMessage: string, model: Model, exec: Executor)
    requires model(h + [Message(User, Plain(userMessage))]).stopReason != EndTurn
    requires model(h + [Message(User, Plain(userMessage))]).stopReason != ToolUseStop
    ensures |Turn(h, userMessage, model, exec).history| == |h| + 2
    ensures Turn(h, userMessage, model, exec).calls == 1
    ensures Turn(h, userMessage, model, exec).status
      == Stopped(model(h + [Message(User, Plain(userMessage))]).stopReason)
  {
  }

  /** One tool round followed by "end_turn": four messages, two model calls. */
  lemma OneToolRound(h: seq<Message>, userMessage: string, model: Model, exec: Executor)
    requires
      var asked := h + [Message(User, Plain(userMessage))];
      var first := model(asked);
      && first.stopReason == ToolUseStop
      && model(asked + [AssistantMessage(first), Message(User, Blocks(ToolResults(first.content, exec)))]).stopReason
         == EndTurn
    ensures |Turn(h, userMessage, model, exec).history| == |h| + 4
    ensures Turn(h, userMessage, model, exec).calls == 2
    ensures Turn(h, userMessage, model, exec).status == Done
  {
    var asked := h + [Message(User, Plain(userMessage))];
    var first := model(asked);
    assert asked + [AssistantMessage(first)] + [Message(User, Blocks(ToolResults(first.content, exec)))]
      == asked + [AssistantMessage(first), Message(User, Blocks(ToolResults(first.content, exec)))];
  }

  /** A model that always asks for tools is called 50 times; the turn adds 101 messages. */
  lemma EndlessToolUseIsCapped(h: seq<Message>, userMessage: string, model: Model, exec: Executor)
    requires forall hist :: model(hist).stopReason == ToolUseStop
    ensures Turn(h, userMessage, model, exec).calls == MaxIterations
    ensures Turn(h, userMessage, model, exec).status == CapReached
    ensures |Turn(h, userMessage, model, exec).history| == |h| + 101
  {
    AlwaysToolUseHitsCap(h + [Message(User, Plain(userMessage))], MaxIterations, model, exec);
    TurnShape(h, userMessage, model, exec);
  }

  // ---------------------------------------------------------------------
  // The conversation object
  // ---------------------------------------------------------------------

  /** The conversation history the caller owns and `run_agent` appends to in place. */
  class Conversation {
    var history: seq<Message>

    constructor (history: seq<Message>)
      ensures this.history == history
    {
      this.history := history;
    }

    /** The `for` loop over a `tool_use` response: one result per tool request, in order. */
    static method RunToolRound(client: Client.ServiceNowClient, content: seq<Block>) returns (toolResults: seq<Block>)
      ensures toolResults == ToolResults(content, ClientExecutor(client.baseUrl, client.transport))
    {
      ghost var exec := ClientExecutor(client.baseUrl, client.transport);
      toolResults := [];
      for i := 0 to |content|
        invariant toolResults == ToolResults(content[..i], exec)
      {
        var block := content[i];
        assert content[..i + 1][..i] == content[..i];
        if block.ToolUseBlock? {
          var result := Tools.ExecuteTool(block.name, block.input, client.baseUrl, client.transport);
          toolResults := toolResults + [ToolResultBlock(block.id, result)];
        }
      }
      assert content[..|content|] == content;
    }

    /** `run_agent`: one turn, with the tools executed against the given client. */
    method RunAgent(client: Client.ServiceNowClient, userMessage: string, model: Model) returns (ghost calls: nat)
      modifies this
      ensures
        var t := Turn(old(history), userMessage, model, ClientExecutor(client.baseUrl, client.transport));
        history == t.history && calls == t.calls
    {
      ghost var exec := ClientExecutor(client.baseUrl, client.transport);
      history := history + [Message(User, Plain(userMessage))];
      ghost var t := Loop(history, MaxIterations, model, exec);
      var iteration := 0;
      while iteration < MaxIterations
        invariant 0 <= iteration <= MaxIterations
        invariant Resumes(history, MaxIterations - iteration, iteration, t, model, exec)
      {
        ghost var before := history;
        ghost var fuel := MaxIterations - iteration;
        iteration := iteration + 1;
        var response := model(history);
        history := history + [AssistantMessage(response)];
        if response.stopReason == EndTurn {
          LoopStep(before, fuel, model, exec);
          break;
        }
        if response.stopReason == ToolUseStop {
          var toolResults := RunToolRound(client, response.content);
          history := history + [Message(User, Blocks(toolResults))];
          LoopStep(before, fuel, model, exec);
        } else {
          LoopStep(before, fuel, model, exec);
          break;
        }
      }
      calls := iteration;
    }
  }

  /** Running the loop from `h` with `fuel` calls left, after `done` calls, finishes as `t`. */
  ghost predicate Resumes(h: seq<Message>, fuel: nat, done: nat, t: TurnEnd, model: Model, exec: Executor) {
    var r := Loop(h, fuel, model, exec);
    r.history == t.history && r.calls + done == t.calls && r.status == t.status
  }

  /** One pass of the loop body. */
  lemma LoopStep(h: seq<Message>, fuel: nat, model: Model, exec: Executor)
    requires fuel > 0
    ensures
      var resp := model(h);
      var answered := h + [AssistantMessage(resp)];
      var rest := Loop(answered + [Message(User, Blocks(ToolResults(resp.content, exec)))], fuel - 1, model, exec);
      Loop(h, fuel, model, exec) ==
        if resp.stopReason == EndTurn then TurnEnd(answered, 1, Done)
        else if resp.stopReason == ToolUseStop then TurnEnd(rest.history, rest.calls + 1, rest.status)
        else TurnEnd(answered, 1, Stopped(resp.stopReason))
  {
  }

  // ---------------------------------------------------------------------
  // Output helpers
  // ---------------------------------------------------------------------

  const ResultPreviewLength: nat := 400
  const SummaryLength: nat := 120
  const TruncationMarker: string := "\n  ...(truncated)"
  const SummaryMarker: string := "..."

  /** The first `maxLen` characters followed by `marker` when `s` is longer, else `s` itself. */
  function Shorten(s: string, maxLen: nat, marker: string): (r: string)
    ensures Take(s, maxLen) <= r
    ensures |r| <= maxLen + |marker| || r == s
    ensures |s| <= maxLen ==> r == s
    ensures |s| > maxLen ==> r[maxLen..] == marker
  {
    if |s| > maxLen then s[..maxLen] + marker else s
  }

  /** `_truncate`. */
  function Truncate(s: string, maxLen: nat): (r: string)
    ensures Take(s, maxLen) <= r
    ensures |s| <= maxLen ==> r == s
    ensures |s| > maxLen ==> r == Take(s, maxLen) + TruncationMarker
  {
    Shorten(s, maxLen, TruncationMarker)
  }

  /** `_summarize`, given the JSON encoder that renders the tool input as text. */
  function Summarize(input: map<string, JsonValue>, encode: map<string, JsonValue> -> string, maxLen: nat): (r: string)
    ensures Take(encode(input), maxLen) <= r
    ensures |encode(input)| <= maxLen ==> r == encode(input)
    ensures |encode(input)| > maxLen ==> r == Take(encode(input), maxLen) + SummaryMarker
  {
    Shorten(encode(input), maxLen, SummaryMarker)
  }

  /**
   * With the lengths `run_agent` uses, a tool result is previewed in at most
   * 400 characters plus the marker and a tool input in at most 120 plus "...".
   */
  lemma PreviewsAreBounded(result: string, input: map<string, JsonValue>, encode: map<string, JsonValue> -> string)
    ensures |Truncate(result, ResultPreviewLength)| <= 400 + |TruncationMarker|
    ensures |Summarize(input, encode, SummaryLength)| <= 120 + |SummaryMarker|
    ensures |result| <= 400 ==> Truncate(result, ResultPreviewLength) == result
    ensures |encode(input)| <= 120 ==> Summarize(input, encode, SummaryLength) == encode(input)
  {
  }

  /** Text within the limit is shown unchanged; longer text keeps its head and is marked, so the two never mix. */
  lemma ShortenedIsMarked(s: string, maxLen: nat, marker: string)
    requires marker != ""
    ensures |Shorten(s, maxLen, marker)| > maxLen <==> |s| > maxLen
    ensures |s| > maxLen ==> Shorten(s, maxLen, marker) == Take(s, maxLen) + marker
  {
  }
}
