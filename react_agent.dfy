/** The ReAct loop: ask the reasoning model for the next step, parse its
    reply line by line, run the named action through the kernel, append the
    observation to the chat history, and repeat until a final answer or the
    iteration budget runs out. The reasoning model, the kernel's function
    table and invocation, and `json.loads` are oracles held in an `Env`. */
module ReactAgent {
  import opened Text

  // ---------------------------------------------------------------------
  // The oracles

  /** What `json.loads` can produce, as far as the loop cares: `null`, a
      string, an object, or any other value (named by its Python type). */
  datatype JsonValue =
    | JNull
    | JString(text: string)
    | JObject(members: map<string, JsonValue>)
    | JOther(typeName: string)

  /** A chat message, tagged with its role. */
  datatype Message = User(text: string) | Assistant(text: string)

  /** One call of the reasoning agent: the contents of the messages it
      streamed back, or the text of the exception it raised. */
  datatype Reply = Responded(contents: seq<string>) | Raised(error: string)

  /** A kernel function's metadata; an empty plugin name stands for none. */
  datatype FunctionMeta = FunctionMeta(pluginName: string, name: string)

  /** `kernel.get_function`: a function, a falsy value, or an exception. */
  datatype Lookup = Found | NotFound | LookupRaised(error: string)

  /** `function.invoke`: the result's value (if not `None`), or an exception. */
  datatype Outcome = Returned(value: Option<string>) | InvokeRaised(error: string)

  datatype Kernel = Kernel(
    functions: seq<FunctionMeta>,
    getFunction: (string, string) -> Lookup,
    /** The `k`-th invocation of the loop's run, with its plugin, function
        and arguments. */
    invoke: (nat, string, string, map<string, JsonValue>) -> Outcome,
    /** The text of the `TypeError` raised when the arguments are not a mapping. */
    notMapping: JsonValue -> string)

  datatype Env = Env(
    /** The reasoning agent on turn `n`, given the chat history. */
    complete: (nat, seq<Message>) -> Reply,
    /** `json.loads`; `None` stands for a `JSONDecodeError`. */
    decode: string -> Option<JsonValue>,
    kernel: Kernel)

  // ---------------------------------------------------------------------
  // Messages

  /** The error mark as the source spells it (the bytes of a cross mark
      decoded as Mac Roman). */
  const CrossMark := "\U{201A}\U{F9}\U{E5}"
  const CheckMarkDone := "\U{201A}\U{FA}\U{D6} Action completed successfully"
  const MaxIterationsMessage := CrossMark + " Maximum iterations reached without finding a final answer."

  function IterationError(k: nat, error: string): string {
    CrossMark + " Error in iteration " + NatToString(k) + ": " + error
  }

  function NoPluginMessage(action: string): string {
    CrossMark + " Could not find plugin for function: " + action
  }

  function FunctionNotFoundMessage(action: string): string {
    CrossMark + " Function not found: " + action
  }

  function ExecutionError(action: string, error: string): string {
    CrossMark + " Error executing action " + action + ": " + error
  }

  // ---------------------------------------------------------------------
  // Parsing a reply

  /** The fields of a `ReActIteration`. */
  datatype IterationFields = IterationFields(
    thought: string, action: string, actionInput: JsonValue, observation: string)

  /** A fresh iteration: `action_input` defaults to an empty dict. */
  const EmptyFields := IterationFields("", "", JObject(map[]), "")

  /** A line carries at most one of the four tags: they differ in their
      first character, except "Action:" and "Action Input:", which differ in
      the seventh. */
  lemma TagsExclusive(line: string)
    ensures StartsWith(line, "Thought:") ==>
      !StartsWith(line, "Action:") && !StartsWith(line, "Action Input:") && !StartsWith(line, "Final Answer:")
    ensures StartsWith(line, "Action Input:") ==> !StartsWith(line, "Action:")
    ensures StartsWith(line, "Final Answer:") ==>
      !StartsWith(line, "Thought:") && !StartsWith(line, "Action:") && !StartsWith(line, "Action Input:")
  {
    if StartsWith(line, "Thought:") {
      CharOfPrefix(line, "Thought:", 0);
    }
    if StartsWith(line, "Action:") {
      CharOfPrefix(line, "Action:", 0);
      CharOfPrefix(line, "Action:", 6);
    }
    if StartsWith(line, "Action Input:") {
      CharOfPrefix(line, "Action Input:", 0);
      CharOfPrefix(line, "Action Input:", 6);
    }
    if StartsWith(line, "Final Answer:") {
      CharOfPrefix(line, "Final Answer:", 0);
    }
  }

  lemma CharOfPrefix(line: string, tag: string, i: nat)
    requires StartsWith(line, tag) && i < |tag|
    ensures line[i] == tag[i]
  {
    assert line[..|tag|][i] == line[i];
  }

  /** The `Action Input:` payload: empty text is an empty object, text that
      does not decode is wrapped under "input", and decoded text is kept. */
  function ParseInput(raw: string, decode: string -> Option<JsonValue>): (v: JsonValue)
    ensures raw == [] ==> v == JObject(map[])
    ensures raw != [] && decode(raw).None? ==> v == JObject(map["input" := JString(raw)])
    ensures raw != [] && decode(raw).Some? ==> v == decode(raw).value
    ensures v.JNull? ==> raw != [] && decode(raw) == Some(JNull)
  {
    if raw == [] then JObject(map[])
    else match decode(raw)
      case None => JObject(map["input" := JString(raw)])
      case Some(value) => value
  }

  /** What a stripped line that is not a final answer does to the fields:
      a tag line overwrites its own field and nothing else. */
  function ApplyLine(line: string, f: IterationFields, decode: string -> Option<JsonValue>): (g: IterationFields)
    ensures g.observation == f.observation
    ensures StartsWith(line, "Thought:") ==> g == f.(thought := Strip(line[8..]))
    ensures StartsWith(line, "Action:") ==> g == f.(action := Strip(line[7..]))
    ensures StartsWith(line, "Action Input:") ==> g == f.(actionInput := ParseInput(Strip(line[13..]), decode))
    ensures !StartsWith(line, "Thought:") && !StartsWith(line, "Action:") && !StartsWith(line, "Action Input:")
      ==> g == f
  {
    TagsExclusive(line);
    if StartsWith(line, "Thought:") then f.(thought := Strip(line[8..]))
    else if StartsWith(line, "Action:") then f.(action := Strip(line[7..]))
    else if StartsWith(line, "Action Input:") then f.(actionInput := ParseInput(Strip(line[13..]), decode))
    else f
  }

  predicate IsFinalLine(line: string) {
    StartsWith(Strip(line), "Final Answer:")
  }

  function FinalText(line: string): string
    requires IsFinalLine(line)
  {
    Strip(Strip(line)[13..])
  }

  /** The fields after a parse, and the final answer if a line gave one. */
  datatype Parse = Parse(fields: IterationFields, final: Option<string>)

  /** What the loop of `_parse_response` computes over the reply's lines. */
  function ParseLines(lines: seq<string>, f: IterationFields, decode: string -> Option<JsonValue>): (p: Parse)
    ensures p.fields.observation == f.observation
    ensures p.final.Some? <==> exists k :: 0 <= k < |lines| && IsFinalLine(lines[k])
  {
    if lines == [] then Parse(f, None)
    else
      var line := Strip(lines[0]);
      TagsExclusive(line);
      if IsFinalLine(lines[0]) then Parse(f, Some(Strip(line[13..])))
      else
        FinalLineInTail(lines);
        ParseLines(lines[1..], ApplyLine(line, f, decode), decode)
  }

  /** A list whose first line is not a final answer holds one exactly when
      its tail does. */
  lemma FinalLineInTail(lines: seq<string>)
    requires lines != [] && !IsFinalLine(lines[0])
    ensures (exists k :: 0 <= k < |lines| && IsFinalLine(lines[k])) <==>
      (exists k :: 0 <= k < |lines[1..]| && IsFinalLine(lines[1..][k]))
  {
    var rest := lines[1..];
    if exists k :: 0 <= k < |lines| && IsFinalLine(lines[k]) {
      var k :| 0 <= k < |lines| && IsFinalLine(lines[k]);
      assert rest[k - 1] == lines[k];
    }
    if exists k :: 0 <= k < |rest| && IsFinalLine(rest[k]) {
      var k :| 0 <= k < |rest| && IsFinalLine(rest[k]);
      assert lines[k + 1] == rest[k];
    }
  }

  /** `_parse_response`: the stripped reply, split at newlines. */
  function ParseReply(response: string, f: IterationFields, decode: string -> Option<JsonValue>): Parse {
    ParseLines(Split(Strip(response), '\n'), f, decode)
  }

  /** Parsing a concatenation: stop inside the first part if it holds a final
      answer, and otherwise continue into the second from where the first
      left the fields. Lines after a final answer are therefore never read. */
  lemma {:induction false} ParseLinesAppend(a: seq<string>, b: seq<string>, f: IterationFields,
                                            decode: string -> Option<JsonValue>)
    ensures ParseLines(a + b, f, decode) ==
      if ParseLines(a, f, decode).final.Some? then ParseLines(a, f, decode)
      else ParseLines(b, ParseLines(a, f, decode).fields, decode)
    decreases |a|
  {
    if a == [] {
      assert a + b == b;
    } else {
      assert (a + b)[0] == a[0];
      assert (a + b)[1..] == a[1..] + b;
      if !IsFinalLine(a[0]) {
        ParseLinesAppend(a[1..], b, ApplyLine(Strip(a[0]), f, decode), decode);
      }
    }
  }

  /** The first final-answer line decides the answer; the fields are those
      left by the lines before it. */
  lemma {:induction false} FirstFinalAnswerWins(lines: seq<string>, k: nat, f: IterationFields,
                                               decode: string -> Option<JsonValue>)
    requires k < |lines| && IsFinalLine(lines[k])
    requires forall j :: 0 <= j < k ==> !IsFinalLine(lines[j])
    ensures ParseLines(lines, f, decode) == Parse(ParseLines(lines[..k], f, decode).fields, Some(FinalText(lines[k])))
  {
    assert lines == lines[..k] + lines[k..];
    ParseLinesAppend(lines[..k], lines[k..], f, decode);
    assert forall j :: 0 <= j < k ==> lines[..k][j] == lines[j];
    assert lines[k..][0] == lines[k];
  }

  /** Whether a final answer is found depends on the lines alone, not on the
      fields carried in. */
  lemma {:induction false} FinalIgnoresFields(lines: seq<string>, f: IterationFields, g: IterationFields,
                                             decode: string -> Option<JsonValue>)
    ensures ParseLines(lines, f, decode).final == ParseLines(lines, g, decode).final
    decreases |lines|
  {
    if lines != [] && !IsFinalLine(lines[0]) {
      var line := Strip(lines[0]);
      FinalIgnoresFields(lines[1..], ApplyLine(line, f, decode), ApplyLine(line, g, decode), decode);
    }
  }

  /** One step of the line scan at position `i`. */
  lemma ParseLinesAt(lines: seq<string>, i: nat, f: IterationFields, decode: string -> Option<JsonValue>)
    requires i < |lines|
    ensures ParseLines(lines[i..], f, decode) ==
      if IsFinalLine(lines[i]) then Parse(f, Some(FinalText(lines[i])))
      else ParseLines(lines[i + 1..], ApplyLine(Strip(lines[i]), f, decode), decode)
  {
    assert lines[i..][0] == lines[i] && lines[i..][1..] == lines[i + 1..];
  }

  /** Worked example of `ParseLines`: of two thought lines, the later one
      is kept, because each matching line overwrites the field. */
  lemma LaterThoughtWins(first: string, second: string, f: IterationFields, decode: string -> Option<JsonValue>)
    requires StartsWith(Strip(first), "Thought:") && StartsWith(Strip(second), "Thought:")
    ensures ParseLines([first, second], f, decode).fields.thought == Strip(Strip(second)[8..])
    ensures ParseLines([first, second], f, decode).final == None
  {
    TagsExclusive(Strip(first));
    TagsExclusive(Strip(second));
    var lines := [first, second];
    ParseLinesAt(lines, 0, f, decode);
    ParseLinesAt(lines, 1, ApplyLine(Strip(first), f, decode), decode);
    assert lines[2..] == [];
  }

  // ---------------------------------------------------------------------
  // Resolving and running an action

  /** The metadata scan: the index of the first function named `name`. */
  function FirstNamed(functions: seq<FunctionMeta>, name: string): (r: Option<nat>)
    ensures r.Some? ==>
      (r.value < |functions| && functions[r.value].name == name
       && forall j :: 0 <= j < r.value ==> functions[j].name != name)
    ensures r.None? ==> forall j :: 0 <= j < |functions| ==> functions[j].name != name
  {
    if functions == [] then None
    else if functions[0].name == name then Some(0)
    else match FirstNamed(functions[1..], name)
      case None => None
      case Some(i) => Some(i + 1)
  }

  /** Splits the action name into plugin and function: at the first '.', or
      else the plugin of the first function with that name ("" if none). */
  function Resolve(action: string, functions: seq<FunctionMeta>): (r: (string, string))
    ensures '.' in action ==> r.0 + "." + r.1 == action && '.' !in r.0
    ensures '.' !in action ==> r.1 == action
    ensures '.' !in action && r.0 != [] ==> exists j :: 0 <= j < |functions| && functions[j] == FunctionMeta(r.0, action)
    ensures '.' !in action ==>
      r.0 == match FirstNamed(functions, action) case None => "" case Some(j) => functions[j].pluginName
  {
    if '.' in action then
      var i := FirstIndex(action, '.');
      assert action == action[..i] + "." + action[i + 1..];
      (action[..i], action[i + 1..])
    else
      match FirstNamed(functions, action)
      case None => ("", action)
      case Some(j) => (functions[j].pluginName, action)
  }

  /** Worked example of `Resolve`'s contract: an undotted name resolves to
      the plugin of the first function that carries it, whatever later
      functions of that name belong to. */
  lemma ResolvesToFirstMatch(action: string, functions: seq<FunctionMeta>, j: nat)
    requires '.' !in action
    requires j < |functions| && functions[j].name == action
    requires forall i :: 0 <= i < j ==> functions[i].name != action
    ensures Resolve(action, functions) == (functions[j].pluginName, action)
  {
  }

  /** What `_execute_action` returns. */
  function ActionObservation(action: string, input: JsonValue, kernel: Kernel, k: nat): (obs: string)
    ensures Resolve(action, kernel.functions).0 == [] ==> obs == NoPluginMessage(action)
    ensures var (plugin, name) := Resolve(action, kernel.functions);
      plugin != [] && kernel.getFunction(plugin, name) == NotFound ==> obs == FunctionNotFoundMessage(action)
    ensures var (plugin, name) := Resolve(action, kernel.functions);
      plugin != [] && kernel.getFunction(plugin, name).LookupRaised? ==>
        obs == ExecutionError(action, kernel.getFunction(plugin, name).error)
    ensures var (plugin, name) := Resolve(action, kernel.functions);
      plugin != [] && kernel.getFunction(plugin, name) == Found && !input.JObject? ==>
        obs == ExecutionError(action, kernel.notMapping(input))
    ensures var (plugin, name) := Resolve(action, kernel.functions);
      plugin != [] && kernel.getFunction(plugin, name) == Found && input.JObject? ==>
        match kernel.invoke(k, plugin, name, input.members)
        case InvokeRaised(e) => obs == ExecutionError(action, e)
        case Returned(None) => obs == CheckMarkDone
        case Returned(Some(v)) => obs == v
  {
    var (plugin, functionName) := Resolve(action, kernel.functions);
    if plugin == [] then NoPluginMessage(action)
    else match kernel.getFunction(plugin, functionName)
      case NotFound => FunctionNotFoundMessage(action)
      case LookupRaised(e) => ExecutionError(action, e)
      case Found =>
        if !input.JObject? then ExecutionError(action, kernel.notMapping(input))
        else match kernel.invoke(k, plugin, functionName, input.members)
          case InvokeRaised(e) => ExecutionError(action, e)
          case Returned(None) => CheckMarkDone
          case Returned(Some(v)) => v
  }

  /** An action whose name starts with '.' names the empty plugin and is
      never run. */
  lemma EmptyPluginNotRun(rest: string, input: JsonValue, kernel: Kernel, k: nat)
    ensures ActionObservation("." + rest, input, kernel, k) == NoPluginMessage("." + rest)
  {
    assert ("." + rest)[0] == '.';
    assert FirstIndex("." + rest, '.') == 0;
  }

  /** An undotted name that no function carries is never run. */
  lemma UnknownFunctionNotRun(action: string, input: JsonValue, kernel: Kernel, k: nat)
    requires '.' !in action
    requires forall j :: 0 <= j < |kernel.functions| ==> kernel.functions[j].name != action
    ensures ActionObservation(action, input, kernel, k) == NoPluginMessage(action)
  {
    assert FirstNamed(kernel.functions, action).None?;
  }

  // ---------------------------------------------------------------------
  // The loop

  /** How one turn ends: the run is over with an answer, or it goes on with
      a longer history, the fields to carry and the actions executed. */
  datatype Step =
    | Finish(answer: string)
    | Continue(history: seq<Message>, fields: IterationFields, actions: nat)

  /** One turn of `run_async`'s loop, turn `n` counted from 0. */
  function Turn(env: Env, n: nat, history: seq<Message>, f: IterationFields, actions: nat): (s: Step)
    ensures s.Finish? ==> s.answer != []
    ensures s.Continue? ==> |history| < |s.history| && s.history[..|history|] == history
    ensures s.Continue? ==> actions <= s.actions <= actions + 1
    ensures env.complete(n, history).Raised? ==>
      s == Finish(IterationError(n + 1, env.complete(n, history).error))
    ensures env.complete(n, history) == Responded([]) ==> s == Finish(MaxIterationsMessage)
  {
    match env.complete(n, history)
    case Raised(e) => Finish(IterationError(n + 1, e))
    case Responded(contents) =>
      if contents == [] then Finish(MaxIterationsMessage)
      else
        var text := contents[|contents| - 1];
        var p := ParseReply(text, f, env.decode);
        if p.final.Some? && p.final.value != [] then Finish(p.final.value)
        else Proceed(env, history, text, p.fields, actions)
  }

  /** The rest of a turn that gave no final answer: the reply is recorded
      and, when it names an action with an input, the action runs, its
      observation is recorded and the next turn starts from empty fields. */
  function Proceed(env: Env, history: seq<Message>, text: string, f: IterationFields, actions: nat): (s: Step)
    ensures s.Continue? && |history| < |s.history| && s.history[..|history|] == history
    ensures s.history[|history|] == Assistant(text)
    ensures s.actions == actions + 1 <==> f.action != [] && !f.actionInput.JNull?
    ensures s.actions == actions + 1 ==>
      && s.history == history + [Assistant(text), User("Observation: " + ActionObservation(f.action, f.actionInput, env.kernel, actions))]
      && s.fields == EmptyFields
    ensures s.actions == actions ==> s.history == history + [Assistant(text)] && s.fields == f
  {
    if f.action != [] && !f.actionInput.JNull? then
      var obs := ActionObservation(f.action, f.actionInput, env.kernel, actions);
      var h := history + [Assistant(text), User("Observation: " + obs)];
      assert h[..|history|] == history;
      Continue(h, EmptyFields, actions + 1)
    else
      var h := history + [Assistant(text)];
      assert h[..|history|] == history;
      Continue(h, f, actions)
  }

  /** A failing tool does not end the run: the exception's text becomes the
      observation, and the next turn starts from empty fields. */
  lemma ToolFailureIsObserved(env: Env, history: seq<Message>, text: string, f: IterationFields, actions: nat,
                              e: string)
    requires f.action != [] && f.actionInput.JObject?
    requires var (plugin, name) := Resolve(f.action, env.kernel.functions);
      && plugin != []
      && env.kernel.getFunction(plugin, name) == Found
      && env.kernel.invoke(actions, plugin, name, f.actionInput.members) == InvokeRaised(e)
    ensures Proceed(env, history, text, f, actions) ==
      Continue(history + [Assistant(text), User("Observation: " + ExecutionError(f.action, e))], EmptyFields, actions + 1)
  {
  }

  /** How a run ends: the answer, the chat history, the number of turns
      taken, and the number of actions executed. */
  datatype RunResult = RunResult(answer: string, history: seq<Message>, turns: nat, actions: nat)

  /** What `run_async` computes from turn `n` on, with the history so far,
      the fields carried into this turn and the actions executed so far. */
  function RunFrom(env: Env, maxIterations: int, n: nat, history: seq<Message>, f: IterationFields, actions: nat)
    : (r: RunResult)
    ensures r.turns >= n && (n <= maxIterations ==> r.turns <= maxIterations)
    ensures n >= maxIterations ==> r == RunResult(MaxIterationsMessage, history, n, actions)
    ensures |history| <= |r.history| && r.history[..|history|] == history
    ensures actions <= r.actions <= actions + (r.turns - n)
    ensures r.answer != []
    decreases if maxIterations > n then maxIterations - n else 0
  {
    if n >= maxIterations then RunResult(MaxIterationsMessage, history, n, actions)
    else match Turn(env, n, history, f, actions)
      case Finish(answer) => RunResult(answer, history, n + 1, actions)
      case Continue(h, g, k) =>
        var r := RunFrom(env, maxIterations, n + 1, h, g, k);
        PrefixOfExtension(r.history, h, history);
        r
  }

  /** A prefix of a prefix is a prefix. */
  lemma PrefixOfExtension(a: seq<Message>, b: seq<Message>, c: seq<Message>)
    requires |b| <= |a| && a[..|b|] == b
    requires |c| <= |b| && b[..|c|] == c
    ensures a[..|c|] == c
  {
    assert a[..|c|] == a[..|b|][..|c|];
  }

  /** The initial history of a run. */
  function Opening(question: string): seq<Message> {
    [User("Question: " + question)]
  }

  /** What `run_async(question)` computes. */
  function Run(env: Env, maxIterations: int, question: string): (r: RunResult)
    ensures r.history != [] && r.history[0] == User("Question: " + question)
    ensures r.turns <= if maxIterations < 0 then 0 else maxIterations
    ensures r.actions <= r.turns
  {
    var opening := Opening(question);
    var r := RunFrom(env, maxIterations, 0, opening, EmptyFields, 0);
    assert r.history[..1] == opening;
    assert r.history[0] == r.history[..1][0];
    r
  }

  /** A reply that never ends the run: something was streamed, and its last
      message holds no non-empty final answer. */
  predicate KeepsGoing(reply: Reply, decode: string -> Option<JsonValue>) {
    && reply.Responded?
    && reply.contents != []
    && var p := ParseReply(reply.contents[|reply.contents| - 1], EmptyFields, decode);
       (p.final.None? || p.final.value == [])
  }

  /** A model that never gives a final answer runs the budget out exactly. */
  lemma {:induction false} NoAnswerExhaustsBudget(env: Env, maxIterations: int, n: nat, history: seq<Message>,
                                                 f: IterationFields, actions: nat)
    requires forall m: nat, h: seq<Message> :: KeepsGoing(env.complete(m, h), env.decode)
    ensures RunFrom(env, maxIterations, n, history, f, actions).answer == MaxIterationsMessage
    ensures RunFrom(env, maxIterations, n, history, f, actions).turns == if n < maxIterations then maxIterations else n
    decreases if maxIterations > n then maxIterations - n else 0
  {
    if n < maxIterations {
      TurnContinues(env, n, history, f, actions);
      var s := Turn(env, n, history, f, actions);
      RunFromContinue(env, maxIterations, n, history, f, actions);
      NoAnswerExhaustsBudget(env, maxIterations, n + 1, s.history, s.fields, s.actions);
    }
  }

  /** One turn of the run: a finished turn ends it, a continued one hands
      it to the next turn. */
  lemma RunFromStep(env: Env, maxIterations: int, n: nat, history: seq<Message>, f: IterationFields, actions: nat)
    requires n < maxIterations
    ensures RunFrom(env, maxIterations, n, history, f, actions) ==
      match Turn(env, n, history, f, actions)
      case Finish(answer) => RunResult(answer, history, n + 1, actions)
      case Continue(h, g, k) => RunFrom(env, maxIterations, n + 1, h, g, k)
  {
  }

  /** A turn that goes on hands the run to the next turn. */
  lemma RunFromContinue(env: Env, maxIterations: int, n: nat, history: seq<Message>, f: IterationFields, actions: nat)
    requires n < maxIterations && Turn(env, n, history, f, actions).Continue?
    ensures var s := Turn(env, n, history, f, actions);
      RunFrom(env, maxIterations, n, history, f, actions) == RunFrom(env, maxIterations, n + 1, s.history, s.fields, s.actions)
  {
  }

  /** A reply that keeps going does not finish the turn, whatever fields
      the turn starts from. */
  lemma TurnContinues(env: Env, n: nat, history: seq<Message>, f: IterationFields, actions: nat)
    requires KeepsGoing(env.complete(n, history), env.decode)
    ensures Turn(env, n, history, f, actions).Continue?
  {
    NoFinalFromAnyFields(env.complete(n, history), f, env.decode);
    TurnWithoutFinal(env, n, history, f, actions);
  }

  /** A turn whose reply holds no non-empty final answer proceeds. */
  lemma TurnWithoutFinal(env: Env, n: nat, history: seq<Message>, f: IterationFields, actions: nat)
    requires env.complete(n, history).Responded? && env.complete(n, history).contents != []
    ensures var contents := env.complete(n, history).contents;
      var text := contents[|contents| - 1];
      var p := ParseReply(text, f, env.decode);
      (p.final.None? || p.final.value == []) ==>
        Turn(env, n, history, f, actions) == Proceed(env, history, text, p.fields, actions)
  {
  }

  /** A reply that keeps going gives no non-empty final answer from any
      starting fields. */
  lemma NoFinalFromAnyFields(reply: Reply, f: IterationFields, decode: string -> Option<JsonValue>)
    requires KeepsGoing(reply, decode)
    ensures var p := ParseReply(reply.contents[|reply.contents| - 1], f, decode);
      p.final.None? || p.final.value == []
  {
    var text := reply.contents[|reply.contents| - 1];
    FinalIgnoresFields(Split(Strip(text), '\n'), f, EmptyFields, decode);
  }

  /** An exception from the reasoning model on any turn within the budget
      ends the run with that turn's error, numbered from 1, and adds nothing
      to the history. */
  lemma ModelErrorEndsRun(env: Env, maxIterations: int, n: nat, history: seq<Message>, f: IterationFields,
                          actions: nat, e: string)
    requires n < maxIterations && env.complete(n, history) == Raised(e)
    ensures RunFrom(env, maxIterations, n, history, f, actions) ==
      RunResult(IterationError(n + 1, e), history, n + 1, actions)
  {
    RunFromStep(env, maxIterations, n, history, f, actions);
  }

  /** An empty reply ends the run at once with the budget message, although
      budget may remain. */
  lemma EmptyReplyEndsRun(env: Env, maxIterations: int, n: nat, history: seq<Message>, f: IterationFields,
                          actions: nat)
    requires n < maxIterations && env.complete(n, history) == Responded([])
    ensures RunFrom(env, maxIterations, n, history, f, actions) ==
      RunResult(MaxIterationsMessage, history, n + 1, actions)
  {
    RunFromStep(env, maxIterations, n, history, f, actions);
  }

  /** A reply whose parse holds a non-empty final answer ends the run with
      that answer and leaves the history as it was. */
  lemma FinalAnswerEndsRun(env: Env, maxIterations: int, n: nat, history: seq<Message>, f: IterationFields,
                           actions: nat, answer: string)
    requires n < maxIterations && answer != []
    requires env.complete(n, history).Responded? && env.complete(n, history).contents != []
    requires var contents := env.complete(n, history).contents;
      ParseReply(contents[|contents| - 1], f, env.decode).final == Some(answer)
    ensures RunFrom(env, maxIterations, n, history, f, actions) == RunResult(answer, history, n + 1, actions)
  {
    RunFromStep(env, maxIterations, n, history, f, actions);
  }

  /** A reply without a final answer hands the run to the next turn with
      the history, fields and action count that `Proceed` gives. */
  lemma ProceedingTurnContinuesRun(env: Env, maxIterations: int, n: nat, history: seq<Message>,
                                   f: IterationFields, actions: nat)
    requires n < maxIterations
    requires env.complete(n, history).Responded? && env.complete(n, history).contents != []
    requires var contents := env.complete(n, history).contents;
      var p := ParseReply(contents[|contents| - 1], f, env.decode);
      p.final.None? || p.final.value == []
    ensures var contents := env.complete(n, history).contents;
      var text := contents[|contents| - 1];
      var s := Proceed(env, history, text, ParseReply(text, f, env.decode).fields, actions);
      RunFrom(env, maxIterations, n, history, f, actions) == RunFrom(env, maxIterations, n + 1, s.history, s.fields, s.actions)
  {
    TurnWithoutFinal(env, n, history, f, actions);
    RunFromContinue(env, maxIterations, n, history, f, actions);
  }

  /** An exception on the first turn ends the run with the iteration error,
      before anything is added to the history. */
  lemma FirstTurnError(env: Env, maxIterations: int, question: string, e: string)
    requires maxIterations >= 1
    requires env.complete(0, Opening(question)) == Raised(e)
    ensures Run(env, maxIterations, question) == RunResult(IterationError(1, e), Opening(question), 1, 0)
  {
  }

  // ---------------------------------------------------------------------
  // The mutable objects

  /** `ReActIteration`, filled in place by the parser. */
  class ReActIteration {
    var thought: string
    var action: string
    var actionInput: JsonValue
    var observation: string

    function Snapshot(): IterationFields
      reads this
    {
      IterationFields(thought, action, actionInput, observation)
    }

    constructor ()
      ensures Snapshot() == EmptyFields
    {
      thought := "";
      action := "";
      actionInput := JObject(map[]);
      observation := "";
    }

    method SetThought(t: string)
      modifies this
      ensures Snapshot() == old(Snapshot()).(thought := t)
    {
      thought := t;
    }

    method SetAction(a: string)
      modifies this
      ensures Snapshot() == old(Snapshot()).(action := a)
    {
      action := a;
    }

    method SetActionInput(v: JsonValue)
      modifies this
      ensures Snapshot() == old(Snapshot()).(actionInput := v)
    {
      actionInput := v;
    }
  }

  class ReActAgent {
    const env: Env
    const name: string
    const maxIterations: int
    var chatHistory: seq<Message>

    constructor (env: Env, name: string, maxIterations: int)
      ensures this.env == env && this.name == name && this.maxIterations == maxIterations
      ensures chatHistory == []
    {
      this.env := env;
      this.name := name;
      this.maxIterations := maxIterations;
      chatHistory := [];
    }

    /** `_parse_response`: walks the stripped reply's lines, overwriting the
        iteration's fields, and returns at the first final answer. */
    method ParseResponse(response: string, iteration: ReActIteration) returns (final: Option<string>)
      modifies iteration
      ensures Parse(iteration.Snapshot(), final) == ParseReply(response, old(iteration.Snapshot()), env.decode)
    {
      var lines := Split(Strip(response), '\n');
      final := ReadLines(lines, iteration);
    }

    /** The loop of `_parse_response` over the reply's lines. */
    method ReadLines(lines: seq<string>, iteration: ReActIteration) returns (final: Option<string>)
      modifies iteration
      ensures Parse(iteration.Snapshot(), final) == ParseLines(lines, old(iteration.Snapshot()), env.decode)
    {
      ghost var target := ParseLines(lines, iteration.Snapshot(), env.decode);
      var i := 0;
      while i < |lines|
        invariant 0 <= i <= |lines|
        invariant ParseLines(lines[i..], iteration.Snapshot(), env.decode) == target
      {
        ghost var before := iteration.Snapshot();
        ParseLinesAt(lines, i, before, env.decode);
        var answer := ReadLine(Strip(lines[i]), iteration);
        if answer.Some? {
          return answer;
        }
        i := i + 1;
      }
      assert lines[i..] == [];
      return None;
    }

    /** One line of `_parse_response`: a final answer is returned and
        changes nothing; any other line updates the field its tag names. */
    method ReadLine(line: string, iteration: ReActIteration) returns (final: Option<string>)
      modifies iteration
      ensures StartsWith(line, "Final Answer:") ==>
        final == Some(Strip(line[13..])) && iteration.Snapshot() == old(iteration.Snapshot())
      ensures !StartsWith(line, "Final Answer:") ==>
        final.None? && iteration.Snapshot() == ApplyLine(line, old(iteration.Snapshot()), env.decode)
    {
      TagsExclusive(line);
      if StartsWith(line, "Thought:") {
        iteration.SetThought(Strip(line[8..]));
      } else if StartsWith(line, "Action:") {
        iteration.SetAction(Strip(line[7..]));
      } else if StartsWith(line, "Action Input:") {
        var inputText := Strip(line[13..]);
        iteration.SetActionInput(ParseInput(inputText, env.decode));
      } else if StartsWith(line, "Final Answer:") {
        return Some(Strip(line[13..]));
      }
      return None;
    }

    /** `_execute_action`: resolves the name, then looks the function up
        and invokes it; every failure comes back as a message. */
    method ExecuteAction(action: string, input: JsonValue, k: nat) returns (obs: string)
      ensures obs == ActionObservation(action, input, env.kernel, k)
    {
      var plugin: string;
      var functionName: string;
      if '.' in action {
        var i := FirstIndex(action, '.');
        plugin, functionName := action[..i], action[i + 1..];
      } else {
        plugin, functionName := "", action;
        var functions := env.kernel.functions;
        var j := 0;
        while j < |functions|
          invariant 0 <= j <= |functions|
          invariant forall m :: 0 <= m < j ==> functions[m].name != action
        {
          if functions[j].name == functionName {
            plugin := functions[j].pluginName;
            break;
          }
          j := j + 1;
        }
      }
      if plugin == [] {
        return NoPluginMessage(action);
      }
      match env.kernel.getFunction(plugin, functionName)
      case NotFound =>
        return FunctionNotFoundMessage(action);
      case LookupRaised(e) =>
        return ExecutionError(action, e);
      case Found =>
        if !input.JObject? {
          return ExecutionError(action, env.kernel.notMapping(input));
        }
        match env.kernel.invoke(k, plugin, functionName, input.members)
        case InvokeRaised(e) =>
          return ExecutionError(action, e);
        case Returned(value) =>
          return if value.Some? then value.value else CheckMarkDone;
    }

    /** `run_async`: the chat history restarts with the question; each turn
        sends it to the reasoning agent and records the reply and, when an
        action ran, its observation. */
    method RunAsync(question: string) returns (answer: string)
      modifies this
      ensures answer == Run(env, maxIterations, question).answer
      ensures chatHistory == Run(env, maxIterations, question).history
    {
      chatHistory := Opening(question);
      var current := new ReActIteration();
      var actions: nat := 0;
      var n: nat := 0;
      while n < maxIterations
        invariant fresh(current)
        invariant RunFrom(env, maxIterations, n, chatHistory, current.Snapshot(), actions)
          == Run(env, maxIterations, question)
        decreases maxIterations - n
      {
        RunFromStep(env, maxIterations, n, chatHistory, current.Snapshot(), actions);
        var done, next, k := TakeTurn(n, current, actions);
        if done.Some? {
          return done.value;
        }
        current, actions := next, k;
        n := n + 1;
      }
      return MaxIterationsMessage;
    }

    /** The body of `run_async`'s loop for turn `n`: an exception, an empty
        reply or a non-empty final answer ends the run (an empty reply
        leaves the loop, after which the maximum-iterations message is
        returned); otherwise the reply is recorded and, if an action was
        parsed, it runs, its observation is recorded and a fresh iteration
        takes over. */
    method TakeTurn(n: nat, current: ReActIteration, actions: nat)
      returns (done: Option<string>, next: ReActIteration, k: nat)
      modifies this, current
      ensures done.Some? ==>
        Turn(env, n, old(chatHistory), old(current.Snapshot()), actions) == Finish(done.value)
        && chatHistory == old(chatHistory)
      ensures done.None? ==>
        Turn(env, n, old(chatHistory), old(current.Snapshot()), actions) == Continue(chatHistory, next.Snapshot(), k)
      ensures next == current || fresh(next)
    {
      next, k := current, actions;
      var reply := env.complete(n, chatHistory);
      ghost var before := current.Snapshot();
      if reply.Raised? {
        return Some(IterationError(n + 1, reply.error)), next, k;
      }
      if reply.contents == [] {
        return Some(MaxIterationsMessage), next, k;
      }
      var text := reply.contents[|reply.contents| - 1];
      var final := ParseResponse(text, current);
      if final.Some? && final.value != [] {
        return final, next, k;
      }
      TurnWithoutFinal(env, n, chatHistory, before, actions);
      next, k := RecordReply(text, current, actions);
      return None, next, k;
    }

    /** The rest of a turn without a final answer: record the reply and, when
        an action with an input was parsed, run it, record its observation
        and start the next turn from a fresh iteration. */
    method RecordReply(text: string, current: ReActIteration, actions: nat)
      returns (next: ReActIteration, k: nat)
      modifies this, current
      ensures Proceed(env, old(chatHistory), text, old(current.Snapshot()), actions)
        == Continue(chatHistory, next.Snapshot(), k)
      ensures next == current || fresh(next)
    {
      next, k := current, actions;
      ghost var step := Proceed(env, chatHistory, text, current.Snapshot(), actions);
      if current.action != [] && !current.actionInput.JNull? {
        var observation := ExecuteAction(current.action, current.actionInput, actions);
        current.observation := observation;
        chatHistory := chatHistory + [Assistant(text), User("Observation: " + observation)];
        next := new ReActIteration();
        k := actions + 1;
      } else {
        chatHistory := chatHistory + [Assistant(text)];
      }
      assert step == Continue(chatHistory, next.Snapshot(), k);
    }

    /** `reset`: clears the chat history. */
    method Reset()
      modifies this
      ensures chatHistory == []
    {
      chatHistory := [];
    }
  }
}
