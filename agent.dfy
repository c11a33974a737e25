/**
  The query-resolution pipeline of the data-analysis agent (llm_agent.py):
  the state record the graph runs over, the code-generator, code-executor and
  response-formatter nodes, the retry decision, the compiled graph run as a
  loop, the interpreter's shared symbol table and the agent's `query`
  boundary.  The language model, the sandboxed interpreter, `json.loads` and
  the pandas and `str` renderings are oracles supplied by the caller.
 */
module Agent {
  import opened PyValues
  import opened PyText

  /** A Python exception: its class name and `str(e)`. */
  datatype Exception = Exception(name: string, message: string)

  /** What `aeval.eval(code)` does: return a value or raise. */
  datatype EvalOutcome = Returned(value: Value) | Raised(error: Exception)

  /** What a name in the interpreter's symbol table is bound to. */
  datatype Binding =
    | PandasModule
    | PlotlyModule
    | FrameObject(frame: Frame)
    | NoneObject
    | Builtin(name: string)

  type Symtable = map<string, Binding>

  /** The fields the code-generation prompt is formatted from. */
  datatype CodePrompt = CodePrompt(dfPreview: string, userPrompt: string, previousCode: string, error: string)

  /** What the follow-up prompt says the analysis produced. */
  datatype Summary = SinglePlot | DashboardOf(charts: nat) | DataFrameOf(frame: Frame) | Printed(text: string)

  datatype FollowUpPrompt = FollowUpPrompt(userPrompt: string, summary: Summary)

  /** The collaborators the pipeline calls but does not define.  A language
      model call answers with the reply text, or None when the call raises. */
  datatype Oracles = Oracles(
    writeCode: CodePrompt -> Option<string>,   // the code-generation model call
    suggest: FollowUpPrompt -> Option<string>, // the follow-up model call
    eval: (Symtable, string) -> EvalOutcome,   // `aeval.eval` against the symbol table
    preview: Frame -> string,                  // `df.head().to_string()`
    render: Frame -> string,                   // `DataFrame.to_string()`
    repr: Value -> string,                     // `str(value)` of lists and figures
    parseJson: string -> Option<Json>)         // `json.loads`; None when it raises

  // ----- Structured responses -----

  /** The `"type"` field of a response: `"plot"`, `"dashboard"` or `"string"`. */
  datatype Kind = PlotKind | DashboardKind | StringKind

  /** The `"content"` field: `{"type": "plot", "data": fig}`, a list of
      figures, or text. */
  datatype Content = PlotContent(fig: Figure) | DashboardContent(figs: seq<Figure>) | TextContent(text: string)

  /** A response dict; `followUps` is None when the dict has no
      `"follow_up_questions"` key. */
  datatype Response = Response(kind: Kind, content: Content, followUps: Option<Json>)

  /** The response's type names the shape of its content. */
  predicate Consistent(r: Response) {
    && (r.kind == PlotKind <==> r.content.PlotContent?)
    && (r.kind == DashboardKind <==> r.content.DashboardContent?)
    && (r.kind == StringKind <==> r.content.TextContent?)
  }

  const ERROR_PREFIX := "I encountered an error trying to process your request. The error was: "
  const FAILURE_PREFIX := "Execution failed with error: "
  const FOLLOW_UP_KEY := "follow_up_questions"
  const NO_FOLLOW_UPS := JArray([])
  const RETRY_CEILING := 2

  const NOT_LOADED := Response(StringKind, TextContent("Error: DataFrame not loaded."), Some(NO_FOLLOW_UPS))
  const CRITICAL_ERROR := Response(StringKind,
    TextContent("Sorry, a critical error occurred. The development team has been notified. Please try rephrasing your question."),
    Some(NO_FOLLOW_UPS))
  const MISSING_FINAL := Response(StringKind, TextContent("An unexpected error occurred in the agent's final state."), None)

  // ----- State -----

  /** `AgentState`.  `codeSolution` is None while the key is absent;
      `executionResult` is Python None until the executor sets it. */
  datatype AgentState = AgentState(
    dfPreview: string,
    userPrompt: string,
    codeSolution: Option<string>,
    executionResult: Value,
    errorMessage: Option<string>,
    retries: int,
    finalResponse: Option<Response>)

  /** The state `query` starts the graph from. */
  function InitialState(dfPreview: string, userPrompt: string): AgentState {
    AgentState(dfPreview, userPrompt, None, NoneV, None, 0, None)
  }

  /** Python truthiness of an optional error message. */
  predicate Truthy(e: Option<string>) {
    e.Some? && e.value != ""
  }

  /** How `str.format` renders the optional error: Python None becomes "None". */
  function ErrorText(e: Option<string>): string {
    match e
    case None => "None"
    case Some(m) => m
  }

  // ----- Code generator -----

  /** `text.strip().replace("```" + language, "").replace("```", "")` */
  function Unfence(text: string, language: string): (r: string)
    ensures |r| <= |text|
  {
    RemoveAll(RemoveAll(Strip(text), FENCE + language), FENCE)
  }

  /** No fence is left after cleaning, and a reply that is already bare
      code comes through unchanged. */
  lemma UnfenceSpec(text: string, language: string)
    ensures Absent(Unfence(text, language), FENCE)
    ensures (forall i :: 0 <= i < |text| ==> text[i] != '`') && Strip(text) == text ==>
      Unfence(text, language) == text
  {
    NoFenceAfterRemoval(RemoveAll(Strip(text), FENCE + language));
    if (forall i :: 0 <= i < |text| ==> text[i] != '`') && Strip(text) == text {
      NoBacktickNoPattern(text, FENCE + language);
      RemoveAllOfAbsent(text, FENCE + language);
      NoBacktickNoPattern(text, FENCE);
      RemoveAllOfAbsent(text, FENCE);
    }
  }

  /** Removing the tagged opening fence leaves the code and the closing fence. */
  lemma DropOpeningFence(code: string, language: string)
    requires forall i :: 0 <= i < |code| ==> code[i] != '`'
    requires language != []
    ensures RemoveAll(FENCE + language + code + FENCE, FENCE + language) == code + FENCE
  {
    var open := FENCE + language;
    assert FENCE + language + code + FENCE == open + (code + FENCE);
    RemoveAllLeading(open, code + FENCE);
    RemoveAllAfterPlain(code, FENCE, open);
    RemoveAllOfShorter(FENCE, open);
  }

  /** Removing the closing fence then leaves the code. */
  lemma DropClosingFence(code: string)
    requires forall i :: 0 <= i < |code| ==> code[i] != '`'
    ensures RemoveAll(code + FENCE, FENCE) == code
  {
    RemoveAllAfterPlain(code, FENCE, FENCE);
    assert RemoveAll(FENCE, FENCE) == [];
    assert code + [] == code;
  }

  /** A reply that wraps backtick-free code in a fence tagged with the
      language, with whitespace around it, is cleaned to exactly that code. */
  lemma UnfenceFenced(w1: string, code: string, w2: string, language: string)
    requires forall i :: 0 <= i < |w1| ==> IsSpace(w1[i])
    requires forall i :: 0 <= i < |w2| ==> IsSpace(w2[i])
    requires forall i :: 0 <= i < |code| ==> code[i] != '`'
    requires language != []
    ensures Unfence(w1 + FENCE + language + code + FENCE + w2, language) == code
  {
    var t := FENCE + language + code + FENCE;
    assert w1 + FENCE + language + code + FENCE + w2 == w1 + t + w2;
    StripPadded(w1, t, w2);
    DropOpeningFence(code, language);
    DropClosingFence(code);
  }

  function CodePromptFor(s: AgentState): CodePrompt {
    CodePrompt(s.dfPreview, s.userPrompt, s.codeSolution.GetOr("N/A"), ErrorText(s.errorMessage))
  }

  /** `code_generator_node`: None when the model call raises. */
  function CodeGeneratorNode(o: Oracles, s: AgentState): (r: Option<AgentState>)
    ensures r.Some? <==> o.writeCode(CodePromptFor(s)).Some?
    ensures r.Some? ==> r.value.errorMessage == None
    ensures r.Some? ==> r.value.codeSolution == Some(Unfence(o.writeCode(CodePromptFor(s)).value, "python"))
    ensures r.Some? ==> r.value.(codeSolution := s.codeSolution, errorMessage := s.errorMessage) == s
  {
    match o.writeCode(CodePromptFor(s))
    case None => None
    case Some(reply) => Some(s.(codeSolution := Some(Unfence(reply, "python")), errorMessage := None))
  }

  /** A reply of one fenced Python block, padded with white space, stores
      exactly the code inside the fence. */
  lemma FencedReplyStoresCode(o: Oracles, s: AgentState, w1: string, code: string, w2: string)
    requires o.writeCode(CodePromptFor(s)) == Some(w1 + FENCE + "python" + code + FENCE + w2)
    requires forall i :: 0 <= i < |w1| ==> IsSpace(w1[i])
    requires forall i :: 0 <= i < |w2| ==> IsSpace(w2[i])
    requires forall i :: 0 <= i < |code| ==> code[i] != '`'
    ensures CodeGeneratorNode(o, s).Some?
    ensures CodeGeneratorNode(o, s).value.codeSolution == Some(code)
  {
    UnfenceFenced(w1, code, w2, "python");
  }

  /** The code the generator stores holds no Markdown fence. */
  lemma GeneratedCodeUnfenced(o: Oracles, s: AgentState)
    requires CodeGeneratorNode(o, s).Some?
    ensures Absent(CodeGeneratorNode(o, s).value.codeSolution.value, FENCE)
  {
    UnfenceSpec(o.writeCode(CodePromptFor(s)).value, "python");
  }

  // ----- Code executor -----

  /** `code_executor_node`: every exception is caught and recorded. */
  function CodeExecutorNode(o: Oracles, sym: Symtable, s: AgentState): (r: AgentState)
    requires s.codeSolution.Some?
    ensures r.(executionResult := s.executionResult, errorMessage := s.errorMessage, retries := s.retries) == s
    ensures o.eval(sym, s.codeSolution.value).Returned? ==>
      && r.executionResult == o.eval(sym, s.codeSolution.value).value
      && r.errorMessage == s.errorMessage
      && r.retries == s.retries
    ensures o.eval(sym, s.codeSolution.value).Raised? ==>
      var e := o.eval(sym, s.codeSolution.value).error;
      && r.errorMessage == Some(FAILURE_PREFIX + e.name + " - " + e.message)
      && r.executionResult == NoneV
      && r.retries == s.retries + 1
  {
    match o.eval(sym, s.codeSolution.value)
    case Returned(v) => s.(executionResult := v, retries := s.retries)
    case Raised(e) =>
      s.(errorMessage := Some(FAILURE_PREFIX + e.name + " - " + e.message), executionResult := NoneV, retries := s.retries + 1)
  }

  // ----- Retry decision -----

  datatype Route = Retry | Finish

  /** `should_retry`: a retry needs a recorded, non-empty error and a
      counter still below the ceiling; without either the run finishes. */
  function ShouldRetry(s: AgentState): (r: Route)
    ensures r == Retry ==> s.errorMessage.Some? && s.errorMessage.value != [] && s.retries < RETRY_CEILING
    ensures s.errorMessage.None? || s.errorMessage == Some([]) ==> r == Finish
    ensures s.retries >= RETRY_CEILING ==> r == Finish
    ensures s.errorMessage.Some? && s.errorMessage.value != [] && s.retries < RETRY_CEILING ==> r == Retry
  {
    if Truthy(s.errorMessage) && s.retries < RETRY_CEILING then Retry else Finish
  }

  // ----- Response formatter -----

  datatype Shaped = Shaped(kind: Kind, content: Content, summary: Summary)

  /** The formatter's first-match classification of a successful result. */
  function Shape(o: Oracles, v: Value): (r: Shaped)
    ensures Consistent(Response(r.kind, r.content, None))
    ensures v.FigureV? ==> r.kind == PlotKind && r.content == PlotContent(v.fig)
    ensures v.ListV? && AllFigures(v.items) ==>
      r.kind == DashboardKind && r.content == DashboardContent(Figures(v.items))
    ensures v.FrameV? ==> r.kind == StringKind && r.content == TextContent(o.render(v.frame))
    ensures !v.FigureV? && !(v.ListV? && AllFigures(v.items)) && !v.FrameV? ==>
      r.kind == StringKind && r.content == TextContent(Str(v, o.repr))
  {
    match v
    case FigureV(fig) => Shaped(PlotKind, PlotContent(fig), SinglePlot)
    case ListV(items) =>
      if AllFigures(items) then Shaped(DashboardKind, DashboardContent(Figures(items)), DashboardOf(|items|))
      else Shaped(StringKind, TextContent(Str(v, o.repr)), Printed(Str(v, o.repr)))
    case FrameV(frame) => Shaped(StringKind, TextContent(o.render(frame)), DataFrameOf(frame))
    case _ => Shaped(StringKind, TextContent(Str(v, o.repr)), Printed(Str(v, o.repr)))
  }

  /** The value a chart response carries: a figure, or the list of figures. */
  function ChartValue(c: Content): Value
    requires !c.TextContent?
  {
    match c
    case PlotContent(fig) => FigureV(fig)
    case DashboardContent(figs) => FigureList(figs)
  }

  /** A chart response hands back exactly the value the code produced. */
  lemma ChartsCarryTheResult(o: Oracles, v: Value)
    requires v.FigureV? || (v.ListV? && AllFigures(v.items))
    ensures !Shape(o, v).content.TextContent?
    ensures ChartValue(Shape(o, v).content) == v
  {
    if v.ListV? {
      FigureListOfFigures(v.items);
    }
  }

  /** The model reply to the follow-up prompt, cleaned and parsed; None when
      the call or the parse raises. */
  function ParsedReply(o: Oracles, p: FollowUpPrompt): Option<Json> {
    match o.suggest(p)
    case None => None
    case Some(reply) => o.parseJson(Unfence(reply, "json"))
  }

  /** `response_json.get("follow_up_questions", [])`, with every failure
      (raising call, bad JSON, a reply that is not an object) giving []. */
  function FollowUps(o: Oracles, p: FollowUpPrompt): (q: Json)
    ensures o.suggest(p).None? ==> q == NO_FOLLOW_UPS
    ensures q != NO_FOLLOW_UPS ==>
      && ParsedReply(o, p).Some? && ParsedReply(o, p).value.JObject?
      && FOLLOW_UP_KEY in ParsedReply(o, p).value.fields
      && ParsedReply(o, p).value.fields[FOLLOW_UP_KEY] == q
    ensures (ParsedReply(o, p).Some? && ParsedReply(o, p).value.JObject? &&
             FOLLOW_UP_KEY in ParsedReply(o, p).value.fields) ==>
      q == ParsedReply(o, p).value.fields[FOLLOW_UP_KEY]
  {
    match ParsedReply(o, p)
    case Some(JObject(fields)) => if FOLLOW_UP_KEY in fields then fields[FOLLOW_UP_KEY] else NO_FOLLOW_UPS
    case _ => NO_FOLLOW_UPS
  }

  /** The response `response_formatter_node` builds. */
  function Respond(o: Oracles, s: AgentState): (r: Response)
    ensures Consistent(r) && r.followUps.Some?
    ensures Truthy(s.errorMessage) ==>
      r == Response(StringKind, TextContent(ERROR_PREFIX + s.errorMessage.value), Some(NO_FOLLOW_UPS))
    ensures !Truthy(s.errorMessage) ==>
      var shaped := Shape(o, s.executionResult);
      && r.kind == shaped.kind && r.content == shaped.content
      && r.followUps == Some(FollowUps(o, FollowUpPrompt(s.userPrompt, shaped.summary)))
  {
    if Truthy(s.errorMessage) then
      Response(StringKind, TextContent(ERROR_PREFIX + s.errorMessage.value), Some(NO_FOLLOW_UPS))
    else
      var shaped := Shape(o, s.executionResult);
      Response(shaped.kind, shaped.content, Some(FollowUps(o, FollowUpPrompt(s.userPrompt, shaped.summary))))
  }

  /** The type and content of a response depend on the result's shape, not
      on what the user asked for. */
  lemma ShapeNotIntent(o: Oracles, s: AgentState, otherPrompt: string)
    ensures Respond(o, s).kind == Respond(o, s.(userPrompt := otherPrompt)).kind
    ensures Respond(o, s).content == Respond(o, s.(userPrompt := otherPrompt)).content
  {
  }

  /** `response_formatter_node` */
  function ResponseFormatterNode(o: Oracles, s: AgentState): (r: AgentState)
    ensures r.finalResponse == Some(Respond(o, s))
    ensures r.(finalResponse := s.finalResponse) == s
  {
    s.(finalResponse := Some(Respond(o, s)))
  }

  // ----- The compiled graph -----

  datatype Node = CodeGenerator | CodeExecutor | ResponseFormatter | End

  const ENTRY_POINT := CodeGenerator

  /** The edges `_build_graph` adds, the conditional one decided by
      `should_retry` on the state the executor left. */
  function Successor(n: Node, s: AgentState): Node {
    match n
    case CodeGenerator => CodeExecutor
    case CodeExecutor => if ShouldRetry(s) == Retry then CodeGenerator else ResponseFormatter
    case ResponseFormatter => End
    case End => End
  }

  /** After the executor the graph goes back to the generator exactly when
      the code raised and the incremented counter is still below the
      ceiling; otherwise it goes on to the formatter. */
  lemma RetryAfterExecution(o: Oracles, sym: Symtable, s: AgentState)
    requires s.codeSolution.Some? && s.errorMessage == None
    ensures var next := CodeExecutorNode(o, sym, s);
      Successor(CodeExecutor, next) == CodeGenerator <==>
        o.eval(sym, s.codeSolution.value).Raised? && s.retries + 1 < RETRY_CEILING
    ensures var next := CodeExecutorNode(o, sym, s);
      Successor(CodeExecutor, next) == ResponseFormatter <==>
        !(o.eval(sym, s.codeSolution.value).Raised? && s.retries + 1 < RETRY_CEILING)
  {
  }

  /** What holds whenever the executor is about to run: the generator has
      just set the code and reset the error. */
  predicate Ready(n: Node, s: AgentState) {
    n == CodeExecutor ==> s.codeSolution.Some? && s.errorMessage == None
  }

  /** Runs one node and merges its update into the state; None when the
      node raises. */
  function RunNode(o: Oracles, sym: Symtable, n: Node, s: AgentState): Option<AgentState>
    requires Ready(n, s)
  {
    match n
    case CodeGenerator => CodeGeneratorNode(o, s)
    case CodeExecutor => Some(CodeExecutorNode(o, sym, s))
    case ResponseFormatter => Some(ResponseFormatterNode(o, s))
    case End => Some(s)
  }

  /** Generate/execute rounds still allowed by the retry counter. */
  function Budget(s: AgentState): nat {
    if s.retries < RETRY_CEILING then RETRY_CEILING - s.retries else 0
  }

  /** A measure every step of the graph decreases. */
  function Potential(n: Node, s: AgentState): nat {
    match n
    case CodeGenerator => 3 * Budget(s) + 3
    case CodeExecutor => 3 * Budget(s) + 2
    case ResponseFormatter => 1
    case End => 0
  }

  datatype Outcome = Completed(final: AgentState) | Crashed

  /** A finished run: how it ended and the nodes it visited, in order. */
  datatype Run = Run(outcome: Outcome, trace: seq<Node>)

  function After(visited: seq<Node>, r: Run): Run {
    Run(r.outcome, visited + r.trace)
  }

  /** The run from the code generator until END or an exception. */
  function FromGenerator(o: Oracles, sym: Symtable, s: AgentState): Run
    decreases Potential(CodeGenerator, s)
  {
    match CodeGeneratorNode(o, s)
    case None => Run(Crashed, [CodeGenerator])
    case Some(next) => After([CodeGenerator], FromExecutor(o, sym, next))
  }

  /** The run from the code executor: it goes back to the generator or on
      to the formatter as `should_retry` decides. */
  function FromExecutor(o: Oracles, sym: Symtable, s: AgentState): Run
    requires Ready(CodeExecutor, s)
    decreases Potential(CodeExecutor, s)
  {
    var next := CodeExecutorNode(o, sym, s);
    After([CodeExecutor],
      if ShouldRetry(next) == Retry then FromGenerator(o, sym, next) else FromFormatter(o, next))
  }

  /** The formatter always leads to END. */
  function FromFormatter(o: Oracles, s: AgentState): Run {
    Run(Completed(ResponseFormatterNode(o, s)), [ResponseFormatter])
  }

  /** The graph run from node `n` on state `s`. */
  function RunFrom(o: Oracles, sym: Symtable, n: Node, s: AgentState): Run
    requires Ready(n, s)
  {
    match n
    case CodeGenerator => FromGenerator(o, sym, s)
    case CodeExecutor => FromExecutor(o, sym, s)
    case ResponseFormatter => FromFormatter(o, s)
    case End => Run(Completed(s), [])
  }

  /** `graph.invoke(state)` */
  function Graph(o: Oracles, sym: Symtable, init: AgentState): Run {
    RunFrom(o, sym, ENTRY_POINT, init)
  }

  /** The edge table and the run agree: a run is its first node, then the
      run from the successor that node's update selects; and each step
      lowers the potential. */
  lemma Unfold(o: Oracles, sym: Symtable, n: Node, s: AgentState)
    requires Ready(n, s) && n != End && RunNode(o, sym, n, s).Some?
    ensures var next := RunNode(o, sym, n, s).value;
      && Ready(Successor(n, next), next)
      && Potential(Successor(n, next), next) < Potential(n, s)
      && RunFrom(o, sym, n, s) == After([n], RunFrom(o, sym, Successor(n, next), next))
  {
    if n == ResponseFormatter {
      assert [ResponseFormatter] + [] == [ResponseFormatter];
    }
  }

  /** The compiled graph: run the current node, merge its update, follow
      the edge, until END. */
  method Invoke(o: Oracles, sym: Symtable, init: AgentState) returns (outcome: Outcome, trace: seq<Node>)
    ensures Run(outcome, trace) == Graph(o, sym, init)
  {
    var node := ENTRY_POINT;
    var state := init;
    trace := [];
    while node != End
      invariant Ready(node, state)
      invariant Graph(o, sym, init) == After(trace, RunFrom(o, sym, node, state))
      decreases Potential(node, state)
    {
      var next := RunNode(o, sym, node, state);
      if next.None? {
        assert node == CodeGenerator;
        trace := trace + [node];
        outcome := Crashed;
        return;
      }
      Unfold(o, sym, node, state);
      AfterAfter(trace, [node], RunFrom(o, sym, Successor(node, next.value), next.value));
      trace := trace + [node];
      state := next.value;
      node := Successor(node, state);
    }
    assert trace + [] == trace;
    outcome := Completed(state);
  }

  lemma AfterAfter(a: seq<Node>, b: seq<Node>, r: Run)
    ensures After(a, After(b, r)) == After(a + b, r)
  {
    assert a + (b + r.trace) == (a + b) + r.trace;
  }

  // ----- Properties of the graph -----

  function Count(t: seq<Node>, n: Node): nat {
    if t == [] then 0 else (if t[0] == n then 1 else 0) + Count(t[1..], n)
  }

  lemma CountCons(m: Node, t: seq<Node>, n: Node)
    ensures Count([m] + t, n) == (if m == n then 1 else 0) + Count(t, n)
  {
    assert ([m] + t)[1..] == t;
  }

  /** The most generate/execute rounds a run started at `n` can make. */
  function Rounds(n: Node, s: AgentState): nat {
    match n
    case CodeGenerator => if s.retries < 1 then 2 - s.retries else 1
    case CodeExecutor => if s.retries < 1 then 1 - s.retries else 0
    case _ => 0
  }

  /** Every run ends in the formatter, which runs exactly once, last, and
      leaves a consistent final response with follow-up questions; or it
      ends in a generator whose model call raised. */
  lemma {:induction false} RunShape(o: Oracles, sym: Symtable, n: Node, s: AgentState)
    requires Ready(n, s) && n != End
    ensures var r := RunFrom(o, sym, n, s);
      && r.trace != []
      && (r.outcome.Completed? ==>
            && r.trace[|r.trace| - 1] == ResponseFormatter
            && Count(r.trace, ResponseFormatter) == 1
            && r.outcome.final.finalResponse.Some?
            && Consistent(r.outcome.final.finalResponse.value)
            && r.outcome.final.finalResponse.value.followUps.Some?)
      && (r.outcome.Crashed? ==>
            r.trace[|r.trace| - 1] == CodeGenerator && Count(r.trace, ResponseFormatter) == 0)
    decreases Potential(n, s)
  {
    match RunNode(o, sym, n, s)
    case None =>
      assert RunFrom(o, sym, n, s).trace == [n];
    case Some(next) =>
      Unfold(o, sym, n, s);
      var m := Successor(n, next);
      var rest := RunFrom(o, sym, m, next);
      CountCons(n, rest.trace, ResponseFormatter);
      if m != End {
        RunShape(o, sym, m, next);
      }
  }

  /** The retry ceiling: the generator runs at most `Rounds` times and the
      executor never more often than it. */
  lemma {:induction false} RunRounds(o: Oracles, sym: Symtable, n: Node, s: AgentState)
    requires Ready(n, s) && n != End
    ensures var r := RunFrom(o, sym, n, s);
      && Count(r.trace, CodeGenerator) <= Rounds(n, s)
      && Count(r.trace, CodeExecutor) <= Count(r.trace, CodeGenerator) + (if n == CodeExecutor then 1 else 0)
    decreases Potential(n, s)
  {
    match RunNode(o, sym, n, s)
    case None =>
      assert RunFrom(o, sym, n, s).trace == [n];
    case Some(next) =>
      Unfold(o, sym, n, s);
      var m := Successor(n, next);
      var rest := RunFrom(o, sym, m, next);
      CountCons(n, rest.trace, CodeGenerator);
      CountCons(n, rest.trace, CodeExecutor);
      if m != End {
        RunRounds(o, sym, m, next);
      }
  }

  const G := CodeGenerator
  const E := CodeExecutor
  const F := ResponseFormatter

  /** The state after one generate/execute round, when the model answered. */
  function AfterRound(o: Oracles, sym: Symtable, s: AgentState): AgentState
    requires CodeGeneratorNode(o, s).Some?
  {
    CodeExecutorNode(o, sym, CodeGeneratorNode(o, s).value)
  }

  /** A round is the generator, the executor, then the run from the edge
      `should_retry` picks. */
  lemma Round(o: Oracles, sym: Symtable, s: AgentState)
    requires CodeGeneratorNode(o, s).Some?
    ensures var s2 := AfterRound(o, sym, s);
      FromGenerator(o, sym, s) ==
        After([G, E], if ShouldRetry(s2) == Retry then FromGenerator(o, sym, s2) else FromFormatter(o, s2))
  {
    var s2 := AfterRound(o, sym, s);
    AfterAfter([G], [E], if ShouldRetry(s2) == Retry then FromGenerator(o, sym, s2) else FromFormatter(o, s2));
  }

  /** A retry round, started with one retry used, formats or crashes;
      it never retries again. */
  lemma LastRound(o: Oracles, sym: Symtable, s: AgentState)
    requires s.retries == 1
    ensures var r := FromGenerator(o, sym, s);
      && (r.outcome.Completed? ==> r.trace == [G, E, F])
      && (r.outcome.Crashed? ==> r.trace == [G])
  {
    if CodeGeneratorNode(o, s).Some? {
      Round(o, sym, s);
      assert ShouldRetry(AfterRound(o, sym, s)) == Finish;
    }
  }

  /** From `retries = 0` a query makes one or two generate/execute rounds
      and then formats, or stops in a generator whose model call raised. */
  lemma FreshRunTraces(o: Oracles, sym: Symtable, init: AgentState)
    requires init.retries == 0
    ensures var r := Graph(o, sym, init);
      && (r.outcome.Completed? ==> r.trace == [G, E, F] || r.trace == [G, E, G, E, F])
      && (r.outcome.Crashed? ==> r.trace == [G] || r.trace == [G, E, G])
  {
    if CodeGeneratorNode(o, init).Some? {
      Round(o, sym, init);
      var s2 := AfterRound(o, sym, init);
      if ShouldRetry(s2) == Retry {
        LastRound(o, sym, s2);
        assert [G, E] + [G] == [G, E, G];
        assert [G, E] + [G, E, F] == [G, E, G, E, F];
      }
    }
  }

  /** The function behind `query`: the response the agent gives for a
      dataframe (or none), the symbol table the interpreter holds and a
      request. */
  function Answer(o: Oracles, df: Option<Frame>, sym: Symtable, userPrompt: string): Response {
    if df.None? then NOT_LOADED
    else
      match Graph(o, sym, InitialState(o.preview(df.value), userPrompt)).outcome
      case Crashed => CRITICAL_ERROR
      case Completed(final) => final.finalResponse.GetOr(MISSING_FINAL)
  }

  /** `query` always answers with a consistent response that has follow-up
      questions: the fallback without them cannot be reached. */
  lemma AnswerIsWellFormed(o: Oracles, df: Option<Frame>, sym: Symtable, userPrompt: string)
    ensures Consistent(Answer(o, df, sym, userPrompt))
    ensures Answer(o, df, sym, userPrompt).followUps.Some?
    ensures Answer(o, df, sym, userPrompt) != MISSING_FINAL
  {
    if df.Some? {
      RunShape(o, sym, ENTRY_POINT, InitialState(o.preview(df.value), userPrompt));
    }
  }

  /** The three ways `query` answers: the missing-dataframe message, the
      critical-error apology when a model call escapes the graph, or the
      response the formatter stored. */
  lemma AnswerCases(o: Oracles, df: Option<Frame>, sym: Symtable, userPrompt: string)
    ensures df.None? ==> Answer(o, df, sym, userPrompt) == NOT_LOADED
    ensures df.Some? ==>
      var run := Graph(o, sym, InitialState(o.preview(df.value), userPrompt));
      && (run.outcome.Crashed? ==> Answer(o, df, sym, userPrompt) == CRITICAL_ERROR)
      && (run.outcome.Completed? ==>
            run.outcome.final.finalResponse == Some(Answer(o, df, sym, userPrompt)))
  {
    if df.Some? {
      RunShape(o, sym, ENTRY_POINT, InitialState(o.preview(df.value), userPrompt));
    }
  }

  /** A text response carrying a recorded execution failure, with no
      follow-up questions. */
  predicate FailureReport(resp: Response) {
    && resp.kind == StringKind && resp.content.TextContent?
    && ERROR_PREFIX + FAILURE_PREFIX <= resp.content.text
    && resp.followUps == Some(NO_FOLLOW_UPS)
  }

  /** A round whose code raises records the failure and uses a retry. */
  lemma RaisedRound(o: Oracles, sym: Symtable, s: AgentState)
    requires CodeGeneratorNode(o, s).Some?
    requires o.eval(sym, CodeGeneratorNode(o, s).value.codeSolution.value).Raised?
    ensures var s2 := AfterRound(o, sym, s);
      && s2.retries == s.retries + 1
      && Truthy(s2.errorMessage)
      && FAILURE_PREFIX <= s2.errorMessage.value
  {
    var s1 := CodeGeneratorNode(o, s).value;
    var e := o.eval(sym, s1.codeSolution.value).error;
    assert FAILURE_PREFIX + e.name + " - " + e.message == FAILURE_PREFIX + (e.name + " - " + e.message);
  }

  /** The formatter reports a recorded failure as text with no follow-ups. */
  lemma ErrorAnswer(o: Oracles, s: AgentState)
    requires Truthy(s.errorMessage) && FAILURE_PREFIX <= s.errorMessage.value
    ensures FailureReport(Respond(o, s))
  {
    var m := s.errorMessage.value;
    assert m == FAILURE_PREFIX + m[|FAILURE_PREFIX|..];
    assert ERROR_PREFIX + m == (ERROR_PREFIX + FAILURE_PREFIX) + m[|FAILURE_PREFIX|..];
  }

  /** When every evaluation raises, a fresh query makes exactly two rounds
      and answers with the error text and no follow-up questions. */
  lemma PersistentFailure(o: Oracles, sym: Symtable, init: AgentState)
    requires init.retries == 0
    requires forall p :: o.writeCode(p).Some?
    requires forall code :: o.eval(sym, code).Raised?
    ensures var r := Graph(o, sym, init);
      && r.trace == [G, E, G, E, F]
      && r.outcome.Completed?
      && r.outcome.final.retries == 2
      && r.outcome.final.finalResponse.Some?
      && FailureReport(r.outcome.final.finalResponse.value)
  {
    Round(o, sym, init);
    RaisedRound(o, sym, init);
    var s2 := AfterRound(o, sym, init);
    Round(o, sym, s2);
    RaisedRound(o, sym, s2);
    var s4 := AfterRound(o, sym, s2);
    ErrorAnswer(o, s4);
    assert [G, E] + ([G, E] + [F]) == [G, E, G, E, F];
  }

  /** When the first code evaluates, a query makes one round and answers
      with the shape of that value. */
  lemma FirstRoundSuccess(o: Oracles, sym: Symtable, init: AgentState)
    requires CodeGeneratorNode(o, init).Some?
    requires o.eval(sym, CodeGeneratorNode(o, init).value.codeSolution.value).Returned?
    ensures var r := Graph(o, sym, init);
      && r.trace == [G, E, F]
      && r.outcome.Completed?
      && var v := o.eval(sym, CodeGeneratorNode(o, init).value.codeSolution.value).value;
      && r.outcome.final.finalResponse.Some?
      && r.outcome.final.finalResponse.value.content == Shape(o, v).content
  {
    Round(o, sym, init);
  }

  // ----- The shared interpreter and the agent -----

  /** The module-level asteval `Interpreter`, shared by every agent. */
  class Interpreter {
    var symtable: Symtable

    /** `aeval = Interpreter()` followed by binding 'pd' and 'go'. */
    constructor (builtins: Symtable)
      ensures symtable == builtins["pd" := PandasModule]["go" := PlotlyModule]
    {
      symtable := builtins["pd" := PandasModule]["go" := PlotlyModule];
    }
  }

  function DfBinding(df: Option<Frame>): Binding {
    match df
    case None => NoneObject
    case Some(frame) => FrameObject(frame)
  }

  class DataSenseAgent {
    const df: Option<Frame>
    const interpreter: Interpreter

    /** `DataSenseAgent.__init__`: rebinds 'df' in the shared symbol table
        and leaves every other name alone. */
    constructor (df: Option<Frame>, interpreter: Interpreter)
      modifies interpreter
      ensures this.df == df && this.interpreter == interpreter
      ensures interpreter.symtable == old(interpreter.symtable)["df" := DfBinding(df)]
      ensures forall name :: name in old(interpreter.symtable) && name != "df" ==>
        name in interpreter.symtable && interpreter.symtable[name] == old(interpreter.symtable)[name]
    {
      this.df := df;
      this.interpreter := interpreter;
      interpreter.symtable := interpreter.symtable["df" := DfBinding(df)];
    }

    /** `query` */
    method Query(o: Oracles, userPrompt: string) returns (response: Response)
      ensures response == Answer(o, df, interpreter.symtable, userPrompt)
      ensures Consistent(response) && response.followUps.Some?
    {
      AnswerIsWellFormed(o, df, interpreter.symtable, userPrompt);
      if df.None? {
        return NOT_LOADED;
      }
      var init := InitialState(o.preview(df.value), userPrompt);
      var outcome, trace := Invoke(o, interpreter.symtable, init);
      match outcome
      case Crashed =>
        response := CRITICAL_ERROR;
      case Completed(final) =>
        response := final.finalResponse.GetOr(MISSING_FINAL);
    }
  }

  /** Two agents over one interpreter: the first agent's queries take their
      preview from its own dataframe but evaluate against the second's. */
  method LatestAgentWins(interpreter: Interpreter, first: Frame, second: Frame, o: Oracles, userPrompt: string)
    returns (a: DataSenseAgent, b: DataSenseAgent, answer: Response)
    modifies interpreter
    ensures a.df == Some(first) && b.df == Some(second)
    ensures a.interpreter == b.interpreter == interpreter
    ensures "df" in interpreter.symtable && interpreter.symtable["df"] == FrameObject(second)
    ensures answer == Answer(o, Some(first), old(interpreter.symtable)["df" := FrameObject(second)], userPrompt)
  {
    a := new DataSenseAgent(Some(first), interpreter);
    b := new DataSenseAgent(Some(second), interpreter);
    assert interpreter.symtable == old(interpreter.symtable)["df" := FrameObject(second)];
    answer := a.Query(o, userPrompt);
  }
}
