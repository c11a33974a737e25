# DataSense agent core in Dafny

A model of a conversational data-analysis assistant. It has two parts.

**The query pipeline (`llm_agent.py`, module `Agent` in `agent.dfy`).**
- A user's request runs through a compiled graph over an `AgentState` record.
- The graph goes code generator → code executor → retry decision, then either back to the generator or on to the response formatter, then END.
- The language model, the sandboxed `asteval` interpreter, `json.loads` and the pandas and `str` renderings are oracles, passed in as function-typed fields of `Oracles`.
- Each node is a function on the state. The graph's meaning is the mutually recursive `FromGenerator` / `FromExecutor` / `FromFormatter`.
- `Invoke` is the compiled graph's loop, proved equal to that meaning.
- The module-level interpreter whose symbol table every agent rebinds is a class, `Interpreter`. `DataSenseAgent` holds its dataframe and that shared interpreter.

**The session helpers (`utils.py`, module `Sessions` in `sessions.dfy`).**
- `get_session_id` is a chain of string functions.
- `save_session`, `load_session` and `export_chat_to_html` are methods over heap-allocated `Message` and `ContentDict` objects. Taking the shallow `msg.copy()` into account, saving converts the caller's own plot dicts as well. Each method is proved against a value-level specification: `SerializeHistory`, `SharedEffect`, `LoadSpec`, `HtmlDocument`.
- `list_sessions` is a function over the directory listing and the modification times.

Shared modules:
- `PyValues` (`pyvalues.dfy`): the Python runtime values, JSON, and the figure and dataframe stand-ins.
- `PyText` (`pytext.dfy`): ASCII models of the string operations used: `strip`, `lower`, `capitalize`, `replace(pattern, "")`, `\w` and `\s`.

Three facts about the code shape the model:
- **At most two rounds.** `retries` starts at 0 (llm_agent.py:223) and is increased on each failure (llm_agent.py:112). The retry test is `retries < 2` (llm_agent.py:176). So a query makes at most two generate/execute rounds. See `FreshRunTraces` and `PersistentFailure`.
- **A failing model call ends the query.** `code_generator_node` does not catch an exception from `llm.invoke` (llm_agent.py:95). It escapes the graph, and `query` answers with the critical-error apology (llm_agent.py:235-241).
- **The intent classifier never runs.** `route_intent_node` is not added to the graph (llm_agent.py:192-194), so the model has no intent step.

## Model

| member | source | states |
|---|---|---|
| Agent.Unfence | llm_agent.py:96 | the stored code is never longer than the reply |
| Agent.UnfenceFenced | llm_agent.py:96 | a reply that is one fenced block with the language tag, padded with whitespace, with no backtick inside, gives exactly the code inside the fence |
| Agent.DropOpeningFence | llm_agent.py:96 | removing the tagged opening fence from a fenced block leaves the code and the closing fence |
| Agent.DropClosingFence | llm_agent.py:96 | removing "```" from backtick-free code followed by a fence leaves the code |
| Agent.UnfenceSpec | llm_agent.py:96 | after stripping and removing "```python" and then "```", no "```" is left, even where a removal joins backticks; a reply already free of backticks and surrounding whitespace comes through unchanged |
| Agent.CodeGeneratorNode | llm_agent.py:86-99 | succeeds exactly when the model call answers; then the code is the reply stripped and with "```python" and then "```" removed, the error is reset to None, and no other field changes |
| Agent.FencedReplyStoresCode | llm_agent.py:95-99 | when the model answers with one padded ```` ```python ```` block, the generator stores exactly the code inside it |
| Agent.GeneratedCodeUnfenced | llm_agent.py:95-99 | the code the generator stores never contains "```" |
| Agent.CodeExecutorNode | llm_agent.py:100-112 | on success: result is the evaluated value; error and retries unchanged. On an exception: error is "Execution failed with error: <name> - <message>", result is None, retries go up by one. No other field changes |
| Agent.ShouldRetry | llm_agent.py:174-180 | retries only with a recorded non-empty error and fewer than 2 retries used, and always then; finishes when the error is None or empty, or at 2 retries |
| Agent.RetryAfterExecution | llm_agent.py:174-180 | after the executor, the graph returns to the generator exactly when the code raised and the increased counter is below 2; otherwise it goes to the formatter |
| Agent.Shape | llm_agent.py:136-151 | first-match classification: a figure is a plot holding that figure; a list of only figures (the empty list too) is a dashboard holding those figures; a dataframe is its `to_string` text; anything else is its `str` text. Type and content always agree |
| Agent.ChartsCarryTheResult | llm_agent.py:136-143 | plot and dashboard responses hand back exactly the value the code produced |
| Agent.FollowUps | llm_agent.py:154-169 | the follow-ups are the reply's "follow_up_questions" field when the reply parses to an object with that key, unchecked; otherwise they are [], including when the call raises |
| Agent.Respond | llm_agent.py:120-172 | with an error recorded: the error text response with [] follow-ups and no follow-up call. Otherwise: the shape of the result, with the follow-ups for that shape. Always consistent, and always with the key present |
| Agent.ResponseFormatterNode | llm_agent.py:120-172 | stores the response `Respond` builds as the final response, and changes no other field |
| Agent.ShapeNotIntent | llm_agent.py:136-151 | the response's type and content depend on the result's shape, not on the request |
| Agent.ErrorAnswer | llm_agent.py:126-133 | a recorded execution failure is reported as text starting with both fixed prefixes, with [] follow-ups |
| Agent.Unfold | llm_agent.py:189-209 | the edge table agrees with the run, and each step lowers a measure, so the graph terminates |
| Agent.Invoke | llm_agent.py:189-209 | the loop that runs the current node, merges its update and follows the edge ends with the graph's outcome and trace |
| Agent.RunShape | llm_agent.py:196-207 | every run either ends in the formatter, run exactly once and last, leaving a consistent response with follow-ups; or it stops at a generator whose model call raised, without formatting |
| Agent.RunRounds | llm_agent.py:174-180 | the generator runs at most `Rounds` times (2 from `retries = 0`), and the executor no more often than the generator |
| Agent.Round | llm_agent.py:196-206 | a round is generator, executor, then the branch `should_retry` picks |
| Agent.LastRound | llm_agent.py:174-180 | a round started with one retry used ends in the formatter or crashes; it never retries |
| Agent.FreshRunTraces | llm_agent.py:196-207 | from `retries = 0` the trace is G E F or G E G E F, or a crash at G or at G E G |
| Agent.RaisedRound | llm_agent.py:105-112 | a round whose code raises uses one retry and records a non-empty failure message |
| Agent.PersistentFailure | llm_agent.py:174-180 | when every evaluation raises, a fresh query runs exactly G E G E F, ends with `retries == 2` and answers with the failure text and [] follow-ups |
| Agent.FirstRoundSuccess | llm_agent.py:105-151 | when the first code evaluates, the query runs G E F and answers with that value's shape |
| Agent.AnswerCases | llm_agent.py:213-241 | no dataframe gives the fixed "not loaded" response; a model call that escapes the graph gives the fixed apology; otherwise the answer is exactly the response the formatter stored |
| Agent.AnswerIsWellFormed | llm_agent.py:213-241 | `query` always answers with a consistent response that has follow-up questions; the fallback without them (llm_agent.py:230-233) cannot be reached |
| Agent.Interpreter.constructor | llm_agent.py:31-33 | the shared interpreter binds 'pd' and 'go' over its built-ins |
| Agent.DataSenseAgent.constructor | llm_agent.py:184-187 | constructing an agent rebinds 'df' in the shared symbol table and leaves every other name as it was |
| Agent.DataSenseAgent.Query | llm_agent.py:213-241 | a missing dataframe gives the fixed "not loaded" response; otherwise the graph from the initial state runs, a crash gives the fixed apology, and the result is always consistent with follow-ups |
| Agent.LatestAgentWins | llm_agent.py:184-187 | after two agents are built over one interpreter, the first agent's query previews its own dataframe but evaluates against the second's |
| PyText.StripSpec | utils.py:15 | `strip` keeps one contiguous run that neither starts nor ends with whitespace, and drops only whitespace around it |
| PyText.NoFenceAfterRemoval | llm_agent.py:96 | after `replace("```", "")` no "```" remains |
| PyText.RemoveAllOfAbsent | llm_agent.py:96 | `replace` of a pattern that does not occur changes nothing |
| Sessions.KeepAllowedSpec | utils.py:15 | the first substitution leaves only word characters, whitespace and '-', and leaves a string of those unchanged |
| Sessions.KeepAllowedDrops | utils.py:15 | a character outside `\w`, `\s` and '-' is deleted, leaving nothing in its place |
| Sessions.KeepAllowedKeeps | utils.py:15 | a word character, whitespace or '-' is kept as it is |
| Sessions.KeepAllowedAppend | utils.py:15 | the first substitution works character by character: filtering a concatenation is filtering each part, in order |
| Sessions.DropSeparatorRun | utils.py:16 | a run of whitespace and '-' is skipped up to the first character that is neither |
| Sessions.CollapseLeadingRun | utils.py:16 | a leading run of whitespace and '-' becomes exactly one "_" |
| Sessions.CollapseRun | utils.py:16 | characters before a run of whitespace and '-' are kept as they are, and the whole run becomes one "_" |
| Sessions.CollapseLeavesNoSeparator | utils.py:16 | after collapsing, no whitespace or '-' is left |
| Sessions.CollapseOfKept | utils.py:15-16 | collapsing a string of kept characters gives only word characters |
| Sessions.CollapseWithoutSeparators | utils.py:16 | a string with no whitespace or '-' is unchanged by collapsing |
| Sessions.SanitizedChars | utils.py:15-16 | the sanitised query is all lower-case word characters |
| Sessions.Sanitize | utils.py:15-16 | the sanitised query is never longer than the query |
| Sessions.Slug | utils.py:17 | the slug has at most 40 characters and is a prefix of the sanitised query; all of it when that has at most 40, exactly 40 otherwise |
| Sessions.SessionId | utils.py:12-18 | the id starts with the date and "_", and is at most 41 characters longer than the date |
| Sessions.SessionIdShape | utils.py:12-18 | the id is the date, "_", then a slug of at most 40 lower-case word characters. The slug is a prefix of the sanitised query, and all of it when that has at most 40 characters |
| Sessions.SanitizeOfSlugChars | utils.py:15-16 | sanitising lower-case word characters changes nothing |
| Sessions.SanitizeIdempotent | utils.py:15-17 | sanitising is idempotent, and a slug sanitises to itself |
| Sessions.JoinPath | utils.py:44 | `os.path.join` ends with the name, and starts with the directory unless the name is absolute |
| Sessions.SavePath | utils.py:44 | saving writes `chat_history/<id>.json`; an absolute id is used on its own, with ".json" appended |
| Sessions.LoadPath | utils.py:50 | loading reads `chat_history/<id>`, with no suffix added; an absolute id is used on its own |
| Sessions.SaveAndLoadPaths | utils.py:44-50 | saving under id writes `chat_history/<id>.json`, which loading reads only for the id with ".json" appended; loading the bare id reads a different file; a listed name loads the file saved under that name without the suffix |
| Sessions.JsonFiles | utils.py:79 | keeps a name exactly when it is in the listing and ends with ".json", and adds nothing |
| Sessions.JsonFilesAppend | utils.py:79 | the ".json" filter keeps the listing's order: filtering a concatenation filters each part, in order |
| Sessions.InsertNewestFirst | utils.py:80-84 | inserting into a list ordered newest first keeps it so |
| Sessions.Insert | utils.py:80-84 | inserting adds exactly the one name |
| Sessions.WithKeyInsert | utils.py:80-84 | a name is inserted ahead of every name with the same key, so names with equal keys keep their relative order |
| Sessions.SortNewestFirst | utils.py:80-84 | the sorted list is a permutation of the input, ordered by non-increasing key |
| Sessions.SortStable | utils.py:80-84 | the sort is stable: for every key the names with that key come out in their input order |
| Sessions.ListSessions | utils.py:74-84 | no directory gives []; otherwise a permutation of the directory's ".json" names |
| Sessions.ListSessionsSpec | utils.py:74-84 | no directory gives []; otherwise the result is a permutation of the directory's ".json" names, holds no other name, is ordered by non-increasing modification time, and keeps names with equal times in directory order |
| Sessions.TiesKeepListingOrder | utils.py:80-84 | two sessions with the same modification time are listed in directory order |
| Sessions.EncodeSucceeds | utils.py:46 | `json.dump` succeeds exactly when no figure or dataframe is anywhere inside the value |
| Sessions.Decode | utils.py:55 | `json.load` gives a dict exactly for an object, and never gives a figure or a dataframe |
| Sessions.JsonRoundTrip | utils.py:46-55 | a value with no figure or dataframe inside dumps successfully, and loading the dump gives it back |
| Sessions.SerializeEntries | utils.py:30-33 | the converted dict no longer holds a figure as plot data; a dict that held none is unchanged |
| Sessions.SerializeEntriesSpec | utils.py:30-33 | only a plot dict's figure is replaced, by its JSON text; keys and all other entries are kept; converting twice is converting once |
| Sessions.SerializeContent | utils.py:30-36 | content nothing needs converting is unchanged; a dict stays a dict with the same keys and no figure left as plot data |
| Sessions.CopyContent | utils.py:27-36 | the copy holds the very same dict object; a plain content is what the saved file holds |
| Sessions.SerializeHistory | utils.py:25-38 | the saved history has the same length, order and roles; each content is serialised; messages that are neither plot dicts with a figure nor figure lists are copied unchanged |
| Sessions.SharedEffect | utils.py:27-36 | the caller's history afterwards: plot dicts converted in place, as in the saved copy; lists and other contents untouched |
| Sessions.CopyForSave | utils.py:27-36 | one shallow copy: a new message with the same role, sharing the dict; its figure list becomes a new list of texts; the shared dict's figure is converted in place |
| Sessions.CopyAllForSave | utils.py:25-38 | copies every message in order; every dict the history holds is converted exactly once, even when messages share it |
| Sessions.SaveSession | utils.py:20-46 | returns `chat_history/<id>.json`; the copies are new objects whose views are `SerializeHistory` of the old views; the caller's history becomes `SharedEffect` of them; the document is the dump of the copies, or None where `json.dump` raises |
| Sessions.ParseAll | utils.py:68 | a successful parse gives one figure per text |
| Sessions.ParseAllSpec | utils.py:66-70 | parsing a list of texts succeeds exactly when every text parses, and then gives each text's figure in order |
| Sessions.RestoreContent | utils.py:61-70 | loading raises only on a plot dict holding text; a dict stays a dict with the same keys, and other content stays outside dicts |
| Sessions.RestoreContentSpec | utils.py:61-70 | loading raises exactly when a plot dict's text fails to parse; a parsed figure replaces the text; a list of texts becomes figures when every text parses, and stays exactly as it was when any one fails; other content is untouched |
| Sessions.RestoreHistory | utils.py:57-70 | the loaded history exists exactly when no message raises, and is the messages with their contents restored, in order |
| Sessions.Materialize | utils.py:55 | `json.load` builds a new message, and a new dict for an object content, reading back the stored message |
| Sessions.MaterializeAll | utils.py:55 | the loaded messages are new, separate objects, one per stored message |
| Sessions.RestoreForLoad | utils.py:59-70 | one message is restored in place, or the step reports that a plot's text failed to parse |
| Sessions.RestoreAll | utils.py:58-70 | the loop succeeds exactly when the history restores, and then the messages show the restored history |
| Sessions.LoadSession | utils.py:48-72 | a missing file gives NotFound, a parse failure escaping gives Raised, and an unrecognised file shape gives Unsupported, each exactly when the value-level `LoadSpec` says so; otherwise the new messages show `LoadSpec`'s history |
| Sessions.ContentJsonRoundTrip | utils.py:46-55 | content with no figure survives being dumped and loaded |
| Sessions.RestoreAfterSerialize | utils.py:30-68 | under a codec whose parse undoes its serialisation, loading gives back exactly what saving converted |
| Sessions.EncodeHistorySpec | utils.py:40-46 | a history whose contents all encode dumps message by message |
| Sessions.StoredMessagesOfEncoded | utils.py:55-57 | dumped messages read back with their roles and contents |
| Sessions.SavedDocumentReads | utils.py:40-57 | the document saved for a history reads back as a session of the saved messages and the same dataframe data |
| Sessions.SaveThenLoad | utils.py:30-68 | under a codec whose parse undoes its serialisation, a saved history loads back as the same history and dataframe data under the id with ".json" appended; under the bare id nothing is found |
| Sessions.MessageBody | utils.py:111-116 | a plot dict shows the plot placeholder; any list shows the dashboard placeholder; a string is put in a paragraph as it is, not escaped |
| Sessions.BlockShape | utils.py:107-117 | a block opens with the container tag carrying the raw role, then the capitalised role as heading, and ends with "</div>" |
| Sessions.BlocksSnoc | utils.py:106-117 | one more message adds its block at the end |
| Sessions.BlocksAppend | utils.py:106-117 | the blocks of two runs of messages are the first run's blocks followed by the second's |
| Sessions.ExportLayout | utils.py:94-118 | each message's block sits after the header and the blocks of the messages before it, and before the blocks of those after it and the closing "</body></html>" |
| Sessions.AppendBlocks | utils.py:106-117 | the loop appends each message's block in order: the raw role as the class, the capitalised role as heading, then the plot placeholder, the dashboard placeholder, or the unescaped `str` of the content |
| Sessions.ExportChatToHtml | utils.py:94-118 | the page is the fixed header, one block per message in order, then "</body></html>" |

## Left out

- The language-model calls are oracles (`writeCode`, `suggest`), and the prompt wording (llm_agent.py:60-85, 155-161) is reduced to the fields each prompt is formatted from. A call that raises is None.
- `route_intent_node` is left out because the graph never adds it.
- `asteval` is an oracle from the symbol table and the code to a value or an exception. Its internals, including its default of recording errors rather than raising, are not modelled; the oracle may do either.
- pandas and plotly are opaque stand-ins. The behaviours used are parameters:
  - `to_string`, `head().to_string()` and `str` of lists and figures;
  - `pio.to_json` and `pio.from_json`, where `from_json` returns None where it raises.
  
  The round trip is a precondition (`fromJson(toJson(f)) == Some(f)`), not an axiom.
- The file system and the clock are parameters:
  - the date string for `get_session_id`;
  - the directory listing (None when the directory is missing);
  - modification times as integers;
  - the saved files, as a map from path to parsed JSON.
  
  `os.makedirs`, opening files and writing them are not modelled.
- A failed `json.dump` would leave a partial file; the model only returns None for the document.
- The file `json.load` reads is modelled as already parsed JSON. A file that is not JSON, or whose shape `save_session` never writes, is the `Unsupported` case. Whether such a file raises inside `load_session` is not modelled.
- JSON numbers are integers only; floating point is not modelled.
- `dataframe_info` is any JSON value.
- Messages always have a role and a content, as every message the app builds does.
- Characters outside ASCII count as neither word characters nor whitespace, and case conversion leaves them alone. Full Unicode `\w`, `\s`, `lower()` and `capitalize()` are not modelled.
- `export_chat_to_html` returns `html.encode('utf-8')`. The model returns the string before encoding.
- `AppendBlocks` reads each message through its view, taken once before the loop. Nothing changes the history during the export.
- `export_chart_to_png_bytes` (kaleido), the console logging, and the API-key check at import (llm_agent.py:14-16) are left out. They are foreign code or output only.
- app.py and ui_components.py (Streamlit rendering), data_handler.py (file parsing and profiling) and api_test.py (a network check) are not part of this model.
- Agent.DataSenseAgent.Query, Agent.CodeExecutorNode: evaluated code can change the interpreter's shared state, by rebinding names in its symbol table (llm_agent.py:31-33, 106) or by changing the dataframe in place. The model does not capture either effect: `eval` is a function from the symbol table and the code to a value or an exception, and the symbol table is changed only by constructing an agent.
- Agent.Shape: `Value` has no case of its own for Python floats, tuples, numpy scalars or pandas Series. The `str` branch (llm_agent.py:148-151) is modelled through the `repr` oracle, which renders every value the model does not print itself; such results are not named as types.
- Agent.CodeExecutorNode: the state always has `retries`, so the `.get('retries', 0)` default (llm_agent.py:103) is not exercised; the same holds for `should_retry`'s default.
- Agent.DataSenseAgent.Query: `df.head().to_string()` is the `preview` oracle and cannot raise; in the code an exception there would escape `query`.
