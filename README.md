# Identity-card fraud agent: the agent loop, the tools node and the insert tool

This project models the core of a Flask service. The service takes a photo of an Indonesian identity card (KTP) and runs a tool-calling agent over it. The agent analyses the card, checks the NIK (the national identity number) for duplicates, and either stores the card or reports fraud. The model covers five parts.

- **The agent graph** (`agent_graph.dfy`). The `agent` node appends one reasoner reply to the history.
  - A reply with tool calls goes to the `tools` node, and `tools` always goes back to `agent`.
  - A reply without tool calls ends the run.
  - `Drive` is the run as a function of the starting node, the history, the analysis slot and a budget of 15 node executions. It produces a trace: the history left, the events streamed, and how the run ended.
  - `Upload` is the endpoint's loop over the event stream. It is proved equal to `FinalResponse` of that trace.
- **The tools node** (`tool_node.dfy`). `AgentState.ToolNode` is the imperative loop over the tool calls of the latest reply. It is proved against `Dispatch`, a left fold of `Step` over the calls.
  - `Step` repairs the insert tool's stringified `data` argument into a value. A malformed string becomes an error tool result and the batch goes on. Any other exception of the parser aborts the batch.
  - It resolves the tool by name, and an unknown name aborts the batch.
  - It invokes the tool and keeps the analysis tool's output in the state.
  - Each call gets one tool result carrying its call id.
- **The router** (`router.dfy`). A total map from the analysis status to the next step. The graph defines it but never calls it.
- **The record mapper and the required-column gate** (`id_card_records.dfy`).
  - `RenameFields` is the key-rename loop.
  - `BuildRecord` adds the splits of the birth field on `,` and of the creation field on a single space.
  - `PrepareRecord` applies the all-or-nothing check of the 13 required columns.
  - `RenameFields` is proved against the closed-form `RenamedRecord`. `BuildRecord` and `PrepareRecord` are proved against `ExpectedRecord` and `MissingKeys`.
- **The table keyed by the unique NIK** (`IdCardRecords.IdCardStore`). It holds the duplicate check and the insert.
  - Rows are keyed by the text the `TEXT` column stores for the NIK. A NIK that arrives as a number and one that arrives as a string with the same text are the same key.
  - The insert fails in the driver when a parameter cannot be bound. That includes a `date_of_creation` the tool never set.
  - A NULL in a NOT NULL column and a stored NIK both break a constraint, and the tool reports either one as a duplicate.

Python's values appear as `Values.Value`, with Python truthiness and `dict.get` (`Values.Get`). `Router.Status` reads the status of the analysis slot. `str.strip`, `str.split` with a one-character separator, and `sep.join` are in `Text`, with Python's whitespace set.

The reasoner, `ast.literal_eval`, the tools' own behaviour and `str()` of a tool output are parameters of the model. The reasoner is `Env.reason`. The other three are `Tools.parse`, `Tools.invoke` and `Tools.show`.

Three behaviours of the code are easy to misread:
- The creation field is split on one space character, not on runs of whitespace.
- The birth date is only the second comma piece; anything after a second comma is dropped.
- An exception raised by a tool, by an unknown tool name, or by `ast.literal_eval` with anything other than `ValueError` or `SyntaxError`, is not answered with an error tool result. It leaves the tools node and ends the whole run with "An error occurred: ...".

## Model

| member | source | states |
|---|---|---|
| Messages.Last | main.py:57 | `[-1]`: the history is everything before the result, followed by the result |
| Router.Route | main.py:97-110 | the duplicate check is chosen exactly when the status is `success`; the fraud report exactly when it is `potential_fraud` or `image_quality_failure`; the agent exactly for any other status, `None` included |
| Router.RouteTargetsResolve | main.py:102-107 | both tool steps the router picks are names the tools node resolves, each picked exactly on its statuses |
| Router.NoStatusContinues | main.py:99-110 | before any analysis, or for a result without a status, the router continues the agent loop |
| ToolDispatch.Resolve | main.py:82-84 | the lookup finds a tool exactly when the name is one of the four registered names, and then the tool of that name |
| ToolDispatch.RepairArgs | main.py:66-77 | every call other than the insert tool with a string `data` keeps its arguments; the repair reports a malformed string exactly when the parser raises `ValueError` or `SyntaxError`, and raises exactly when the parser raises anything else, with that exception |
| ToolDispatch.RepairOnlyTouchesData | main.py:66-70 | a successful repair keeps every key and every other argument; when the repair applies, `data` holds exactly the value the parser gave |
| ToolDispatch.ParseErrorAborts | main.py:66-71 | a parser exception that the repair does not catch aborts the whole batch with that exception; what the earlier calls did stays |
| ToolDispatch.DispatchSnoc | main.py:60-94 | one more call extends the batch by one step, or not at all once it has aborted |
| ToolDispatch.DispatchPrefix | main.py:60-94 | the batch of the first i+1 calls is the batch of the first i calls followed by call i |
| ToolDispatch.DispatchStops | main.py:83-86 | once a call has aborted the batch, no later call changes it |
| ToolDispatch.DispatchOneToOne | main.py:60-92 | without an abort there is exactly one tool result per call, in call order, each carrying its call's id |
| ToolDispatch.MalformedContinues | main.py:66-77 | a malformed `data` string adds the fixed error result for that call, invokes nothing and keeps the batch going |
| ToolDispatch.UnknownNameAborts | main.py:82-84 | an unknown name aborts the whole batch with the not-found error; what the earlier calls did stays, and no later call runs |
| ToolDispatch.DispatchInvokes | main.py:66-86 | without an abort, the tools invoked are exactly the calls that pass the repair, in order, each by its own name and with its repaired arguments, and each logged outcome is what that tool returned for those arguments |
| ToolDispatch.DispatchContents | main.py:74-92 | without an abort, the result answering each call holds the malformed-string error for a malformed `data`, and otherwise `str()` of what the named tool returned for the repaired arguments |
| ToolDispatch.DispatchAnalysis | main.py:88-90 | after the batch, aborted or not, the slot holds the output of the last analysis invocation that returned, or the slot as it was |
| ToolDispatch.NoAnalysisKeepsSlot | main.py:88-90 | a batch that never invokes the analysis tool leaves the slot unchanged |
| ToolDispatch.NoAbortWhenResolved | main.py:66-86 | when every name resolves and neither the parser nor a tool raises, the batch never aborts |
| ToolDispatch.StepAnswers | main.py:74-92 | a call that does not abort adds exactly one tool result after the earlier ones, carrying its id and the content `Answer` gives for the call |
| ToolDispatch.AgentState.ToolNode | main.py:55-94 | the loop returns the batch's tool results, or raises the batch's error, and leaves in the state the slot the batch ends with |
| AgentGraph.DriveExtends | main.py:49-94 | a run leaves its starting history followed by the messages its events added, in order, in at most its budget of steps; the analysis slot stays as the run found it, because the tools node returns only its messages |
| AgentGraph.AgentExtends | main.py:49-52 | the agent-node case of `DriveExtends` |
| AgentGraph.ToolsExtends | main.py:94 | the tools-node case of `DriveExtends` |
| AgentGraph.HistoryOnlyGrows | main.py:52 | a run's history extends the history it started from |
| AgentGraph.DriveFinishes | main.py:123-133 | only the last event of a run may be a reply without tool calls, and it is one exactly when the run reached END |
| AgentGraph.AgentFinishes | main.py:126 | the agent-node case of `DriveFinishes` |
| AgentGraph.ToolsFinishes | main.py:137 | the tools-node case of `DriveFinishes` |
| AgentGraph.DriveAlternates | main.py:123-137 | agent and tools events take turns, starting with the node the run starts at |
| AgentGraph.AgentAlternates | main.py:126 | the agent-node case of `DriveAlternates` |
| AgentGraph.ToolsAlternates | main.py:137 | the tools-node case of `DriveAlternates` |
| AgentGraph.FinalOverLast | main.py:187-191 | when only the last event can finish, the response is decided by that event alone |
| AgentGraph.FinalResponseShape | main.py:180-194 | an aborted run answers with the error text; a run that reached END closed on a reply without tool calls, and answers with its content, or the default when that content is empty |
| AgentGraph.StepCapAborts | main.py:185 | a reasoner that always calls tools that resolve, with a parser and tools that never raise, uses every step of the budget and aborts with the recursion-limit error |
| AgentGraph.AgentCapAborts | main.py:185 | the agent-node case of `StepCapAborts` |
| AgentGraph.ToolsCapAborts | main.py:185 | the tools-node case of `StepCapAborts` |
| AgentGraph.StepCapResponse | main.py:181-194 | such a run executes 15 nodes and the endpoint answers with the recursion-limit error |
| AgentGraph.Upload | main.py:180-194 | the streamed loop returns the last non-empty content of a reply without tool calls, the default text, or the error text, exactly as `FinalResponse` of the run |
| Text.SkipSpace | tools/database_tools.py:76 | the first non-whitespace index at or after i; everything skipped is whitespace |
| Text.SkipSpaceBack | tools/database_tools.py:76 | one past the last non-whitespace character before j; everything skipped is whitespace |
| Text.Strip | tools/database_tools.py:76 | `strip()` is the contiguous slice without leading and trailing whitespace; it is empty exactly for all-whitespace text |
| Text.IndexOf | tools/database_tools.py:75 | the first occurrence of the separator, or the length when there is none |
| Text.BeforeFirst | tools/database_tools.py:75-76 | the text before the first separator holds none, and with the separator and the rest rebuilds the string |
| Text.AfterFirst | tools/database_tools.py:77-78 | the text after the first separator is strictly shorter whenever the separator occurs |
| Text.Split | tools/database_tools.py:75 | `split` gives at least one piece, and no piece holds the separator |
| Text.JoinSplit | tools/database_tools.py:87-90 | joining the pieces of a split with the separator gives the string back |
| Text.SplitJoin | tools/database_tools.py:87-90 | the inverse half of the `split`/`join` round trip, which the code itself never performs (it only splits and then joins, see `JoinSplit`): splitting a join of separator-free pieces gives the pieces back, so `Split` loses nothing |
| Text.CutAtFirst | tools/database_tools.py:75-78 | `p + [c] + t` cut at its first `c` is `p` and `t` when `p` holds no `c` |
| Text.IndexAfterPrefix | tools/database_tools.py:75 | the first separator of `p + [c] + t` is the one after `p` |
| Text.SplitFirst | tools/database_tools.py:76 | `parts[0]` is the text before the first separator |
| Text.SplitMany | tools/database_tools.py:77 | `len(parts) > 1` exactly when the separator occurs |
| Text.SplitSecond | tools/database_tools.py:78 | `parts[1]` is the text between the first and the second separator |
| Text.SplitRestJoin | tools/database_tools.py:90 | `' '.join(parts[1:])` is the text after the first space |
| IdCardRecords.ColumnOfSourceKey | tools/database_tools.py:51-65 | reading the rename table as a dictionary undoes `SourceKey`, and the birth field is not in the table |
| IdCardRecords.SourceKeysDistinct | tools/database_tools.py:51-65 | different columns are renamed from different keys, and none from the birth field |
| IdCardRecords.KeyMappingRow | tools/database_tools.py:51-65 | each row of the table fills a renamed column from its own source key |
| IdCardRecords.KeyMappingCovers | tools/database_tools.py:51-65 | every renamed column has a row in the table |
| IdCardRecords.BirthColumns | tools/database_tools.py:74-80 | the birth split sets at most the two birth columns |
| IdCardRecords.CreationColumns | tools/database_tools.py:86-90 | the creation split sets at most the two creation columns |
| IdCardRecords.RenameFields | tools/database_tools.py:67-70 | the loop builds exactly the renamed record: the 13 mapped columns, each `data.get` of its source key |
| IdCardRecords.RenamedRecordOf | tools/database_tools.py:67-70 | a record with exactly the renamed columns, each copied from its source key, is the renamed record |
| IdCardRecords.BuildRecord | tools/database_tools.py:67-90 | a truthy non-string birth field fails the parse; then a truthy non-string creation field raises; otherwise the record is the renamed columns with the two splits laid over them |
| IdCardRecords.FalsyAmong | tools/database_tools.py:99 | a column is listed exactly when it is among the keys and its value is falsy |
| IdCardRecords.MissingKeys | tools/database_tools.py:94-99 | a column is missing exactly when it is required and its value is falsy |
| IdCardRecords.FalsyAmongOrdered | tools/database_tools.py:99 | the falsy keys come in the order of the key list |
| IdCardRecords.MissingKeysOrdered | tools/database_tools.py:94-99 | the missing columns come in the order of the required list |
| IdCardRecords.PrepareRecord | tools/database_tools.py:67-103 | the parse error for a non-string birth field; an exception for a non-string creation field; otherwise the missing-fields error listing the falsy required columns in order, or the record, whose required columns are then all truthy |
| IdCardRecords.FalsyAmongIgnores | tools/database_tools.py:99 | a column outside the key list cannot change the list of falsy keys |
| IdCardRecords.OptionalColumnsNeverReject | tools/database_tools.py:94-99 | `gol_darah`, `place_of_creation` and `date_of_creation` can never change the gate's verdict |
| IdCardRecords.NotCreationColumn | tools/database_tools.py:86-90 | only the two creation columns come from the creation split |
| IdCardRecords.NotBirthColumn | tools/database_tools.py:74-80 | only the two birth columns come from the birth split |
| IdCardRecords.ExpectedRenamed | tools/database_tools.py:67-70 | every mapped column except `place_of_creation` holds `data.get` of its source key in the built record |
| IdCardRecords.ExpectedBirth | tools/database_tools.py:74-80 | the birth columns of the built record are those of the birth split |
| IdCardRecords.ExpectedRequired | tools/database_tools.py:67-99 | what each required column holds in the built record |
| IdCardRecords.ExpectedCreation | tools/database_tools.py:86-90 | the creation columns the split sets are those of the built record |
| IdCardRecords.NoCommaRejected | tools/database_tools.py:77-80 | a birth field without a comma leaves `tanggal_lahir` as `None`, so it is always missing |
| IdCardRecords.NoBirthRejected | tools/database_tools.py:74 | without a truthy birth field neither birth column is set, and both are missing |
| IdCardRecords.FalsyIsMissing | tools/database_tools.py:99 | a falsy required column is reported |
| IdCardRecords.AllTruthyNoneMissing | tools/database_tools.py:99-100 | no key is reported when every key is truthy |
| IdCardRecords.FalsyAmongSingle | tools/database_tools.py:99 | only the falsy key is reported when every other key is truthy |
| IdCardRecords.BirthDepends | tools/database_tools.py:74-83 | the birth split reads only the birth field |
| IdCardRecords.CreationDepends | tools/database_tools.py:86-90 | the creation split reads only the creation field |
| IdCardRecords.RenamedWithout | tools/database_tools.py:69-70 | removing a source key makes its column `None` and changes no other renamed column |
| IdCardRecords.RenamedWithoutUnused | tools/database_tools.py:69-70 | removing a key the table does not read leaves the renamed columns as they were |
| IdCardRecords.BirthKeyUnused | tools/database_tools.py:51-65 | no column is renamed from the birth field |
| IdCardRecords.ExpectedWithoutSource | tools/database_tools.py:67-90 | removing a renamed source key clears exactly its column in the built record |
| IdCardRecords.ExpectedWithoutBirth | tools/database_tools.py:67-90 | removing the birth field clears exactly the two birth columns |
| IdCardRecords.RequiredDistinct | tools/database_tools.py:94-97 | the required list names no column twice |
| IdCardRecords.MissingOnly | tools/database_tools.py:99 | the gate names exactly one column when only that one is falsy |
| IdCardRecords.RequiredColumnsAre | tools/database_tools.py:94-97 | the required columns are all but `gol_darah`, `place_of_creation` and `date_of_creation` |
| IdCardRecords.FalsyAmongAppend | tools/database_tools.py:99 | the falsy keys of a concatenation are those of each part, in order |
| IdCardRecords.FalsyAmongPair | tools/database_tools.py:99 | the gate names two adjacent keys, in order, when only they are falsy |
| IdCardRecords.MissingBirthPair | tools/database_tools.py:94-99 | the gate names `tempat_lahir, tanggal_lahir`, in that order, when only they are falsy |
| IdCardRecords.AcceptedAll | tools/database_tools.py:99-100 | a record the gate accepts has every required column truthy |
| IdCardRecords.ClearedOthersTruthy | tools/database_tools.py:99 | clearing one column leaves the other required columns truthy |
| IdCardRecords.ClearingRequiredRejects | tools/database_tools.py:99-103 | clearing one required column of an accepted record makes the gate name exactly that column |
| IdCardRecords.DroppingBirthRejects | tools/database_tools.py:99-103 | dropping both birth columns of an accepted record makes the gate name both |
| IdCardRecords.RemovingRequiredFieldRejects | tools/database_tools.py:67-103 | all or nothing: removing one required renamed field from an accepted input gets it rejected, naming exactly that column |
| IdCardRecords.RemovingBirthRejects | tools/database_tools.py:74-103 | removing the birth field from an accepted input gets it rejected, naming both birth columns |
| IdCardRecords.BirthSplitAtComma | tools/database_tools.py:74-78 | for "place,date[,...]", `tempat_lahir` is the stripped place and `tanggal_lahir` the stripped text up to the next comma |
| IdCardRecords.ExpectedBirthSplit | tools/database_tools.py:74-80 | a string birth field puts its place and date halves in the built record |
| IdCardRecords.BirthFieldAtComma | tools/database_tools.py:75-78 | the two halves of "place,date[,...]" |
| IdCardRecords.CreationSplitAtSpace | tools/database_tools.py:86-90 | for "place date...", `place_of_creation` is the stripped place and `date_of_creation` all the rest, stripped |
| IdCardRecords.CreationFieldAtSpace | tools/database_tools.py:87-90 | the two halves of "place date..." |
| IdCardRecords.InsertRowKeeps | tools/database_tools.py:106-123 | an insert keeps every row storable under its own NIK text and changes no stored row. It fails in the driver exactly when a parameter cannot be bound. It succeeds exactly for a record the driver binds, with no NULL in a NOT NULL column, whose NIK text is new, and adds only that row. Every other constraint failure is reported as the duplicate error |
| IdCardRecords.SameNikRace | tools/database_tools.py:114-120 | of two inserts whose NIKs have the same text, the second is always refused as a duplicate and leaves the table unchanged; the first succeeds exactly when the text was new |
| IdCardRecords.NikKey | database_setup.py:33 | a record that passes binding and NOT NULL has a NIK that is a string or a scalar. Its key is that string, or the scalar's text form, which is the TEXT the column stores |
| IdCardRecords.NumberAndTextNikCollide | database_setup.py:33 | a NIK given as the number 3201 is stored as the text "3201", so a later NIK "3201" given as text is refused |
| IdCardRecords.NoCreationDateNeverStored | tools/database_tools.py:85-90 | without a truthy creation string holding a space, `date_of_creation` is never set, the driver refuses the unbound parameter at tools/database_tools.py:109, and the table is unchanged |
| IdCardRecords.IdCardStore.constructor | database_setup.py:31-49 | the table starts empty and keyed by NIK |
| IdCardRecords.IdCardStore.CheckDuplicateNik | tools/database_tools.py:21-31 | "duplicate" exactly when some stored row's NIK has the text asked about, "not_found" exactly when none has; the reply echoes the NIK and the table is unchanged |
| IdCardRecords.IdCardStore.Insert | tools/database_tools.py:111-123 | the insert, with binding, the NOT NULL and UNIQUE constraints and the tool's error replies, as `InsertRow` describes it; the table stays keyed by NIK |
| IdCardRecords.IdCardStore.InsertIdCard | tools/database_tools.py:50-123 | every rejection before the INSERT leaves the table unchanged; an input that passes the gate goes to the INSERT as `ExpectedRecord`; a record is stored only when its input passed the gate and the driver could bind it |

## Left out

- `Tools.invoke` is a fixed function of the tool and its arguments. `IdCardStore` is not connected to the tools node, so in a run of the graph, a duplicate check never sees a row inserted earlier in the same run, although the real database would.
- The reasoner (Gemini), the analysis tool's image handling, and the fraud e-mail are foreign calls. They are the abstract `Env.reason` and `Tools.invoke`, and the e-mail tool's `nik or "unknown"` default lies inside `Tools.invoke`.
- The Flask routes, the file upload and the initial prompt text are left out. `Upload` takes the first human message as its `request` parameter.
- The `llm_with_tools is None` check of the endpoint is left out. It is HTTP plumbing that runs before the graph.
- `ast.literal_eval` and `str()` of a tool output are Python runtime internals. They are the abstract `Tools.parse` and `Tools.show`. `Tools.parse` has three outcomes: a value, a `ValueError` or `SyntaxError` (which the repair catches), or any other exception (which aborts the run). Which strings lead to which outcome is left to the parameter.
- The tool-argument schema validation (pydantic) is part of the abstract `Tools.invoke`. That covers, for example, a repaired `data` that is not a dictionary.
- `call.get('args', {})`: every call of the model carries an argument map, and a missing one is read as the empty map.
- The repair writes the parsed value into the call's own argument dictionary, which the history message shares. The model keeps the message unchanged and passes the repaired map to the tool only. History aliasing is not modelled.
- LangGraph's state handling is abstracted. The `add_messages` reducer is modelled as appending, and replacement of a message with an existing id is not modelled. The state copy that the tools node writes `analysis_result` into is modelled as that node's own `AgentState`. That state is discarded after the step, so the analysis slot of the run never changes.
- AgentGraph.Drive: the step limit is a fuel of 15 node executions. LangGraph's own superstep counting and the exact text of its recursion error are approximated by `StepLimit` and `RecursionLimitError`.
- SQLite is reduced to what decides this tool's reply: binding the sixteen named parameters, the NOT NULL columns, and the UNIQUE NIK. The table is a map from the stored NIK text to the row. Connections, the SQL text, the text of the driver's own error message (`DriverFailed`) and the `conn` unbound in `finally` are left out.
- IdCardRecords.Bindable: a parameter counts as unbindable only when it is missing or is a dictionary. A list or another non-scalar value inside `Opaque` also fails to bind in the driver, and the model does not tell it apart.
- IdCardRecords.StoredText: a number is stored as the text `str()` gives for it. That holds for integers, the 16-digit NIK included. For booleans (stored as 1 or 0) and for some floats, SQLite's text differs from Python's, and the model does not capture that.
- `view_database.py` and all logging are left out. `database_setup.py` is modelled only in three places: the TEXT type of the nik column (`StoredText`), its UNIQUE constraint (`NikKey`, `InsertRow`) and the NOT NULL columns (`NotNull`). The rest of it is left out, namely the table's other column types, the `id` key and the connection handling.
- The input `data` cannot be changed by the model: Dafny maps are values, and the tool never writes to `data`.
