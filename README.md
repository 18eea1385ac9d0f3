# personal_LLM conversation bookkeeping, in Dafny

This project models the bookkeeping at the core of personal_LLM, a terminal chat client for
locally served language models, and proves properties of it. The model covers:

- **The session store** (`ChatMemory`, src/memory.py). The `chats` and `chat_history` tables
  are sequences of rows in insertion order. `current_id` is process-local. Timestamps come from
  a clock that only moves forward.
- **The response-stream aggregator** and the presentation rules (`View`, src/view.py): the
  panels `live_response` shows, the column rule of `print_table`, the numbering of
  `print_ordered_list`, and the role routing of `reconstruct_history`.
- **The turn loop** (`MainLoop`, src/main.py): the search-model defaulting of `parse_config`
  and the fixed order of one turn. A turn creates a conversation if needed, persists the
  user message, runs an optional search, streams the response with one retry, and persists
  the assistant reply.
- **Command parsing and dispatch** (`Commands`, src/commands.py).
- **The engine's message log** and the model-availability check (`Engine`, src/engine.py).
- **Search-result formatting** (`Search`, src/search.py).
- **The cleanup guard** (`Cleanup`, src/cleanup_handler.py), which lets the cleanup callback
  run at most once.

`Text` models the Python string behaviour the program relies on: `split()`, `strip()`,
`" ".join`, `str(int)`, `int(str)` and ASCII `lower()`. It also models the text ordering SQLite
applies to the stored timestamps. `Seqs` holds generic sequence facts (filter, reverse,
numbering). `Models` holds `ChatHeader` and `ChatItem`, the two record types src/models.py defines,
and two records the model supplies: `Message`, an entry of the engine's message list, and
`ModelResponse`, the result of a streamed reply. src/view.py:16 imports `ModelResponse` from
src/models.py, which does not define it.

State that the source changes in place is a Dafny `class`:

- `Memory`: the current id and both tables.
- `AIEngine`: the message log.
- `CleanupHandler`: the flag.
- `ConfigData`: the config dict.

Every method of these classes is proved against a specification function. The loops of
`get_chat_list`, `live_response`, `print_ordered_list`, `print_table`, `reconstruct_history`,
`search_tavily` and the `while True` of `main` are Dafny loops with invariants.

The store model keeps an invariant, `TablesValid`:

- chat ids are positive and strictly ascending;
- both tables are in strictly ascending `created` order;
- no row is dated after the clock.

Under it, `ORDER BY created ASC` is table order and `ORDER BY created DESC` is its reverse.

Where the code and the design description of the project differ, the model follows the code:

- The `chats` table has no `last_updated` column, and nothing is updated when a message is
  appended (src/memory.py:27-31).
- `add_to_conversation` does not refuse to write when no conversation is current; it writes a
  row whose chat id is NULL (src/memory.py:96-101).
- `parse_config` copies `main_model` into `search_model` when `search_model` is empty and
  also when `main_model` is None (src/main.py:42-48).

## Model

| member | source | states |
|---|---|---|
| `Text.Words` | src/commands.py:18 | Python's `split()`: every word is non-empty and holds no whitespace |
| `Text.WordsOfStrip` | src/commands.py:18 | `s.strip().split() == s.split()` |
| `Text.WordsOfJoin` | src/main.py:116-117 | splitting words joined by single spaces gives the same words back |
| `Text.ParseIntToStr` | src/memory.py:124-138 | `str(n)` read back as an integer literal is `n`, so the id text `delete` builds selects that id |
| `Text.DecimalIsSqlInteger` | src/memory.py:137-143 | a plain decimal literal means the same number to SQLite's numeric conversion as to `int()` |
| `Text.SqlIntegerOfIntToStr` | src/memory.py:126-143 | SQLite reads the text `str(n)` as the number `n`, so `str(current_id)` selects exactly the current chat |
| `Text.SqlIntegerZeroPadded` | src/memory.py:137-143 | SQLite reads "04" as 4 |
| `Text.SqlIntegerWholeReal` | src/memory.py:137-143 | SQLite reads the real literals "4.0" and "40e-1" as 4 |
| `Text.SqlIntegerRejects` | src/memory.py:137-143 | "4.5", the hexadecimal "0x4" and "*" equal no integer id |
| `Text.BeforeTransitive` | src/memory.py:169-174 | the text order SQLite sorts `created` by is transitive, so the ordering invariant holds across the whole table |
| `ChatMemory.MaxId` | src/memory.py:74-77 | the result is at least every id in the table, and at least 0 |
| `ChatMemory.NewChatId` | src/memory.py:74-77 | the rowid given to a new chat is positive and differs from every existing id |
| `ChatMemory.AppendRowValid` | src/memory.py:96-101 | appending a history row dated after the clock keeps the table invariant |
| `ChatMemory.AppendChatValid` | src/memory.py:72-81 | appending a chat with the next rowid, dated after the clock, keeps the table invariant |
| `ChatMemory.PurgeMembers` | src/memory.py:140-147 | the surviving chats are exactly the unselected ones; the removed chats are exactly the selected ones; the surviving history rows are exactly the unselected ones |
| `ChatMemory.DeleteAsWrittenRemovesCurrent` | src/memory.py:124-147 | with the code's string guard and chat 4 current, `delete("04")` removes chat 4 and its history row, and reports `[4]` |
| `ChatMemory.DeleteAsWrittenRemovesCurrentById` | src/memory.py:124-147 | with the code's string guard, any selector SQLite reads as the current id but that is not `str(current_id)` removes the current chat and every history row tagged with it |
| `ChatMemory.GuardsAgree` | src/memory.py:124-147 | the string guard and the corrected guard give the same result except on a selector SQLite reads as the current id that is not `str(current_id)`; there the corrected guard deletes nothing and the string guard purges |
| `ChatMemory.DeleteKeepsCurrent` | src/memory.py:116-147 | with the corrected guard, whatever the selector, the current chat survives `delete`, and so does every history row tagged with a truthy current id |
| `ChatMemory.DeleteCurrentIsNoop` | src/memory.py:126-127 | `delete(str(current_id))` leaves both tables unchanged and returns `[]`, under both guards |
| `ChatMemory.DeleteAllButCurrent` | src/memory.py:129-132 | `"*"` with a current chat keeps exactly that chat, and keeps exactly the history rows tagged with it or with NULL |
| `ChatMemory.DeleteAllWithoutCurrent` | src/memory.py:129-147 | `"*"` with no current chat empties both tables and reports every chat id in table order |
| `ChatMemory.AtMostOneSelected` | src/memory.py:137-143 | an id selector selects at most one chat, because ids are unique |
| `ChatMemory.UniqueIdSelected` | src/memory.py:137-143 | an id selector removes one chat if and only if a chat with that id exists, and never more than one |
| `ChatMemory.DeleteByIdReports` | src/memory.py:137-151 | deleting by id reports `[id]` if that chat existed and `[]` otherwise |
| `ChatMemory.DeleteByIdRemoves` | src/memory.py:137-147 | deleting by id removes that chat and its history rows and keeps every other chat and row (both directions) |
| `ChatMemory.ReportedIdsAreRemovedChats` | src/memory.py:124-151 | for every selector and under both guards, a chat is gone if and only if its id is reported, and every reported id was a chat |
| `ChatMemory.DeleteValid` | src/memory.py:124-149 | deleting keeps the table invariant, under both guards |
| `ChatMemory.Take` | src/memory.py:169 | SQLite `LIMIT n`: the first `n` rows for `0 <= n < size`, all rows otherwise (a negative limit means no limit) |
| `ChatMemory.ChatListIsSuffix` | src/memory.py:166-175 | `get_chat_list(n)` is the last `n` chats of the table (all for `n <= 0` or `n >= size`), in table order |
| `ChatMemory.ChatListMostRecentAscending` | src/memory.py:153-181 | the listed chats are in ascending `created` order, and every chat left out is older than every chat listed |
| `ChatMemory.ChatRecordsExact` | src/memory.py:193-195 | the records are exactly the history rows of that chat (both directions), in ascending `created` order |
| `ChatMemory.ChatRecordsAfterAppend` | src/memory.py:96-101 | an appended row is added at the end of its own chat's records; every other chat's records are unchanged |
| `ChatMemory.ChatDataRoundTrip` | src/memory.py:47-57 | a row written by `add_to_conversation` converts back to the role, content and visibility it was written with |
| `ChatMemory.Memory.constructor` | src/memory.py:11-12 | a new store has no current conversation |
| `ChatMemory.Memory.CreateConversation` | src/memory.py:72-81 | adds exactly one chat with the given title and a fresh id, and makes that id current; history is unchanged; the invariant is kept |
| `ChatMemory.Memory.AddToConversation` | src/memory.py:96-103 | appends exactly the row `(current_id, now, role, content, visible)`, even when `current_id` is None; nothing else changes |
| `ChatMemory.Memory.Delete` | src/memory.py:124-151 | the tables and the returned ids are those of `DeleteChats`; the current id is unchanged; the invariant is kept |
| `ChatMemory.Memory.GetChatList` | src/memory.py:163-181 | returns `ChatList` of the table, or ValueError for a string limit that is not an integer; the store is unchanged |
| `ChatMemory.Memory.GetChatRecords` | src/memory.py:193-199 | returns that chat's records; `current_id` becomes the cursor's last rowid; the tables are unchanged |
| `View.Display` | src/view.py:187-210 | there is a thoughts panel if and only if the thinking so far is non-empty, and a content panel if and only if the content so far is non-empty; thoughts come first |
| `View.LiveResponse` | src/view.py:161-216 | the result is the concatenation of all thinking deltas and of all content deltas; the display updates are `Frames` of the stream |
| `View.AccumulateConcat` | src/view.py:176-184 | each accumulator maps a split stream to the concatenation of its parts, so deltas are kept in arrival order |
| `View.AccumulatorsIndependent` | src/view.py:176-184 | the content depends only on the content deltas, and the thoughts only on the thinking deltas |
| `View.EmptyChunkChangesNothing` | src/view.py:177-184 | a chunk with absent or empty deltas, or with no `message`, changes neither accumulator; nothing is shown while both are empty |
| `View.LastFrameIsFinal` | src/view.py:213-216 | the last display update shows exactly the final accumulators |
| `View.ExampleStream` | src/view.py:169-184 | content "Hel", thinking "thinking", content "lo" finalise to thoughts "thinking" and content "Hello" |
| `View.PrintOrderedList` | src/view.py:37-47 | the printed lines are `OrderedLines` of the messages |
| `View.OrderedLinesLength` | src/view.py:43-47 | each entry takes one line, or two with `line_break` |
| `View.OrderedLineAt` | src/view.py:43-47 | entry `k` is labelled `k + 1`; with `line_break` it is preceded by an empty line |
| `View.OrderedLinesNumbering` | src/view.py:43-47 | items are labelled 1..n in input order, with or without `line_break` |
| `View.TableColumns` | src/view.py:83-100 | IndexError if and only if a non-empty alignment list is shorter than the columns; otherwise each column keeps its header, takes the given alignment only if it is left/center/right (else center), and only the last column gets ratio 1 |
| `View.Stamp` | src/view.py:227 | `created[:19]`: at most 19 characters, a prefix of `created`, and exactly 19 characters when `created` has that many |
| `View.ReconstructHistory` | src/view.py:218-232 | a header line, then one item per record in order: a user message if and only if the role is "user", otherwise an assistant message stamped with `created[:19]`; no visibility filter |
| `Engine.GetModels` | src/engine.py:32-62 | succeeds with the listing if and only if both models are installed; a ConnectionError or ResponseError from the server is raised as such |
| `Engine.GetModelsErrorChoice` | src/engine.py:42-51 | the combined error when both models are missing under different names; else the main-model error when the main model is missing; else the sub-model error |
| `Engine.SystemContent` | src/engine.py:75 | the system text starts with "CONTEXT: ", ends with "\nINSTRUCTIONS: " and the instructions, and has the template's length |
| `Engine.SearchMessage` | src/engine.py:85-88 | a `user` entry whose content is the fixed header followed by the results |
| `Engine.SearchMessageInjective` | src/engine.py:85-88 | the results can be recovered from the search message |
| `Engine.AIEngine.constructor` | src/engine.py:8-15 | a new engine has an empty log and `num_ctx` 16384 |
| `Engine.AIEngine.Create` | src/engine.py:8-17 | construction fails exactly when `get_models` fails, with its error; otherwise it gives a fresh engine with an empty log |
| `Engine.AIEngine.SetSystemMessage` | src/engine.py:69-77 | appends one `system` entry with the template content; `user_data` is ignored; nothing else changes |
| `Engine.AIEngine.AddUserMessage` | src/engine.py:79-80 | appends one `user` entry with the content; earlier entries are unchanged |
| `Engine.AIEngine.AddAssistantMessage` | src/engine.py:82-83 | appends one `assistant` entry with the content; earlier entries are unchanged |
| `Engine.AIEngine.AddSearchMessage` | src/engine.py:85-88 | appends the search message; earlier entries are unchanged |
| `Search.ContextFromConcat` | src/search.py:34-39 | the numbering of result blocks runs on across a split of the results |
| `Search.ContextFromSnoc` | src/search.py:34-39 | one more result adds its block, numbered after the blocks before it |
| `Search.FormatResults` | src/search.py:34-41 | the loop builds the blocks of all results, numbered from 1, with the field defaults |
| `Search.SearchTavily` | src/search.py:27-43 | the formatted context when the client answers (an empty context without `results`), a bare Exception when it raises |
| `Search.TextQuery` | src/search.py:16-19 | "Search Unsuccesful" for any engine other than "tavily"; otherwise what `search_tavily` gives |
| `Search.ContextShape` | src/search.py:27-41 | the context is empty if and only if there are no results; otherwise it opens with result 1's block |
| `Search.ContextLocatesResult` | src/search.py:34-39 | result `k` appears as block `k + 1`, right after the blocks of the results before it |
| `Commands.ParseCommand` | src/commands.py:18-20 | IndexError if and only if nothing but whitespace follows the first character; otherwise command and arguments are the words after the first character, in order |
| `Commands.ParseCommandRoundTrip` | src/commands.py:18-20 | "/" + command + " " + the arguments joined by spaces parses back into the same command and arguments |
| `Commands.ParseCommandBlank` | src/commands.py:18-20 | "/" followed only by whitespace raises IndexError |
| `Commands.HistRequest` | src/commands.py:72-137 | no arguments, a `list` request and a `delete` request are each recognised if and only if the first argument says so |
| `Commands.HistListDefaultsToFive` | src/commands.py:75-78 | `hist list` behaves exactly like `hist list 5` |
| `Commands.OnlyHistDeleteWrites` | src/commands.py:35-137 | only `hist delete <selector>` changes the tables, and then exactly as `delete` does; every other command leaves them unchanged |
| `Commands.HistWithoutSelectorDeletesNothing` | src/commands.py:121-137 | `hist delete` without an argument prints the prompt; it, `hist` without arguments and unknown requests change no table and raise nothing |
| `Commands.HistDispatch` | src/commands.py:41-42 | a line parsed as `hist` is handled by `handle_hist` with exactly its arguments |
| `Commands.CommandRoutesHist` | src/commands.py:35-42 | "/hist" followed by arguments is routed to `handle_hist` with exactly those arguments |
| `Commands.HelpDispatch` | src/commands.py:38-39 | a line that parses as `help`, with any arguments, prints the help and changes nothing |
| `Commands.UnknownCommandShowsHelp` | src/commands.py:44-46 | a line whose command word is neither `help` nor `hist`, with any arguments, prints "Unknown command" and then the help, and changes nothing |
| `Commands.HandleHist` | src/commands.py:62-137 | the output, outcome and tables are `HistEffect` of the arguments over the live store; the current id is unchanged |
| `Commands.HandleCommand` | src/commands.py:23-46 | the output, outcome and tables are `CommandEffect` of the line over the live store; the current id is unchanged |
| `Cleanup.SignalName` | src/cleanup_handler.py:32-36 | a name exists if and only if the signal is SIGHUP, SIGTERM or SIGINT |
| `Cleanup.AfterCleanup` | src/cleanup_handler.py:24-28 | after `_cleanup` the flag is set, and the callback ran if and only if the flag was clear |
| `Cleanup.CallbackRunsOnce` | src/cleanup_handler.py:24-28 | across `n >= 1` calls on a fresh handler the callback runs exactly once; it never runs once the flag is set |
| `Cleanup.CleanupHandler.constructor` | src/cleanup_handler.py:21-22 | a new handler has not run cleanup |
| `Cleanup.CleanupHandler.DoCleanup` | src/cleanup_handler.py:24-28 | sets the flag; runs the callback only if the flag was clear |
| `Cleanup.CleanupHandler.SignalHandler` | src/cleanup_handler.py:30-40 | prints the name of a known signal, then cleans up (once), then exits with status 0 |
| `Cleanup.CleanupHandler.Register` | src/cleanup_handler.py:42-52 | returns the same handler |
| `Cleanup.RegisterCleanup` | src/cleanup_handler.py:55-70 | gives a fresh, registered handler that has not run cleanup |
| `MainLoop.DefaultSearchModel` | src/main.py:42-48 | `search_model` becomes `main_model` if and only if it was empty or `main_model` is None; every other key is unchanged; a missing key is a KeyError |
| `MainLoop.DefaultSearchModelIdempotent` | src/main.py:42-48 | defaulting a defaulted section changes nothing |
| `MainLoop.DefaultedSearchModelNonEmpty` | src/main.py:42-48 | after defaulting, the search model is empty only if the main model is empty |
| `MainLoop.ParseConfig` | src/main.py:37-55 | the defaulting is written back into the dict; the result holds the four sections, or the KeyError of the first one missing |
| `MainLoop.TitleWords` | src/main.py:115-118 | the title of a new conversation holds exactly the first ten words of the input |
| `MainLoop.GetResponse` | src/main.py:152-178 | one request and display; after a ResponseError, thinking is switched off and the stream is requested once more; a second error gives no response |
| `MainLoop.RunTurn` | src/main.py:103-184 | one iteration performs exactly the events of `TurnStep`, including stopping right after the query when the search raises |
| `MainLoop.Run` | src/main.py:102-189 | the loop performs `RunSpec` of the inputs: turns one at a time until `/exit`, a raised error (a failing command, search or retried stream) or the end of the input |
| `MainLoop.ChatEventsCreates` | src/main.py:115-123 | an ordinary turn creates a conversation exactly once if none is current, and otherwise not at all |
| `MainLoop.TurnCreates` | src/main.py:103-123 | one iteration creates a conversation if and only if it is an ordinary turn with no current conversation; a current conversation stays current |
| `MainLoop.AtMostOneConversation` | src/main.py:103-189 | over a whole run at most one conversation is created, none if one is already current, and a current conversation stays current |
| `MainLoop.StoreWritesBeforeClosing` | src/main.py:115-180 | the store writes of a turn are the opening writes, then the user message, then the search message if a search was decided and answered, then the closing writes |
| `MainLoop.RespondSucceeds` | src/main.py:152-178 | if the first attempt or the retry streamed, the response is that attempt's final accumulators |
| `MainLoop.ChatTurnWrites` | src/main.py:115-180 | a completed turn whose search did not raise persists the title and system message (new conversation only), then the user message, then the search message (only if searched), then the assistant message of the attempt that succeeded |
| `MainLoop.OneRetry` | src/main.py:136-189 | unless the search raised, the stream is requested once, or exactly twice after a ResponseError; the turn fails if and only if the search raised or both attempts fail, and then no assistant message is persisted |
| `MainLoop.SearchRaiseEndsTurn` | src/main.py:136-145 | a search that raises ends the loop with that error right after the query; the turn persists only its opening and the user message |
| `MainLoop.SourcesOnlyAfterSearch` | src/main.py:136-184 | sources are shown, as the last event of the turn, if and only if a response came, a search was decided and answered, and it produced notifications |
| `MainLoop.NonChatInput` | src/main.py:104-113 | empty input changes nothing and the loop goes on; `/exit` stops it; other "/" input is one command event and leaves the current id unchanged |

## Left out

- SQLite plumbing is not modelled: the connection, schema creation, the PRAGMA, commits, and building SQL with f-strings (src/memory.py:16-45). The tables are sequences of rows.
- SQLite's 2^63 rowid limit is not modelled; a new chat id is always the largest id plus one.
- `datetime.now()` and `date.today()` are parameters. The store requires each write to be dated strictly after the last one.
- `ChatMemory.Memory.GetChatRecords`: `cursor.lastrowid` is a parameter, because its value depends on the sqlite3 cursor.
- `int()` of a string is modelled for optional sign, ASCII digits and surrounding whitespace. Underscores, non-ASCII digits and other literal forms Python accepts are not modelled.
- `lower()` is modelled on ASCII letters only. That is exact for the two tests main.py makes, equality with "/exit" and a "/" prefix.
- The text ordering of timestamps is by code point, which is how SQLite compares UTF-8 text. The ISO timestamps Python writes sort in time order under it.
- Rendering is not modelled: the rich Console, Live, Panel, Markdown and Table output, the table rows of `print_table`, `print_unordered_list`'s markup and the 12-per-second refresh rate. Output is a sequence of abstract lines and panels.
- `get_user_input` and the prompt_toolkit key bindings are not modelled (src/view.py:131-159); what the user types is scripted per turn.
- The Ollama network calls are not modelled: `ollama.list` is a parameter, and `client.chat`, `get_response_stream` and `remove_from_memory` are absent. A stream is a finite sequence of chunks or a ResponseError.
- `load_into_memory`'s fire-and-forget daemon thread is not modelled; it is concurrency and I/O (src/engine.py:19-30).
- The Tavily client, `load_dotenv` and the environment are not modelled (src/search.py:29-32). The client's answer is a parameter.
- Config file reading with tomllib is not modelled (src/main.py:22-34).
- `MainLoop.ParseConfig`: it returns the four sections as they are. It does not build the ModelConfig, SearchConfig, UserData and StyleConfig records, because src/models.py does not define them (src/main.py:13 and src/main.py:19 import them from it).
- The atexit and signal registrations themselves are not modelled (src/cleanup_handler.py:44-50): `Register` only returns the handler. `sys.exit(0)` is the handler's last logged event.
- The turn loop calls store and engine operations that the repository does not define: `add_system_message`, `add_user_message`, `add_search_message`, `add_assistant_message`, `get_llm_formatted_chat_history`, `determine_search`, `no_thinking_main_fallback` and `get_response_stream(history)`. They are abstract events in the loop's trace. The classifier's decision and the search data are scripted per turn, so its JSON fallback and retry policy are not modelled.
- main.py passes `style=` to `handle_command`, whose signature lacks it. It also calls `live_response` without `time` and `thinking_style`. commands.py calls `print_system_message` and `print_unordered_list` without their `style` argument. The model follows what each caller evidently means: a command is one event whose only other effect is whether it raised (`commandRaises`), and a response is shown with the configured styles and the turn's time.
- `ChatMemory.ChatSelected`: SQLite's numeric conversion of the selector (`Text.SqlInteger`) is modelled exactly on integers. SQLite compares a converted real literal as a double, so a literal with more significant digits than a double holds, or a magnitude beyond the 64-bit range, may compare differently from the model.
- `ChatMemory.Memory.Delete` follows the corrected guard (`DeleteChats`), not the code's string guard (`DeleteAsWritten`). The two differ only on a selector SQLite reads as the current id that is not `str(current_id)`, such as "04", "+4", "4.0", "4e0" or " 4": the code deletes the current chat and its history, the model deletes nothing. `GuardsAgree` and `DeleteAsWrittenRemovesCurrentById` state the difference.
- `Commands.HistEffect` uses the corrected guard of `delete` for `hist delete <selector>`, with the same difference on the same selectors.
- `Commands.OnlyHistDeleteWrites` states the table effect of `DeleteChats`, with the same difference on the same selectors.
- `Commands.HandleHist` and `Commands.HandleCommand` go through `Memory.Delete`, with the same difference on the same selectors.
- `text_query` is declared to return a string, but main.py reads `notifications` and `context` keys from it. The loop treats the search data as an abstract record with those two fields.
- The startup banner and the three-chat table printed before the loop are not modelled, nor are the status lines the loop prints ("Reviewing query...", "Decided not to search.").
- A stream that fails after yielding some chunks is modelled as failing before any output.
- `_convert_to_chat_data_format` is modelled on rows; the JSON shape of its result is a record.
- `hist load` is commented out in the source, so it is handled as an unknown request.

## Findings

| source | as written | input that shows it | evidently intended | confidence | as-written member | corrected member |
|---|---|---|---|---|---|---|
| src/memory.py:124-138 | the guard compares the selector's text with `str(current_id)`, but the DELETE compares it with the INTEGER `id` column, which SQLite converts to a number | chat 4 current, `/hist delete 04` or `/hist delete 4.0`: neither text is "4", and SQLite reads both as 4, so the current chat and its history are deleted | the current conversation can never be deleted with `delete` (its docstring, src/memory.py:116-118) | not executed | `ChatMemory.DeleteAsWrittenRemovesCurrent` | `ChatMemory.DeleteKeepsCurrent` |
