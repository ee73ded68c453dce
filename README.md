# Bhanu terminal agent: a Dafny model of its routing and list logic

`bhanu.py` is a terminal chat agent. Each line the user types is first offered
to a command dispatcher (`handle_tool`). That line can be:

- a request for the help text;
- `exit`/`quit`;
- a tagged tool call (`calc`, `weather`, `time`, `joke`, `quote`, `dict`, `translate`, `news`, `ip`, `todo`);
- a translate usage error;
- no match.

A line that matches no rule goes to a chat backend: OpenAI, then a local
Ollama server, then an offline keyword responder. The agent keeps a
conversation history of role-tagged messages. It also keeps a persisted to-do
list.

This project models that logic and proves properties of it:

- `options.dfy`: `Option`, the stand-in for Python's `None`.
- `text.dfy`: the Python `str` operations the agent uses, on ASCII. These are
  `isspace`, `lower`, `strip`, `startswith`, substring `in`,
  `split(maxsplit=n)` and `sep.join`. Each comes with the lemmas the rest of
  the model needs. It also defines `split(sep)`, which the agent never calls;
  it is used only to read a joined listing or transcript back.
- `dispatch.dfy`: `handle_tool` as a pure function from the line to a `Command`,
  the table of its twelve rules read first-match-wins, and the string it returns.
- `todo.dfy`: `tool_todo`. The sub-command parser, the listing, and a `Store`
  class whose `tasks` field is the persisted JSON list (`load_todos` reads it,
  `save_todos` assigns it).
- `fallback.dfy`: `chat_fallback`, the ordered keyword classifier.
- `conversation.dfy`: the history entries, the shape `main` keeps them in, and
  `to_prompt` (a specification function, and the loop that builds it).
- `session.dfy`: one pass of `main`'s loop as a specification function `Step`,
  an `Agent` class whose `Turn` method performs it on its `history`, `phase`
  and to-do store, `Run`, the loop as `Step` folded over a sequence of input
  lines, and `Converse`, the loop itself, proved to end as `Run` does.

Terminal input, the two chat backends and the results of the tools other than
`todo` are parameters. A line read is `Option<string>` (`None` at end of
input); a backend answer is `Option<string>` (`None` on failure); a tool's
result is an opaque string `body`.

## Model

| member | source | states |
|---|---|---|
| `Dispatch.HandleTool` | bhanu.py:257-308 | Help exactly for `help`, `/help`, `?` and Exit exactly for `exit`, `quit` (case-insensitive, on the stripped line); the arguments of calc, weather, dict, time and translate are non-empty and trimmed; the translate language is one word; a todo command is the whole stripped line, starting with `todo` in any case |
| `Dispatch.FirstMatchWins` | bhanu.py:258-308 | the command comes from the first of the twelve rules, in source order, that matches the lower-cased stripped line; "no match" exactly when no rule matches |
| `Dispatch.EarlierRulesFail` | bhanu.py:259-305 | no rule before the chosen one matches the line |
| `Dispatch.ChosenRuleMatches` | bhanu.py:259-305 | the rule a command comes from does match the line |
| `Dispatch.FirstMatchIsLeast` | bhanu.py:258-308 | a matching rule with no earlier match is the one the table selects |
| `Dispatch.ToolReply` | bhanu.py:259-308 | the returned string is `None` exactly for no match, and equals the `__EXIT__` sentinel exactly for Exit, whatever a tool returns |
| `Dispatch.Tagged` | bhanu.py:266 | a tagged tool result starts with `[`, so it is never the sentinel |
| `Dispatch.StripsFirst` | bhanu.py:258 | padding around a line never changes the command: the dispatcher strips the line itself |
| `Dispatch.ExitOnlyForExitWords` | bhanu.py:261-262 | the sentinel is returned exactly when the lower-cased stripped line is `exit` or `quit` |
| `Dispatch.ArgumentAfterSpace` | bhanu.py:265-270 | after a keyword ending in a space, a stripped line still has a non-blank argument |
| `Dispatch.CalcKeepsCase` | bhanu.py:265-266 | the keyword may have any case and the line any padding; the expression is the rest after `calc `, trimmed, in its original case |
| `Dispatch.WeatherKeepsCase` | bhanu.py:269-270 | the same for `weather ` and the city |
| `Dispatch.DictKeepsCase` | bhanu.py:286-287 | the same for `dict ` and the word |
| `Dispatch.TimeTakesRest` | bhanu.py:273-275 | whatever follows `time`, with or without a space, is the zone; nothing after it means local time |
| `Dispatch.TimerIsTime` | bhanu.py:273-275 | `timer` asks for zone `r`; bare `time` asks for local time |
| `Dispatch.TranslateTokens` | bhanu.py:290-293 | with three or more tokens, the language is the second token and the text is the untouched remainder of the line |
| `Dispatch.TranslateTooFewTokens` | bhanu.py:290-294 | `translate <lang>` with no text gives the untagged usage string |
| `Dispatch.BareTranslateIsChat` | bhanu.py:290 | a bare `translate` lacks the `translate ` prefix, matches no rule and goes to chat instead of the usage message |
| `Dispatch.NoRuleForBareTranslate` | bhanu.py:259-305 | no rule of the table matches `translate` |
| `Dispatch.TranslateLine` | bhanu.py:258-259 | a line starting with `translate ` is its own stripped form and lower-cases piecewise |
| `Dispatch.TranslateGuards` | bhanu.py:259-290 | no rule before `translate ` matches such a line |
| `Dispatch.TranslateWords` | bhanu.py:291 | the keyword and the language are the first two tokens of `split(maxsplit=2)` |
| `Dispatch.TranslateKeyword` | bhanu.py:290 | a keyword whose lower case is `translate ` is a word followed by a space |
| `Todo.ParseTodo` | bhanu.py:181-192 | an added task is non-empty, starts with a non-blank character and is the end of the command line |
| `Todo.BareWordLists` | bhanu.py:182-183 | a one-word todo line lists the tasks |
| `Todo.SecondWordDecides` | bhanu.py:181-192 | the second word alone selects the sub-command: `list` lists, `add` with a remainder adds exactly that remainder, `add` alone is a usage error, `clear` clears, anything else (including `ADD`) is a usage error |
| `Todo.UpperCaseSubcommand` | bhanu.py:184-192 | `todo ADD x` is a usage error |
| `Todo.AddLine` | bhanu.py:184-187 | `todo add <task>` adds exactly the task |
| `Todo.Render` | bhanu.py:183 | the listing is `No tasks yet.` exactly for the empty list, otherwise it starts with `Your TODOs:` and a newline |
| `Todo.Bullets` | bhanu.py:183 | one line per task, in order, each `- ` followed by exactly that task |
| `Todo.RenderReadBack` | bhanu.py:183 | after the header, the listing's lines are exactly the bullet lines, one `- task` line per task in stored order and nothing else; it reads back to the task list |
| `Todo.RenderAfterAdd` | bhanu.py:183-186 | after an add to a non-empty list, the listing gains exactly one line, at the end (on an empty list, `No tasks yet.` is replaced instead) |
| `Todo.TodoReply` | bhanu.py:182-192 | the reply is the listing for `list`, `Added: <task>` for an add, `Todo list cleared.` for `clear` and the usage string otherwise |
| `Todo.TasksAfter` | bhanu.py:182-192 | `add` appends the task after the unchanged earlier tasks, `clear` empties, every other command leaves the list as it is |
| `Todo.Store.Load` | bhanu.py:167-173 | a missing or unparsable file loads as the empty list |
| `Todo.Store.Run` | bhanu.py:179-192 | the stored list and the reply are the ones `TasksAfter` and `TodoReply` give for the parsed command |
| `Todo.ListTwice` | bhanu.py:182-183 | listing twice changes nothing and prints the same listing |
| `Todo.AddSurvivesReload` | bhanu.py:167-187 | a task added and saved is listed last after the list is loaded again, whether or not the list was empty; a non-empty listing gains exactly that one line |
| `Fallback.Classify` | bhanu.py:239-247 | the reply is one of the five fixed sentences; the greeting exactly when a greeting word occurs; otherwise the binary-search sentence exactly when `binary search` occurs, then the Linux tip exactly for `linux tip`, then the balance tip exactly when both `sports` and `study` occur; the offline notice only when no keyword matched |
| `Fallback.ChatFallback` | bhanu.py:237-247 | the reply is one of the five fixed sentences and never empty |
| `Fallback.FallbackNormalises` | bhanu.py:238 | the reply is the same after lower-casing or stripping the line |
| `Fallback.GreetingFirst` | bhanu.py:239-240 | a greeting word anywhere in the line, in any case, wins over every topic |
| `Fallback.ThisIsAGreeting` | bhanu.py:239-240 | `this` is answered with the greeting, because it contains `hi` |
| `Fallback.OfflineByDefault` | bhanu.py:247 | a line with none of the keywords gets the offline notice |
| `Fallback.ShoutedGreeting` | bhanu.py:238-240 | `HELLO there` is answered with the greeting |
| `Fallback.ContainsLowered` | bhanu.py:238-239 | a word of the line, lower-cased, is found in the lower-cased line |
| `Fallback.AnyInMember` | bhanu.py:239 | `any(k in text ...)` holds when some key occurs in the text |
| `Fallback.AnyInWhich` | bhanu.py:239 | when `any(k in text ...)` holds, some key occurs in the text |
| `Conversation.ToPrompt` | bhanu.py:215-225 | the transcript ends with the characters `Assistant:` |
| `Conversation.ToPromptLastLine` | bhanu.py:224-225 | the last line of the transcript is exactly `Assistant:`, for every history, including entries with line breaks |
| `Conversation.SplitOnLast` | bhanu.py:225 | after the last line break of a joined text, `split` yields the text that follows it |
| `Conversation.BuildPrompt` | bhanu.py:215-225 | the loop builds exactly the transcript `ToPrompt` specifies |
| `Conversation.PromptLinesAppend` | bhanu.py:217-223 | the lines of a history are the lines of its parts, in order |
| `Conversation.OtherRolesDropped` | bhanu.py:220-223 | entries of any role but `user` and `assistant` do not change the transcript |
| `Conversation.TranscriptReadBack` | bhanu.py:215-225 | the transcript has one `User: ` or `Assistant: ` line per user or assistant entry, in order, and nothing else: it reads back to exactly those entries |
| `Conversation.WellFormedChat` | bhanu.py:312 | in a history of the shape `main` keeps, the system message is the only entry the transcript leaves out |
| `Conversation.ChatTurnKeepsShape` | bhanu.py:332-334 | appending a user entry and then an assistant entry keeps the shape: system message, then user/assistant pairs |
| `Session.ChooseReply` | bhanu.py:333 | the reply is the first answer that is present and non-empty, OpenAI before Ollama before the offline reply |
| `Session.ReplyNeverEmpty` | bhanu.py:333 | a chat reply is never empty |
| `Session.StepEnds` | bhanu.py:315-328 | the session ends exactly at end of input (printing `\nBye!`) and on an exit line (printing `Agent: Bye! 👋`, history and tasks unchanged) |
| `Session.StepBlank` | bhanu.py:316-322 | a blank line changes nothing and prints nothing |
| `Session.StepTool` | bhanu.py:324-330 | a tool other than `todo` prints its reply and leaves history and tasks unchanged |
| `Session.StepTodo` | bhanu.py:305-306 | a todo line runs against the stored tasks, prints the tagged reply and leaves the history unchanged |
| `Session.StepChat` | bhanu.py:332-335 | an unmatched line appends exactly the stripped line as a user entry and then the non-empty reply as an assistant entry, and prints the reply |
| `Session.Step` | bhanu.py:315-335 | one pass of the loop either keeps the history or extends it by exactly two entries; a pass that ends the session keeps the history and prints one of the two goodbyes, `\nBye!` or `Agent: Bye! 👋` |
| `Session.Answer` | bhanu.py:324-335 | a pass on a non-blank line always prints; it keeps the history or appends the user's line and one more entry |
| `Session.StepKeepsShape` | bhanu.py:312-335 | every pass keeps the history's shape |
| `Session.Agent.constructor` | bhanu.py:312 | the history starts as the system message alone, running |
| `Session.Agent.Turn` | bhanu.py:315-335 | the new phase, history, tasks and printed line are those `Step` gives; the history keeps its shape |
| `Session.Agent.Respond` | bhanu.py:324-335 | the same for a non-blank line |
| `Session.Agent.Chat` | bhanu.py:332-335 | a chat turn appends the user's line and then the first usable answer to the history, prints that answer and leaves the phase alone |
| `Session.Run` | bhanu.py:314-335 | the loop as passes of `Step` folded over the input lines, stopping at the pass that ends the session; it reads no more lines than there are and always prints something |
| `Session.RunEnds` | bhanu.py:314-328 | the loop reads up to and including the first exit line and says goodbye there; with no exit line it reads every line and ends at end of input with `\nBye!` |
| `Session.RunPrintsLittle` | bhanu.py:321-335 | at most one line is printed per line read, plus the goodbye |
| `Session.RunFrom` | bhanu.py:314-335 | the fold from any input line on is one pass followed by the fold over the rest |
| `Session.Advance` | bhanu.py:315-335 | a pass on a read line ends the session exactly on an exit line, and it is the next pass of `Run` |
| `Session.Converse` | bhanu.py:314-335 | the final history and tasks, every printed line and the number of lines read are those `Run` gives; the session has ended and the history keeps its shape |
| `Text.Lower` | bhanu.py:259 | lower-casing keeps the length |
| `Text.LowerAt` | bhanu.py:259 | each character is folded on its own: ASCII capitals become small letters, every other character is kept |
| `Text.ContainsAt` | bhanu.py:239-245 | `in` finds an occurrence at any position |
| `Text.ContainsWhere` | bhanu.py:239-245 | when `in` holds, the needle occurs at some position |
| `Text.Join` | bhanu.py:183 | a joined list starts with its first piece and ends with its last |
| `Text.JoinAppend` | bhanu.py:183 | joining one more piece appends the separator and the piece |
| `Text.Strip` | bhanu.py:258 | the result has no whitespace at either end, and is empty exactly for an all-whitespace line |
| `Text.StripIdempotent` | bhanu.py:316 | stripping twice is stripping once (the loop strips the line and `handle_tool` strips it again) |
| `Text.LowerStrip` | bhanu.py:238 | lower-casing and stripping commute |
| `Text.StripPadded` | bhanu.py:258 | stripping removes exactly the padding around a trimmed core |
| `Text.Split` | bhanu.py:181 | at most `maxsplit + 1` parts; no parts exactly for an all-whitespace line; every part is non-empty and starts with a non-blank character; all parts but the last are single words |
| `Text.SplitLastIsSuffix` | bhanu.py:291 | once all splits are made, the last part runs to the end of the line |
| `Text.SplitOnJoin` | bhanu.py:183 | splitting on the separator undoes joining with it when no piece contains it |
| `Text.StripKeepsInfix` | bhanu.py:238-239 | stripping keeps every contained word that does not start or end with whitespace |

## Left out

- `tool_calc` (bhanu.py:43-50) evaluates the expression with Python `eval` over the `math` module. Its result is the opaque `body`.
- `tool_time` (bhanu.py:71-80) reads the wall clock and a time-zone database. Its result is the opaque `body`.
- `tool_joke` and `tool_quote` (bhanu.py:85-102) pick at random. Their result is the opaque `body`. The fixed joke and quote lists are not part of this model.
- The HTTP requests are parameters: those of `tool_weather`, `tool_dict`, `tool_translate`, `tool_news` and `tool_ip` are each tool's opaque `body`. `chat_openai` and `chat_ollama` are the `openai`/`ollama` answers, already stripped.
- The usage branches inside `tool_weather`, `tool_dict` and `tool_translate` are left out. The dispatcher never passes them an empty argument, as `Dispatch.HandleTool` proves.
- The JSON file behind `load_todos`/`save_todos` is the `Store.tasks` field. File-system errors are not modelled. A file holding valid JSON that is not a list of strings is not modelled either.
- `Todo.ParseTodo`, `Todo.Store.Run`: a blank command line is excluded by the precondition. In Python it fails with an index error, but the dispatcher only calls the tool with a line starting with `todo`.
- `Conversation.Message`: a history entry always has both a role and a content. The `m.get(..., "")` defaults of `to_prompt` are never used by the agent and are not modelled.
- Banner and help printing are not modelled. `input` and `print` become the line parameter and the printed result of a turn. The top-level traceback handler and exit code (bhanu.py:252-255, 337-342) are not modelled.
- `Ctrl-C` at the prompt is modelled like end of input (`None`), which the source treats the same way.
- `lower`, `strip` and `split` are modelled on ASCII: ASCII letters fold, and whitespace is the ASCII `isspace` set. Non-ASCII case folding and Unicode whitespace are not modelled.
- `Conversation.TranscriptReadBack`, `Todo.RenderReadBack`: stated only for entries and tasks without a line break. With one, the transcript or listing line is ambiguous.
- `Session.Converse` pairs each line with a given tool result and backend answers, and it ends at end of input after the last line. A session that never ends is not modelled.
