# A verified model of the agent's core

This project models the three pieces of sequential logic at the heart of a
small command-line coding agent built on a Gemini model with tool calls:

- **The path guard** (`PathValidation`, `path_validation.dfy`): `validate_path`
  joins an untrusted path onto the working directory and normalises it the way
  `os.path.abspath` does. It accepts the result only when the normalised
  working directory is a string prefix of it; otherwise it raises
  `ValueError("Path … is outside working directory")`. `posixpath.join`,
  `normpath` (kept names, `.` and empty components dropped, `..` popping, and
  the POSIX rule for a leading `//`), `abspath` and `basename` are written out
  on strings and on lists of names.
- **The agent loop** (`AgentLoop`, `agent_loop.dfy`): `main`'s `while True`
  loop and `generate_content`.
  - The loop has an iteration counter under a hard ceiling.
  - The message list is append-only and shared between the loop and
    `generate_content`. It is a `MessageList` class whose methods append in
    place.
  - The history has one record per model call.
  - The loop has three exits: a truthy final text, an exception, or the
    ceiling.
  - The methods `GenerateContent` and `RunAgent` are proved equal to the
    specification functions `Generate` and `RunAll`. The lemmas state each
    exit of one round in both directions, and the bounds and growth of a
    whole run.
- **Test generation** (`GenerateTests`, `generate_tests.dfy`): the module name,
  the test file name and its path under `tests`, the stripping of a Markdown
  code fence from the model's reply, the mapping of a pytest run to a string
  (`run_tests`), and the error-return ladder of `generate_tests`.
  - The ladder is the method `GenerateTests`. It is proved equal to the
    specification function `Ladder`, which returns the message together with
    the ordered list of effects the run had.

`Strings` (`strings.dfy`) holds the Python `str` operations the source
uses: `startswith`, `endswith`, `find`, `rfind`, `split`, `join`,
`replace`, `replace(…, 1)`, `rsplit(…, 1)[0]`, `strip` and `strip(chars)`.
`Wrappers` (`wrappers.dfy`) holds `Option` and `Result`.

Oracles:
- The Gemini client is a function from the call number and the messages to
  a reply or an error.
- `call_function` is a function from a call to the content it returns.
- The file system, the environment variable, the model used by
  `generate_tests`, `os.makedirs`, the file write and pytest are fields of
  an `Environment` value.
- `os.getcwd()` is the parameter `cwd`.
- `MAX_ITERS` and `WORKING_DIR` are parameters.

Two behaviours of the code are worth stating outright:
- `abspath` is purely lexical and follows no symbolic links, and neither
  does the model.
- Containment is a string-prefix test, so a sibling whose name extends the
  root's (`/work2` for the root `/work`, reached as `../work2`) is accepted.
  `PathValidation.SiblingAccepted` proves that this happens.

## Model

| member | source | states |
|---|---|---|
| PathValidation.PathJoin | utils/path_validation.py:8 | `os.path.join`: an absolute second operand replaces the first; otherwise the result is the first operand, then a separator exactly when the first is non-empty and does not already end in one, then the second operand |
| PathValidation.Basename | functions/generate_tests.py:91 | `os.path.basename`: a suffix of the path without separators, preceded by a separator when shorter than the path |
| PathValidation.ValidatePath | utils/path_validation.py:6-15 | an accepted path is absolute and has `abspath(working_dir)` as a string prefix; a refusal carries exactly the message `Path <path> is outside working directory` |
| PathValidation.CollapseAppend | utils/path_validation.py:8 | normalising a concatenation of components is normalising the second part onto the result of the first |
| PathValidation.JoinRelative | utils/path_validation.py:8 | for a relative path, `abspath(join(wd, path))` is the root's names with the path's components collapsed onto them, with the same leading separators |
| PathValidation.ValidateRelative | utils/path_validation.py:8-13 | validating a relative path accepts exactly the collapsed candidate when it has the root as a string prefix and otherwise raises the outside-directory error |
| PathValidation.NormalForm | utils/path_validation.py:8-9 | a leading `/` or `//` followed by names joined with `/` is already normal: normalising returns it unchanged, with the same names |
| PathValidation.NormPathIdempotent | utils/path_validation.py:8-9 | `normpath(normpath(p)) == normpath(p)` |
| PathValidation.NormPathIsNormal | utils/path_validation.py:8 | a normalised path has no `.` or `..` component and ends in a separator only when it is the root |
| PathValidation.EmptyOrDotIsRoot | utils/path_validation.py:8-11 | `""` and `"."` are accepted and resolve to the normalised working directory itself |
| PathValidation.AbsoluteIgnoresWorkingDir | utils/path_validation.py:8-13 | an absolute path discards the working directory in the join: it is accepted as its own normal form exactly when that lies under the root, else refused |
| PathValidation.ValidateIdempotent | utils/path_validation.py:8-15 | validating an accepted path again against the same root returns it unchanged |
| PathValidation.JoinName | utils/path_validation.py:8 | joining a name onto a normal path appends the name to the path's list of names |
| PathValidation.ChildAccepted | utils/path_validation.py:8-15 | a single name is accepted and resolves to the root joined with that name |
| PathValidation.RenderExtends | utils/path_validation.py:11 | a path whose names extend the root's names has the root as a string prefix |
| PathValidation.RenderShrinks | utils/path_validation.py:11 | a path with fewer names than the root, all of them the root's, is too short to have the root as a prefix |
| PathValidation.InsideAccepted | utils/path_validation.py:8-15 | a relative path whose collapsed names keep all the root's names is accepted |
| PathValidation.UpwardEscapeRejected | utils/path_validation.py:8-13 | a relative path that climbs above the root, leaving only some of the root's names, is refused with the outside-directory error |
| PathValidation.SiblingAccepted | utils/path_validation.py:11 | `../<sibling>` from root `/<root>` is accepted as `/<sibling>` whenever the sibling's name starts with the root's name: containment is a string-prefix test |
| PathValidation.TraversalRejected | utils/path_validation.py:11-13 | `../../etc/passwd` from `/work` is refused with its outside-directory message, whatever the current directory |
| AgentLoop.Somes | main.py:147-150 | the present candidate contents: no more entries than candidates, and an item is kept exactly when it is present |
| AgentLoop.SomesAppend | main.py:147-150 | filtering present contents respects concatenation, so candidate order is kept |
| AgentLoop.KeptAppend | main.py:157-167 | the kept responses of two batches in sequence are those of the first followed by those of the second: call order is preserved |
| AgentLoop.KeptStep | main.py:158-167 | dispatching one more call appends its first part exactly when that part carries a function response |
| AgentLoop.KeptParts | main.py:165-167 | every kept part carries a function response, and every call whose result qualifies contributes its first part |
| AgentLoop.KeptAll | main.py:157-167 | when every result qualifies, the kept parts are the results' first parts, one per call in order |
| AgentLoop.KeptEmpty | main.py:174-175 | nothing is kept exactly when no call's result carries a function response |
| AgentLoop.Generate | main.py:124-179 | one turn only appends to the messages; a client error is raised with the messages untouched; a final text is returned only for a reply without calls, and a reply with calls that returns gives `(None, text)`; "No function responses generated" is raised exactly when the reply has calls and none of them was kept, with the candidates appended and no tool message |
| AgentLoop.ToolMessage | main.py:147-179 | the turn appends the candidates' contents in order, then, for a reply with calls that returns, exactly one `tool` message holding the kept parts, and returns `(None, text)`, so the history records the reply's text; a reply without calls returns `(text, text)` and appends no tool message |
| AgentLoop.FinalEnds | main.py:93-96 | below the ceiling, a turn that returns a truthy final text ends the loop at once with one completed record and that text as the answer |
| AgentLoop.ErrorEnds | main.py:98-105 | below the ceiling, a turn that raises ends the loop at once with one error record carrying the counter and the message, and no answer |
| AgentLoop.NoFinalContinues | main.py:86-96 | below the ceiling, a turn that returns no final text or an empty one is recorded and the loop continues from the next counter |
| AgentLoop.CeilingEnds | main.py:71-75 | at the ceiling the counter passes `MAX_ITERS` and the loop stops without calling the model, recording nothing |
| AgentLoop.CallBound | main.py:69-91 | the loop makes at most `MAX_ITERS` model calls, the history only grows, and record `k` carries iteration `k + 1` |
| AgentLoop.Exits | main.py:69-105 | every record but the last is a completed one; a printed answer is truthy and follows a completed record; at the ceiling the counter is `MAX_ITERS + 1` with one record per call, otherwise the counter is the number of records |
| AgentLoop.MessagesOnlyGrow | main.py:86-105 | the message list only grows, and each record's snapshot is a prefix of every later snapshot and of the final list |
| AgentLoop.FirstSnapshot | main.py:86-91 | the history only grows and every new snapshot starts with the messages at the point the records began |
| AgentLoop.RunShape | main.py:63-105 | a whole run: at most `MAX_ITERS` records numbered from 1, errors only last, the counter at the ceiling is `MAX_ITERS + 1`, and the initial user message starts every snapshot and the final list |
| AgentLoop.MessageList.constructor | main.py:64-66 | the list starts with the given messages |
| AgentLoop.MessageList.Append | main.py:150 | `messages.append(c)` adds `c` at the end and changes nothing else |
| AgentLoop.AppendCandidates | main.py:147-150 | the loop appends exactly the present candidate contents, in candidate order |
| AgentLoop.DispatchAll | main.py:157-167 | the loop builds `function_responses` equal to the kept parts of the batch, in call order |
| AgentLoop.GenerateContent | main.py:124-179 | the method's outcome and the new message list are those of `Generate` on the old list and the client's answer |
| AgentLoop.RunAgent | main.py:63-105 | the loop's counter, history, messages and answer are those of `RunAll` |
| GenerateTests.ModuleNameHasNoSlash | functions/generate_tests.py:49 | a module name never contains `/` |
| GenerateTests.ModuleNameOfSourcePath | functions/generate_tests.py:49 | for a path whose only dot is its `.py` suffix, the module name is the path without it, with each `/` turned into `.` |
| GenerateTests.TestFileName | functions/generate_tests.py:91-92 | the test file name is `test_` followed by `os.path.basename(file_path)`, and it is a single path name |
| GenerateTests.TestDirAccepted | functions/generate_tests.py:31 | validating `tests` always succeeds, with the root joined with `tests` |
| GenerateTests.TestPathForm | functions/generate_tests.py:93 | the test path is the root's names followed by `tests` and the test file name, in normal form |
| GenerateTests.TestPathAccepted | functions/generate_tests.py:91-96 | re-validating the test path always returns it unchanged; it lies under the root and ends in `/tests/test_<basename>` |
| GenerateTests.CleanTestCode | functions/generate_tests.py:98-101 | a reply that neither starts with "```python" nor ends with "```" is left as it is |
| GenerateTests.FenceBackticks | functions/generate_tests.py:99 | `strip("`")` of a fenced reply leaves the `python` tag, the body and the newlines around it |
| GenerateTests.DropPythonTag | functions/generate_tests.py:99 | `replace("python", "", 1)` removes exactly the tag at the start |
| GenerateTests.FenceRoundTrip | functions/generate_tests.py:98-101 | a trimmed body wrapped in a "```python" fence is cleaned back to exactly the body |
| GenerateTests.ClosingFenceDropped | functions/generate_tests.py:100-101 | a reply with only a closing fence loses it and the whitespace before it |
| GenerateTests.BareFenceKeepsOpening | functions/generate_tests.py:98-101 | a fence without the `python` tag keeps its opening line; only the closing fence is dropped |
| GenerateTests.RunTests | functions/generate_tests.py:119-132 | pytest's stdout on completion, the timeout message on a timeout, the install hint when pytest is missing, and any other failure propagates |
| GenerateTests.EscapeRefused | functions/generate_tests.py:115-117 | a path outside the working directory is returned as `Error: Path … is outside working directory`, with no effect at all |
| GenerateTests.MissingFileReported | functions/generate_tests.py:34-35 | a validated path that is not a file returns exactly `Error: File not found: <validated path>`, before any read or model call |
| GenerateTests.MessageShape | functions/generate_tests.py:12-117 | every returned string starts either with `Error: ` or with `✅ Generated tests for <file_path>` |
| GenerateTests.StepsInOrder | functions/generate_tests.py:30-108 | the effects of any run are a prefix of the fixed order: read, ask the model, create `tests`, write, run pytest |
| GenerateTests.StepsOutcomes | functions/generate_tests.py:28-85 | each failing step of the first half returns its exact message (the caught exception as `Error: <message>`, the missing file, the missing key, the empty reply) and the effects stop at that step; a non-empty reply hands over to the second half |
| GenerateTests.AfterReplyOutcomes | functions/generate_tests.py:88-117 | a failing `makedirs`, write or pytest run returns `Error: <message>` with the effects stopping at that step; only when all succeed is the success report with pytest's result returned |
| GenerateTests.StepsWrites | functions/generate_tests.py:82-105 | a file is written only when the model answered with non-empty text, and then it is that text, cleaned, at the test path |
| GenerateTests.WritesCleanedReply | functions/generate_tests.py:82-108 | for `generate_tests` itself: effects in the fixed order, anything written is the cleaned non-empty reply, and the test path lies under the working directory |
| GenerateTests.EmptyReplyWritesNothing | functions/generate_tests.py:82-83 | a reply without text returns `Error: Failed to generate test code` and writes nothing |
| GenerateTests.WriteAndRun | functions/generate_tests.py:88-113 | creating `tests`, validating the test path, cleaning the code in place, writing and running pytest give the message and effects of `AfterReply` |
| GenerateTests.GenerateTests | functions/generate_tests.py:12-117 | the procedure's returned message and its effects are those of the ladder `Ladder` |
| Strings.ReplaceFirst | functions/generate_tests.py:99 | `replace(pat, repl, 1)` replaces the first occurrence and leaves a text without one unchanged |
| Strings.BeforeLast | functions/generate_tests.py:101 | `rsplit(sep, 1)[0]` of a text ending in `sep` drops that ending, and leaves a text without `sep` unchanged |
| Strings.StripLeading | functions/generate_tests.py:99 | the leading part of `strip(chars)`: removes a prefix made only of those characters and leaves a first character outside them |
| Strings.StripTrailing | functions/generate_tests.py:99 | the trailing part of `strip(chars)`: removes a suffix made only of those characters and leaves a last character outside them |

## Left out

- The Gemini client's retry strategy and request configuration (tools, system prompt) are not modelled; the client is an oracle from the call number and the messages to a reply or an error.
- `call_function` and `available_functions` are not part of this model. The dispatcher is a total function, so an exception raised from inside `call_function` (which the loop would record as an error) is not modelled.
- The token-usage warning is left out. It only logs, and it compares against a floating-point threshold.
- Logging, verbose output and the `print` of the final response are left out: they are output only. The printed answer is the `answer` of a run.
- Argument parsing, `load_dotenv`, the API-key check in `main`, client construction and the `--testgen` mode are left out. They are command-line and environment plumbing.
- Writing the history to `agent_history.json`, its timestamp and `msg.to_dict()` are left out: they are file I/O. The history is kept in memory, with each message snapshot as a list of `Content` values.
- `response.text` is part of the client's reply as given. How the SDK assembles it from text parts is not modelled.
- The prompt built by `generate_tests` embeds the current date and is not modelled. The model oracle is given the file path, the file's content and the module name, which are the inputs that vary. The `model` parameter is not modelled.
- Reading the file, `os.path.isfile`, the `GEMINI_API_KEY` lookup, `os.makedirs`, the file write and `subprocess.run` of pytest are oracles in `Environment`. `isFile` returns a boolean and the key lookup an `Option`; the others return either a result or the message of the exception they raised.
- Constructing the client (`genai.Client(...)`, functions/generate_tests.py:46) is not modelled as a step that can fail. In the source a failure there returns `Error: <msg>` after only the file read; the model has no such outcome, and a client error appears only at the model call.
- `os.getcwd()` is the parameter `cwd`, which must be absolute. `normpath` is modelled for absolute input only, which is all that `abspath` passes it.
- `MAX_ITERS` and `WORKING_DIR` come from a configuration module that is not part of this model. They are parameters.
- `prompts.py` is a constant string with no behaviour, and it is not modelled.
- `calculator/tests/test_main.py` is not modelled. It tests code that is not part of this model, with floating-point division.
