# KOV agent control logic, modelled in Dafny

KOV is a terminal assistant. It sends a user's request through six layers: intent
classification, planning, tool selection under a policy, tool execution, reflection
and a termination rule. Its tools read, write, list and delete files, run shell
commands and fetch URLs. This project models the deterministic part of that
pipeline and proves what it promises.

The modules are:

- `Wrappers`: an `Option` type.
- `Text`: the Python `str` operations the agent relies on, written out. These are
  `isspace`, `lower`, `strip`, `split(sep)`, `split()`, `startswith`, `in` on
  strings, `int()` on a stripped string and `"sep".join`.
- `Patterns`: the three `re.search` calls of parameter extraction, as explicit
  leftmost backtracking searches.
- `Agent`: the `advanced_agent.py` module. It holds the enumerations and records,
  classification, plan parsing, parameter extraction, the tool gate, reflection and
  termination. It also holds the class `AdvancedKovAgent`, with its fixed tool and
  policy tables and the `Run` loop.
- `Operations`: the decision logic of the tools in `operations.py`.

Every language-model reply, every answer typed at a prompt, the parse of a float,
and the tool functions themselves are inputs; `Agent.Oracles` bundles them for `Run`
(the step index selects the reply or answer for a given step). The filesystem is a
map from path to text held by `Operations.FileSystem`;
a directory listing, a shell result and an HTTP result are inputs.

`Agent.CreatePlan`, the `k=v` parameter parser, the step loop of `Run` and the
directory sort are methods with loops. The plan parser, the parameter parser and
the sort are each proved equal to a specification function, and the properties are
then proved about that function: later plan lines override earlier ones, a
parameter's value is its last assignment, and a listing is sorted and a permutation
of the entries. `Run` and its loop `RunSteps` are specified by a relation instead:
the history follows the plan step by step (`StepsExecuted`), it stops exactly when
the termination rule first holds (`StoppedWhenDue`), and the reply reports on it
(`FinalReply`). `RunHistoryUnique` proves that exactly one history satisfies the
first two, so the relation fixes the result, and `StoppedWhenDueBounds` proves the
bounds on it.

## Model

| member | source | states |
|---|---|---|
| Agent.IntentFromValue | KOV/core/advanced_agent.py:14-19 | `IntentType(v)` succeeds only on one of the five lower-case values, and returns the member with that value |
| Agent.IntentValueLookup | KOV/core/advanced_agent.py:14-19 | `IntentType(v)` gives member t exactly when v is t's value |
| Agent.ClassifyStructuredReply | KOV/core/advanced_agent.py:109-115 | with three or more fields of the stripped reply, the intent comes from them. The category is the lower-cased, stripped first field, the confidence the second and the description the third. If either of the first two fails to parse, the result is QUESTION with confidence 0.5 and the fixed description (lines 134-138) |
| Agent.ClassifyFallback | KOV/core/advanced_agent.py:116-133 | with fewer than three fields, the intent is the keyword category of the lower-cased input, with confidence 0.7 and "Fallback classification" |
| Agent.ClassifyFormattedReply | KOV/core/advanced_agent.py:104-115 | a reply in the requested `CATEGORY\|conf\|description` format, with the category in upper case, yields exactly that category, confidence and description |
| Agent.ClassifyThreeFields | KOV/core/advanced_agent.py:109-111 | a reply of three fields free of `\|` with nothing to strip is decided on exactly those three fields |
| Agent.ClassifyCleanReply | KOV/core/advanced_agent.py:109 | a reply with nothing to strip is split on `\|` as it stands |
| Agent.FormattedReplyIsClean | KOV/core/advanced_agent.py:109 | a reply that starts with a non-space and whose description does not end in whitespace has nothing to strip |
| Agent.ClassifyParsedFields | KOV/core/advanced_agent.py:112-115 | three fields that parse give the intent built from them |
| Agent.LabelParses | KOV/core/advanced_agent.py:113 | every category name in upper case parses back to that category |
| Agent.LowerLabel | KOV/core/advanced_agent.py:14-19 | lower-casing a category name gives its enumeration value |
| Agent.KeywordCategoryIsFirstRule | KOV/core/advanced_agent.py:119-131 | the keyword ladder is a rule table checked in order, and the first rule that applies wins. The order is interrogative plus explanation word, interrogative, command word, tool word, setup word, and otherwise REASONING_ONLY |
| Agent.FirstApplicable | KOV/core/advanced_agent.py:119-131 | when no rule from position i onwards applies, the default is returned |
| Agent.OneGroupRule | KOV/core/advanced_agent.py:124-129 | a rule with one word group applies iff the text contains one of its words |
| Agent.TwoGroupRule | KOV/core/advanced_agent.py:119-121 | a rule with two word groups applies iff the text contains a word of each group |
| Agent.ShowCountsAsInterrogative | KOV/core/advanced_agent.py:119 | matches are substrings, so any text containing "show" contains "how" and is classified QUESTION or REASONING_ONLY |
| Agent.StripAll | KOV/core/advanced_agent.py:172 | there is one step per pipe-separated piece |
| Agent.StripAllPointwise | KOV/core/advanced_agent.py:172 | step i is piece i, stripped, so the order is kept |
| Agent.StrippedNonEmptyClean | KOV/core/advanced_agent.py:174 | every tool name kept is non-empty and has no surrounding whitespace |
| Agent.StrippedNonEmptyMembers | KOV/core/advanced_agent.py:174 | a name is kept iff it is non-empty and is the stripped form of some piece |
| Agent.StepsIn | KOV/core/advanced_agent.py:164-172 | the steps are never empty: the default has one, and a split always gives at least one piece |
| Agent.PlanOfLines | KOV/core/advanced_agent.py:163-181 | a plan read from lines always has at least one step |
| Agent.PlanFor | KOV/core/advanced_agent.py:142-181 | every plan has at least one step |
| Agent.LastLabelledAppend | KOV/core/advanced_agent.py:168-179 | the field a tag sets is the one from the last line carrying that tag |
| Agent.LabelsExclusive | KOV/core/advanced_agent.py:169-175 | no line can carry two of the four labels |
| Agent.LaterGoalOverrides | KOV/core/advanced_agent.py:169-170 | a later GOAL line replaces the goal and nothing else |
| Agent.LaterStepsOverride | KOV/core/advanced_agent.py:171-172 | a later STEPS line replaces the steps and nothing else |
| Agent.LaterToolsOverride | KOV/core/advanced_agent.py:173-174 | a later TOOLS line replaces the tools and nothing else |
| Agent.LaterComplexityOverrides | KOV/core/advanced_agent.py:175-179 | a later COMPLEXITY line replaces the complexity and nothing else; an unparsable value gives 1 |
| Agent.UnlabelledLineIgnored | KOV/core/advanced_agent.py:168-175 | a line with none of the four labels changes nothing |
| Agent.PlanWellFormed | KOV/core/advanced_agent.py:144-181 | steps are never empty, and tool names are never empty or padded. REASONING_ONLY gives exactly ("Provide reasoning", ["Think and respond"], [], 1) |
| Agent.NextPlanOfLines | KOV/core/advanced_agent.py:168-179 | one more line changes the last-labelled-line plan exactly as one pass of the loop body does |
| Agent.ScanLinesIsPlanOfLines | KOV/core/advanced_agent.py:163-181 | scanning the lines in order from the defaults gives the plan whose every field comes from its last labelled line |
| Agent.ReadPlanLine | KOV/core/advanced_agent.py:168-179 | one pass of the loop body on line i moves the four locals from the plan after i lines to the plan after i + 1 lines |
| Agent.ReadPlanLines | KOV/core/advanced_agent.py:163-181 | the loop, started from the defaults, ends with the plan of all the lines |
| Agent.CreatePlan | KOV/core/advanced_agent.py:142-181 | the method returns the specified plan: the fixed one for REASONING_ONLY, otherwise the last-labelled-line plan of the stripped reply |
| Agent.Keys | KOV/core/advanced_agent.py:240-245 | the keys of a dictionary, in insertion order |
| Agent.AssignKeys | KOV/core/advanced_agent.py:245 | assigning an existing key keeps the key order; a new key goes last |
| Agent.AssignLookup | KOV/core/advanced_agent.py:245 | after `d[k] = v`, k maps to v and every other key is unchanged |
| Agent.FirstOccurrences | KOV/core/advanced_agent.py:242-245 | the distinct keys, in order of first occurrence, and no others |
| Agent.ParamsKeysInFirstOrder | KOV/core/advanced_agent.py:242-245 | the parsed dictionary's keys are the stripped keys of the `=` pieces, in order of first occurrence |
| Agent.ParamsValueIsLast | KOV/core/advanced_agent.py:242-245 | each key maps to the stripped value of the last piece with that key, and absent keys to nothing |
| Agent.ParamsFromPiecesStep | KOV/core/advanced_agent.py:243-245 | a piece without `=` is skipped; otherwise it is split at the first `=` and assigned stripped |
| Agent.NoneReplyGivesNoParameters | KOV/core/advanced_agent.py:241 | the reply "NONE" (after stripping) gives no parameters |
| Agent.ParseParameterReply | KOV/core/advanced_agent.py:239-245 | the parser computes the specified dictionary |
| Agent.StorePiece | KOV/core/advanced_agent.py:243-245 | one pass of the loop body: a piece with `=` is assigned its stripped key and value, a piece without one changes nothing |
| Agent.CollectParameters | KOV/core/advanced_agent.py:242-245 | the loop over the pieces computes the specified dictionary |
| Agent.ExtractionShapes | KOV/core/advanced_agent.py:200-230 | list_directory_tool always gets path "." and read_file_tool gets exactly a path. write_file_tool gets path and content, and run_shell_tool gets exactly a command, whatever the input |
| Agent.WriteFallback | KOV/core/advanced_agent.py:215-220 | without a match, the path is the last word (or "default.txt" for fewer than two words), with content "default content" |
| Agent.ShellFallback | KOV/core/advanced_agent.py:229-230 | without a match, the command is "echo 'no command specified'" |
| Agent.ShellCommandAfterRun | KOV/core/advanced_agent.py:226-228 | "run " followed by a one-line command with nothing to strip gives exactly that command, as the repository's test with "run ls -la" expects |
| Agent.ReadPathOfTrailingSpaces | KOV/core/advanced_agent.py:203-205 | "read" followed by two spaces matches with a group of one space, which strips to the empty path |
| Agent.CallShapes | KOV/core/advanced_agent.py:249-256 | list, read and shell tools are called with their one value positionally, and write_file_tool with keywords |
| Agent.ModelParsedCall | KOV/core/advanced_agent.py:231-256 | any other tool gets the parameters parsed from the model's reply. It is called with no arguments iff none was parsed, positionally with one, and with keywords with more |
| Agent.DefaultTables | KOV/core/advanced_agent.py:69-88 | the policy table covers exactly the seven tools and forbids none. Shell, delete and download need confirmation; the rest run automatically |
| Agent.AdvancedKovAgent.constructor | KOV/core/advanced_agent.py:63-88 | the agent starts with the seven tools and the policy table |
| Agent.AdvancedKovAgent.PolicyFor | KOV/core/advanced_agent.py:189 | a tool missing from the policy table runs automatically |
| Agent.AdvancedKovAgent.GateOrder | KOV/core/advanced_agent.py:185-197 | the checks run in order: unknown tool, then forbidden, then declined confirmation. Each gives no parameters, no output, failure and its fixed message |
| Agent.AdvancedKovAgent.RefusalInvokesNothing | KOV/core/advanced_agent.py:185-197 | a refused call's record does not depend on the model's parameter reply or on the tool, and it fails |
| Agent.AdvancedKovAgent.AdmittedCall | KOV/core/advanced_agent.py:199-261 | an admitted call records the extracted parameters, and succeeds iff the tool returns. Success carries the output; failure carries the exception text and no output |
| Agent.AdvancedKovAgent.SelectAndExecuteTool | KOV/core/advanced_agent.py:183-261 | the method computes the specified record |
| Agent.Successes | KOV/core/advanced_agent.py:352 | only successful executions are kept |
| Agent.Failures | KOV/core/advanced_agent.py:281 | only failed executions are kept, and never more than there are executions |
| Agent.NoSuccesses | KOV/core/advanced_agent.py:352-353 | with every execution failed, there is no success |
| Agent.LastSuccess | KOV/core/advanced_agent.py:352-354 | when execution i succeeded and none after it did, the successes are non-empty and the last of them is execution i |
| Agent.FinalReplyReportsLastSuccess | KOV/core/advanced_agent.py:352-355 | the reply is "Task completed successfully!" plus the output of the last successful execution |
| Agent.FinalReplyWithoutSuccess | KOV/core/advanced_agent.py:356-357 | without a success, the reply is the fixed "I encountered some issues…" text |
| Agent.Reflect | KOV/core/advanced_agent.py:263-272 | a failure gives (false, true, "Retry <tool> with different parameters", true). A success has no adjustment and needs no context; its output matches iff it is present and not blank, and the plan stays valid iff the step index is inside the steps |
| Agent.PlanStaysValidInLoop | KOV/core/advanced_agent.py:340-347 | inside the loop the step index is inside the steps, so the break never fires |
| Agent.StripEmptyIffBlankOf | KOV/core/advanced_agent.py:269 | a stripped output is empty iff it is all whitespace |
| Agent.ShouldTerminate | KOV/core/advanced_agent.py:274-289 | stop iff all steps are done, or at least 3 executions failed, or at least 10 were made |
| Agent.NotDueExtend | KOV/core/advanced_agent.py:316 | a step taken while the rule did not hold extends a history in which it never held |
| Agent.StoppedWhenDueBounds | KOV/core/advanced_agent.py:274-289 | a history stopped when the rule first holds has at most as many tool calls as steps, and at most 10. It has fewer than 3 failures before each call and at most 3 in all |
| Agent.AdvancedKovAgent.StepsExecutedExtend | KOV/core/advanced_agent.py:320-337 | appending the record of the next step's call extends the step-by-step history |
| Agent.AdvancedKovAgent.RunHistoryUnique | KOV/core/advanced_agent.py:313-349 | there is exactly one history that follows the steps and stops when the rule first holds |
| Agent.AdvancedKovAgent.RunSteps | KOV/core/advanced_agent.py:313-357 | with a plan without tools, the reply is the first step's reply and nothing is called. Otherwise step i calls `tools_needed[i]` (or `tools_needed[0]` past the end) and is reflected on, the loop stops exactly when the termination rule first holds, and the reply reports the last success |
| Agent.AdvancedKovAgent.Run | KOV/core/advanced_agent.py:291-357 | REASONING_ONLY returns the model's reply, and a plan without tools returns the first step's reply, both with no tool calls. Otherwise step i calls `tools_needed[i]` (or `tools_needed[0]` past the end), the loop stops exactly when the termination rule first holds, and the reply reports the last success |
| Text.ContainsIff | KOV/core/advanced_agent.py:119-128 | `sub in s` holds iff sub occurs at some position of s |
| Text.StripClean | KOV/core/advanced_agent.py:170 | `strip()` removes exactly the leading and trailing whitespace, so text without either is left as it is |
| Text.StripEmptyIffBlank | KOV/core/advanced_agent.py:174 | `s.strip()` is empty iff s is all whitespace |
| Text.JoinSplit | KOV/core/advanced_agent.py:161 | joining the pieces of `split(sep)` with sep gives back the text |
| Text.ParseIntDecimal | KOV/core/advanced_agent.py:177 | `int()` reads back every decimal numeral written by `str()` |
| Patterns.Leftmost | KOV/core/advanced_agent.py:203-226 | each `re.search` of parameter extraction reports the first start position at which the pattern matches, and none before it matches |
| Patterns.KeywordEndMeaning | KOV/core/advanced_agent.py:203-226 | an alternation of words matches at a position iff one of its words does there, and it ends after the first word in the list that does |
| Patterns.ReadSearchAtStart | KOV/core/advanced_agent.py:203-205 | a request opening with "read", "show" or "display", whitespace and a word yields that word, up to the next whitespace, as the group |
| Patterns.WriteSearchAtStart | KOV/core/advanced_agent.py:212-214 | a request "create P with C" or "write P containing C" at the start, whose path has no whitespace and whose content is one line, gives exactly P and C as the two groups |
| Patterns.ContentTailAt | KOV/core/advanced_agent.py:212 | after a path, whitespace, "with" or "containing", whitespace and a one-line rest, the tail `\s+(?:with\|containing)\s+(.+)` matches with that rest as its group |
| Patterns.LazyPathReaches | KOV/core/advanced_agent.py:212 | the lazy path group `(.+?)` skips every end position inside a run without whitespace at which the tail cannot match |
| Patterns.LazyPathStopsAt | KOV/core/advanced_agent.py:212 | a path without whitespace followed by a matching tail is exactly what the lazy group `(.+?)` takes, with the tail's group as the content |
| Patterns.SpaceThenLineAt | KOV/core/advanced_agent.py:212-226 | `\s+(.+)` after a whitespace run that ends in a non-space on the last line gives exactly the rest of the text |
| Patterns.ShellSearchAtStart | KOV/core/advanced_agent.py:226 | a request opening with "run" or "execute", whitespace and more yields the rest of that line as the command |
| Operations.StrLeTotal | KOV/tools/operations.py:52 | str order is total |
| Operations.StrLeTransitive | KOV/tools/operations.py:52 | str order is transitive |
| Operations.StrLeAntisymmetric | KOV/tools/operations.py:52 | str order is antisymmetric |
| Operations.SortStrings | KOV/tools/operations.py:51-52 | the reference sort is sorted and holds the same entries |
| Operations.SortedUnique | KOV/tools/operations.py:52 | there is only one sorted arrangement of given entries |
| Operations.SortEntries | KOV/tools/operations.py:52 | the in-place sort leaves the array sorted and a permutation of its old contents |
| Operations.ListDir | KOV/tools/operations.py:48-58 | the reply is "Files in {path}:" then the entries in ascending order, one per line, or the error message. The entries are sorted and are exactly the directory's |
| Operations.ListReplyIgnoresOrder | KOV/tools/operations.py:51-54 | the reply does not depend on the order in which the directory returns its entries |
| Operations.FileSystem.constructor | KOV/tools/operations.py:12-77 | the filesystem starts with the given files |
| Operations.FileSystem.ReadFile | KOV/tools/operations.py:12-26 | the reply is the file's header and text as read back, "File not found: {path}", or the error message |
| Operations.FileSystem.WriteFile | KOV/tools/operations.py:29-45 | a missing or empty path gives "Error: No file path provided", and a refused write gives "Error writing file: …"; neither changes the files. Otherwise exactly that path holds the content ("" when absent) and the reply confirms it |
| Operations.FileSystem.DeleteFile | KOV/tools/operations.py:61-77 | a missing path is reported without a prompt. Otherwise it prompts; an answer that is not "y" in either case cancels with no change, and a confirmed removal deletes exactly that path unless it raises |
| Operations.ReadYourWrite | KOV/tools/operations.py:12-45 | reading a path just written returns its content, with universal newlines applied; text without carriage returns comes back unchanged |
| Operations.WriteLeavesOtherPaths | KOV/tools/operations.py:38-41 | writing one path does not change what another path reads |
| Operations.ReadAfterDelete | KOV/tools/operations.py:12-77 | a deleted path reads as not found, and every other path reads as before |
| Operations.UniversalNewlines | KOV/tools/operations.py:15-16 | reading text never makes it longer |
| Operations.NoCarriageReturnReadsBack | KOV/tools/operations.py:15-16 | text without carriage returns is read back unchanged |
| Operations.ReadTextHasNoCarriageReturn | KOV/tools/operations.py:15-16 | text read back never holds a carriage return |
| Operations.ContainingFormatIsDangerous | KOV/tools/operations.py:83-84 | any command whose lower-cased text contains "format" anywhere counts as dangerous |
| Operations.RunShell | KOV/tools/operations.py:80-96 | it prompts iff the command is dangerous, and runs iff not dangerous or confirmed. A declined command gives "Command execution cancelled"; otherwise the reply is the command with stdout plus stderr, or the error message |
| Operations.DeclinedCommandRunsNothing | KOV/tools/operations.py:85-87 | a declined command's reply does not depend on what running it would have done |
| Operations.HarmlessCommandIgnoresAnswer | KOV/tools/operations.py:84-89 | a harmless command never depends on the answer |
| Operations.Truncated | KOV/tools/operations.py:105 | a body of up to 2000 characters is kept whole; a longer one becomes its first 2000 characters followed by "..." |
| Operations.TruncatedBounds | KOV/tools/operations.py:105 | the embedded body has at most 2003 characters and starts with the body's first 2000 characters, or the whole body when it is shorter |
| Operations.TruncatedIdempotent | KOV/tools/operations.py:105 | truncating an already truncated body changes nothing |
| Operations.FetchUrl | KOV/tools/operations.py:99-113 | a success embeds the truncated body under "Content from {url}:"; request errors and other errors give their two messages |

## Left out

- The language model itself. Its replies are inputs: classification, plan, reasoning, step, and the parameters for each call.
- `input()` prompts. The answer is an input. Confirmation compares the ASCII lower-case form with "y".
- `float(parts[1])`. It is an input function returning an optional real; IEEE rounding and the accepted float syntax are not modelled.
- `Text.Lower`: lower-cases ASCII letters only. Python's `str.lower` also maps other Unicode letters.
- `Patterns.KeywordAt`: case-insensitive matching compares ASCII lower-case forms through `Text.Lower`. Python's `re.IGNORECASE` also matches 'ı' (U+0131) and 'İ' (U+0130) with 'i', and 'ſ' (U+017F) with 's', so "wrıte a with b" matches the write pattern in the code but not in the model.
- `Text.ParseInt`: accepts ASCII digits only. Python's `int()` also accepts other Unicode decimal digits.
- The tool functions behind the agent. A call is an input function of (step, tool name, call shape) that returns an output or an exception text. The agent-level model does not connect it to the `Operations` functions.
- The outer `except Exception` branch of `run`. It returns "Error: …" when the model client or a prompt raises; everything it guards is total in the model.
- Debug printing and logging. They only produce output, and `conversation_history` is never read.
- `download_file`. It only does I/O: it downloads, writes bytes and reports one of three messages.
- `list_dir`'s listing is an input. It is not derived from the `FileSystem` map, since the map has no directories.
- The other filesystem faults are one optional message per call. These are permission errors, a missing parent directory, a directory passed to `os.remove`, and undecodable bytes. Which files cause them is not modelled.
- Real process execution, HTTP requests with their timeouts and status checks, and the file encoding. Shell and HTTP results are inputs.
- The tests also exercise a workspace sandbox, a shell allowlist, structured results and `_extract_tool_parameters`. That behaviour is not in the modelled revision of the code.

## Where the design description and the code differ

The model follows the code in each case.

- An unknown category in a three-field reply: in the code, `IntentType(...)` raises `ValueError`, and the result is QUESTION with confidence 0.5. It is not the keyword heuristic the description calls for.
- A non-numeric confidence also takes that `ValueError` path.
- The code does not clamp the confidence to [0, 1]: whatever the float parse returns is kept.
- Parameters for tools other than read, write, list and shell come from a second model reply parsed as `k=v|k=v`. The description calls for deterministic text parsing.
- The final reply: the description asks for up to three distinct error messages, or a request to rephrase when nothing was executed. The code returns the fixed apology whenever nothing succeeded (`advanced_agent.py`, lines 356-357; `Agent.FinalReply`).
- The plan's complexity: the description keeps it between 1 and 5. The code keeps any integer that parses (`advanced_agent.py`, lines 175-179; `Agent.ComplexityIn`).
- The code runs in the working directory with no workspace confinement and no shell allowlist. Tool results are plain strings.
