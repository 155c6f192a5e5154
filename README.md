# cdd — a Dafny model of the dashboard's coordination and validation logic

`cdd` is a terminal dashboard for Docker. It lists containers, starts, stops and restarts the
selected one, follows its logs, and creates containers through a four-step wizard. This
project models the logic behind that. The Docker engine, the terminal and the clock are not
part of it. It covers:

- the input validators for port lists and environment lists;
- the creation wizard (`useContainerCreation`);
- the two action dispatchers with their message slot and queued clears (`handleAction` and
  the one in `useContainerActions`);
- the key handler with wrap-around selection and the logs mode (`useControls`);
- the two log-stream hooks and the fifteen-line log window;
- the normalisation of listed containers, the image-match rule, and the create and remove
  flows of the container service;
- the shared logger (levels, filter, console decision, listener set);
- `safeCall`.

Layout: one module per source file, plus three modules of JavaScript primitives.

- `JsString`: `trim` with the JavaScript white-space set, one-character `split`, `includes`,
  first-occurrence `replace`, ASCII case mapping, decimal printing.
- `JsArray`: first-match `find`, `Set`-style de-duplication keeping first occurrences,
  `filter`+`map`.
- `Wrappers`: `Option`.

Two modules are shared by several hooks:

- `Feedback`: the colours, the `MESSAGE_TIMEOUTS` delays and the queued callbacks.
- `LogLines`: chunk splitting, error lines, stream release.

How the model treats JavaScript's dynamic behaviour:

- **Hook state.** A hook whose handlers update React state is a class. Its fields are the
  state variables, and its methods are the handlers.
- **Calls into Docker.** Their answers are parameters (`Result` values). Each call made is
  recorded, in order.
- **`async` handlers.** They are split at their `await`. The part before it records the call
  in flight. A separate method finishes that call when it settles, with the outcome given.
  Calls may settle in any order.
- **`setTimeout`.** A queued `Timer` carrying its delay. `FireTimer(k)` runs any queued
  callback, in any order.
- **Callbacks** (`onCreate`, `onCancel`, `onAction`, logger listeners). They are values that
  return or throw. The model records the arguments each was called with.

Where the repository's tests and the code disagree, the model follows the code:

- An empty port list is valid: `validationHelpers.js:12` returns true, although
  `test/validationHelpers.test.js:24-26` expects false.
- A successful start shows `Starting container...` (`actionHelpers.js:23`), not a
  "completed successfully" text.
- A container name falls back only to `Unknown`, and only the first `/` is removed
  (`containerList.js:11`).

Behaviour the code does not have is not modelled:

- no per-container busy guard: a second action may start while one is in flight;
- no re-clamping of the selection when the list shrinks;
- no validation of the environment input in the wizard.

## Model

| member | source | states |
|---|---|---|
| Validation.ValidatePortsMeaning | src/helpers/validationHelpers.js:10-19 | `validatePorts` holds iff every non-blank trimmed entry is a port mapping. A mapping has a non-empty numeric host before the first `:` and a non-empty numeric container part after it; later fields are ignored. So a blank input, or one whose entries are all blank, is valid. |
| Validation.PortPairRejectedMeaning | src/helpers/validationHelpers.js:15-18 | the `find` test rejects an entry exactly when it is not a port mapping |
| Validation.NoneFoundOverEntries | src/helpers/validationHelpers.js:15-19 | over non-empty entries, `!invalid` holds exactly when no entry is rejected |
| Validation.ValidatePortsAppend | src/helpers/validationHelpers.js:13-19 | validity is per entry: `a + "," + b` is valid iff both `a` and `b` are |
| Validation.EntriesAppend | src/helpers/validationHelpers.js:13 | the trimmed non-blank entries of `a + "," + b` are those of `a` followed by those of `b` |
| Validation.BlankHasNoEntries | src/helpers/validationHelpers.js:12-14 | a blank input has no entries |
| Validation.AcceptsBlankLists | src/helpers/validationHelpers.js:12-14 | `""` and `" , ,"` are valid port lists |
| Validation.DigitsAreNumeric | src/helpers/validationHelpers.js:17 | a non-empty run of decimal digits passes `!isNaN(Number(...))` |
| Validation.WordNotNumeric | src/helpers/validationHelpers.js:17 | a word starting with a lower-case letter is NaN under `Number` |
| Validation.DigitPairIsPortMapping | src/helpers/validationHelpers.js:16-17 | digits `:` digits is a mapping, with or without a third field |
| Validation.DigitPairEntry | src/helpers/validationHelpers.js:10-19 | digits `:` digits (optionally `:` digits) is a valid port list |
| Validation.DigitPairValid | src/helpers/validationHelpers.js:10-19 | digits `:` digits is a valid port list |
| Validation.TwoDigitPairs | src/helpers/validationHelpers.js:13-19 | two digit pairs joined by a comma form a valid list |
| Validation.BadHostRejected | src/helpers/validationHelpers.js:17 | a missing or non-numeric host makes an entry not a mapping |
| Validation.SinglePortEntry | src/helpers/validationHelpers.js:13-19 | a single unpadded entry is valid iff it is a mapping |
| Validation.Accepts8080To80 | src/helpers/validationHelpers.js:10-19 | `8080:80` is accepted |
| Validation.AcceptsTwoMappings | src/helpers/validationHelpers.js:13-19 | `8080:80,443:443` is accepted |
| Validation.RejectsMissingHost | src/helpers/validationHelpers.js:17 | `:80` is rejected |
| Validation.RejectsWordHost | src/helpers/validationHelpers.js:17 | `eighty:80` is rejected |
| Validation.LowercaseHostRejected | src/helpers/validationHelpers.js:17 | any all-lower-case host before a digit port is rejected |
| Validation.AcceptsThirdField | src/helpers/validationHelpers.js:16 | `1:2:3` is accepted, since the destructuring keeps two fields |
| Validation.ValidateEnvVarsMeaning | src/helpers/validationHelpers.js:31-45 | `validateEnvVars` holds iff every non-blank trimmed entry has an `=` and, before the first one, a trimmed name matching `[A-Za-z_][A-Za-z0-9_]*` |
| Validation.EnvAssignmentRejectedMeaning | src/helpers/validationHelpers.js:35-42 | the `find` test rejects exactly what is not such an assignment |
| Validation.ValidateEnvVarsAppend | src/helpers/validationHelpers.js:34-45 | validity is per entry: `a + "," + b` is valid iff both are |
| Validation.EnvWithoutEquals | src/helpers/validationHelpers.js:36-38 | an entry without `=` is rejected |
| Validation.EnvValueUnconstrained | src/helpers/validationHelpers.js:36-42 | a name, `=`, then any value is never rejected |
| Validation.SingleEnvEntry | src/helpers/validationHelpers.js:34-45 | a single unpadded entry is valid iff it is an assignment |
| Validation.AcceptsAssignment | src/helpers/validationHelpers.js:36-42 | `NAME=value` is accepted for any comma-free value (`FOO=`, `A=b=c`) |
| Validation.RejectsWithoutEquals | src/helpers/validationHelpers.js:36-38 | a single entry without `=` makes the list invalid |
| Validation.RejectsDigitFirstName | src/helpers/validationHelpers.js:39-41 | a name starting with a digit makes the list invalid |
| Validation.EnvExamples | src/helpers/validationHelpers.js:31-45 | `FOO=bar,BAZ=qux` and `""` are accepted |
| Validation.RejectsNoEqualsExample | src/helpers/validationHelpers.js:36-38 | `NOEQUALS` is rejected |
| Validation.RejectsDigitFirstExample | src/helpers/validationHelpers.js:39-41 | `123BAD=x` is rejected |
| ContainerCreation.SomeDbImage | src/hooks/creation/useContainerCreation.js:53 | the `some` walk holds iff some `dbImages` entry occurs in the trimmed, lower-cased image name |
| ContainerCreation.RequestOf | src/hooks/creation/useContainerCreation.js:65 | the object handed to `onCreate` carries the four inputs unchanged |
| ContainerCreation.Next | src/hooks/creation/useContainerCreation.js:27-67 | `nextStep` never changes the four inputs, and the step moves forward by one or not at all. `onCreate` is called only at step 3, once, with the four inputs, and that step leaves the state as it was. |
| ContainerCreation.NextAdvancesIff | src/hooks/creation/useContainerCreation.js:28-52 | the step advances iff: step 0 with a non-blank image, or step 1, or step 2 with a blank or valid port list. Advancing shows a yellow prompt. A blank image gives "Image name cannot be empty." in red; a bad port list gives the port-format message in red. |
| ContainerCreation.DbWarningIff | src/hooks/creation/useContainerCreation.js:52-60 | on reaching step 3 the message is the database warning iff some `dbImages` entry occurs in the image name, and the plain environment prompt otherwise |
| ContainerCreation.DbCheckIgnoresCaseAndBlanks | src/hooks/creation/useContainerCreation.js:53 | names equal after trim and lower-casing get the same warning decision |
| ContainerCreation.EnvNotValidated | src/hooks/creation/useContainerCreation.js:63-66 | an environment list that `validateEnvVars` rejects still reaches `onCreate` |
| ContainerCreation.ConfirmTwice | src/hooks/creation/useContainerCreation.js:63-66 | confirming step 3 twice calls `onCreate` twice with the same request |
| ContainerCreation.ImageAndNameSteps | src/hooks/creation/useContainerCreation.js:28-44 | with a non-blank image, two confirmations reach the port step with its yellow prompt, the inputs unchanged and `onCreate` uncalled |
| ContainerCreation.BlankPortsThenCreate | src/hooks/creation/useContainerCreation.js:45-66 | with no ports typed the port step advances to the last step without calling `onCreate`; the next confirmation calls it once with the inputs as typed |
| ContainerCreation.Cancel | src/hooks/creation/useContainerCreation.js:72-81 | `cancelCreation` restores the initial state and calls `onCancel` once when it is a function |
| ContainerCreation.CancelForgets | src/hooks/creation/useContainerCreation.js:72-81 | the state after a cancel does not depend on the state before it, and a second cancel changes nothing more |
| ContainerCreation.Creation.constructor | src/hooks/creation/useContainerCreation.js:16-22 | step 0, empty inputs and message, yellow |
| ContainerCreation.Creation.SetImageName | src/hooks/creation/useContainerCreation.js:17 | only the image name changes |
| ContainerCreation.Creation.SetContainerName | src/hooks/creation/useContainerCreation.js:18 | only the container name changes |
| ContainerCreation.Creation.SetPortInput | src/hooks/creation/useContainerCreation.js:19 | only the port input changes |
| ContainerCreation.Creation.SetEnvInput | src/hooks/creation/useContainerCreation.js:20 | only the environment input changes |
| ContainerCreation.Creation.NextStep | src/hooks/creation/useContainerCreation.js:27-67 | the fields become `Next` of the old state, and the requests `onCreate` received grow by `Next`'s |
| ContainerCreation.Creation.CancelCreation | src/hooks/creation/useContainerCreation.js:72-81 | the fields become the initial state and `onCancel`'s calls grow as `Cancel` says |
| ActionHelpers.Decide | src/helpers/actionHelpers.js:11-17 | skip iff `containers[selected]` is undefined. Refuse iff the check answers a non-empty string, and that answer is the reason. Otherwise proceed with the selected container's id. |
| ActionHelpers.OutcomesDistinguishable | src/helpers/actionHelpers.js:23-27 | the message after a rejection never equals the one after a resolution, nor the progress message of any other label |
| ActionHelpers.Handle | src/helpers/actionHelpers.js:11-22 | a skip changes nothing. A refusal shows the reason in red and queues a 2000 ms clear. Proceeding shows `<label> container...` in green, calls the action with the id and records the call in flight. |
| ActionHelpers.Settle | src/helpers/actionHelpers.js:21-30 | a settled call leaves the in-flight list and queues a 3000 ms clear. Resolved shows `<label> container...` in green; rejected shows `Failed to <label lower-cased> container.` in red. |
| ActionHelpers.Exit | src/helpers/exitWithMessage.js:13-16 | `Exiting...` in yellow, and a clear-then-exit queued after 1500 ms |
| ActionHelpers.Fire | src/helpers/actionHelpers.js:16 | a queued clear empties the message, whatever it says, and leaves the queue |
| ActionHelpers.HandleWithoutCall | src/helpers/actionHelpers.js:11-17 | a missing container changes nothing; a refusal calls nothing |
| ActionHelpers.HandleCallsSelected | src/helpers/actionHelpers.js:19-22 | the action is called at most once per handling, and only with the selected container's id |
| ActionHelpers.OneClearPerFinalMessage | src/helpers/actionHelpers.js:16-29 | a refusal and each settled call queue exactly one clear; the progress message queues none |
| ActionHelpers.StaleClearErasesNewerMessage | src/helpers/actionHelpers.js:16-20 | a refusal's clear, fired after a newer action started, erases that action's progress message while its call is still in flight |
| ActionHelpers.MessageSlot.constructor | src/hooks/useControls.js:11-12 | empty message, yellow, nothing queued or in flight |
| ActionHelpers.MessageSlot.HandleAction | src/helpers/actionHelpers.js:11-22 | the slot becomes `Handle` of its old state |
| ActionHelpers.MessageSlot.SettleCall | src/helpers/actionHelpers.js:21-30 | the slot becomes `Settle` of its old state |
| ActionHelpers.MessageSlot.ExitWithMessage | src/helpers/exitWithMessage.js:13-16 | the slot becomes `Exit` of its old state |
| ActionHelpers.MessageSlot.FireTimer | src/helpers/actionHelpers.js:16-29 | the slot becomes `Fire` of its old state; the result says whether the callback ends the process |
| ContainerActionsHook.FailureNamesError | src/hooks/creation/useContainerActions.js:44 | the failure message is `Failed to <label lower-cased> container: ` followed by the error's text |
| ContainerActionsHook.ActionFeedback.constructor | src/hooks/creation/useContainerActions.js:15-16 | empty message, yellow, no calls |
| ContainerActionsHook.ActionFeedback.HandleAction | src/hooks/creation/useContainerActions.js:25-39 | a missing container changes nothing. A refusal shows the reason in yellow, with no timer and no call. Otherwise `<label> container...` shows in yellow and the action is called once with the selected id. |
| ContainerActionsHook.ActionFeedback.Settle | src/hooks/creation/useContainerActions.js:39-46 | resolved gives `<label> container successful.` in green and calls `onAction` once if it is a function. Rejected gives the failure with the error text, in red, without `onAction`. |
| Controls.Up | src/hooks/useControls.js:40 | from the top to the bottom, otherwise one up |
| Controls.Down | src/hooks/useControls.js:43 | from the bottom to the top, otherwise one down |
| Controls.Navigate | src/hooks/useControls.js:39-44 | with no containers, or no arrow pressed, the selection stays |
| Controls.NavigationWraps | src/hooks/useControls.js:39-44 | a selection inside the list stays inside it, and up and down undo each other |
| Controls.DownTimes | src/hooks/useControls.js:42-44 | repeated down presses keep an in-range selection in range |
| Controls.DownTimesWithin | src/hooks/useControls.js:43 | below the bottom, `n` presses move `n` places |
| Controls.DownTimesCompose | src/hooks/useControls.js:42-44 | presses compose |
| Controls.DownCycle | src/hooks/useControls.js:42-44 | `total` down presses go once round and return to the start |
| Controls.StaleSelectionNotClamped | src/hooks/useControls.js:39-44 | an index beyond a shrunken list is not pulled back: down moves it further out, up moves it back one place |
| Controls.ChecksRefuseExactly | src/hooks/useControls.js:53-84 | start is refused iff state or status is `running`. Stop is refused iff either is `exited` or `stopped`. Restart is never refused. |
| Controls.Controls.constructor | src/hooks/useControls.js:10-15 | selection 0, logs hidden and empty, no stream stored, message slot empty and yellow |
| Controls.Controls.ExitLogs | src/hooks/useControls.js:19-26 | logs hidden and emptied, the stored stream released (destroyed if it has `destroy`) and forgotten |
| Controls.Controls.HandleInput | src/hooks/useControls.js:28-95 | In the logs view only `q` or escape act, closing it; anything else changes nothing. Otherwise the selection moves by `Navigate`; `q` shows the exit message; `i`, `p` and `r` run `Handle` on the pre-move selection with their label and check; `l` on an existing container shows an empty log view and opens that container's stream. |
| Controls.Controls.OnData | src/hooks/useControls.js:90 | the chunk's non-empty lines are appended, nothing else changes |
| Controls.Controls.OnEnd | src/hooks/useControls.js:91 | the empty end callback changes nothing: it has no `modifies` clause, so the lines and every other field stay as they are |
| Controls.Controls.OnError | src/hooks/useControls.js:92 | one `Error: <message>` line is appended |
| Controls.StreamOutlivesLogView | src/hooks/useControls.js:19-26 | the ref is never filled, so closing the view destroys nothing, and later data still lands in `logs` |
| LogLines.NonEmpty | src/hooks/useLogsStream.js:16 | `filter(Boolean)` keeps exactly the non-empty pieces |
| LogLines.ChunkLines | src/hooks/useLogsStream.js:16 | every line is non-empty and holds no line break |
| LogLines.ChunkLinesKeepText | src/hooks/useLogsStream.js:16 | the lines put back together are the chunk without its line breaks, so nothing is lost or invented |
| LogLines.ChunkLinesAppend | src/hooks/useLogsStream.js:16 | splitting `a + "\n" + b` gives the lines of `a` followed by those of `b` |
| LogLines.ChunkLinesSingle | src/hooks/useLogsStream.js:16 | a non-empty chunk without a break is one line |
| LogLines.ChunkOfBreaksOnly | src/hooks/useLogsStream.js:16 | a chunk of line breaks only adds nothing |
| LogLines.ErrorLine | src/hooks/useLogsStream.js:18 | `Error: ` followed by the message, which can be read back |
| LogLines.Release | src/hooks/useLogsStream.js:22-27 | a stored stream with `destroy` is destroyed once; no stream, or one without `destroy`, destroys nothing |
| LogLines.ReleaseTwice | src/hooks/useLogsStream.js:22-27 | a release destroys at most one stream; a second one, on the emptied ref, destroys nothing |
| LogsStream.LogsStream.constructor | src/hooks/useLogsStream.js:10 | nothing stored, no lines |
| LogsStream.LogsStream.OpenLogs | src/hooks/useLogsStream.js:12-20 | the lines are emptied, the stream is requested for the id, and the ref holds what the request answers (nothing) |
| LogsStream.LogsStream.OnData | src/hooks/useLogsStream.js:16 | the chunk's non-empty lines are appended |
| LogsStream.LogsStream.OnEnd | src/hooks/useLogsStream.js:17 | the empty end callback changes nothing: it has no `modifies` clause, so the lines and every other field stay as they are |
| LogsStream.LogsStream.OnError | src/hooks/useLogsStream.js:18 | one `Error: <message>` line is appended |
| LogsStream.LogsStream.CloseLogs | src/hooks/useLogsStream.js:22-27 | the stored stream is released and forgotten; the lines stay |
| LogsStream.CloseAfterOpenKeepsStream | src/hooks/useLogsStream.js:14 | closing after opening destroys nothing, and later data is still appended |
| LogsViewer.LogsViewer.constructor | src/hooks/creation/useLogsViewer.js:17-19 | hidden, no lines, nothing stored |
| LogsViewer.LogsViewer.OpenLogs | src/hooks/creation/useLogsViewer.js:24-27 | shown with no lines; the ref is untouched |
| LogsViewer.LogsViewer.StoreStream | src/hooks/creation/useLogsViewer.js:46 | a caller's assignment to the exposed ref changes only the ref |
| LogsViewer.LogsViewer.CloseLogs | src/hooks/creation/useLogsViewer.js:32-39 | hidden, no lines, the stored stream released and forgotten |
| LogsViewer.CloseTwiceDestroysOnce | src/hooks/creation/useLogsViewer.js:35-38 | closing twice destroys a stored stream exactly once |
| LogViewer.VisibleLogs | src/components/LogViewer.jsx:11 | the last min(15, length of the buffer) lines in order, a suffix of the buffer, and the whole buffer when it has at most 15 lines |
| LogViewer.VisibleAfterAppend | src/components/LogViewer.jsx:11 | the window after an append depends only on the previous window, and shows the new line last |
| LogViewer.HeaderName | src/components/LogViewer.jsx:15 | the container's name, or `Container` when it is missing or empty |
| LogViewer.Render | src/components/LogViewer.jsx:15-20 | the header reads `<name> logs, press ESC to exit`. The placeholder `No logs...` shows iff there are no lines; otherwise between 1 and 15 lines show. |
| ContainerList.NormalizeName | src/helpers/dockerService/serviceComponents/containerList.js:11 | the first name if present and non-empty, else `Unknown`, with its first `/` removed |
| ContainerList.NameDropsOneLeadingSlash | src/helpers/dockerService/serviceComponents/containerList.js:11 | only the first `/` goes |
| ContainerList.NameWithoutSlash | src/helpers/dockerService/serviceComponents/containerList.js:11 | a slash-free name is kept; empty, missing or absent names give `Unknown` |
| ContainerList.Ports | src/helpers/dockerService/serviceComponents/containerList.js:15-28 | the port texts never repeat |
| ContainerList.PortsWithPublic | src/helpers/dockerService/serviceComponents/containerList.js:17-22 | with some truthy public port, a text is listed iff it is the `Public:Private` text of such a port |
| ContainerList.PortsWithoutPublic | src/helpers/dockerService/serviceComponents/containerList.js:17-27 | with every public port zero or absent, a text is listed iff it is the `:Private` text of a port with a truthy private number |
| ContainerList.PortsOrderOfFirstOccurrence | src/helpers/dockerService/serviceComponents/containerList.js:21-27 | the texts keep the order of their first occurrence |
| ContainerList.Normalize | src/helpers/dockerService/serviceComponents/containerList.js:10-28 | id, image, state and status are copied; name and ports as above |
| ContainerList.GetContainers | src/helpers/dockerService/serviceComponents/containerList.js:9-29 | one record per listed container, same length and order |
| ImageUtils.ImageExists | src/helpers/dockerService/serviceComponents/imageUtils.js:10-13 | true iff some image lists the name exactly among its tags or as a substring of a digest; false for no images |
| ImageUtils.AbsentListsAreEmpty | src/helpers/dockerService/serviceComponents/imageUtils.js:11-12 | a missing tag or digest list behaves as an empty one |
| ImageUtils.ImageExistsMonotone | src/helpers/dockerService/serviceComponents/imageUtils.js:10-13 | adding images, before or after, never turns a match into a miss |
| ImageUtils.TagMatchIsExact | src/helpers/dockerService/serviceComponents/imageUtils.js:11 | a tag that differs from the name does not match |
| ImageUtils.DigestMatchIsSubstring | src/helpers/dockerService/serviceComponents/imageUtils.js:12 | any digest containing the name matches |
| ImageUtils.EmptyNameFoundByAnyDigest | src/helpers/dockerService/serviceComponents/imageUtils.js:12 | the empty name matches any image with a digest |
| ContainerActions.CreateOptions | src/helpers/dockerService/serviceComponents/containerActions.js:41-45 | the keys are the caller's plus `Image` and `Tty`. The caller's values win; otherwise `Image` is the name and `Tty` is true. |
| ContainerActions.CreatedId | src/helpers/dockerService/serviceComponents/containerActions.js:48 | `id` when it is a non-empty string, else `Id` |
| ContainerActions.CreateContainer | src/helpers/dockerService/serviceComponents/containerActions.js:27-52 | the images are always listed first |
| ContainerActions.CreateWithImagePresent | src/helpers/dockerService/serviceComponents/containerActions.js:34-48 | a present image is not pulled: list, create with the merged options, resolve to the id |
| ContainerActions.CreateWithImageMissing | src/helpers/dockerService/serviceComponents/containerActions.js:34-40 | a missing image is pulled once, by name, right after listing. A failed pull ends with `Could not pull image: ...`; otherwise create follows. |
| ContainerActions.CreateFailures | src/helpers/dockerService/serviceComponents/containerActions.js:29-51 | a failed listing ends at once with its prefix. Every error is one of the three prefixes followed by a message. A create that was attempted and failed gives `Error creating container: ...`. |
| ContainerActions.CreateRequestOptions | src/helpers/dockerService/serviceComponents/containerActions.js:41-45 | the create request carries the caller's `Image` and `Tty` if given, else the name and `true` |
| ContainerActions.RemoveContainer | src/helpers/dockerService/serviceComponents/containerActions.js:8-15 | one removal with `force: true`; a failure becomes `Error removing container: ...` |
| Logger.Rank | src/helpers/logger.js:5-10 | the ranks are 0 to 3 |
| Logger.LevelNamed | src/helpers/logger.js:17 | a name maps to the level of that name, or to none when no level has it |
| Logger.RankInjective | src/helpers/logger.js:5-10 | distinct levels have distinct ranks |
| Logger.ParseLevel | src/helpers/logger.js:12-21 | a non-string gives null. A string is trimmed and lower-cased; it gives the level of that name, or the inherited property when the key is `constructor` or `__proto__` (which `in` finds on `Object.prototype`), and null otherwise. |
| Logger.ParseLevelOfName | src/helpers/logger.js:12-21 | a value parses to a level iff trimmed and lower-cased it is that level's name |
| Logger.EnvLevelPrecedence | src/helpers/logger.js:23-28 | a `CDD_LOG_LEVEL` that does not parse to null decides alone: its level, or info for an inherited key. Otherwise `LOG_LEVEL` decides the same way, and with neither the level is info. |
| Logger.InheritedKeyHidesLogLevel | src/helpers/logger.js:17-28 | `CDD_LOG_LEVEL=constructor` with `LOG_LEVEL=debug` gives info, while `LOG_LEVEL=debug` alone gives debug |
| Logger.ShouldLog | src/helpers/logger.js:32-35 | true iff the name is one of the four levels and its rank is at most the current one |
| Logger.ShouldLogFacts | src/helpers/logger.js:32-35 | error is always logged, unknown names never, and a more verbose setting logs everything a less verbose one does |
| Logger.ConsoleDecision | src/helpers/logger.js:47-48 | errors and warnings always reach the console; info and debug only when nobody listens |
| Logger.ConsoleMethod | src/helpers/logger.js:51-56 | the chosen console method exists, and is the level's own name when that exists and is not `debug` |
| Logger.ConsoleMethodOfLevel | src/helpers/logger.js:51-56 | debug goes to `console.log`, every other level to its namesake |
| Logger.FormatFields | src/helpers/logger.js:42-44 | the line is `[`, the timestamp, `] [`, the upper-cased level, `] `, then the message |
| Logger.MakeEntry | src/helpers/logger.js:45 | the entry carries level, message, args, timestamp and the formatted line |
| Logger.Deliveries | src/helpers/logger.js:59-65 | one delivery per listener, in order, each with the entry; whether it threw does not stop the rest |
| Logger.SetAdd | src/helpers/logger.js:97 | adding keeps the set duplicate-free, adds the one listener, and changes nothing if it is already there |
| Logger.SetDelete | src/helpers/logger.js:98 | deleting keeps the set duplicate-free and removes exactly that listener |
| Logger.DeleteUndoesAdd | src/helpers/logger.js:97-98 | deleting a freshly added listener restores the set |
| Logger.DeleteKeepsOthers | src/helpers/logger.js:98 | deleting a listener keeps every other one, in its order |
| Logger.Log.constructor | src/helpers/logger.js:23-30 | the level is the environment's choice; no listeners; nothing written |
| Logger.Log.Subscribe | src/helpers/logger.js:93-99 | a non-function registers nothing and returns a no-op; a listener is added and the returned unsubscribe removes it |
| Logger.Log.RunUnsubscribe | src/helpers/logger.js:98 | the no-op removes nothing; a removal deletes exactly that listener and reports whether it was there |
| Logger.Log.Emit | src/helpers/logger.js:37-66 | A filtered-out level writes nothing. Otherwise the formatted line goes to the console per the console decision, and every listener, in insertion order, receives the entry whether or not an earlier one threw. |
| Logger.Log.Write | src/helpers/logger.js:74-85 | `logger.<level>(...)` logs under that level's name: a level above the current one writes nothing; otherwise the formatted line goes to the console per the console decision and every listener receives the entry |
| SafeCall.SafeCall | src/helpers/safeCall.js:8-17 | never throws. A non-function is not called and gives undefined. A function is called once with the arguments; its return value is passed through, and a throw becomes undefined. Exactly a caught error is reported with `console.error`. |

## Left out

- Docker I/O: listing containers and images, `pullImage`, `createContainer`, container
  `remove`, `start`/`stop`/`restart` and `getLogsStream`. The model does not perform these
  calls. What each answers is a parameter, and the model records the calls made.
- Outside this model:
  - stats (`getStats`: floating-point percentages);
  - polling (`useContainers`);
  - the CLI wrappers in `dockerActions.js`;
  - `appInfo.js`;
  - the build scripts;
  - every rendered component except the log window of `LogViewer.jsx`.
- `LogViewer.jsx:5-9`: the escape-key handler only calls `onExit`; it is not modelled.
- `exitWithMessage`: after the delay it also clears the terminal and ends the process. The model
  only flags such a timer (`FireTimer` returns `exits`).
- Time: there is no clock. Queued callbacks fire in any order chosen by the caller, and
  their delays are recorded but not compared.
- Timestamps: the logger's ISO timestamp is a parameter.
- Logger args: message arguments are plain strings.
- Logger listeners: a listener is an id plus whether it throws on a given entry.
- React rendering: every handler call sees the state the previous one left. Batching and
  closures over stale renders are not modelled, beyond the selection captured before the
  arrow updates.
- Setters the hooks expose but never call: `setStep`, `setMessage` and `setMessageColor` of
  the wizard, `setSelected` of `useControls`, and `setShowLogs`/`setLogs` of `useLogsViewer`.
  The four wizard input setters are modelled.
- `useContainerActions`: its passthrough wrappers `startContainer`, `stopContainer`,
  `restartContainer` and `removeContainer` are left out (they only await the service call).
- JsString.ToLower: maps only ASCII letters, and so does `JsString.ToUpper`. JavaScript also
  maps other letters. The texts these are applied to (level names, labels, image names checked
  against database names) are compared with ASCII names.
- ContainerActions.CreateOptions: the options are a map, so JavaScript's key order is not
  modelled.
- Port numbers are naturals or absent; other JavaScript values in
  those fields are not modelled.
- A container without a `Ports` field: `containerList.js:17` would throw a `TypeError` and
  `getContainers` would reject. The model takes `RawContainer.Ports` to be always present.
