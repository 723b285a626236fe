# Adding directories to a Gemini CLI workspace

This project models three parts of the Gemini CLI terminal UI in Dafny and proves what they promise:

- **`/directory add <paths>`** (`directoryCommand.js`), together with its helper `finishAddingDirectories`.
  - The command splits its argument on commas and drops empty pieces.
  - It trims every candidate. A candidate whose home-expanded form is already a workspace directory goes to an "already in the workspace" notice.
  - When folder trust is enabled and the workspace itself is trusted, the remaining paths are sorted by their stored trust. Explicitly untrusted paths become one error entry. Trusted paths are added one at a time. Undecided paths are handed, with everything collected so far, to the trust dialog.
  - Otherwise every remaining path is added directly.
  - `finishAddingDirectories` then refreshes memory when include directories feed it and shows the GEMINI.md item. When something was added, it adds the directory context (only if a model client exists) and shows the success item. When there are error entries, it shows them in one error item.
- **`MultiFolderTrustDialog`** (`MultiFolderTrustDialog.js`).
  - *Yes* adds the undecided folders.
  - *Yes, and remember* writes `TRUST_FOLDER` for each folder before adding it.
  - *No* adds nothing and appends a "not trusted" entry. Escape cancels with a "cancelled" entry.
  - Without a config, a selection shows the "Configuration is not available." error and calls only `onComplete`. Every other path, cancelling included, calls `finishAddingDirectories` and then `onComplete`.
  - A `submitted` flag switches the escape listener and the radio list off after the first answer.
- **`useMouseClick`** (`useMouseClick.js`): the hit-test that decides whether a terminal mouse event reaches a click handler, and with which container-relative offset.

## How the model is organised

| File | What it holds |
|---|---|
| `wrappers.dfy` | `Option`. It stands for `undefined`, for "threw with message m", and for destructuring defaults. |
| `sequences.dfy` | `Keep`, the order-preserving selection that every `push` inside an `if` of a `for` loop builds; `Pick`, the same selection driven by a parallel list of flags; and `MapSeq`. |
| `js_strings.dfy` | `split` with a one-character separator, `join`, and `trim` over the ECMAScript whitespace set. |
| `messages.dfy` | Error entries and history notices as data, with renderers that produce the exact texts the code builds. |
| `environment.dfy` | The collaborators whose code is outside the model, as one `Session` object (see below). |
| `add_directories.dfy` | The command: loops as methods with invariants, proved equal to pure specification functions (`Attempt`, `Finish`, `Decide`, `AddOutcome`). The properties are lemmas about those functions. |
| `trust_dialog.dfy` | The dialog as a class with the `submitted` flag. Its handlers are proved against `SelectOutcome` and `CancelOutcome`. |
| `mouse_click.dfy` | The hit-test as a function. |
| `scenarios.dfy` | Concrete runs that replay the setups of the project's own tests. |

The `Session` object in `environment.dfy` holds:

- the workspace directories and the paths recorded as trusted;
- an ordered trace of every observable call: `addDirectory`, `setValue`, `addItem`, the memory refresh, `addDirectoryContext` and `onComplete`.

Whether `addDirectory`, `setValue` or the refresh throws, and with what message, comes from a `Behaviour` value. `expandHomeDir` and `isPathTrusted` are function parameters.

## Model

Source paths below are relative to the repository root. `directoryCommand.js` is `node_modules/@google/gemini-cli/dist/src/ui/commands/directoryCommand.js`, and likewise for the other files.

| member | source | states |
|---|---|---|
| JsStrings.Split | node_modules/@google/gemini-cli/dist/src/ui/commands/directoryCommand.js:59 | `split` on one character yields at least one piece, and no piece contains the separator |
| JsStrings.JoinSplit | node_modules/@google/gemini-cli/dist/src/ui/commands/directoryCommand.js:59-75 | splitting the argument on spaces and joining the pieces with a space gives the argument back |
| JsStrings.ConcatSplit | node_modules/@google/gemini-cli/dist/src/ui/commands/directoryCommand.js:76 | splitting on a comma loses exactly the commas: the pieces glued together are the string with its commas deleted |
| JsStrings.TrimStartSpec | node_modules/@google/gemini-cli/dist/src/ui/commands/directoryCommand.js:92 | the leading-whitespace pass removes a whitespace prefix and stops at the first other character |
| JsStrings.TrimEndSpec | node_modules/@google/gemini-cli/dist/src/ui/commands/directoryCommand.js:92 | the trailing-whitespace pass removes a whitespace suffix and stops at the last other character |
| JsStrings.TrimSpec | node_modules/@google/gemini-cli/dist/src/ui/commands/directoryCommand.js:92 | `trim()` is the infix between a whitespace prefix and a whitespace suffix; neither end of it is whitespace; it is empty exactly when the input is all whitespace |
| JsStrings.TrimIdempotent | node_modules/@google/gemini-cli/dist/src/ui/commands/directoryCommand.js:116-125 | trimming a trimmed path again changes nothing |
| Messages.EntryText | node_modules/@google/gemini-cli/dist/src/ui/commands/directoryCommand.js:31-156 | each error entry's text starts with its kind's fixed wording: explicitly untrusted, not trusted, cancelled. An `Error adding` entry starts with the quoted path and ends with the thrown error's message; so does `Error refreshing memory`, without a path |
| Messages.NoticeText | node_modules/@google/gemini-cli/dist/src/ui/commands/directoryCommand.js:14-103 | each history item's text starts with its fixed wording; the missing-config and no-path texts are exact. An error item with no entries shows the empty text, and one with one entry shows exactly that entry's text |
| Messages.ErrorListSnoc | node_modules/@google/gemini-cli/dist/src/ui/commands/directoryCommand.js:43-45 | one more entry in a non-empty error item goes on its own line after the earlier entries. With the one-entry case, the item is its entries' texts in order, joined by newlines |
| AddDirectories.ParsePaths | node_modules/@google/gemini-cli/dist/src/ui/commands/directoryCommand.js:74-77 | the candidates are the argument cut at every comma, in order, with the empty pieces dropped (the split and re-join on spaces changes nothing); so each is non-empty and comma-free |
| AddDirectories.ParsePathsKeepsText | node_modules/@google/gemini-cli/dist/src/ui/commands/directoryCommand.js:74-77 | the candidates, glued together, are the argument with its commas removed: no text is lost or invented |
| AddDirectories.NoCandidatesIffOnlyCommas | node_modules/@google/gemini-cli/dist/src/ui/commands/directoryCommand.js:74-84 | the "at least one path" error is shown exactly when the argument is empty or consists only of commas |
| AddDirectories.BlankPieceSurvives | node_modules/@google/gemini-cli/dist/src/ui/commands/directoryCommand.js:77-92 | empty pieces are dropped before trimming, so a piece made of blanks is a candidate and trims to the empty path |
| AddDirectories.SplitAgainstWorkspace | node_modules/@google/gemini-cli/dist/src/ui/commands/directoryCommand.js:88-99 | the loop sends each trimmed candidate to `alreadyAdded` or `pathsToProcess`, by membership in one workspace snapshot, in input order, duplicates kept; the two lists partition the trimmed candidates |
| AddDirectories.SnapshotMembership | node_modules/@google/gemini-cli/dist/src/ui/commands/directoryCommand.js:89-99 | a path is reported as already present iff it is a trimmed candidate whose expansion is in the workspace, and it is processed iff its expansion is not |
| AddDirectories.ClassifyByTrust | node_modules/@google/gemini-cli/dist/src/ui/commands/directoryCommand.js:115-127 | the loop fills the untrusted, undecided and trusted buckets with the paths whose lookup gives `false`, `undefined` and anything else, in input order |
| AddDirectories.BucketsPartition | node_modules/@google/gemini-cli/dist/src/ui/commands/directoryCommand.js:115-127 | the three buckets together hold every path exactly as often as the input does |
| AddDirectories.BucketMembership | node_modules/@google/gemini-cli/dist/src/ui/commands/directoryCommand.js:117-126 | a path is in the bucket named by its lookup result, in both directions, and in no other |
| AddDirectories.AttemptOneAccounting | node_modules/@google/gemini-cli/dist/src/ui/components/MultiFolderTrustDialog.js:71-82 | one pass of the `try` block either adds the path, or records exactly one `Error adding` entry naming it |
| AddDirectories.AttemptOutcomes | node_modules/@google/gemini-cli/dist/src/ui/commands/directoryCommand.js:131-140 | each path of an add loop yields exactly one outcome, and the loop produces no error entry other than `Error adding` |
| AddDirectories.AttemptAccounting | node_modules/@google/gemini-cli/dist/src/ui/commands/directoryCommand.js:131-140 | the added paths and the paths named by `Error adding` entries partition the input, multiplicities included |
| AddDirectories.AttemptCallsEveryPath | node_modules/@google/gemini-cli/dist/src/ui/commands/directoryCommand.js:131-140 | without trust writes, the loop makes one `addDirectory` call per path, in order, on the expanded path, and no other call |
| AddDirectories.AttemptTrustBeforeAdd | node_modules/@google/gemini-cli/dist/src/ui/components/MultiFolderTrustDialog.js:70-83 | with trust writes, every `addDirectory` call immediately follows the `setValue` call for the same path |
| AddDirectories.AttemptRecordsAdded | node_modules/@google/gemini-cli/dist/src/ui/components/MultiFolderTrustDialog.js:70-83 | the workspace and the trust store only grow; each added path's expansion is in the workspace, and with trust writes also in the store; without them the store is unchanged |
| AddDirectories.AttemptAllAccepted | node_modules/@google/gemini-cli/dist/src/ui/commands/directoryCommand.js:149-158 | when the workspace accepts every directory, all paths are added, in order, with no error |
| AddDirectories.AttemptInOrder | node_modules/@google/gemini-cli/dist/src/ui/commands/directoryCommand.js:131-140 | the added paths are exactly the paths whose trust write (if any) and `addDirectory` both returned, in input order, and the `Error adding` entries name the rest, in input order, so each path is in exactly one of the two lists |
| AddDirectories.AttemptTrustWrites | node_modules/@google/gemini-cli/dist/src/ui/components/MultiFolderTrustDialog.js:70-75 | with trust writes, every path gets exactly one `setValue(…, TRUST_FOLDER)` call on its expansion, in input order, whether or not it is then added |
| AddDirectories.AttemptEventKinds | node_modules/@google/gemini-cli/dist/src/ui/components/MultiFolderTrustDialog.js:70-83 | an add loop makes no call other than `addDirectory` and, with trust writes only, `setValue` |
| AddDirectories.AddTrustedDirs | node_modules/@google/gemini-cli/dist/src/ui/commands/directoryCommand.js:131-140 | the trusted-bucket loop leaves exactly the added list, entries, calls and state of `Attempt` over the bucket, after the entries already collected |
| AddDirectories.AddAllDirs | node_modules/@google/gemini-cli/dist/src/ui/commands/directoryCommand.js:149-158 | the ungated loop, re-trimming each path, leaves exactly what `Attempt` over the trimmed paths does |
| AddDirectories.FinishAddingDirectories | node_modules/@google/gemini-cli/dist/src/ui/commands/directoryCommand.js:13-46 | the method makes exactly the calls `Finish` lists, returns its entry list, and leaves the workspace and the trust store unchanged |
| AddDirectories.FinishReportsAdded | node_modules/@google/gemini-cli/dist/src/ui/commands/directoryCommand.js:14-42 | the "Successfully added directories" item appears exactly when there is a config and something was added |
| AddDirectories.FinishErrorItem | node_modules/@google/gemini-cli/dist/src/ui/commands/directoryCommand.js:14-45 | at most one error item is shown: the missing-config one, or all entries joined, the latter exactly when the final entry list is non-empty |
| AddDirectories.FinishKeepsErrors | node_modules/@google/gemini-cli/dist/src/ui/commands/directoryCommand.js:21-32 | the caller's entries stay a prefix; at most one entry is appended, `Error refreshing memory`, exactly when the refresh ran and threw |
| AddDirectories.FinishAddsNothing | node_modules/@google/gemini-cli/dist/src/ui/commands/directoryCommand.js:13-46 | finishing never calls `addDirectory`, `setValue` or `onComplete` |
| AddDirectories.TrimmedSelection | node_modules/@google/gemini-cli/dist/src/ui/commands/directoryCommand.js:116-152 | the extra `trim()` calls on already trimmed paths change nothing |
| AddDirectories.AddGated | node_modules/@google/gemini-cli/dist/src/ui/commands/directoryCommand.js:109-130 | the gated branch returns, records and leaves exactly what `GatedOutcome` describes |
| AddDirectories.AddTrustedAndDecide | node_modules/@google/gemini-cli/dist/src/ui/commands/directoryCommand.js:131-161 | the trusted bucket is added, then the dialog is returned or the batch finished, as `Decide` describes |
| AddDirectories.AddUngated | node_modules/@google/gemini-cli/dist/src/ui/commands/directoryCommand.js:148-161 | the ungated branch returns, records and leaves exactly what `UngatedOutcome` describes |
| AddDirectories.Add | node_modules/@google/gemini-cli/dist/src/ui/commands/directoryCommand.js:57-162 | the whole action returns, records and leaves exactly what `AddOutcome` describes |
| AddDirectories.AddEarlyExits | node_modules/@google/gemini-cli/dist/src/ui/commands/directoryCommand.js:60-84 | a missing config, a restrictive sandbox or an argument without candidates ends the action with exactly one error and no add; the error is the returned message iff the sandbox is restrictive |
| AddDirectories.AddAllPresent | node_modules/@google/gemini-cli/dist/src/ui/commands/directoryCommand.js:100-108 | when every candidate is already present, the only effect is one info item listing them all, in order |
| AddDirectories.GatedAddCalls | node_modules/@google/gemini-cli/dist/src/ui/commands/directoryCommand.js:109-160 | the only `addDirectory` calls of a gated run are those of the trusted bucket, in order, on expanded paths |
| AddDirectories.BucketImageTrusted | node_modules/@google/gemini-cli/dist/src/ui/commands/directoryCommand.js:115-140 | every path the trusted bucket hands to `addDirectory` has stored trust `true` |
| AddDirectories.GatedAddsOnlyTrusted | node_modules/@google/gemini-cli/dist/src/ui/commands/directoryCommand.js:109-147 | with trust gating on, `addDirectory` is only called on paths whose stored trust is `true` |
| AddDirectories.DecideDialogOrReport | node_modules/@google/gemini-cli/dist/src/ui/commands/directoryCommand.js:141-160 | the dialog is returned exactly when there are undecided paths, and it carries them; otherwise the batch is finished; either way what is handed on is the added paths and the earlier entries followed by the add errors |
| AddDirectories.DecideHanded | node_modules/@google/gemini-cli/dist/src/ui/commands/directoryCommand.js:128-146 | the handed entries start with one explicitly-untrusted entry when there are untrusted paths; all later entries are `Error adding`; with the added paths they account for the trusted bucket exactly |
| AddDirectories.GatedHanded | node_modules/@google/gemini-cli/dist/src/ui/commands/directoryCommand.js:109-146 | the same, stated for the buckets a gated run computes |
| AddDirectories.UngatedAttemptsEveryPath | node_modules/@google/gemini-cli/dist/src/ui/commands/directoryCommand.js:148-160 | without gating, every path is attempted in order, the batch is always finished, trust is untouched, and the report accounts for every path |
| Environment.Session.AddDirectory | node_modules/@google/gemini-cli/dist/src/ui/commands/directoryCommand.js:133 | `addDirectory` throws as the behaviour says, or adds the path; the call is recorded |
| Environment.Session.SetTrustFolder | node_modules/@google/gemini-cli/dist/src/ui/components/MultiFolderTrustDialog.js:74 | `setValue(path, TRUST_FOLDER)` throws as the behaviour says, or records the trust; the call is recorded |
| Environment.Session.AddItem | node_modules/@google/gemini-cli/dist/src/ui/commands/directoryCommand.js:25-28 | a history item is appended and nothing else changes |
| Environment.Session.RefreshMemory | node_modules/@google/gemini-cli/dist/src/ui/commands/directoryCommand.js:23 | the refresh throws as the behaviour says; the call is recorded |
| Environment.Session.AddDirectoryContext | node_modules/@google/gemini-cli/dist/src/ui/commands/directoryCommand.js:34-37 | the call is recorded and nothing else changes |
| Environment.Session.Complete | node_modules/@google/gemini-cli/dist/src/ui/components/MultiFolderTrustDialog.js:86 | `onComplete()` is recorded and nothing else changes |
| TrustDialog.TryAdd | node_modules/@google/gemini-cli/dist/src/ui/components/MultiFolderTrustDialog.js:71-82 | one pass of the dialog's `try` block makes the calls, and has the outcome, of `AttemptOne` |
| TrustDialog.AddFolders | node_modules/@google/gemini-cli/dist/src/ui/components/MultiFolderTrustDialog.js:64-84 | the dialog's loop appends to copies of the props' lists exactly what `Attempt` over the folders produces |
| TrustDialog.MultiFolderTrustDialog.constructor | node_modules/@google/gemini-cli/dist/src/ui/components/MultiFolderTrustDialog.js:21-22 | a new dialog has not been submitted |
| TrustDialog.MultiFolderTrustDialog.HandleCancel | node_modules/@google/gemini-cli/dist/src/ui/components/MultiFolderTrustDialog.js:23-29 | cancelling sets `submitted` and makes exactly the calls of `CancelOutcome` |
| TrustDialog.MultiFolderTrustDialog.HandleSelect | node_modules/@google/gemini-cli/dist/src/ui/components/MultiFolderTrustDialog.js:52-87 | selecting sets `submitted` and makes exactly the calls of `SelectOutcome` for the choice |
| TrustDialog.MultiFolderTrustDialog.PressEscape | node_modules/@google/gemini-cli/dist/src/ui/components/MultiFolderTrustDialog.js:30-34 | escape cancels on an unsubmitted dialog and changes nothing once it is submitted |
| TrustDialog.MultiFolderTrustDialog.Choose | node_modules/@google/gemini-cli/dist/src/ui/components/MultiFolderTrustDialog.js:88 | a list selection is applied on an unsubmitted dialog and changes nothing once it is submitted |
| TrustDialog.MultiFolderTrustDialog.Drive | node_modules/@google/gemini-cli/dist/src/ui/components/MultiFolderTrustDialog.js:22-88 | whatever inputs follow, only the first is acted on, so the dialog answers once |
| TrustDialog.SelectWithoutConfig | node_modules/@google/gemini-cli/dist/src/ui/components/MultiFolderTrustDialog.js:52-61 | whatever the choice, a selection without a config shows exactly the "Configuration is not available." item and then calls `onComplete`. It adds nothing, writes no trust, hands nothing to `finishAddingDirectories` and leaves the workspace and the trust store unchanged |
| TrustDialog.SelectClosesOnce | node_modules/@google/gemini-cli/dist/src/ui/components/MultiFolderTrustDialog.js:52-87 | whatever the choice, and with or without a config, `onComplete` is the last call and is made exactly once |
| TrustDialog.CancelClosesOnce | node_modules/@google/gemini-cli/dist/src/ui/components/MultiFolderTrustDialog.js:23-29 | cancelling calls `onComplete` last and exactly once |
| TrustDialog.SelectNoAddsNothing | node_modules/@google/gemini-cli/dist/src/ui/components/MultiFolderTrustDialog.js:54-85 | *No* adds and trusts nothing; with a config it hands on the earlier additions and entries plus one "not trusted" entry naming the folders; without one it hands on nothing |
| TrustDialog.CancelAddsNothing | node_modules/@google/gemini-cli/dist/src/ui/components/MultiFolderTrustDialog.js:23-28 | cancelling adds and trusts nothing and always hands on the earlier additions and entries plus one "cancelled" entry, even without a config |
| TrustDialog.SelectYesLeavesTrust | node_modules/@google/gemini-cli/dist/src/ui/components/MultiFolderTrustDialog.js:66-84 | *Yes* never writes trust; with a config it calls `addDirectory` once per folder, in order, on its expansion |
| TrustDialog.SelectRememberTrustsFirst | node_modules/@google/gemini-cli/dist/src/ui/components/MultiFolderTrustDialog.js:70-83 | with *Yes, and remember*, every `addDirectory` call immediately follows the trust write for the same path |
| TrustDialog.SelectRememberRecordsTrust | node_modules/@google/gemini-cli/dist/src/ui/components/MultiFolderTrustDialog.js:70-83 | with *Yes, and remember*, every folder that was added is in the workspace and recorded as trusted; nothing is removed |
| TrustDialog.SelectYesAccountsForFolders | node_modules/@google/gemini-cli/dist/src/ui/components/MultiFolderTrustDialog.js:64-85 | after either *Yes*, the handed lists extend the props' lists. The new added paths are the folders whose attempt succeeded, in the folders' order. The new `Error adding` entries name the other folders, in order. Together they partition the folders, and no other kind of entry is appended |
| TrustDialog.SelectRememberWritesEveryFolder | node_modules/@google/gemini-cli/dist/src/ui/components/MultiFolderTrustDialog.js:70-75 | with *Yes, and remember* and a config, every folder's trust is written once, in the listed order, on its expansion; without a config nothing is written |
| MouseClick.EventName | node_modules/@google/gemini-cli/dist/src/ui/hooks/useMouseClick.js:11 | the left button waits for `left-press`, and any other button for `right-release` |
| MouseClick.OnMouse | node_modules/@google/gemini-cli/dist/src/ui/hooks/useMouseClick.js:8-26 | the handler is called iff the listener is active, the event is the awaited one, the container is mounted and the 1-based cell lies inside the 0-based box; it then gets the original event and an offset inside the box that maps back to the cell |
| MouseClick.EmptyBoxNeverHit | node_modules/@google/gemini-cli/dist/src/ui/hooks/useMouseClick.js:19-23 | a box with no width or no height is never hit |
| MouseClick.ButtonsExclusive | node_modules/@google/gemini-cli/dist/src/ui/hooks/useMouseClick.js:9-12 | a left-button listener and a listener for another button never both fire on one event |
| MouseClick.AdjacentBoxesExclusive | node_modules/@google/gemini-cli/dist/src/ui/hooks/useMouseClick.js:13-23 | two boxes side by side never both take the same click |
| Scenarios.MixedTrustOpensDialog | node_modules/@google/gemini-cli/dist/src/ui/commands/directoryCommand.js:109-146 | with one trusted, one untrusted and one undecided path, only the trusted one is added, and the dialog gets the undecided one, the trusted one and the explicitly-untrusted entry |
| Scenarios.TestPathsOpenDialog | node_modules/@google/gemini-cli/dist/src/ui/hooks/useIncludeDirsTrust.test.js:115-136 | the same run on the test's paths `/trusted`, `/untrusted` and `/undefined` gives the dialog props the test expects |
| Scenarios.FailureIsReported | node_modules/@google/gemini-cli/dist/src/ui/hooks/useIncludeDirsTrust.test.js:80-99 | with trust off, `/dir1` and `/dir2` are both attempted, `/dir1` is added, and the `Test error` failure of `/dir2` is shown in the error item |
| Scenarios.FailureText | node_modules/@google/gemini-cli/dist/src/ui/commands/directoryCommand.js:156 | that entry reads `Error adding '/dir2': Test error` |
| Scenarios.FailureItemText | node_modules/@google/gemini-cli/dist/src/ui/commands/directoryCommand.js:43-45 | the error item holding only that entry shows exactly that text |

## Left out

- Rendering is not modelled: the Ink/React layout, the dialog's option labels, and the "Applying trust settings..." line. `MultiFolderTrustDialog.Listening` stands for the two flags the render passes on.
- The `show` subcommand and the command's metadata are not modelled.
- `Date.now()` timestamps on history items are dropped.
- `addDirectoryContext` is modelled as a call that returns; its throwing is not modelled.
- Session.AddDirectory: a success stores exactly the string passed, the home-expanded path. The workspace's own resolution of a directory to its fully resolved form is not modelled. So `AttemptRecordsAdded`, `AttemptAllAccepted` and `SelectRememberRecordsTrust` state that the expanded path is in the workspace. The snapshot comparison of the expanded path against the workspace's directories likewise assumes that stored form.
- `WorkspaceContext.addDirectory` validation, `loadTrustedFolders().isPathTrusted` (with its ancestor rules) and `expandHomeDir` are oracles: the `Behaviour` value and function parameters.
- `isFolderTrustEnabled` and `isWorkspaceTrusted` are reduced to their results (`TrustSettings`).
- `MultiFolderTrustDialog.PressEscape`, `MultiFolderTrustDialog.Choose` and `MultiFolderTrustDialog.Drive` treat `setSubmitted(true)` as taking effect at once. React applies it on the next render, so two key presses inside one render are not modelled. `useKeypress` and `RadioButtonSelect` are not part of this model: an inactive listener and an unfocused list are modelled as not invoking the handler.
- The awaits are modelled as running in order. Interleaving with other turns is not modelled.
- `MouseClick.OnMouse` models the `isActive` option as the listener not firing; `useMouse` itself is not part of this model. Coordinates are integers, so fractional layout values are not covered.
- `trim()` is modelled over the ECMAScript WhiteSpace and LineTerminator code points only. A `char` here is a Unicode scalar value, not a UTF-16 code unit: a character outside the Basic Multilingual Plane is one `char`, and a lone surrogate cannot occur.
- The startup hook `useIncludeDirsTrust` is not part of this model. `Scenarios.TestPathsOpenDialog` and `Scenarios.FailureIsReported` replay its test setups against the command, which sorts and adds paths the same way.
- `Scenarios.TestPathsOpenDialog` states the explicitly-untrusted entry structurally, with its one path rendered as a bullet; it does not state the full multi-line text.
- The model follows the code as written:
  - Duplicate paths in one argument are not de-duplicated; each copy is processed.
  - Paths are only trimmed and home-expanded, not otherwise normalised.
  - The cancel path finishes the batch even without a configuration, and then shows the "Configuration is not available." item.
