# OpenHands mobile: the logic inside the screens

A Dafny model of the small pieces of sequential logic in the OpenHands
mobile client, a React Native app. The rest of the app is rendering. The
model covers:

- the `auth` slice of the Redux store, a four-field session record changed
  by `connectStart`, `connectSuccess`, `connectFailure` and `disconnect`;
- the `conversations` slice: the fetch status machine
  (`idle`/`loading`/`succeeded`/`failed`) and the thunk's choice of error
  message;
- the API client stub: a module-level configuration cell and the simulated
  reachability probe `testServerConnection`;
- the two server-connection screens:
  - the expo-router route `app/server-connection.tsx` trims the input,
    strips one trailing slash, adds a scheme, and then dispatches and
    alerts;
  - the older stack screen `src/screens/ServerConnectionScreen.tsx` trims
    and adds a scheme only, then dispatches and navigates to `Home`;
- the file browser: the listing filter over a fixed file table, and moving
  into a directory, back to its parent and to a breadcrumb;
- the mock terminal: its command interpreter over a history list and a
  working directory, and its Tab key;
- the home screen's case-insensitive workspace search.

How the model is laid out:

- **State that the source updates in place is a class.** The slices, the
  client cell and each screen's component state are classes. Their
  methods have `modifies` clauses and state the whole new state.
- **Pure logic is a function.** This covers URL normalisation, the
  listing filter, the breadcrumb path, the interpreter's dispatch, response
  and history, and the search filter. Methods are proved against these
  functions.
- **Side effects are events.** Each connect handler returns the ordered
  events it produces: dispatches, the probe call, client initialisation,
  and alerts or navigation.
- **The awaited probe is a parameter.** It is a function from URL to
  outcome: resolved `true`, resolved `false`, or threw an `Error` with a
  message or a non-`Error` value.

Shared string operations live in `Strings`. They are JavaScript's `trim`,
`startsWith`, `endsWith`, `includes`, `toLowerCase`, `split`/`join` on one
character, and `replace` of the first `~`, all restricted to ASCII. The
`filter` and `slice` helpers live in `Seqs`.

Facts about the code that the model keeps as written:

- The session stores a `serverUrl` string.
- `connectFailure` keeps a stored URL, so a URL can be present while
  `isConnected` is false: a failed reconnect leaves the old URL.
- Only `app/server-connection.tsx` strips a trailing slash. The stack
  screen trims and adds a scheme only. `ScreenServerConnection.NormalizeKeepsSlash`
  relates the two.
- The route dispatches `connectStart` before it strips the slash and adds
  the scheme. The stack screen dispatches it after normalising. Neither
  order changes the recorded events.
- The route's stored-URL effect runs on mount and whenever the session's
  `serverUrl` changes. A truthy URL then replaces the text in the field.
- The file browser's listing is a `useEffect` on the current path. It runs
  on mount and whenever the path changes, so an unchanged path keeps the
  files shown.
- The listing filter tests the path prefix on strings, so at a path such as
  `/src/comp` the files of `/src/components` would pass.

## Model

| member | source | states |
|---|---|---|
| AuthSlice.AuthState.constructor | src/store/authSlice.ts:11-17 | the initial session: no URL, neither connecting nor connected, no error |
| AuthSlice.AuthState.ConnectStart | src/store/authSlice.ts:23-27 | connecting, not connected, error cleared, stored URL unchanged; never both flags |
| AuthSlice.AuthState.ConnectSuccess | src/store/authSlice.ts:28-34 | connected to exactly the given URL, not connecting, no error; never both flags |
| AuthSlice.AuthState.ConnectFailure | src/store/authSlice.ts:35-39 | both flags false, the message as error, stored URL unchanged (it survives a failed reconnect) |
| AuthSlice.AuthState.Disconnect | src/store/authSlice.ts:40-46 | exactly the initial state again, from any state |
| ConversationSlice.FetchErrorMessage | src/store/conversationSlice.ts:25-30 | the server's message when truthy, else the error's message when truthy, else "Failed to fetch conversations"; never empty |
| ConversationSlice.RejectedError | src/store/conversationSlice.ts:57 | the payload when truthy, else the action's error message when truthy, else "Unknown error"; never empty |
| ConversationSlice.RejectedKeepsThunkMessage | src/store/conversationSlice.ts:25-32 | a rejection from the thunk stores the thunk's chosen message, whatever the action's error message |
| ConversationSlice.ConversationState.constructor | src/store/conversationSlice.ts:10-14 | empty list, idle, no error; the error is set exactly when the status is failed |
| ConversationSlice.ConversationState.Pending | src/store/conversationSlice.ts:43-47 | loading, error cleared, list unchanged; invariant kept |
| ConversationSlice.ConversationState.Fulfilled | src/store/conversationSlice.ts:48-53 | succeeded, the list replaced wholesale by the payload, no error; invariant kept |
| ConversationSlice.ConversationState.Rejected | src/store/conversationSlice.ts:54-58 | failed, error chosen by the reducer's fallback rule, list unchanged; invariant kept |
| ConversationSlice.ConversationState.FetchConversations | src/store/conversationSlice.ts:16-35 | a fetch ends succeeded with exactly the fetched list, or failed with the thunk's message and the old list |
| ApiClient.ApiClient.constructor | src/api/client.ts:8 | the configuration cell starts empty |
| ApiClient.ApiClient.InitializeApiClient | src/api/client.ts:10-12 | the cell holds exactly the given configuration; the last call wins |
| ApiClient.ApiClient.GetApiClientConfig | src/api/client.ts:52-54 | returns the cell's content and changes nothing |
| ApiClient.TestServerConnection | src/api/client.ts:22-42 | false for the empty URL; otherwise true exactly when "fail" occurs nowhere in the URL; a function of the URL alone |
| ApiClient.FailHostIsRefused | src/api/client.ts:32-35 | the stub refuses `http://fail.example.com` |
| Connection.RealProbe | src/api/client.ts:22-42 | the stub's probe always resolves and never throws |
| Connection.WithScheme | app/server-connection.tsx:74-77 | the result has a scheme; it is the input exactly when the input already starts with `http://` or `https://`, and `http://` + input otherwise |
| AppServerConnection.StripOneSlash | app/server-connection.tsx:70-72 | exactly one trailing slash removed when there is one, else unchanged |
| AppServerConnection.NormalizeUrl | app/server-connection.tsx:60-77 | every normalised URL starts with `http://` or `https://` |
| AppServerConnection.NormalizeUrlShape | app/server-connection.tsx:60-77 | the normalised URL is the trimmed input, up to an added `http://` and at most one removed trailing slash |
| AppServerConnection.FailureMessage | app/server-connection.tsx:88-95 | a thrown `Error`'s own message is stored unchanged; a refusal and a thrown non-`Error` store fixed, non-empty texts |
| AppServerConnection.FailureAlert | app/server-connection.tsx:88-95 | the failure alert is titled "Error"; after a refusal it shows the stored message itself, after a throw the stored message behind `Failed to connect: ` |
| AppServerConnection.Attempt | app/server-connection.tsx:67-96 | `connectStart` first and once, then one probe of the URL; success initialises the client and then dispatches `connectSuccess`, both with the probed URL; failure dispatches `connectFailure` with the refusal text, the error's message or "An unknown error occurred.", and never success; the trace ends with the success alert or with `FailureAlert` |
| AppServerConnection.ConnectTrace | app/server-connection.tsx:59-97 | blank input gives only the empty-input alert, with no dispatch and no probe; anything else is an attempt on the normalised URL |
| AppServerConnection.ServerConnectionScreen.constructor | app/server-connection.tsx:14-51 | the mounted route: the field is the URL already stored in the session when there is a truthy one, else `http://localhost:3000` |
| AppServerConnection.ServerConnectionScreen.SetServerUrlInput | app/server-connection.tsx:123 | the field becomes the typed text |
| AppServerConnection.ServerConnectionScreen.SyncStoredUrl | app/server-connection.tsx:47-51 | a truthy stored URL overwrites the field; otherwise the field is kept |
| AppServerConnection.ServerConnectionScreen.HandleConnect | app/server-connection.tsx:47-97 | returns the events of `ConnectTrace` for the typed text; blank input leaves the session and the client cell unchanged; success connects the session and sets the cell to the probed URL; failure stores the message, keeps the URL and the cell; a changed stored URL is copied into the field by the stored-URL effect, otherwise the field keeps its text |
| AppServerConnection.NormalizeFixedPoint | app/server-connection.tsx:60-77 | a trimmed URL with a scheme and no trailing slash normalises to itself |
| AppServerConnection.NormalizeNotIdempotent | app/server-connection.tsx:70-72 | `x//` normalises to `http://x/`, which normalises to `http://x`: one slash per pass |
| AppServerConnection.NormalizeAddsScheme | app/server-connection.tsx:60-77 | input whose trimmed form has no scheme and no trailing slash becomes `http://` + the trimmed form |
| AppServerConnection.NormalizeSurroundingWhitespace | app/server-connection.tsx:60-72 | whitespace is trimmed before the slash is stripped: `p + host + "/" + q` normalises to `http://` + host |
| AppServerConnectionExamples.HostGainsScheme | app/server-connection.tsx:74-77 | a trimmed host that does not start with `h` and has no trailing slash gains `http://` |
| AppServerConnectionExamples.NormalizeBareHost | app/server-connection.tsx:60-77 | `test-server.com` is probed as `http://test-server.com` |
| AppServerConnectionExamples.NormalizeHttpsTrailingSlash | app/server-connection.tsx:70-77 | `https://x.com/` keeps its scheme and loses the slash |
| AppServerConnectionExamples.SchemeOnlyInput | app/server-connection.tsx:70-77 | `http://` alone loses its last slash and is prefixed again, to `http://http:/` |
| AppServerConnectionExamples.RefusedHostScenario | app/server-connection.tsx:59-97 | against the stub, `fail.example.com` is probed as `http://fail.example.com`, refused, and the refusal is dispatched and alerted |
| ScreenServerConnection.NormalizeUrl | src/screens/ServerConnectionScreen.tsx:22-25 | the result has a scheme and is the trimmed input, with `http://` in front or not |
| ScreenServerConnection.FailureMessage | src/screens/ServerConnectionScreen.tsx:36-41 | a refusal gives the fixed Japanese message; a throw gives the error prefix followed by the message or "不明なエラー"; never empty |
| ScreenServerConnection.Attempt | src/screens/ServerConnectionScreen.tsx:27-41 | `connectStart`, then the probe, then either client initialisation, `connectSuccess` and navigation to `Home` in that order, or `connectFailure` with no navigation and no success |
| ScreenServerConnection.ConnectTrace | src/screens/ServerConnectionScreen.tsx:16-42 | blank input produces no event at all; anything else is an attempt on the normalised URL |
| ScreenServerConnection.ServerConnectionScreen.constructor | src/screens/ServerConnectionScreen.tsx:12 | the field starts empty |
| ScreenServerConnection.ServerConnectionScreen.SetServerUrl | src/screens/ServerConnectionScreen.tsx:59 | the field becomes the typed text |
| ScreenServerConnection.ServerConnectionScreen.HandleConnect | src/screens/ServerConnectionScreen.tsx:16-42 | returns the events of `ConnectTrace`; blank input changes nothing; success connects and sets the client cell; failure stores the screen's message |
| ScreenServerConnection.WithSchemeKeepsTrimmed | src/screens/ServerConnectionScreen.tsx:22-25 | adding the scheme to a trimmed string leaves it trimmed |
| ScreenServerConnection.NormalizeIdempotent | src/screens/ServerConnectionScreen.tsx:22-25 | this screen's normalisation is idempotent |
| ScreenServerConnection.NormalizeAgreesWithRoute | src/screens/ServerConnectionScreen.tsx:22-25 | without a trailing slash both screens probe the same URL |
| ScreenServerConnection.WithSchemeKeepsSlash | src/screens/ServerConnectionScreen.tsx:23-25 | a trailing slash does not change the scheme decision unless the string is a bare scheme |
| ScreenServerConnection.NormalizeKeepsSlash | src/screens/ServerConnectionScreen.tsx:22-25 | with a trailing slash this screen probes the route's URL plus `/`, except for a bare scheme |
| ScreenServerConnectionExamples.EmptyInputDoesNothing | src/screens/ServerConnectionScreen.tsx:17-19 | empty input neither probes nor dispatches |
| ScreenServerConnectionExamples.NormalizeBareHost | src/screens/ServerConnectionScreen.tsx:22-25 | `test-server.com` becomes `http://test-server.com` |
| ScreenServerConnectionExamples.NetworkErrorScenario | src/screens/ServerConnectionScreen.tsx:27-41 | a probe throwing `Error("Network error")` ends in `connectFailure("接続エラー: Network error")` after one probe |
| FileBrowser.Listing | src/screens/FileBrowserScreen.tsx:49-62 | the listing holds exactly the table entries that pass the filter `IsListed`, as an order-preserving subsequence of the table |
| FileBrowser.Parent | src/screens/FileBrowserScreen.tsx:82-88 | going back never yields an empty path |
| FileBrowser.CrumbPath | src/screens/FileBrowserScreen.tsx:100 | a breadcrumb path is always absolute: it starts with `/` |
| FileBrowser.RootListsOneSlash | src/screens/FileBrowserScreen.tsx:52-53 | `IsListed` at the root holds exactly for paths with a single `/` that are not `/` itself |
| FileBrowser.FileBrowserScreen.constructor | src/screens/FileBrowserScreen.tsx:42-62 | mounted at `/` over `MockFiles` with the root listing shown, nothing selected, breadcrumbs `["src"]`, which do not match the path |
| FileBrowser.FileBrowserScreen.RefreshListing | src/screens/FileBrowserScreen.tsx:49-62 | the files shown become the listing of the current path and nothing else changes |
| FileBrowser.FileBrowserScreen.SetCurrentPath | src/screens/FileBrowserScreen.tsx:49-62 | the path is set; a changed path shows its listing, an unchanged one keeps the files; a shown listing stays shown |
| FileBrowser.FileBrowserScreen.FetchFileContent | src/screens/FileBrowserScreen.tsx:65-69 | the stand-in content is shown and the file selected; path and breadcrumbs unchanged |
| FileBrowser.FileBrowserScreen.HandleSelectItem | src/screens/FileBrowserScreen.tsx:72-79 | a directory becomes the path, with breadcrumbs matching it and, when the path moved, its listing shown, else the files kept; a file is opened and path, files and breadcrumbs are kept; a shown listing stays shown |
| FileBrowser.FileBrowserScreen.HandleGoBack | src/screens/FileBrowserScreen.tsx:82-90 | nothing changes at `/`; otherwise the path becomes its parent, the breadcrumbs match it, and a moved path shows its listing |
| FileBrowser.FileBrowserScreen.NavigateToBreadcrumb | src/screens/FileBrowserScreen.tsx:93-103 | a negative index gives `/` and no breadcrumbs; otherwise the breadcrumbs are cut after the index and the path is `/` + their join; from valid breadcrumbs these match the path; a moved path shows its listing |
| FileBrowser.SplitCrumbPath | src/screens/FileBrowserScreen.tsx:100 | a breadcrumb path splits into an empty part followed by the breadcrumbs |
| FileBrowser.CrumbsOfCrumbPath | src/screens/FileBrowserScreen.tsx:100-102 | the breadcrumbs of the path that breadcrumbs name are those breadcrumbs again |
| FileBrowser.ParentOfChild | src/screens/FileBrowserScreen.tsx:72-90 | going back from an entry of a directory leads to that directory |
| FileBrowser.ChildIsListed | src/screens/FileBrowserScreen.tsx:51-59 | every entry directly inside a directory passes that directory's filter `IsListed` |
| FileBrowser.TwoSlashesNotAtRoot | src/screens/FileBrowserScreen.tsx:52-53 | a path with two slashes is never listed at the root |
| FileBrowserExamples.RootListing | src/screens/FileBrowserScreen.tsx:51-54 | at `/` only `/src` is listed |
| FileBrowserExamples.ComponentsListing | src/screens/FileBrowserScreen.tsx:55-58 | inside `/src/components` exactly its three files are listed, in table order |
| Terminal.Dispatch | src/screens/TerminalScreen.tsx:29-51 | prefix `ls` first, then prefix `cd ` (rest is the directory), then prefix `cat ` (rest is the file), then exactly `pwd`, `help`, `clear`, else unknown; each case exactly when the earlier ones fail |
| Terminal.Prompt | src/screens/TerminalScreen.tsx:24 | the recorded line is the fixed user and host, the directory, `$ ` and the command, in that order |
| Terminal.Response | src/screens/TerminalScreen.tsx:27-51 | a command prints nothing exactly when it is `cd` or `clear`; an unknown command is echoed at the end of its error line |
| Terminal.NextPath | src/screens/TerminalScreen.tsx:31-37 | only `cd` moves the directory; `cd ..` goes to `~`; any other `cd X` keeps the old directory and `/` in front and ends with `X`, with no other character in between |
| Terminal.HistoryAfter | src/screens/TerminalScreen.tsx:22-58 | `clear` empties the history; any other command keeps the whole old history and adds its prompt line right after it |
| Terminal.TerminalScreen.constructor | src/screens/TerminalScreen.tsx:11-19 | the five initial history lines, an empty command and `~/Documents` |
| Terminal.TerminalScreen.SetCurrentCommand | src/screens/TerminalScreen.tsx:91 | the command line becomes the typed text; history and directory are kept |
| Terminal.TerminalScreen.PressTab | src/screens/TerminalScreen.tsx:64 | exactly four spaces appended to the command |
| Terminal.TerminalScreen.ExecuteCommand | src/screens/TerminalScreen.tsx:22-60 | history, directory and emptied command line end as the interpreter's functions say |
| Terminal.TerminalScreen.SubmitEditing | src/screens/TerminalScreen.tsx:91-92 | submitting runs the command line's text |
| Terminal.HistoryGrows | src/screens/TerminalScreen.tsx:22-60 | apart from `clear`, one line is added for `cd` and two for any other command, the second being the command's response |
| Terminal.ClearEmptiesHistory | src/screens/TerminalScreen.tsx:45-48 | `clear` empties the history |
| Terminal.CdUpThenPwd | src/screens/TerminalScreen.tsx:31-42 | `cd ..` goes to `~`, where `pwd` prints `/home/user` |
| TerminalExamples.PwdAtStart | src/screens/TerminalScreen.tsx:41-42 | at `~/Documents`, `pwd` prints `/home/user/Documents` |
| TerminalExamples.LsAtStart | src/screens/TerminalScreen.tsx:24-30 | `ls` at the start adds the prompt line and the listing |
| TerminalExamples.CatNotes | src/screens/TerminalScreen.tsx:38-40 | `cat notes.txt` prints the two lines naming the file |
| TerminalExamples.UnknownCommand | src/screens/TerminalScreen.tsx:49-50 | an unknown command is echoed back in the error line |
| TerminalExamples.DispatchByPrefix | src/screens/TerminalScreen.tsx:29-31 | `lsof` counts as `ls`; `cd` without a space is unknown |
| HomeScreen.SearchResult | src/screens/HomeScreen.tsx:27-33 | a blank query gives the whole list; otherwise exactly the workspaces whose lower-cased name contains the lower-cased, untrimmed query; always an order-preserving subsequence |
| HomeScreen.MatchesQueryIgnoresCase | src/screens/HomeScreen.tsx:30-31 | the search callback `MatchesQuery` gives the same answer for a query and its lower-cased form |
| HomeScreen.SearchIgnoresCase | src/screens/HomeScreen.tsx:25-33 | a query and its lower-cased form show the same list, blank or not |
| HomeScreen.HomeScreen.constructor | src/screens/HomeScreen.tsx:20-21 | no query and the whole list |
| HomeScreen.HomeScreen.OnChangeSearch | src/screens/HomeScreen.tsx:25-35 | the raw query is kept and the list is a function of this query alone |
| HomeScreenExamples.WhitespaceShowsEverything | src/screens/HomeScreen.tsx:27-28 | a whitespace-only query shows the whole list |
| HomeScreenExamples.SearchDesign | src/screens/HomeScreen.tsx:30-32 | "Design" finds "Design Team" only |
| HomeScreenExamples.DevelopmentMissesDesign | src/screens/HomeScreen.tsx:30-32 | "Development" does not contain "design" in any case |
| Strings.Trim | src/screens/HomeScreen.tsx:27 | the result has no whitespace at either end and is no longer than the input |
| Strings.TrimIsSlice | src/screens/HomeScreen.tsx:27 | trimming removes a whitespace prefix and a whitespace suffix and nothing else |
| Strings.TrimIdempotent | src/screens/ServerConnectionScreen.tsx:22 | a property of the `trim` helper itself, not of a line that trims twice: trimming a trimmed string changes nothing |
| Strings.BlankIffAllWhitespace | src/screens/HomeScreen.tsx:27 | `IsBlank`, the model of `!s.trim()`, holds exactly when every character is whitespace |
| Strings.ToLowerLowers | src/screens/HomeScreen.tsx:30-31 | `ToLower` keeps the length, leaves no ASCII capital, changes only capitals, and turns each capital into its lower-case letter (32 code points on) |
| Strings.ToLowerIdempotent | src/screens/HomeScreen.tsx:30-31 | lower-casing twice is lower-casing once |
| Strings.ToLowerKeepsBlank | src/screens/HomeScreen.tsx:27-31 | lower-casing keeps a string blank or not blank |
| Strings.Includes | src/api/client.ts:32 | `includes` holds exactly when the pattern occurs at some index |
| Strings.RemoveFirst | src/screens/TerminalScreen.tsx:42 | only the first `~` is removed, and nothing when there is none |
| Strings.Split | src/screens/FileBrowserScreen.tsx:53-56 | a split has at least one part and no part holds the separator |
| Strings.SplitCount | src/screens/FileBrowserScreen.tsx:53-57 | a split has one part more than the separator has occurrences |
| Strings.JoinSplit | src/screens/FileBrowserScreen.tsx:85-87 | `Join` of the parts of a `Split` gives back the path |
| Strings.SplitJoin | src/screens/FileBrowserScreen.tsx:100-102 | `Split` of a `Join` of separator-free parts gives back the parts |
| Strings.NonEmptyParts | src/screens/FileBrowserScreen.tsx:75 | the non-empty parts are non-empty and free of `/`; they are exactly the non-empty parts of the split, each as often as it occurs there, in order |
| Seqs.Filter | src/screens/HomeScreen.tsx:30-32 | `filter` keeps exactly the passing elements, in order |
| Seqs.FilterCounts | src/screens/HomeScreen.tsx:30-32 | `filter` keeps each passing element as often as it occurs and no copy of a failing one |
| Seqs.FilterSame | src/screens/HomeScreen.tsx:30-32 | `filter` depends on the callback only through its answers on the elements |
| Seqs.SliceTo | src/screens/FileBrowserScreen.tsx:100-102 | `slice(0, end)` is the prefix of length `end`, clamped to the length |

## Left out

- Rendering, layout, styles and theming; the settings screen, the root layout and the navigation containers.
- `Alert.alert` and `navigation.navigate('Home')` are recorded as events in the connect traces and not modelled further.
- The route's `isConnected` effect, which calls `router.replace('/')` once the session is connected (`app/server-connection.tsx` lines 53-57), is not modelled: it is navigation outside the connect handler.
- The 500 ms delay of `testServerConnection` and all `async`/`await` scheduling: the probe is a parameter and settles before the handler continues.
- `console.log` / `console.error` output, and the Ctrl, Alt and arrow keys of the terminal, which only log.
- `getConversations` is imported by the conversations slice but not defined in `src/api/client.ts`, so it is not part of this model; the fetch outcome is a parameter (`FetchOutcome`).
- The commented-out SecureStore persistence. The settings slice is not part of this model.
- The chat input, the conversation screen and the chat screen: speech and recording go through foreign APIs, and the message append depends on timers, clocks and random ids.
- `Strings.Trim` and `Strings.ToLower` handle ASCII only: no Unicode whitespace and no Unicode case folding.
- `ConversationSlice.RejectedWithValueMessage`: the text Redux Toolkit puts in `action.error.message` for a `rejectWithValue` rejection is a library detail; the model fixes it to a constant, and `RejectedKeepsThunkMessage` shows the value never matters.
- The `workspaceId` property of the file browser and terminal is unused by the logic.
- Tests that contradict the code are not encoded:
  - the auth slice tests expect a `serverConfig` field, but the reducer has `serverUrl`;
  - the home screen test claims "Development" matches "Design", but `HomeScreenExamples.DevelopmentMissesDesign` shows it does not;
  - the file browser test expects more children of `/`, but `FileBrowserExamples.RootListing` shows only `/src` is listed.
- `Seqs.Filter`: its own contract states membership and order; multiplicity is stated by the separate lemma `Seqs.FilterCounts`, which keeps the listing proofs small.
