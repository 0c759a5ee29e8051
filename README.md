# Pastel Frog Pond: server and channel forms, metadata decoding, post composer

A Dafny model of the client-side logic of the Pastel Frog Pond chat client:

- **`transformServerMetadata`** (`ServerTransforms`): turns the loosely typed
  `metadata` JSON of a `servers` row into a record with six leaves. JSON
  values are the `Json` datatype (`Json`). A missing key is `undefined` and a
  non-object yields nothing for `?.`, which gives `??` its JavaScript meaning.
- **The settings dialog** (`ServerSettingsModal`): fetches its server row once
  and listens for realtime changes of it. Its stored state is a reducer over
  the event history (`Reduce`, `ReduceAll`). A class with the component's
  state drives that reducer.
- **The settings dialog of `src/components/server/settings/ServerSettingsModal.tsx`**
  (`VerbatimSettingsModal`): stores the rows undecoded. It is proved to agree,
  up to decoding, with the decoding dialog whose realtime handler is fixed
  (see "## Findings").
- **The create-channel form** (`CreateChannelModal`):
  - the blank-name gate;
  - the slug made from the name;
  - the position query, whose new position is the highest plus one;
  - the parsing of the slow-mode field;
  - a reset on success and the fields kept on failure.
- **The create-server form** (`CreateServerModal`):
  - the 5 MiB image gate;
  - the storage path built from the image's extension;
  - the ordered steps auth, upload, `create_server` and icon update, each stopping at its first failure;
  - the form cleared in `finally`.
- **The "General" settings tab** (`ServerGeneralSettings`):
  - the Save button's enabling rule;
  - the name update;
  - the icon upload under a per-server object name with `upsert`, and the `isUploading` flag;
  - removal of the icon.
- **The Hopper feed page** (`Hopper`): a blank draft is refused and kept, and
  any other draft is cleared. The feed is a constant list.

Backend calls (Supabase queries, storage, the `create_server` RPC, realtime
events) are not performed. Each handler takes the backend's answers as
parameters and returns the calls it issues together with the toast it shows.
`JsText` models the JavaScript string built-ins the handlers use, over ASCII:
`trim`, `toLowerCase`, `split('.').pop()` and `parseInt`.

Three behaviours of the code worth knowing:

- A failed server creation also clears the form, because `finally` resets it.
- The error of the position query is not checked: a failed query counts as an
  empty category, so the new channel gets position 1.
- The Save button is disabled only for the empty name and the unchanged name,
  so a whitespace-only name can be saved.

## Model

| member | source | states |
|---|---|---|
| ServerTransforms.TransformServerMetadata | src/utils/server-transforms.ts:5-19 | decoding is total, and no leaf whose default is non-null comes out `null` |
| ServerTransforms.FieldRules | src/utils/server-transforms.ts:8-15 | each of the six leaves is the input's value at its key path when that is present and not `null`; otherwise it is the leaf's default (`null`, `0`, `false`, `false`, `null`, `[]`) |
| ServerTransforms.NonObjectGivesDefaults | src/utils/server-transforms.ts:6-9 | a `null`, scalar or array input decodes to the defaults |
| ServerTransforms.FeaturesNotObjectGivesDefaults | src/utils/server-transforms.ts:10-16 | a missing, `null` or non-object `features` gives every feature leaf its default |
| ServerTransforms.WelcomeScreenNotObjectGivesDefaults | src/utils/server-transforms.ts:12-16 | a missing, `null` or non-object `welcome_screen` gives its three leaves their defaults |
| ServerTransforms.OnlyLeavesMatter | src/utils/server-transforms.ts:7-18 | the result depends only on the six leaf paths; every other key is dropped |
| ServerTransforms.RoundTripIffComplete | src/utils/server-transforms.ts:8-15 | a record turned back into JSON decodes to itself exactly when none of its non-null-default leaves is `null` |
| ServerTransforms.Idempotent | src/utils/server-transforms.ts:5-19 | decoding a decoded record again changes nothing |
| ServerTransforms.FallsBackOnlyOnNull | src/utils/server-transforms.ts:8-15 | for every value `v` at each of the six leaves, the leaf decodes to its default when `v` is `null` and to `v` itself otherwise, falsy and mistyped values included |
| ServerTransforms.KeepsFalsyAndMistyped | src/utils/server-transforms.ts:8-13 | an example object with `false`, a string where a number is expected and a string where an object is expected: the first two are kept, the third gives the welcome-screen defaults |
| ServerSettingsModal.InlineTransformServerMetadata | src/components/server/ServerSettingsModal.tsx:48-62 | the decoder declared inside `fetchServer` agrees with the shared decoder on every input |
| ServerSettingsModal.DecodeServer | src/components/server/ServerSettingsModal.tsx:64-67 | every column of the row is kept; the metadata is decoded and complete; putting the raw metadata back restores the row |
| ServerSettingsModal.Reduce | src/components/server/ServerSettingsModal.tsx:43-46 | the reducer of the dialog's state, with the realtime handler as evidently intended (86-92); its rules are stated by `ReduceRules`, `NullUntilLoaded` and `LastLoadWins` |
| ServerSettingsModal.ReduceAsWritten | src/components/server/ServerSettingsModal.tsx:86-92 | the reducer as written, where the realtime handler fails before `setServer`; its behaviour is stated by `AsWrittenIgnoresUpdates` |
| ServerSettingsModal.ReduceRules | src/components/server/ServerSettingsModal.tsx:43-46 | a successful fetch or an `UPDATE` stores the decoded row; a fetch error, `INSERT` or `DELETE` leaves the state unchanged |
| ServerSettingsModal.NullUntilLoaded | src/components/server/ServerSettingsModal.tsx:30 | the stored server stays null exactly as long as no fetch has succeeded and no `UPDATE` has arrived |
| ServerSettingsModal.LastLoadWins | src/components/server/ServerSettingsModal.tsx:86-92 | the state is the decoded row of the last fetch or `UPDATE`, whatever non-loading events come after it |
| ServerSettingsModal.StoredMetadataIsDecoded | src/components/server/ServerSettingsModal.tsx:64-69 | after any events, a stored server's metadata is complete and is a fixed point of decoding |
| ServerSettingsModal.AsWrittenIgnoresUpdates | src/components/server/ServerSettingsModal.tsx:90 | the handler as written leaves the state unchanged on every realtime event; the intended one differs on an `UPDATE` arriving while the state is null |
| ServerSettingsModal.SettingsModal.constructor | src/components/server/ServerSettingsModal.tsx:30-31 | no server, tab "general", no fetch and no subscription |
| ServerSettingsModal.SettingsModal.Mount | src/components/server/ServerSettingsModal.tsx:33-34 | an empty `serverId` starts nothing; any other id starts the fetch and the subscription |
| ServerSettingsModal.SettingsModal.FetchSettled | src/components/server/ServerSettingsModal.tsx:36-70 | the settled fetch updates the state as the reducer says: a decoded row on success, unchanged on error |
| ServerSettingsModal.SettingsModal.Notify | src/components/server/ServerSettingsModal.tsx:85-93 | a realtime event updates the state as the reducer says |
| ServerSettingsModal.SettingsModal.Unmount | src/components/server/ServerSettingsModal.tsx:97-99 | the cleanup closes the subscription |
| ServerSettingsModal.SettingsModal.SelectTab | src/components/server/ServerSettingsModal.tsx:111 | the selected tab is the one chosen |
| ServerSettingsModal.SettingsModal.Render | src/components/server/ServerSettingsModal.tsx:102-111 | nothing is rendered exactly while the server is null; otherwise the view shows the stored server and the selected tab |
| VerbatimSettingsModal.Reduce | src/components/server/settings/ServerSettingsModal.tsx:42-47 | the reducer of this dialog's state, `UPDATE` handler at 63-67; its rules are stated by `ReduceRules` and `AgreesUpToDecoding` |
| VerbatimSettingsModal.ReduceRules | src/components/server/settings/ServerSettingsModal.tsx:42-47 | a successful fetch or an `UPDATE` stores the payload row unchanged; other events leave the state unchanged |
| VerbatimSettingsModal.AgreesUpToDecoding | src/components/server/settings/ServerSettingsModal.tsx:63-67 | after any events, decoding this dialog's stored row gives what the decoding dialog stores when its realtime handler is fixed (`ServerSettingsModal.Reduce`); the decoding dialog as written ignores `UPDATE`s and so differs after one |
| VerbatimSettingsModal.SettingsModal.constructor | src/components/server/settings/ServerSettingsModal.tsx:29-30 | no server, tab "general", no fetch and no subscription |
| VerbatimSettingsModal.SettingsModal.Mount | src/components/server/settings/ServerSettingsModal.tsx:32-33 | an empty `serverId` starts nothing; any other id starts the fetch and the subscription |
| VerbatimSettingsModal.SettingsModal.FetchSettled | src/components/server/settings/ServerSettingsModal.tsx:35-48 | the settled fetch stores the row as it is, or leaves the state unchanged on error |
| VerbatimSettingsModal.SettingsModal.Notify | src/components/server/settings/ServerSettingsModal.tsx:63-67 | an `UPDATE` stores the new row as it is; other events change nothing |
| VerbatimSettingsModal.SettingsModal.Unmount | src/components/server/settings/ServerSettingsModal.tsx:71-73 | the cleanup closes the subscription |
| VerbatimSettingsModal.SettingsModal.SelectTab | src/components/server/settings/ServerSettingsModal.tsx:85 | the selected tab is the one chosen |
| VerbatimSettingsModal.SettingsModal.Render | src/components/server/settings/ServerSettingsModal.tsx:76-85 | nothing is rendered exactly while the server is null |
| Json.Member | src/utils/server-transforms.ts:8-15 | `?.` on a JSON value: the member of an object, and nothing for a missing key, a missing value or a non-object; stated through `ServerTransforms.FieldRules` |
| Json.Coalesce | src/utils/server-transforms.ts:8-15 | `??`: the fallback exactly for a missing value or `null`; stated through `ServerTransforms.FallsBackOnlyOnNull` |
| JsText.Trim | src/components/server/modals/CreateChannelModal.tsx:31 | `trim()`: `TrimEnd` after `TrimStart`; its blank case is stated by `TrimEmptyIffBlank` |
| JsText.TrimStart | src/components/server/modals/CreateChannelModal.tsx:31 | the result is a suffix of the input; what was removed is all whitespace; the result does not start with whitespace |
| JsText.TrimEnd | src/components/server/modals/CreateChannelModal.tsx:31 | the result is a prefix of the input; what was removed is all whitespace; the result does not end with whitespace |
| JsText.TrimEmptyIffBlank | src/pages/Hopper.tsx:64 | `trim()` gives the empty string exactly for empty and whitespace-only strings |
| JsText.ToLower | src/components/server/modals/CreateChannelModal.tsx:50 | an upper-case letter becomes the lower-case letter 32 code points on; every other character is unchanged; the result is never upper case |
| JsText.Extension | src/components/server/CreateServerModal.tsx:54 | `split('.').pop()`: the text after the last '.'; stated by `ExtensionShape`, `ExtensionWithoutDot` and `ExtensionAfterLastDot` |
| JsText.ExtensionShape | src/components/server/CreateServerModal.tsx:54 | the extension holds no '.', is a suffix of the name and, when shorter than the name, is preceded by a '.' |
| JsText.ExtensionWithoutDot | src/components/server/CreateServerModal.tsx:54 | a name without '.' is its own extension |
| JsText.ExtensionAfterLastDot | src/components/server/settings/tabs/ServerGeneralSettings.tsx:40 | a name with a '.' is the text before the last '.', then '.', then the extension |
| JsText.DigitPrefix | src/components/server/modals/CreateChannelModal.tsx:146 | the result is the longest prefix made only of digits |
| JsText.ParseInt | src/components/server/modals/CreateChannelModal.tsx:146 | `parseInt` in base 10: leading whitespace, an optional sign, then the longest digit prefix, NaN without digits; stated by `ParseIntDecimal` and `ParseIntWithoutDigits` |
| JsText.ParseIntDecimal | src/components/server/modals/CreateChannelModal.tsx:146 | `parseInt` of any integer written in decimal gives that integer back |
| JsText.ParseIntWithoutDigits | src/components/server/modals/CreateChannelModal.tsx:146 | text with no digit parses to NaN |
| CreateChannelModal.SlugFrom | src/components/server/modals/CreateChannelModal.tsx:50 | the slug of a text read after whitespace or not: never any whitespace or upper case, never longer than the text |
| CreateChannelModal.Slug | src/components/server/modals/CreateChannelModal.tsx:50 | the slug has no whitespace and no upper-case letter, and is no longer than the name |
| CreateChannelModal.SlugOfWord | src/components/server/modals/CreateChannelModal.tsx:50 | a name with no whitespace is only lower-cased |
| CreateChannelModal.SlugReplacesRun | src/components/server/modals/CreateChannelModal.tsx:50 | each maximal run of whitespace becomes exactly one '-' |
| CreateChannelModal.SlugFromRun | src/components/server/modals/CreateChannelModal.tsx:50 | a whitespace run gives one '-' and the text after it is slugged afresh |
| CreateChannelModal.SlugOfTwoWords | src/components/server/modals/CreateChannelModal.tsx:50 | "New Channel"-shaped names become the lower-cased words joined by '-' |
| CreateChannelModal.SlugKeepsEdges | src/components/server/modals/CreateChannelModal.tsx:50 | the name is not trimmed: leading or trailing whitespace gives a leading or trailing '-' |
| CreateChannelModal.NewPosition | src/components/server/modals/CreateChannelModal.tsx:45-54 | `(maxPositionData?.[0]?.position ?? 0) + 1`, with a failed query giving 1; stated by `NewPositionAfterExisting` |
| CreateChannelModal.Max | src/components/server/modals/CreateChannelModal.tsx:42-43 | the highest position is one of the positions and bounds all of them |
| CreateChannelModal.NewPositionAfterExisting | src/components/server/modals/CreateChannelModal.tsx:38-54 | the new position is above every existing position in the category; it is the highest one plus one, or 1 in an empty category |
| CreateChannelModal.NewPositionScenario | src/components/server/modals/CreateChannelModal.tsx:45-54 | channels at positions 0 and 1 give the new channel position 2 |
| CreateChannelModal.SlowModeInput | src/components/server/modals/CreateChannelModal.tsx:146 | `parseInt` of the field, with NaN turned into 0; stated by `SlowModeUnclamped` and `SlowModeNonNumeric` |
| CreateChannelModal.SlowModeUnclamped | src/components/server/modals/CreateChannelModal.tsx:146 | any integer typed is taken as it is, with no bound applied |
| CreateChannelModal.SlowModeNonNumeric | src/components/server/modals/CreateChannelModal.tsx:146 | text without a digit gives 0 |
| CreateChannelModal.SubmitGateIsBlank | src/components/server/modals/CreateChannelModal.tsx:31-34 | the gate rejects exactly the empty and whitespace-only names |
| CreateChannelModal.CreateChannelModal.constructor | src/components/server/modals/CreateChannelModal.tsx:22-27 | closed, empty name, TEXT, not NSFW, slow mode 0, not loading |
| CreateChannelModal.CreateChannelModal.SetOpen | src/components/server/modals/CreateChannelModal.tsx:80 | the dialog is open or closed as requested |
| CreateChannelModal.CreateChannelModal.EditName | src/components/server/modals/CreateChannelModal.tsx:117 | the name is the typed text |
| CreateChannelModal.CreateChannelModal.ChooseType | src/components/server/modals/CreateChannelModal.tsx:94 | the type is the chosen one |
| CreateChannelModal.CreateChannelModal.SetNsfw | src/components/server/modals/CreateChannelModal.tsx:134 | the NSFW flag is the chosen one |
| CreateChannelModal.CreateChannelModal.EditSlowMode | src/components/server/modals/CreateChannelModal.tsx:146 | the slow mode is the parsed input, 0 for NaN |
| CreateChannelModal.CreateChannelModal.Submit | src/components/server/modals/CreateChannelModal.tsx:29-77 | a blank name changes nothing and shows "Please enter a channel name". Otherwise the handler inserts the slug, the type, the ids, the new position and the settings. On success: "Channel created successfully!", the callback is called and the form is reset. On failure: "Failed to create channel" and every field is kept. Loading ends either way |
| CreateServerModal.ImageAccepted | src/components/server/CreateServerModal.tsx:25 | the image gate `size > 5 * 1024 * 1024` negated; its boundary is stated by `ImageLimitIsInclusive` |
| CreateServerModal.UploadPath | src/components/server/CreateServerModal.tsx:54-55 | `${uuid}.${fileExt}`; stated by `UploadPathWithoutDot` and `JsText.ExtensionAfterLastDot` |
| CreateServerModal.Attempt | src/components/server/CreateServerModal.tsx:44-99 | the calls and outcome of the `try` block for given backend answers; stated by the `Attempt…` lemmas below |
| CreateServerModal.RunNotice | src/components/server/CreateServerModal.tsx:91-99 | the toast of a run: success, "Not authenticated", or the thrown error's message; stated by `AttemptNotice` |
| CreateServerModal.ImageLimitIsInclusive | src/components/server/CreateServerModal.tsx:25 | an image of exactly 5 MiB is accepted and one byte more is refused |
| CreateServerModal.UploadPathWithoutDot | src/components/server/CreateServerModal.tsx:54-55 | a file name without '.' is used whole after the UUID and '.' |
| CreateServerModal.AttemptOrder | src/components/server/CreateServerModal.tsx:44-89 | the auth check comes first; the steps run in order; a failing step is the last call issued |
| CreateServerModal.AttemptSucceedsIff | src/components/server/CreateServerModal.tsx:44-92 | the handler succeeds, and so calls `onClose`, exactly when every step it reaches succeeds |
| CreateServerModal.AttemptNotice | src/components/server/CreateServerModal.tsx:91-99 | the success toast shows exactly when every step succeeds; a missing user shows "Not authenticated" |
| CreateServerModal.AttemptIssues | src/components/server/CreateServerModal.tsx:53-89 | the upload happens only for a signed-in user with an image; `create_server` only when the earlier steps passed; the icon update only after an upload and a creation, with a non-empty URL |
| CreateServerModal.AttemptArguments | src/components/server/CreateServerModal.tsx:54-77 | `create_server` gets the typed name and the user's id; the upload goes to the UUID-and-extension path |
| CreateServerModal.CreateServerModal.constructor | src/components/server/CreateServerModal.tsx:17-20 | not loading, empty name, no image, no preview |
| CreateServerModal.CreateServerModal.EditName | src/components/server/CreateServerModal.tsx:152 | the name is the typed text |
| CreateServerModal.CreateServerModal.SelectImage | src/components/server/CreateServerModal.tsx:22-34 | no file changes nothing; an image over 5 MiB is refused with "Image size must be less than 5MB" and the previous selection is kept; otherwise the image is selected |
| CreateServerModal.CreateServerModal.PreviewLoaded | src/components/server/CreateServerModal.tsx:31 | the preview is the loaded data URL |
| CreateServerModal.CreateServerModal.Submit | src/components/server/CreateServerModal.tsx:36-106 | a blank name changes nothing and shows "Please enter a server name". Otherwise the calls and outcome are those of the ordered steps, `onClose` runs only on success, the toast matches the outcome, and the form is cleared whatever the outcome |
| ServerGeneralSettings.SaveEnabled | src/components/server/settings/tabs/ServerGeneralSettings.tsx:156-158 | the Save button is enabled exactly when the edited name is non-empty and differs from the current one; this gate is the precondition of `UpdateServer`, so an empty or unchanged name never reaches the backend |
| ServerGeneralSettings.BlankNameCanBeSaved | src/components/server/settings/tabs/ServerGeneralSettings.tsx:158 | a whitespace-only name passes the gate |
| ServerGeneralSettings.IconFileName | src/components/server/settings/tabs/ServerGeneralSettings.tsx:40-41 | `${server.id}.${fileExt}`; stated by `IconNameSharedIffSameExtension` and `IconNamesPerServer` |
| ServerGeneralSettings.IconNameSharedIffSameExtension | src/components/server/settings/tabs/ServerGeneralSettings.tsx:40-44 | two uploads for one server overwrite the same object exactly when their extensions match |
| ServerGeneralSettings.IconNamesPerServer | src/components/server/settings/tabs/ServerGeneralSettings.tsx:41 | servers whose ids hold no '.' never share an icon object |
| ServerGeneralSettings.ServerGeneralSettings.constructor | src/components/server/settings/tabs/ServerGeneralSettings.tsx:15-17 | the name field starts as the server's name; not uploading |
| ServerGeneralSettings.ServerGeneralSettings.ServerChanged | src/components/server/settings/tabs/ServerGeneralSettings.tsx:16 | a new `server` prop replaces the shown server but not the edited name |
| ServerGeneralSettings.ServerGeneralSettings.EditName | src/components/server/settings/tabs/ServerGeneralSettings.tsx:151 | the name field is the typed text |
| ServerGeneralSettings.ServerGeneralSettings.UpdateServer | src/components/server/settings/tabs/ServerGeneralSettings.tsx:19-31 | runs only while Save is enabled (156-158); one update of the edited name, which is never empty and never the current name, then either "Failed to update server name" or "Server name updated" |
| ServerGeneralSettings.ServerGeneralSettings.StartIconUpload | src/components/server/settings/tabs/ServerGeneralSettings.tsx:33-44 | no file does nothing. Otherwise the handler sets `isUploading` and uploads to `<server id>.<extension>` with `upsert` |
| ServerGeneralSettings.ServerGeneralSettings.FinishIconUpload | src/components/server/settings/tabs/ServerGeneralSettings.tsx:46-66 | a failed upload skips the row update. A successful one sets `icon_url` to the public URL. The toast matches the outcome. `isUploading` is cleared on every path |
| ServerGeneralSettings.ServerGeneralSettings.RemoveIcon | src/components/server/settings/tabs/ServerGeneralSettings.tsx:68-84 | a null or empty `icon_url` does nothing. Otherwise the handler issues one update setting it to null, and the toast matches the outcome |
| Hopper.HopperPage.constructor | src/pages/Hopper.tsx:12-59 | the draft is empty and the feed is the three fixed posts |
| Hopper.HopperPage.EditDraft | src/pages/Hopper.tsx:100 | the draft is the typed text |
| Hopper.HopperPage.CreatePost | src/pages/Hopper.tsx:63-78 | a blank draft is kept and "Can't create empty post" is shown as an error; any other draft is cleared and "Post created!" is shown |

## Left out

- Supabase is not modelled: queries, storage uploads, public URLs, the `create_server` RPC and realtime delivery. Their outcomes are method parameters, and the handlers return the calls they would issue.
- Authentication, the login form, routing and the presentational components are not part of this model. So are the other settings tabs (roles, members, invites) and the drag-and-drop channel list.
- The toast library, `console.error` and the `description` lines of toasts are not modelled. A toast is modelled by its title and variant only.
- `crypto.randomUUID()` is not modelled. The UUID is a parameter.
- `FileReader` is not modelled: `PreviewLoaded` takes the data URL it produces.
- `JsText.IsSpace` and `JsText.ToLower` cover ASCII only. JavaScript's `\s`, `trim` and `toLowerCase` also act on Unicode whitespace and letters.
- JsText.ParseInt: reads only decimal digits, because a number input never yields a hexadecimal `0x` prefix. Also left out: the rounding of very long digit strings to a double, and a parse of `-0`, which becomes 0.
- JSON numbers are modelled as exact reals, with no double-precision rounding.
- The message of a thrown backend error in the create-server form is a parameter (`errorText`). Which Supabase errors are `Error` instances is not modelled.
- `isLoading` and `isUploading` during awaits: the channel and server handlers are atomic methods, so their intermediate `isLoading` state is not observable. The submit buttons' `disabled={isLoading}` therefore needs no model. The Save button's and the file input's `disabled` are preconditions: `UpdateServer` requires `CanSave()` and `StartIconUpload` requires `!isUploading`. The icon upload is split into `StartIconUpload` and `FinishIconUpload`, so `isUploading` is visible while the upload runs.
- A change of the `serverId` prop after mount is not modelled: `serverId` is fixed for each dialog instance. Neither is the re-run of the effect.
- Dialog open state of the settings dialogs and the create-server form is a prop. It is not modelled.
- The `ServerMetadata` type is not declared in `src/types/server.ts`. Its shape is taken from the decoder's result.

## Findings

| source | as written | input that shows it | evidently intended | confidence | as-written member | corrected member |
|---|---|---|---|---|---|---|
| src/components/server/ServerSettingsModal.tsx:90 | the realtime handler calls `transformServerMetadata`, which is declared only inside `fetchServer` (line 48) and not imported. Every `UPDATE` payload raises a reference error before `setServer`, so the dialog never reflects updates | an `UPDATE` event for the row while the stored server is null | store the `UPDATE` row with its metadata decoded, as the fetch path does | high; not executed | ServerSettingsModal.AsWrittenIgnoresUpdates | ServerSettingsModal.LastLoadWins |
