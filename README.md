# Screen recorder core, modelled in Dafny

This project models the decision logic of a cross-runtime screen recorder
in Dafny, and proves properties of that model. The recorder has three
pieces:

- **The permission and source broker** of the desktop host process
  (`src-electron/electron-main.ts`), in module `Broker`. It probes whether
  screen capture is permitted. It runs the three-button permission prompt
  and handles the `get-sources`, `get-desktop-capturer-source`,
  `save-video`, `check-screen-permission` and `request-screen-permission`
  requests.
- **The video asset store** (`src/services/capacitorService.ts`), in module
  `VideoStore`. It lists, saves, shares and deletes recordings on a native
  runtime. On a web runtime it falls back to a mock catalog.
- **The platform classification** (`src/composables/usePlatform.ts`), in
  module `Platform`. It derives the UI's runtime flags from the
  framework's five platform booleans.

Module `Wrappers` holds the `Option` and `Result` types. A `Result` is
either a resolved value or a rejection with its error message.

## How the outside world is modelled

- **Broker.** `Broker.HostProcess` holds an `Env` of oracles and a log of
  the calls it has made to the operating system. A call made when the log
  holds n entries is answered by the oracle at n. A
  `desktopCapturer.getSources` call yields `env.capture(n)`: a list of
  sources, or a thrown value. A permission prompt is answered with button
  `env.response(n)`, and a save dialog with `env.saveAnswer(n)`.
  `env.writeFails` says which writes throw. Written files are a map from
  path to bytes.
- **Broker handlers.** Each handler is an imperative method. Its contract
  ties its result and the calls it appends to the log to a pure function
  (`CheckRun`, `PromptRun`, `GetSourcesRun`, `CapturerSourceRun`,
  `SaveVideoRun`). The listed properties are lemmas about those functions.
- **Store.** `VideoStore.CapacitorService` is a class over the
  `isNative` flag and the document filesystem. `docs` maps a path to its
  file (base64 content, size, mtime). `names` is the recordings
  directory's listing in its order. Oracles say which paths fail `stat` or
  `getUri`, what URI a path has, which writes fail, which share requests
  fail, and whether creating the directory fails.
- **Values.** Dates are integer millisecond timestamps. A blob is what
  reading it as a data URL yields. The thumbnail and icon encodings are
  opaque data-URL strings.

On the retry, the model follows the code:

- If the re-probe inside the prompt fails, the prompt returns `false`.
  The request then rejects with the *first* probe's message.
- The "restart the app" message appears only when the handler's own
  follow-up probe fails. That probe runs after the prompt has succeeded.
- So a request answered "I've already done this" makes three probes when
  the prompt's re-probe grants, and two when it denies.

## Model

| member | source | states |
|---|---|---|
| `Platform.IsMobile` | src/composables/usePlatform.ts:5-7 | `isMobile`: the capacitor, cordova or mobile flag is raised |
| `Platform.IsDesktop` | src/composables/usePlatform.ts:9-11 | `isDesktop`: the electron or desktop flag is raised |
| `Platform.IsWeb` | src/composables/usePlatform.ts:13-15 | `isWeb`: neither mobile nor desktop |
| `Platform.IsCapacitor` | src/composables/usePlatform.ts:17-19 | `isCapacitor`: the capacitor flag |
| `Platform.IsElectron` | src/composables/usePlatform.ts:21-23 | `isElectron`: the electron flag |
| `Platform.ShouldShowMobileUI` | src/composables/usePlatform.ts:34-36 | `shouldShowMobileUI`: mobile, or the capacitor flag |
| `Platform.ShouldShowDesktopUI` | src/composables/usePlatform.ts:38-40 | `shouldShowDesktopUI`: desktop, or the electron flag |
| `Platform.PlatformName` | src/composables/usePlatform.ts:25-32 | the name is one of the six known platform names |
| `Platform.PlatformNameFirstMatch` | src/composables/usePlatform.ts:25-32 | each name is chosen exactly when its flag is the first raised in the order capacitor, electron, cordova, mobile, desktop |
| `Platform.PlatformNameWebIffIsWeb` | src/composables/usePlatform.ts:13-32 | the name is `web` exactly when the runtime is web |
| `Platform.PlatformNameAgreesWithClass` | src/composables/usePlatform.ts:5-32 | mobile names only on mobile runtimes, desktop names only on desktop runtimes |
| `Platform.UISwitchesEqualClasses` | src/composables/usePlatform.ts:34-40 | `shouldShowMobileUI` equals `isMobile` and `shouldShowDesktopUI` equals `isDesktop` |
| `Broker.MessageOr` | src-electron/electron-main.ts:136 | JavaScript's `or` on an optional message: the message when present and non-empty, else the fallback |
| `Broker.Verdict` | src-electron/electron-main.ts:82-95 | the check's answer for one probe outcome: granted for a non-empty list, else the message of the cause |
| `Broker.CheckRun` | src-electron/electron-main.ts:69-97 | `checkScreenRecordingPermission`: no call off `darwin`, else one probe and its verdict |
| `Broker.PromptRun` | src-electron/electron-main.ts:100-124 | `promptForScreenRecordingPermission`: the dialog, then the settings link, a re-check or a refusal by button |
| `Broker.GetSourcesRun` | src-electron/electron-main.ts:126-163 | the `get-sources` handler: first probe, then the enumeration or the prompted branch |
| `Broker.PromptedRun` | src-electron/electron-main.ts:131-143 | after a denied first probe: the prompt, a rejection with the first message, or the follow-up probe |
| `Broker.RecheckedRun` | src-electron/electron-main.ts:138-150 | after a successful prompt: the follow-up probe, then the restart guidance or the enumeration |
| `Broker.EnumerateRun` | src-electron/electron-main.ts:145-162 | one enumeration: the mapped records, or the prefixed error message (`Unknown error` for a non-Error) |
| `Broker.ToRecord` | src-electron/electron-main.ts:151-157 | one source's record: id, name, thumbnail data URL, display id, optional icon data URL |
| `Broker.CapturerSourceRun` | src-electron/electron-main.ts:166-179 | the `get-desktop-capturer-source` handler: the id after a granting check, else the fixed denial |
| `Broker.SaveVideoRun` | src-electron/electron-main.ts:182-203 | the `save-video` handler: dialog, then write to a non-empty path, null on cancel, the fixed message on failure |
| `Broker.ToRecords` | src-electron/electron-main.ts:152-158 | same length and order as the sources; id, name, display id and thumbnail copied; icon absent exactly when the source has none |
| `Broker.VerdictCases` | src-electron/electron-main.ts:76-96 | granted exactly when the probe lists a source; a denial always carries the message of its cause (empty list, or thrown error) |
| `Broker.UngatedPlatformGrants` | src-electron/electron-main.ts:69-101 | off `darwin` the check grants with no message and no probe, and the prompt returns true without a dialog |
| `Broker.CheckDependsOnlyOnProbe` | src-electron/electron-main.ts:74-96 | on `darwin` the check makes one probe and its result depends only on that probe's outcome |
| `Broker.PromptByButton` | src-electron/electron-main.ts:103-123 | one dialog; button 0 opens the settings link and fails, button 2 returns one re-probe's result, any other answer fails |
| `Broker.SettingsOpenedOnlyByButtonZero` | src-electron/electron-main.ts:113-116 | the deep link is opened exactly when button 0 is pressed on `darwin` |
| `Broker.PromptEffectsNoEnumerate` | src-electron/electron-main.ts:100-124 | a prompt shows at most one dialog, makes at most one probe and never enumerates |
| `Broker.RejectedPromptKeepsFirstMessage` | src-electron/electron-main.ts:130-137 | first probe denied and prompt false: reject with the prefix and the first probe's message, no enumeration |
| `Broker.FollowUpDenialAsksForRestart` | src-electron/electron-main.ts:139-143 | prompt true but follow-up probe denied: reject with the prefix and the restart guidance |
| `Broker.RetryThenGranted` | src-electron/electron-main.ts:130-150 | denied, button 2, two granting probes: exactly probe, prompt, probe, probe, enumeration, then the enumeration's result |
| `Broker.RetryThenDenied` | src-electron/electron-main.ts:117-136 | denied, button 2, denying re-probe: exactly probe, prompt, probe, then a rejection with the first probe's message |
| `Broker.GetSourcesBounded` | src-electron/electron-main.ts:127-163 | one request makes at most three probes, one dialog, one enumeration and five calls in all |
| `Broker.GrantedGoesStraightToEnumeration` | src-electron/electron-main.ts:130-158 | a granting first probe leads to the enumeration with no dialog, so no permission rejection |
| `Broker.SuccessOnlyAfterGrant` | src-electron/electron-main.ts:127-158 | a resolved list only follows a granting check (first probe, or follow-up after a successful prompt) |
| `Broker.EnumerationMapsSources` | src-electron/electron-main.ts:146-158 | a listed enumeration resolves with each source mapped to its record, in order |
| `Broker.CapturerSourceGate` | src-electron/electron-main.ts:166-178 | echoes the source id exactly when permission is granted, else rejects with the fixed denial |
| `Broker.SaveVideoOutcomes` | src-electron/electron-main.ts:182-202 | a chosen path gets the bytes verbatim and is returned; a cancel returns null and writes nothing; a failing dialog or a failing write rejects with the fixed message, and every rejection carries it; in the model a failure leaves the files unchanged |
| `Broker.HostProcess.CheckPermission` | src-electron/electron-main.ts:69-97 | result and calls made are those of `CheckRun` |
| `Broker.HostProcess.PromptForPermission` | src-electron/electron-main.ts:100-124 | result and calls made are those of `PromptRun` |
| `Broker.HostProcess.GetSources` | src-electron/electron-main.ts:127-163 | result and calls made are those of `GetSourcesRun` |
| `Broker.HostProcess.Prompted` | src-electron/electron-main.ts:130-150 | result and calls made are those of `PromptedRun`, the branch after a denied first probe |
| `Broker.HostProcess.Rechecked` | src-electron/electron-main.ts:139-150 | result and calls made are those of `RecheckedRun`, the follow-up probe and what follows it |
| `Broker.HostProcess.Enumeration` | src-electron/electron-main.ts:146-162 | result and calls made are those of `EnumerateRun`, one enumeration and its mapping or error |
| `Broker.HostProcess.GetDesktopCapturerSource` | src-electron/electron-main.ts:166-179 | result and calls made are those of `CapturerSourceRun` |
| `Broker.HostProcess.SaveVideo` | src-electron/electron-main.ts:182-203 | one save dialog; result and files written are those of `SaveVideoRun` |
| `Broker.HostProcess.HandleCheckScreenPermission` | src-electron/electron-main.ts:213-215 | returns the permission check's result |
| `Broker.HostProcess.HandleRequestScreenPermission` | src-electron/electron-main.ts:218-220 | returns the prompt's result |
| `VideoStore.PathOf` | src/services/capacitorService.ts:76 | the path of a directory entry: `scouter-videos/<name>` |
| `VideoStore.AssetOf` | src/services/capacitorService.ts:85-93 | one listed asset: id and name the entry's name, the URI, the stat size, duration 0, the mtime, the entry's path |
| `VideoStore.IsVideoName` | src/services/capacitorService.ts:73 | the name ends in `.webm` or `.mp4` |
| `VideoStore.Collect` | src/services/capacitorService.ts:70-98 | the assets the listing loop pushes, entry by entry in directory order |
| `VideoStore.Insert` | src/services/capacitorService.ts:100 | places an asset before the first one that is not newer |
| `VideoStore.SortNewestFirst` | src/services/capacitorService.ts:100 | insertion sort of the assets by date, newest first |
| `VideoStore.Listing` | src/services/capacitorService.ts:70-100 | the collected assets, sorted newest first |
| `VideoStore.Fields` | src/services/capacitorService.ts:224 | `split(',')`: the comma-separated fields, at least one |
| `VideoStore.BlobToBase64` | src/services/capacitorService.ts:222-229 | as written: the second field, rejected when missing or empty |
| `VideoStore.PayloadOf` | src/services/capacitorService.ts:222-229 | as intended: the last field, rejected when missing or empty |
| `VideoStore.Without` | src/services/capacitorService.ts:166-169 | the directory entries left after deleting a path, in order |
| `VideoStore.CollectSound` | src/services/capacitorService.ts:72-96 | every pushed asset comes from a directory entry with a video extension whose stat and URI succeeded, and is built from them |
| `VideoStore.CollectComplete` | src/services/capacitorService.ts:72-98 | every qualifying entry is pushed even when other entries fail |
| `VideoStore.CollectDistinct` | src/services/capacitorService.ts:85-87 | distinct directory entries give assets with distinct names and ids |
| `VideoStore.SortNewestFirstCorrect` | src/services/capacitorService.ts:100 | the sort orders by date, newest first, and is a permutation of its input |
| `VideoStore.ListingCorrect` | src/services/capacitorService.ts:70-100 | the native listing is newest first and has distinct ids; each entry has `id == name`, the directory path, duration 0, and the stat size, mtime and URI; each qualifying entry appears |
| `VideoStore.MockVideoFiles` | src/services/capacitorService.ts:239-268 | exactly three entries, ids 1, 2, 3, sizes 15728640, 8388608, 25165824, dates newest first |
| `VideoStore.NoCommaNoPayload` | src/services/capacitorService.ts:224-228 | a data URL without a comma is rejected |
| `VideoStore.PayloadIsSecondField` | src/services/capacitorService.ts:222-229 | the payload is the text between the first and the next comma, rejected exactly when empty |
| `VideoStore.DataUrlRoundTrip` | src/services/capacitorService.ts:218-233 | for a type without commas and a non-empty payload without commas, the payload of `data:<type>;base64,<data>` is `<data>` |
| `VideoStore.CommaInTypeTakesWrongField` | src/services/capacitorService.ts:222-229 | as written, a type `a,b` yields `b;base64` instead of the payload |
| `VideoStore.CodecsTypeLosesPayload` | src/services/capacitorService.ts:222-229 | `data:video/webm;codecs=vp8,opus;base64,AAAA` yields `opus;base64` as written and `AAAA` as intended |
| `VideoStore.PayloadRoundTrip` | src/services/capacitorService.ts:223-226 | whatever the type, the intended extraction returns a non-empty payload without commas |
| `VideoStore.PayloadAgreesWhenTypeHasNoComma` | src/services/capacitorService.ts:222-229 | with a comma-free type and a non-empty comma-free payload, the intended and the as-written extraction agree |
| `VideoStore.WithoutCorrect` | src/services/capacitorService.ts:166-169 | deleting a path removes exactly the entry at that path from the listing and keeps entries distinct |
| `VideoStore.CapacitorService.InitializeVideoDirectory` | src/services/capacitorService.ts:37-51 | on a native runtime the directory exists afterwards unless creating it failed; a failure is swallowed |
| `VideoStore.CapacitorService.GetVideoFiles` | src/services/capacitorService.ts:56-105 | mock catalog off native; on native, the sorted listing, or "Failed to load video files" when the directory cannot be read |
| `VideoStore.CapacitorService.SaveVideoFile` | src/services/capacitorService.ts:110-134 | off native rejects and changes nothing; on native writes the payload `split(',')[1]` only to `scouter-videos/<f>` and returns it, or rejects with "Failed to save video file" and, in the model, leaves the files and the listing unchanged (the directory may have been created) |
| `VideoStore.CapacitorService.ShareVideo` | src/services/capacitorService.ts:139-155 | off native rejects without sharing; on native hands the fixed title and text with the name and URL to the share sheet, and wraps a failure |
| `VideoStore.CapacitorService.DeleteVideo` | src/services/capacitorService.ts:160-174 | off native rejects and changes nothing; on native removes only the file's path, or rejects with "Failed to delete video" when there is no such file |
| `VideoStore.CapacitorService.ShowConfirmDialog` | src/services/capacitorService.ts:179-194 | resolves true exactly when the dialog answered yes; a failing native dialog resolves false |
| `VideoStore.CapacitorService.ShowAlert` | src/services/capacitorService.ts:199-213 | resolves whether or not the native dialog fails (the failure is swallowed); the browser alert off native, the native alert on native |
| `VideoStore.CapacitorService.GetPlatformInfo` | src/services/capacitorService.ts:274-280 | `isWeb` is the negation of `isNative` |
| `VideoStore.CapacitorService.SaveThenList` | src/services/capacitorService.ts:56-134 | after a successful save of a video file whose stat succeeds, the listing has an asset named after it at `scouter-videos/<f>` |

## Left out

- Window creation, the Content-Security-Policy headers, the devtools hooks, the app lifecycle events and the certificate-error handler (src-electron/electron-main.ts:12-66, 222-256): Electron plumbing with no decision logic.
- The `show-error-dialog` handler (src-electron/electron-main.ts:206-210): a pass-through to the native error box.
- The native APIs (`desktopCapturer`, `dialog`, `shell`, `fs`, `Filesystem`, `Share`, `Dialog`, `confirm`, `alert`): their behaviour is not visible, so they are oracles and parameters.
- The options passed to `getSources`: the model only tells the 1x1 screen probe from the full window-and-screen enumeration.
- Failures of the permission message box and of `shell.openExternal`: the model assumes both succeed.
- `Date.now()` in the save dialog's default file name, the dialog filters and the button labels: UI text with no effect on the result.
- `console` logging, the singleton `getInstance`, and the asynchronous scheduling of `FileReader` and the IPC channel.
- Concurrent requests and same-file write races: concurrency is out of scope.
- The mock catalog's dates: the source builds them in local time. The model uses the UTC timestamps of the same wall-clock times. Every entry shifts by the same offset, so the order is unchanged.
- `SortNewestFirst`: the model proves the newest-first order and the permutation, not the stability of the source's `sort` on equal dates.
- `VideoStore.CapacitorService.SaveVideoFile`: a file name containing `/` is treated as a plain directory entry. The size of a written file is computed from its base64 length. A failed write is modelled as leaving the files unchanged, although a real write may fail after creating or truncating the file.
- `Broker.SaveVideoOutcomes`: a failed write is modelled as leaving the files unchanged. `fs.writeFileSync` opens the file for writing, which truncates it, before it writes, so a failure can leave a truncated file at the chosen path.
- `Broker.HostProcess.SaveVideo`: the same simplification of a failed write as `Broker.SaveVideoOutcomes`.
- `VideoStore.CapacitorService.DeleteVideo`: deletion fails only when the file is missing. Other filesystem errors are not modelled.
- `VideoStore.CapacitorService.GetVideoFiles`: reading the directory fails only when it does not exist.
- `isCapacitor` and `isElectron` are modelled as the bare flags, with no lemma of their own.
- `quasar.config.ts` (build configuration) and `src/router/routes.ts` (a route table matched by the router library, which is not part of this model).

## Findings

| source | as written | input that shows it | evidently intended | confidence | as-written member | corrected member |
|---|---|---|---|---|---|---|
| src/services/capacitorService.ts:224 | `result.split(',')[1]` takes the second comma-separated field of the data URL | a blob of type `video/webm;codecs=vp8,opus` read as `data:video/webm;codecs=vp8,opus;base64,AAAA` yields `opus;base64` | the base64 data after the URL's header, as the comment on line 223 says; it is the last field, since base64 has no comma | not executed; low, since whether a blob type with a comma reaches this code depends on the recorder, which is not part of this model | `VideoStore.CommaInTypeTakesWrongField` | `VideoStore.PayloadRoundTrip` |

`VideoStore.CapacitorService.SaveVideoFile` follows the code as written and extracts the payload with `BlobToBase64`. `VideoStore.PayloadOf` is the corrected extraction, and `VideoStore.PayloadAgreesWhenTypeHasNoComma` shows that the two agree whenever the media type has no comma.
