# Dictée arabe — a verified model of its core logic

Dictée arabe is a Next.js application for Arabic dictation exercises.
Administrators record or upload an audio file, tag it as a single letter
(`Lettre`, one of 28 Arabic letters) or as a text (`Texte`, with a difficulty
of `Facile`, `Moyen` or `Difficile`), and store it. Learners play it back.
This project models in Dafny the logic behind six parts of that application
and proves properties about it:

- **the dictation record** (`Schema`, `DictationForm`, `AdminPage`). The form
  schema is a discriminated union on the type tag, with an audio-file check
  that is relaxed when the edited record keeps its existing audio. The form
  builds the stored record and chooses which audio URL it carries. Submitting
  goes through the signed-in check, the upload and the write. The letter grid
  highlights selected letters. The admin page has its own add-only form, which
  resets after a successful add.
- **the audio player** (`AudioPlayer`). A React component drives a waveform
  engine. The model replaces the engine by a log of the calls made to it
  (`Engines.calls`) and reads from that log which engines are alive and which
  listeners they hold. On top of that it proves that the player's handle
  always names the one live engine with all five listeners, that teardown
  always clears the handle, and that a rebuild leaves no engine alive but the
  new one.
- **the recorder** (`AudioRecorder`). It covers elapsed recording time taken
  from a start timestamp, the record-start and record-end handlers, upload
  acceptance by MIME type, delete, play/pause and the `MM:SS` clock. It also
  covers which controls are shown in which state.
- **the route guard** (`Middleware`). A request either passes or is
  redirected to `/signin?callbackUrl=…`. The decision depends on exact route
  membership and on whether a `session` cookie is present. It applies only to
  the paths the matcher selects.
- **the text-to-speech endpoint** (`GenerateAudio`). It checks its inputs in a
  fixed order. It rewrites Arabic text before sending it: a space after each
  diacritic, whitespace runs collapsed to `" . "`, a final full stop if
  needed, and a trailing space. It fills in default request parameters and
  maps errors to HTTP status codes.
- **the flash message** (`Flash`). A single cell that is shown and hidden;
  hiding keeps its message and type.

`Wrappers`, `Decimal`, `TimeFormat` and `Media` hold the shared values:
`Option`/`Result`, decimal rendering of numbers, `padStart` and the `MM:SS`
clock, and the audio-file limits.

Everything outside the JavaScript process is a parameter of the operation
that uses it:

- the clock, as the `millis`/`now` readings;
- the signed-in user, as `signedIn`;
- storage upload and download URL, as `storage: string -> Option<string>`,
  where `None` means the call threw;
- the database write, as `writeOk`;
- the speech service, as `speech`;
- `encodeURIComponent`, as `encode`;
- the microphone, as `Microphone`;
- engine faults, as `DestroyFault`, `unThrows`, `loadThrows` and `pauseThrows`.

Where the code and its design description disagree, the model follows the
code:

- `playbackRate` is in the dependency list of the player's setup effect
  (app/components/AudioPlayer.jsx:165). A rate change therefore tears the
  engine down and builds a new one. The new rate is not just applied to the
  live engine. `AudioPlayer.RateChangeWhilePlaying` shows that `isPlaying`
  stays `true` across that rebuild, although the new engine has not started.
- The recorder's upload check looks at the MIME type only. The 10 MB limit is
  enforced later by the form schema (`DictationForm.RecorderLeavesSizeToForm`).

## Model

| member | source | states |
|---|---|---|
| Schema.IndexOf | app/components/DictationForm.jsx:148 | `indexOf`: -1 exactly when the letter is absent, otherwise the first position holding it |
| Schema.LettersDistinct | app/components/DictationForm.jsx:14 | the letter list has 28 entries, pairwise distinct |
| Schema.LetterIndexRoundTrip | app/components/DictationForm.jsx:14 | `indexOf(arabicLetters[i]) == i` for every i < 28 |
| Schema.ParseKind | app/components/DictationForm.jsx:32-34 | the type enum accepts exactly `Lettre` and `Texte`; a parsed kind has that tag as its name |
| Schema.ParseDifficulty | app/components/DictationForm.jsx:57-59 | the difficulty enum accepts exactly the three levels; a parsed level has that name |
| Schema.KindNameRoundTrip | app/components/DictationForm.jsx:32-34 | parsing a kind's name gives the kind back |
| Schema.DifficultyNameRoundTrip | app/components/DictationForm.jsx:57-59 | parsing a level's name gives the level back |
| Schema.AudioIssuesExact | app/components/DictationForm.jsx:16-27 | the audio field raises no issue iff it is a file within 10,000,000 bytes with one of the four MIME types, or, when existing audio is kept, iff it is absent or a file |
| Schema.ValidateAccepts | app/components/DictationForm.jsx:29-63 | the schema accepts iff the tag is a kind, the audio is acceptable, the content is non-empty and the variant's own field is valid |
| Schema.ValidateOutput | app/components/DictationForm.jsx:29-63 | accepted values carry the input's kind, content, file, and the letter from the list or the level |
| Schema.ValidateErrors | app/components/DictationForm.jsx:29-63 | an unknown tag reports only the type error; otherwise each error is reported iff its own rule fails, the size and MIME errors only without existing audio |
| Schema.SizeBoundary | app/components/DictationForm.jsx:20-26 | 10,000,000 and 9,999,999 bytes pass, 10,000,001 fails with the size error only, a bad type fails with the type error, both together report both |
| Schema.ExistingAudioRelaxed | app/components/DictationForm.jsx:16-19 | with existing audio any file or none is accepted and acceptance does not depend on the file; without it an absent file is refused |
| Schema.BuildShape | app/components/DictationForm.jsx:142-152 | the record carries the URL, content and time stamp; `Lettre` records have the form's letter and its index and no difficulty, `Texte` records the form's difficulty and no letter or index |
| Schema.ValidatedLetterIndex | app/components/DictationForm.jsx:146-149 | for validated values the stored letter is the selected one and its index lies in 0..27 and points back at it |
| Schema.UploadPathRoundTrip | app/components/DictationForm.jsx:137 | the path `dictations/<millis>_<name>` determines both the time stamp and the file name |
| DictationForm.PrefilledRevalidates | app/components/DictationForm.jsx:89-116 | a stored record with an audio URL, loaded into the form for editing, passes the schema unchanged and yields its own kind, content and choice |
| DictationForm.HighlightIsPrefix | app/components/DictationForm.jsx:269 | the highlighted letters are exactly those whose index is at most the selected index, a prefix of the alphabet; nothing is highlighted before a selection |
| DictationForm.Attempt | app/components/DictationForm.jsx:126-170 | a new file is uploaded to its timestamped path exactly when the user is signed in and the form holds one; the write happens exactly on success, which needs a user, a working write and, for a new file, a download URL; an edit updates the record by its id and an add adds one; the stored URL is the new file's or else the record's old one, and the letter or the difficulty is the form's; the notice is the error one on failure, else the updated or added one |
| DictationForm.SubmissionNeedsValidation | app/components/DictationForm.jsx:89 | nothing is sent unless the schema for the current audio mode accepts the values, and a refusal reports exactly the schema's errors |
| DictationForm.SubmissionNotices | app/components/DictationForm.jsx:131-169 | a write happens iff the attempt succeeds, which needs a signed-in user and a working write; without a user nothing is uploaded or written; the notice is the update or add message on success and the error message otherwise |
| DictationForm.WrittenAudioUrl | app/components/DictationForm.jsx:134-140 | a written record always has an audio URL; a new file is uploaded to its timestamped path and its URL is stored; otherwise the initial record's URL is kept |
| DictationForm.WrittenRecord | app/components/DictationForm.jsx:142-161 | an edit updates the initial record's id and an add adds; both stamp `createdAt` with the submission time; kind, content, letter and index come from the form, and a `Texte` record's difficulty is the one selected |
| DictationForm.RecorderLeavesSizeToForm | app/components/AudioRecorder.jsx:127 | an oversized file of an allowed type passes the recorder's upload check and is refused by the schema with the size error only |
| DictationForm.Form.constructor | app/components/DictationForm.jsx:65-116 | the defaults overwritten by the prefill effect, the selected index of a stored letter, and an idle form |
| DictationForm.Form.HandleEditAudio | app/components/DictationForm.jsx:72-74 | editing the audio switches the schema to require a new file |
| DictationForm.Form.CancelEditAudio | app/components/DictationForm.jsx:76-79 | cancelling clears the audio field and restores the relaxed schema iff the initial record has an audio URL |
| DictationForm.Form.OnAudioChange | app/components/DictationForm.jsx:199-204 | the recorder's file, or null, becomes the audio field's value |
| DictationForm.Form.SetKind | app/components/DictationForm.jsx:236-238 | the type select changes the tag only when no initial record is edited |
| DictationForm.Form.SetContent | app/components/DictationForm.jsx:315-320 | the text area sets the content |
| DictationForm.Form.SelectLetter | app/components/DictationForm.jsx:263-272 | a letter button sets the letter and its index, and highlights exactly the letters up to it |
| DictationForm.Form.SelectDifficulty | app/components/DictationForm.jsx:294 | a level button sets the difficulty to that level's name |
| DictationForm.Form.ResetForm | app/components/DictationForm.jsx:120-124 | the defaults come back, the validation errors and the file name are cleared and the recorder key increases by one; the submitting and audio-editing flags, the upload and write logs and the success count are unchanged |
| DictationForm.Form.Submit | app/components/DictationForm.jsx:126-170 | the schema then `onSubmit`: the errors, uploads, writes, flash message and success callback count follow the submission outcome; the values are kept |
| DictationForm.Form.OnSubmit | app/components/DictationForm.jsx:126-170 | the upload, the write, the flash message with its type, and the success callback follow the attempt; `isSubmitting` ends false |
| AdminPage.AdminAudioAlwaysRequired | app/admin/page.jsx:15-21 | an accepted admin form always holds a file within 10,000,000 bytes with an allowed type, and that file is the one submitted |
| AdminPage.EmptyPageRefused | app/admin/page.jsx:32-54 | the untouched page is refused with the type error only; with a type chosen it is refused with the missing-file error among others |
| AdminPage.AdminAttempt | app/admin/page.jsx:88-122 | the file is uploaded to its timestamped path exactly when the user is signed in and a file is held; the add happens exactly when there is a user, a file, a download URL and a working write, and it stores that URL with the form's type, content, letter or difficulty and time; the alert is the success one exactly then, else the error one |
| AdminPage.AdminWrites | app/admin/page.jsx:88-122 | refused iff the schema refuses; a signed-in user uploads the file to its timestamped path; the add happens iff the user is signed in and upload and write work; a success stores the upload's URL, the submission time and the submitted type, content, letter or difficulty; the alert matches the outcome |
| AdminPage.SameRecordAsAddForm | app/admin/page.jsx:101-111 | for the same values the admin page and the dictation form in add mode refuse alike, upload to the same path and write the same record |
| AdminPage.AdminForm.constructor | app/admin/page.jsx:56-78 | the default values with no type, every counter at zero |
| AdminPage.AdminForm.OnAudioChange | app/admin/page.jsx:146-149 | the field takes the file or null, and the shown name is the file's name or empty |
| AdminPage.AdminForm.SetKind | app/admin/page.jsx:167-183 | the select sets the type tag |
| AdminPage.AdminForm.SetContent | app/admin/page.jsx:250-253 | the text area sets the content |
| AdminPage.AdminForm.SelectLetter | app/admin/page.jsx:195-207 | a letter button sets the letter and its index, and highlights exactly the letters up to it |
| AdminPage.AdminForm.SelectDifficulty | app/admin/page.jsx:225-229 | a level button sets the difficulty |
| AdminPage.AdminForm.ResetForm | app/admin/page.jsx:82-86 | the defaults come back, the validation errors and the file name are cleared and the recorder key increases by one; the alerts, uploads, writes and submitting flag are unchanged |
| AdminPage.AdminForm.Submit | app/admin/page.jsx:88-122 | the schema then `onSubmit`; only a successful add resets the form and increases the key; a failure keeps the values |
| AdminPage.AdminForm.OnSubmit | app/admin/page.jsx:88-122 | the upload, the add, the reset and the alert follow the attempt; `isSubmitting` ends false on every path |
| AudioPlayer.Trunc | app/components/AudioPlayer.jsx:198 | the integer toward zero: less than one away from the argument, never past it on the side away from zero |
| AudioPlayer.JsRemainderSpec | app/components/AudioPlayer.jsx:198 | JavaScript `%`: the dividend is the divisor times the truncated quotient plus the remainder, which is smaller than the divisor in magnitude and is zero or has the dividend's sign |
| AudioPlayer.FormatTimeIsClock | app/components/AudioPlayer.jsx:196-200 | for t ≥ 0 the label is the `MM:SS` clock of ⌊t⌋ div 60 and ⌊t⌋ mod 60, it parses back to those two numbers, and the seconds are below 60 |
| AudioPlayer.Engines.constructor | app/components/AudioPlayer.jsx:13 | no engine has been created |
| AudioPlayer.Engines.Emit | app/components/AudioPlayer.jsx:70-164 | one call is appended to the log and moves every engine's liveness and listeners by one step |
| AudioPlayer.Engines.CreateEngine | app/components/AudioPlayer.jsx:70-80 | a fresh engine is created alive with no listeners and leaves every other engine as it was |
| AudioPlayer.Engines.Listen | app/components/AudioPlayer.jsx:131-135 | the five `on` calls attach all five events to that engine only |
| AudioPlayer.Engines.Unlisten | app/components/AudioPlayer.jsx:152-158 | the five `un` calls detach all five events from that engine only |
| AudioPlayer.Player.constructor | app/components/AudioPlayer.jsx:7-15 | initial state (not playing, time 0, rate 1, no loop), then the setup effect's calls for the first engine, with that engine live and fully listened to |
| AudioPlayer.Player.SafelyDestroy | app/components/AudioPlayer.jsx:18-31 | whatever `unAll`, `pause` or `destroy` throws, the handle ends null; the calls made stop where the fault occurs; the engine is dead iff no fault occurred; other engines and all state are untouched |
| AudioPlayer.Player.Setup | app/components/AudioPlayer.jsx:56-142 | the old engine is destroyed, then a new one is created, listened to and loaded (unless loading throws); the handle names it |
| AudioPlayer.Player.Cleanup | app/components/AudioPlayer.jsx:145-164 | the five `un` calls then destruction; if the first `un` throws the rest is skipped and the handle is kept |
| AudioPlayer.Player.Rerun | app/components/AudioPlayer.jsx:56-165 | a dependency change runs cleanup then setup; without faults exactly the old engine's teardown and the new one's setup are logged and no engine but the new one is alive |
| AudioPlayer.Player.SetProps | app/components/AudioPlayer.jsx:165 | new `audio` or `autoPlay` rebuilds the engine; the same props do nothing |
| AudioPlayer.Player.Unmount | app/components/AudioPlayer.jsx:145-164 | without faults no engine is left alive |
| AudioPlayer.Player.StopAudio | app/components/AudioPlayer.jsx:35-46 | with an engine: pause and seek to 0 (skipped if pause throws), then not playing at time 0; without one nothing changes |
| AudioPlayer.Player.DestroyAudio | app/components/AudioPlayer.jsx:47 | the exposed destroy always leaves the handle null; it logs the held engine's destroy calls, that engine is dead unless a call threw, every other engine keeps its liveness, no listener leaks when nothing threw, and every other field is unchanged |
| AudioPlayer.Player.OnReady | app/components/AudioPlayer.jsx:85-98 | the duration comes from the engine, the current rate is applied, and play starts iff `autoPlay`; without an engine nothing happens |
| AudioPlayer.Player.OnAudioprocess | app/components/AudioPlayer.jsx:100-108 | the current time follows the engine's position while an engine exists |
| AudioPlayer.Player.OnPlay | app/components/AudioPlayer.jsx:110 | the play event sets `isPlaying` |
| AudioPlayer.Player.OnPause | app/components/AudioPlayer.jsx:111 | the pause event clears `isPlaying` |
| AudioPlayer.Player.OnFinish | app/components/AudioPlayer.jsx:113-128 | with loop on: seek to 0 and play; with loop off: not playing, time 0, seek to 0; without an engine nothing happens |
| AudioPlayer.Player.HandlePlayPause | app/components/AudioPlayer.jsx:167-179 | pause when playing, play otherwise, nothing without an engine |
| AudioPlayer.Player.ToggleLoop | app/components/AudioPlayer.jsx:51-53 | the loop flag flips and the ref mirrors it |
| AudioPlayer.Player.HandlePlaybackRateChange | app/components/AudioPlayer.jsx:185-194 | the new rate is stored; the same rate is applied to the live engine; a different rate rebuilds the engine through the effect |
| AudioPlayer.ToggleTwice | app/components/AudioPlayer.jsx:181-183 | toggling loop twice restores the flag and its ref |
| AudioPlayer.DestroyTwice | app/components/AudioPlayer.jsx:18-31 | a second destroy makes no engine call and changes nothing: the log holds one destroy sequence, only the held engine dies, no listener leaks, and every field other than the handle is unchanged |
| AudioPlayer.RateChangeWhilePlaying | app/components/AudioPlayer.jsx:165 | a rate change while playing leaves the old engine dead and a new one live with all listeners, while `isPlaying` stays true |
| AudioRecorder.ElapsedBounds | app/components/AudioRecorder.jsx:73 | the elapsed seconds are non-negative and are ⌊(now − start)/1000⌋ |
| AudioRecorder.ElapsedMonotone | app/components/AudioRecorder.jsx:73 | the elapsed seconds never decrease as time goes on |
| AudioRecorder.FormatTimeIsClock | app/components/AudioRecorder.jsx:119-123 | for t ≥ 0 the label is the clock of t div 60 and t mod 60, parses back to them, and the seconds are below 60 |
| AudioRecorder.UploadTypesAreFormTypes | app/components/AudioRecorder.jsx:127 | the upload accepts exactly the four MIME types the form schema allows |
| AudioRecorder.ControlGroups | app/components/AudioRecorder.jsx:191-260 | record and upload show iff idle with no file; stop and the recording clock show iff recording; play and delete show iff a file is held and not recording; exactly one group shows |
| AudioRecorder.Recorder.constructor | app/components/AudioRecorder.jsx:11-26 | initial state; with `reset` set the parent is told the audio is null at mount |
| AudioRecorder.Recorder.ResetTimers | app/components/AudioRecorder.jsx:28-36 | both times and the elapsed ref become 0 and the interval is cleared; nothing else changes |
| AudioRecorder.Recorder.OnRecordStart | app/components/AudioRecorder.jsx:67-77 | timers reset, recording on, the start time stored, a new interval running alone |
| AudioRecorder.Recorder.OnTick | app/components/AudioRecorder.jsx:72-76 | the elapsed seconds since the stored start are recorded and shown |
| AudioRecorder.Recorder.OnRecordEnd | app/components/AudioRecorder.jsx:79-92 | the held file is `recorded_audio.wav` of type `audio/wav`, the parent is told, recording stops, the interval is cleared, and both times show the last elapsed value |
| AudioRecorder.Recorder.HandleFileUpload | app/components/AudioRecorder.jsx:125-144 | an allowed type is held and named, errors clear, timers reset and the parent is told; otherwise the error flag is set, the alert shown and the held file kept |
| AudioRecorder.Recorder.OnUploadMetadata | app/components/AudioRecorder.jsx:135-139 | both times become the floored duration |
| AudioRecorder.Recorder.ToggleRecording | app/components/AudioRecorder.jsx:146-162 | playback is cleared first; starting never sets `isRecording` itself and starts no interval; a refused microphone alerts only for the two permission errors; stopping ends capture, clears the interval and leaves the waveform; the file name, playback time, error flag, start time and timer counter are unchanged |
| AudioRecorder.Recorder.DeleteAudio | app/components/AudioRecorder.jsx:164-179 | no file, empty name, the parent told null, not playing, both times 0, errors cleared, interval cleared |
| AudioRecorder.Recorder.PlayPause | app/components/AudioRecorder.jsx:181-186 | the playing flag flips |
| AudioRecorder.Recorder.OnPlaybackEvent | app/components/AudioRecorder.jsx:95-97 | play sets and pause or finish clears the playing flag |
| AudioRecorder.Recorder.OnAudioprocess | app/components/AudioRecorder.jsx:98-100 | the playback time is the floored engine position |
| AudioRecorder.Recorder.Unmount | app/components/AudioRecorder.jsx:102-110 | no interval is left running |
| AudioRecorder.RecordSession | app/components/AudioRecorder.jsx:67-92 | start, two ticks and an end leave a held WAV recording whose shown times equal the last elapsed value, with the play group shown |
| Middleware.PassIff | middleware.js:7-30 | a request passes iff it has a non-empty `session` cookie or its path is exactly `/`, `/signin` or `/signup` |
| Middleware.RedirectTarget | middleware.js:16-26 | every redirect goes to `<origin>/signin?callbackUrl=` followed by the encoded path and query |
| Middleware.AuthBranchSubsumed | middleware.js:3-27 | no auth route is public, so the decision equals the one made by the public-route branch alone |
| Middleware.ExactMembership | middleware.js:10-22 | `/admin/texts` is not an auth route but is still guarded; an empty cookie counts as none |
| Middleware.HandleRedirectsIff | middleware.js:32-34 | with the matcher: a redirect iff the path is matched, there is no token and the path is not public |
| Middleware.ApiBypassesGuard | middleware.js:33 | paths under `/api` are never redirected |
| Middleware.MatcherExamples | middleware.js:33 | the matcher selects app pages and skips `/api`, `/apiary`, `_next/static` and `favicon.ico` paths, and, its `.` being a wildcard, `/faviconXico` too |
| GenerateAudio.InsertAfter | app/api/generate-audio/route.js:35-37 | inserting spaces keeps the first character and never shortens the text |
| GenerateAudio.InsertAfterNonSpace | app/api/generate-audio/route.js:35-37 | a mark replace adds only whitespace: the non-whitespace characters are kept, in order |
| GenerateAudio.EnhanceKeepsText | app/api/generate-audio/route.js:35-39 | after the two mark replaces and the whitespace replace, reading each `" . "` back as a space leaves exactly the input's non-whitespace characters, in order |
| GenerateAudio.TwoInsertsAsOne | app/api/generate-audio/route.js:35-37 | the vowel replace then the shadda replace equal one replace over all eight marks |
| GenerateAudio.DropSpaces | app/api/generate-audio/route.js:39 | the dropped prefix is all whitespace and what is left starts with a non-space |
| GenerateAudio.EnhanceSeparatesMarks | app/api/generate-audio/route.js:33-43 | every diacritic or shadda in the output is immediately followed by `" . "` |
| GenerateAudio.CollapseRoundTrip | app/api/generate-audio/route.js:39 | undoing the `" . "` rewrite gives the text with each whitespace run reduced to one space |
| GenerateAudio.SquashKeepsText | app/api/generate-audio/route.js:39 | collapsing whitespace keeps the non-space characters in order |
| GenerateAudio.CollapseSingleSpaces | app/api/generate-audio/route.js:39 | after the rewrite no two whitespace characters are adjacent |
| GenerateAudio.EnhanceEnding | app/api/generate-audio/route.js:41-43 | a non-empty text ends in `.`, `!` or `?` followed by one space |
| GenerateAudio.FinalReplaceIsIdentity | app/api/generate-audio/route.js:43-56 | the replace at line 56 never changes the enhanced text |
| GenerateAudio.Or | app/api/generate-audio/route.js:47-50 | JavaScript `\|\|`: the value if truthy, otherwise the fallback; the result is one of the two, and it is truthy iff either is |
| GenerateAudio.MissingKeyFirst | app/api/generate-audio/route.js:12-17 | a missing or empty API key gives 500 before the body is read |
| GenerateAudio.MissingTextIs400 | app/api/generate-audio/route.js:24-29 | a falsy `text` gives 400 with the required-text message |
| GenerateAudio.ParamsShape | app/api/generate-audio/route.js:46-56 | the defaults `tts-1-hd`, `onyx` and 0.8 replace falsy fields; the format is `mp3`; the input is the enhanced text |
| GenerateAudio.StatusMapping | app/api/generate-audio/route.js:73-97 | 401 iff an authentication error, 429 iff a rate-limit error, 503 iff neither and the code is a connection failure, otherwise 500 |
| GenerateAudio.NameBeforeCode | app/api/generate-audio/route.js:73-88 | the name checks come before the code check |
| GenerateAudio.SuccessResponse | app/api/generate-audio/route.js:59-70 | with a key and text, speech audio comes back as `audio/mpeg` with its byte count as length, and a speech failure becomes its mapped status |
| Decimal.Show | app/api/generate-audio/route.js:68 | the decimal text of a number is non-empty digits without a leading zero |
| Decimal.ParseShow | app/api/generate-audio/route.js:68 | the decimal text reads back as the number |
| TimeFormat.PadStart | app/components/AudioPlayer.jsx:199 | `padStart`: the text right-aligned in the width with the fill on the left, never cut |
| TimeFormat.ShowInt | app/components/AudioPlayer.jsx:199 | `toString` of an integer: non-empty, starting with a minus sign exactly when negative |
| TimeFormat.ShowIntReadBack | app/components/AudioPlayer.jsx:199 | the text reads back as the integer: all digits parsing to it when non-negative, else a minus sign and digits parsing to its magnitude |
| TimeFormat.ClockRoundTrip | app/components/AudioRecorder.jsx:122 | the `MM:SS` clock reads back as its minutes and seconds |
| Flash.Hidden | app/contexts/FlashContext.jsx:22-24 | hiding keeps message and type and renders nothing; it changes the state exactly when it was shown |
| Flash.HiddenIdempotent | app/contexts/FlashContext.jsx:22-24 | hiding twice is hiding once |
| Flash.BannerOf | app/contexts/FlashContext.jsx:28-35 | the message is rendered iff `show`, with the state's message and type, from which the shown state is recovered |
| Flash.ShowHideRender | app/contexts/FlashContext.jsx:18-35 | a shown message renders exactly that message and type, a hidden state renders nothing, and two shown states that render alike are equal |
| Flash.FlashProvider.constructor | app/contexts/FlashContext.jsx:12-16 | hidden, empty message, type `success` |
| Flash.FlashProvider.ShowFlash | app/contexts/FlashContext.jsx:18-20 | the state becomes shown with the message and the type, `success` by default |
| Flash.FlashProvider.HideFlash | app/contexts/FlashContext.jsx:22-24 | the state becomes the hidden form of the previous one |
| Flash.HideKeepsMessage | app/contexts/FlashContext.jsx:18-24 | showing an error then hiding keeps the error's message and type and renders nothing |

## Left out

- Firebase I/O: upload, download URL, `addDoc` and `updateDoc` are parameters, `storage` and `writeOk`. The signed-in user is `signedIn`. Cookies are a map in the request.
- The waveform engine's decoding, rendering and audio data. Only the calls the player makes are logged. The engine's own `play`, `pause` and `finish` events arrive as method calls.
- The recorder's engine calls (`empty`, `loadBlob`, `playPause`, `destroy`, `startRecording`, `stopRecording`): only their effect on a `waveform` field and a capturing flag is kept. The microphone's answer is the `Microphone` parameter.
- Timers and clocks: `Date.now()`, `new Date()` and `setInterval` are clock readings passed in as parameters. A running interval is a number in the `running` set; each tick is a call of `OnTick`.
- DictationForm.Attempt: the add branch reads `new Date()` a second time for `createdAt`; the model uses one reading `now` for both.
- `onSuccess` in the dictation form is counted (`successCalls`); what the parent does with it is outside this model.
- The `AbortController` in the player is never used for anything, so aborting is not modelled.
- The early return when the player's container element is missing (app/components/AudioPlayer.jsx:67): the container is always rendered, so setup always creates an engine.
- AudioPlayer.Player.Cleanup: only the first `un` call is modelled as throwing. In the other engine calls (`setPlaybackRate`, `play`, `seekTo`, `getDuration`), a throw, which the source catches and logs, is not modelled.
- Floating point: times are `real`, rates are drawn from the five choices, and `NaN` and infinities are not modelled.
- `encodeURIComponent` is the `encode` parameter. The matcher's regular expression is modelled as a test on the path's prefixes, which is what its lookahead does; paths are taken to contain no newline, which its `.*` would not match.
- Speech-request bodies are decoded JSON values; `request.json()` failing is a `Failure` body. The OpenAI client is the `speech` parameter. `console` logging and the `details` and `type` (the error's name) fields of the 500 answer are not modelled.
- Which message a page displays: the model reports the whole set of issues of a rejected form. The pages show only the first issue of each field, so a file that is both too large and of a wrong type shows only the size message.
- react-hook-form: the resolver is taken to validate with the schema of the current render, that is, with the current `isEditingAudio`. Its per-field revalidation while typing is not modelled.
- DictationForm.Defaults: the default values include a field `indexSelectedLetter` that nothing reads. The grid reads `selectedIndexLetter`, which the model keeps as `selectedIndex` and which is undefined until a letter is chosen or a record is loaded. `resetForm` is defined in the dictation form but never called there; it is modelled anyway.
- app/api/elevenlabs/route.js, the text list page, the learner page, the sign-in page, the auth context and the layout are not part of this model.
