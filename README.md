# VoiceCoach: a verified model of the speaking-coach front end

VoiceCoach is a web application that helps a speaker practise: it generates
speech scripts and slide outlines for a topic, reads a script aloud through a
text-to-speech service, charts the speaking pace of a recorded talk, and shows a
dashboard of averaged speech metrics. This project models the client-side logic
of those pages in Dafny and proves what each piece promises:

- `VoiceOver` (`voice_over.dfy`): the voice-over page. The little-endian WAV
  encoder `pcmToWav` is an imperative method over an `array` of bytes, proved
  to write exactly the canonical 44-byte header followed by the samples. A
  matching WAV reader shows the round trip: the file decodes to the channel
  count, the sample rate and the samples that went in. Also modelled: the copy
  loop of `base64ToArrayBuffer`, the `rate=` extraction from the MIME type, the
  coaching prompt, and the page's submit handler over every kind of reply.
- `PacingChart` (`pacing_chart.dfy`): the pacing chart. It covers `calculateWPM`
  (capped at 300), the points that every transcript entry and pause produce,
  and the in-place insertion sort by time. The sort is proved sorted and a
  permutation of the collected points.
- `ContentGenerator` (`content_generator.dfy`): the script generator. It covers
  the acceptance rule for the service's script, the built-in sample script as
  the fallback, the rendering of a script into headings and paragraphs
  (sections between `". "`), and the page's handlers.
- `PresentationSuggestor` (`presentation_suggestor.dfy`): the slide-outline
  page. It covers the Markdown-like text copied to the clipboard (its exact
  frame after `trim`, and one bullet line per main point) and the page's
  handlers.
- `ScriptDisplay` (`script_display.dfy`): the script card. It covers the word
  count (`split(/\s+/)`), the reading-time estimate at 130 words per minute,
  and the download file name.
- `RegisterForm` (`register_form.dfy`): the registration form. It covers the
  field updates, the password-strength meter and its bars, the confirmation
  indicator, and the submission with its alerts.
- `ScriptInputForm` (`script_input_form.dfy`): the script request form. It
  covers `parseInt` on the typed duration, the clamp to at least one minute,
  and the guard on blank topic or content.
- `Dashboard` (`dashboard.dfy`): the dashboard. It covers the speed and its
  pacing status, the recording bars, the metric tiles, which of the four views
  is shown, and the handling of the dashboard request.
- `AuthUtils` (`auth_utils.dfy`): the session helpers over `localStorage`,
  including the case of running outside a browser.
- `Text` (`text.dfy`): the JavaScript string operations the pages use (`trim`,
  `split`, `join`, `indexOf`, `includes`, `replace`, `toLowerCase`, `||` on
  strings), each with its round-trip or characterising lemmas.

Network replies, clipboard writes, alerts and navigation are parameters or
results of the handlers. A reply is a datatype that also covers a thrown error.
A `class` per page holds the React state that its handlers update.

## Model

| member | source | states |
|---|---|---|
| Text.OrElse | app/dashboard/page.tsx:104 | `a \|\| b` on an optional string: the value when it is present and non-empty, the fallback otherwise |
| Text.IndexOf | app/content-generator/page.tsx:374-376 | `indexOf` gives the first position where the substring occurs, or none when it occurs nowhere |
| Text.IndexOfContains | app/content-generator/page.tsx:374-376 | `indexOf` finds a position exactly when `includes` holds |
| Text.JoinSplit | app/content-generator/page.tsx:372 | joining the pieces of `split(sep)` with `sep` gives the string back |
| Text.SplitPiecesFree | app/content-generator/page.tsx:372 | no piece of `split(sep)` contains the separator |
| Text.SplitJoin | app/presentation-suggestor/page.tsx:217 | splitting at a one-character separator undoes a join of pieces free of it |
| Text.TrimEmpty | app/content-generator/page.tsx:386 | `trim()` is empty exactly when every character is whitespace |
| Text.TrimAround | app/presentation-suggestor/page.tsx:219 | trimming whitespace-framed text with non-space ends gives the core |
| Text.RemoveAll | app/content-generator/page.tsx:382 | `replace(/\./g, '')` leaves no dot, is no longer than its input, and changes nothing without a dot |
| Text.RemoveAllKeeps | app/content-generator/page.tsx:390 | every other character keeps its count |
| Text.RemoveAllAppend | app/content-generator/page.tsx:390 | removal distributes over concatenation, so order is kept |
| Text.ToLower | app/_components/dashboard/script-display.tsx:29 | `toLowerCase()` keeps the length and lowers each character |
| Text.DecimalRoundTrip | app/voice-over/page.tsx:318 | the decimal numeral of `n` reads back as `n` |
| VoiceOver.U16OfLE16 | app/voice-over/page.tsx:69-85 | the two bytes `setUint16(_, v, true)` writes read back as `v` mod 2^16 |
| VoiceOver.U32OfLE32 | app/voice-over/page.tsx:58-91 | the four bytes `setUint32(_, v, true)` writes read back as `v` mod 2^32 |
| VoiceOver.S16RoundTrip | app/voice-over/page.tsx:94-97 | a 16-bit sample written little-endian reads back as the same signed sample |
| VoiceOver.SampleBytesAt | app/voice-over/page.tsx:94-97 | sample `i` sits at bytes `2i` and `2i+1`, little-endian |
| VoiceOver.Int16View | app/voice-over/page.tsx:322 | `new Int16Array(buffer)` succeeds exactly for an even byte count, giving half as many samples |
| VoiceOver.Int16ViewOfSampleBytes | app/voice-over/page.tsx:322 | viewing the bytes of encoded samples as 16-bit values gives the samples back |
| VoiceOver.WriteString | app/voice-over/page.tsx:105-109 | each character code lands at `offset + i`; no other byte changes |
| VoiceOver.SetUint16 | app/voice-over/page.tsx:69-85 | writes the little-endian 16-bit value at the offset and nothing after it |
| VoiceOver.SetUint32 | app/voice-over/page.tsx:58-91 | writes the little-endian 32-bit value at the offset and nothing after it |
| VoiceOver.WriteRiffDescriptor | app/voice-over/page.tsx:57-63 | writes `RIFF`, `36 + dataSize` and `WAVE`, advancing the offset by 12 |
| VoiceOver.WriteFmtChunk | app/voice-over/page.tsx:65-85 | writes the 24-byte `fmt ` sub-chunk: PCM, channels, rate, byte rate, block align, 16 bits |
| VoiceOver.WriteDataChunkHeader | app/voice-over/page.tsx:87-91 | writes `data` and the data size, advancing the offset by 8 |
| VoiceOver.WriteWavHeader | app/voice-over/page.tsx:55-91 | the three header blocks end at byte 44 and hold the canonical header |
| VoiceOver.WriteSamples | app/voice-over/page.tsx:93-97 | each sample is written little-endian at the offset, two bytes apart, after the bytes already written, and nothing else changes |
| VoiceOver.PcmToWav | app/voice-over/page.tsx:42-100 | the buffer is exactly `44 + 2n` bytes and holds the header followed by every sample |
| VoiceOver.WavTags | app/voice-over/page.tsx:58-89 | the file carries `RIFF`, `WAVE`, `fmt ` and `data` at bytes 0, 8, 12 and 36 |
| VoiceOver.WavSizes | app/voice-over/page.tsx:51-91 | the RIFF size field reads `36 + 2n` and the data size field `2n`, each modulo 2^32 |
| VoiceOver.WavFormatFields | app/voice-over/page.tsx:66-85 | the header fields read as format 1, the channels, the rate, the byte rate, the block align and 16 bits |
| VoiceOver.ParseWavFile | app/voice-over/page.tsx:42-100 | reading the encoded file back gives the channels, the rate and the samples |
| VoiceOver.WavSampleAt | app/voice-over/page.tsx:93-97 | the bytes at `44 + 2i` and `45 + 2i` read back as sample `i` |
| VoiceOver.BinaryStringToBytes | app/voice-over/page.tsx:29-37 | every character code of the `atob` string lands in its own byte, unchanged for Latin-1 text |
| VoiceOver.FirstRate | app/voice-over/page.tsx:316 | the first position where `/rate=(\d+)/` matches, or none when it matches nowhere |
| VoiceOver.SampleRateOf | app/voice-over/page.tsx:316-319 | a MIME type carrying `rate=<n>` yields the rate `n` |
| VoiceOver.SampleRateDefault | app/voice-over/page.tsx:317-319 | without `rate=` the rate is 24000 |
| VoiceOver.Prompt | app/voice-over/page.tsx:271-274 | coaching mode wraps the script in the instruction and a closing quote; other modes send it unchanged |
| VoiceOver.SubmitOutcomeAudio | app/voice-over/page.tsx:314-326 | audio is produced only for accepted data, as a mono WAV at the MIME rate holding exactly the decoded samples |
| VoiceOver.SubmitOutcomeRefused | app/voice-over/page.tsx:314-329 | missing data, a missing MIME type or a non-`audio/L16` type fails with the fixed message |
| VoiceOver.Page.constructor | app/voice-over/page.tsx:244-251 | the default script, coaching mode, no audio and no error |
| VoiceOver.Page.HandleSubmit | app/voice-over/page.tsx:262-336 | an empty script does nothing; otherwise the prompt is sent and loading ends with either the WAV or the error text |
| VoiceOver.Page.HandleReset | app/voice-over/page.tsx:338-341 | the audio and the error are cleared |
| PacingChart.CalculateWpm | components/PacingChart.tsx:26-32 | the speed is in [0, 300]: 0 for a non-positive duration, otherwise `60 / duration` or the cap |
| PacingChart.CalculateWpmCap | components/PacingChart.tsx:26-32 | durations up to 0.2 s hit the cap, longer ones give exactly `60 / duration` |
| PacingChart.WordKind | components/PacingChart.tsx:47 | `Filler` exactly for filler words, `Word (followed by pause)` exactly for other pause-tagged words |
| PacingChart.EntryPointsCount | components/PacingChart.tsx:38-95 | each entry gives two to four points, and exactly two without a pause tag |
| PacingChart.EmitLength | components/PacingChart.tsx:38-95 | `n` entries give between `2n` and `4n` points, and exactly `2n` without pauses |
| PacingChart.EmittedWellFormed | components/PacingChart.tsx:50-93 | every speed lies in [0, 300], and every pause point has speed 0 |
| PacingChart.EmittedWordPoints | components/PacingChart.tsx:50-63 | every entry contributes points at its start and at start plus duration, at its capped speed |
| PacingChart.EmittedPausePoint | components/PacingChart.tsx:66-73 | a pause-tagged entry contributes a zero-speed `[Pause]` point 0.01 s after it ends |
| PacingChart.EmittedPauseEndBeforeNext | components/PacingChart.tsx:75-85 | a pause ends 0.01 s before a next word that starts later than the pause point |
| PacingChart.EmittedPauseEndLast | components/PacingChart.tsx:86-93 | a pause on the last word ends half a second after it |
| PacingChart.NoPauseEnd | components/PacingChart.tsx:75-93 | before a word starting at 0 or too early, no pause-end point is added |
| PacingChart.PushEntryPoints | components/PacingChart.tsx:38-95 | the callback appends exactly the entry's points |
| PacingChart.PushPausePoints | components/PacingChart.tsx:66-73 | the pause branch appends its zero-speed `[Pause]` point |
| PacingChart.CollectPoints | components/PacingChart.tsx:38-95 | the `forEach` loop collects exactly the specified points in transcript order |
| PacingChart.InsertLast | components/PacingChart.tsx:98 | one insertion step extends the sorted prefix by one and permutes the array |
| PacingChart.SortByTime | components/PacingChart.tsx:98 | sorting in place leaves the points ordered by time, as a permutation |
| PacingChart.ChartData | components/PacingChart.tsx:38-98 | the chart data is the collected points, sorted by time, with nothing lost or added |
| ContentGenerator.RenderSectionSpec | app/content-generator/page.tsx:372-396 | a heading exactly for a section naming a part, nothing exactly for a blank non-heading section, and text without dots |
| ContentGenerator.RenderSectionsAppend | app/content-generator/page.tsx:372-396 | rendering keeps the sections' order |
| ContentGenerator.RenderSectionsBlocks | app/content-generator/page.tsx:372-396 | at most one block per section, none containing a dot |
| ContentGenerator.RenderScriptSpec | app/content-generator/page.tsx:372-396 | the sections rejoin to the script, hold no `". "`, and render to at most one dot-free block each |
| ContentGenerator.Page.constructor | app/content-generator/page.tsx:145-154 | an empty topic, a time limit of `5`, the `Informative` tone, nothing generated or selected |
| ContentGenerator.Page.FetchPastScripts | app/content-generator/page.tsx:157-171 | the list is replaced only by a reply carrying `contents`; loading ends either way |
| ContentGenerator.Page.HandleSubmit | app/content-generator/page.tsx:178-210 | an incomplete form does nothing; otherwise the accepted script is shown with its metadata, and any other reply shows the sample script |
| ContentGenerator.Page.HandleReset | app/content-generator/page.tsx:212-218 | the script and metadata are cleared and the form is restored |
| ContentGenerator.Page.ViewScript | app/content-generator/page.tsx:220-223 | the modal opens on the selected script and renders its content |
| ContentGenerator.Page.CloseModal | app/content-generator/page.tsx:225-228 | the modal closes and renders nothing |
| PresentationSuggestor.PointsLines | app/presentation-suggestor/page.tsx:204-206 | the bullet list splits back into one `  - ` line per main point, in order |
| PresentationSuggestor.SlideBlockFrame | app/presentation-suggestor/page.tsx:207-215 | a slide block opens with a newline and `## ` plus the title, and closes with the separator line |
| PresentationSuggestor.OutlineFrame | app/presentation-suggestor/page.tsx:217 | the joined outline opens like its first block and closes like its last |
| PresentationSuggestor.TrimOutline | app/presentation-suggestor/page.tsx:219 | trimming drops exactly the leading newline and the trailing newline and indentation |
| PresentationSuggestor.CopiedTextShape | app/presentation-suggestor/page.tsx:199-222 | the copied text starts with `## ` and the first title and ends with the separator; no slides copy the empty text |
| PresentationSuggestor.Page.constructor | app/presentation-suggestor/page.tsx:151-160 | an empty topic, a time limit of `5`, nothing generated, copied or selected |
| PresentationSuggestor.Page.FetchPastPresentations | app/presentation-suggestor/page.tsx:242-256 | the list is replaced only by a successful reply with data; loading ends either way |
| PresentationSuggestor.Page.HandleSubmit | app/presentation-suggestor/page.tsx:163-197 | an empty topic does nothing; success stores the outline and refreshes the list; failure or an error clears it and alerts |
| PresentationSuggestor.Page.HandleCopy | app/presentation-suggestor/page.tsx:199-222 | without slides nothing happens; otherwise the formatted outline goes to the clipboard and the flag rises |
| PresentationSuggestor.Page.HandleReset | app/presentation-suggestor/page.tsx:224-230 | the form is restored and the outline and copied flag are cleared |
| PresentationSuggestor.Page.ViewPresentation | app/presentation-suggestor/page.tsx:232-235 | the modal opens on the selected outline |
| PresentationSuggestor.Page.CloseModal | app/presentation-suggestor/page.tsx:237-240 | the modal closes and the selection is dropped |
| ScriptDisplay.SplitWs | app/_components/dashboard/script-display.tsx:16 | `split(/\s+/)` gives at least one piece, none holding whitespace |
| ScriptDisplay.DashRuns | app/_components/dashboard/script-display.tsx:29 | `replace(/\s+/g, "-")` leaves no whitespace |
| ScriptDisplay.JoinSplitWs | app/_components/dashboard/script-display.tsx:16-29 | joining the `split(/\s+/)` pieces with dashes equals replacing each run by a dash |
| ScriptDisplay.SplitWsJoin | app/_components/dashboard/script-display.tsx:16 | words joined by single spaces split back into the words |
| ScriptDisplay.WordCount | app/_components/dashboard/script-display.tsx:16 | at least one, and one for the empty script |
| ScriptDisplay.WordCountOfWords | app/_components/dashboard/script-display.tsx:16 | `n` space-separated words count as `n` |
| ScriptDisplay.EstimatedTime | app/_components/dashboard/script-display.tsx:17 | the least whole number of minutes covering the words at 130 per minute |
| ScriptDisplay.Filename | app/_components/dashboard/script-display.tsx:29 | no whitespace, no capital, ends in `-script.txt` |
| ScriptDisplay.FilenameOfWords | app/_components/dashboard/script-display.tsx:29 | a topic of words is named by its lower-cased words joined with dashes |
| ScriptDisplay.Display.HandleCopy | app/_components/dashboard/script-display.tsx:19-23 | the script goes to the clipboard and the flag rises |
| ScriptDisplay.Display.HandleDownload | app/_components/dashboard/script-display.tsx:25-33 | the file holds the script under the derived name |
| RegisterForm.FormData.With | app/_components/auth/register-form.tsx:27-30 | the named field takes the value and every other field is kept |
| RegisterForm.PasswordStrength | app/_components/auth/register-form.tsx:60 | strong from 8 characters, medium from 4, weak below |
| RegisterForm.StrengthMonotone | app/_components/auth/register-form.tsx:60 | a longer password never rates weaker |
| RegisterForm.BarColour | app/_components/auth/register-form.tsx:124-141 | green for strong, yellow on the first two bars for medium, red on the first bar for weak, neutral otherwise |
| RegisterForm.Bars | app/_components/auth/register-form.tsx:124-141 | three bars coloured left to right |
| RegisterForm.BarsLight | app/_components/auth/register-form.tsx:124-141 | the meter lights as many bars as the strength's rank, from the left, in one colour |
| RegisterForm.BarsMonotone | app/_components/auth/register-form.tsx:124-141 | a longer password lights at least as many bars |
| RegisterForm.MatchIndicator | app/_components/auth/register-form.tsx:168-181 | hidden without a confirmation, otherwise it tells exactly whether the two passwords agree |
| RegisterForm.Form.constructor | app/_components/auth/register-form.tsx:17-25 | empty fields, not loading, both passwords hidden |
| RegisterForm.Form.HandleChange | app/_components/auth/register-form.tsx:27-30 | the named field takes the typed value, nothing else changes |
| RegisterForm.Form.HandleSubmit | app/_components/auth/register-form.tsx:32-58 | a mismatch alerts and sends nothing; otherwise the registration is posted, success goes to login, and failures alert the server's message or a default |
| ScriptInputForm.ParseIntAfterBlanks | app/_components/dashboard/script-input-form.tsx:77 | leading whitespace does not change the number `parseInt` reads |
| ScriptInputForm.ParseIntNumeral | app/_components/dashboard/script-input-form.tsx:77 | a numeral with an optional minus reads back as its value, whatever non-digit follows |
| ScriptInputForm.ParseIntNotNumber | app/_components/dashboard/script-input-form.tsx:77 | text whose first non-blank character is no digit or sign is `NaN` |
| ScriptInputForm.Duration | app/_components/dashboard/script-input-form.tsx:77 | at least 1; a parsed value of at least 1 is kept; `NaN`, 0 and negatives give 1 |
| ScriptInputForm.DurationKeeps | app/_components/dashboard/script-input-form.tsx:77 | a typed whole number of minutes is kept, with no upper bound |
| ScriptInputForm.DurationNonPositive | app/_components/dashboard/script-input-form.tsx:77 | zero and negative numbers become one minute |
| ScriptInputForm.DurationNotNumber | app/_components/dashboard/script-input-form.tsx:77 | text that is no number becomes one minute |
| ScriptInputForm.Form.constructor | app/_components/dashboard/script-input-form.tsx:15-18 | empty topic and content, the `professional` tone, 5 minutes |
| ScriptInputForm.Form.ChangeTopic | app/_components/dashboard/script-input-form.tsx:40 | the topic takes the value and nothing else changes |
| ScriptInputForm.Form.ChangeContent | app/_components/dashboard/script-input-form.tsx:50 | the content takes the value and nothing else changes |
| ScriptInputForm.Form.ChangeTone | app/_components/dashboard/script-input-form.tsx:62 | the tone takes the value and nothing else changes |
| ScriptInputForm.Form.ChangeDuration | app/_components/dashboard/script-input-form.tsx:77 | the duration becomes the clamped parse and stays at least 1 |
| ScriptInputForm.Form.HandleSubmit | app/_components/dashboard/script-input-form.tsx:20-25 | a script is requested exactly when topic and content both hold a non-blank character, with the untrimmed texts and a duration of at least one minute |
| Dashboard.Wpm | app/dashboard/page.tsx:114 | the average speed, or 0 without data or averages |
| Dashboard.Pacing | app/dashboard/page.tsx:115-116 | very fast exactly above 160, very slow exactly below 100, within range otherwise |
| Dashboard.PacingMonotone | app/dashboard/page.tsx:115-116 | a faster speaker never gets a slower status |
| Dashboard.NoSpeedIsSlow | app/dashboard/page.tsx:114-116 | no data, no averages or a zero average shows 0 and very slow |
| Dashboard.CountBar | app/dashboard/page.tsx:309-318 | full for a positive count, 10 otherwise |
| Dashboard.SuccessBar | app/dashboard/page.tsx:327-331 | the analyzed share of all recordings in percent, or 10 without recordings |
| Dashboard.SuccessBarIsPercentage | app/dashboard/page.tsx:327-331 | between 0 and 100, full exactly when all are analyzed, never above the count bar |
| Dashboard.Round | app/dashboard/page.tsx:354 | `Math.round`: the integer within half a unit below and under half a unit above |
| Dashboard.MetricTiles | app/dashboard/page.tsx:354-372 | clarity, speed, strategic pauses and pitch variety, each the averages' value rounded to the nearest integer, or 0 each without averages |
| Dashboard.SelectView | app/dashboard/page.tsx:128-180 | the spinner while loading, the error card for an error or no data, the empty state for no recordings, the full dashboard otherwise |
| Dashboard.Page.constructor | app/dashboard/page.tsx:68-70 | loading, no data and no error, so the spinner shows |
| Dashboard.Page.FetchDashboardData | app/dashboard/page.tsx:74-111 | success stores the data and clears the error; a refusal or a throw keeps the data and records the message chain; loading ends |
| AuthUtils.Lookup | lib/auth-utils.ts:3-8 | `getItem` finds a value exactly for a stored key |
| AuthUtils.StoreThenRead | lib/auth-utils.ts:10-17 | after storing, the token reads back, a non-empty email too, and the user is signed in exactly for a non-empty token |
| AuthUtils.StoreKeepsEmail | lib/auth-utils.ts:13-15 | without a non-empty email, a stored email stays |
| AuthUtils.ClearRemovesBoth | lib/auth-utils.ts:19-24 | after removal neither key is present and nobody is signed in |
| AuthUtils.OtherKeysUntouched | lib/auth-utils.ts:10-24 | no helper touches any other key |
| AuthUtils.Session.GetAuthToken | lib/auth-utils.ts:3-8 | the stored token, only in a browser |
| AuthUtils.Session.GetUserEmail | lib/auth-utils.ts:31-36 | the stored email, only in a browser |
| AuthUtils.Session.IsAuthenticated | lib/auth-utils.ts:26-29 | signed in exactly when a browser holds a non-empty token |
| AuthUtils.Session.SetAuthToken | lib/auth-utils.ts:10-17 | in a browser the token is stored, and the email when non-empty; outside one nothing changes |
| AuthUtils.Session.RemoveAuthToken | lib/auth-utils.ts:19-24 | in a browser both keys are removed; outside one nothing changes |

## Left out

- Base64 decoding by `window.atob`: the reply carries its result (a binary string or the thrown error). Creating the `Blob` and the object URL, the `<audio>` player, and the download anchor are left out because they are browser APIs.
- The little-endian platform that `new Int16Array(buffer)` assumes: the model reads samples as little-endian. A `RangeError` from an odd byte count is modelled with a fixed message that stands in for the engine's text.
- `VoiceOver.SampleRate`: a rate beyond 2^53 is not rounded to a JavaScript number, because the model's integers are unbounded. The page's `selectedVoice` and the request payload around the prompt are not modelled.
- `ScriptInputForm.ParseInt`: the `0x` prefix, which `parseInt` without a radix reads as hexadecimal, is not modelled. Numbers beyond 2^53 lose no precision in the model.
- Times, speeds and averages are reals, not IEEE doubles. The chart's label formatting with `toFixed` is left out.
- `RegisterForm.PasswordStrength`: the model counts a password's length in Unicode scalar values, while `.length` counts UTF-16 code units, so a character above U+FFFF counts twice in the source and once in the model (four emoji rate strong on the page and medium here). The same holds for every other length the model takes.
- Whitespace, digits and case follow ASCII only. `trim`, `\s` and `toLowerCase` also act on non-ASCII characters in JavaScript.
- `PacingChart.SortByTime`: the result is sorted and a permutation. JavaScript's `sort` is stable, so the order among points with equal times is not stated.
- The chart's tooltip and its `averageWPM` reference line are rendering, not data.
- `PresentationSuggestor.Page.HandleSubmit`: the page starts `fetchPastPresentations()` without awaiting it. The model completes it before loading ends, with its reply passed as `refresh`.
- `ContentGenerator.ScriptBody`: the text of the built-in sample script is carried as a tag, and what it renders to is not stated.
- The timers that reset the copied flags after two seconds, the clipboard write itself, and console logging are left out.
- `RegisterForm.Form.HandleChange`: only the four named inputs are modelled. An input with another name would add a new key in the source.
- The password-visibility toggles are left out, as are buttons being disabled while loading.
- The axios interceptor that handles a 401 reply, and the fixed feedback strings on the dashboard, belong to code outside the modelled pages.
- `Dashboard.Wpm`: a zero average and a missing one both give 0, as `|| 0` does. `NaN` averages are not modelled.
