# NoteMakerAI client bookkeeping, modelled in Dafny

NoteMakerAI turns a PDF or a pasted text into study material. The material is a summary, flashcards, a multiple-choice quiz and a spoken narration. All of it comes from a remote generative service. This project models the sequential bookkeeping around that material and proves what it promises:

- **`AudioDecode`** (`audio_decode.dfy`): decoding the narration payload. Characters become bytes, byte pairs become little-endian signed 16-bit samples, and each sample is divided by 32768 into a one-channel 24 000 Hz buffer.
  - `DecodePcm` keeps the source's two index loops over arrays, one in `StoreBytes` and one in `FillChannel`. Each is proved against the `Bytes`, `PcmSamples` and `Normalized` specification functions.
  - The encoder `EncodePcm` is its inverse, and both round trips are proved.
- **`AudioPlayer`** (`audio_player.dfy`): the one-shot playback transport as a class over the component's refs. It covers start at an offset, pause/resume, clamped seek, live rate change, the polled position, the end-of-stream handler and `formatTime`.
  - The context clock is an explicit `now` argument.
  - Every source node ever started is kept in `sources`; the last one is the current node.
  - The handlers are modelled exactly as written. Three scenario methods show the consequences:
    - `EndOfTrackScenario`: a natural end rewinds to 0.
    - `PauseRewindScenario`: a pause at 6 s of 10 s is rewound to 0 by the stopped node's end handler, because that handler counts the elapsed time twice.
    - `RateChangeScenario`: after a switch to 2×, the node ends but the player stays "playing" with nothing live.
- **`QuizModel`** (`quiz.dfy`): the quiz state machine as a class with the select, submit and next handlers, plus the score and progress bounds.
- **`SummarySheet`** (`summary_sheet.dfy`): the PDF export's layout loop.
  - Each item's wrapped line count is an input.
  - `LayoutPdf` keeps the source's cursor loop and is proved equal to the recursive `Layout`.
  - The page-break, spacing and page-count properties are proved about `Layout`.
- **`App`** (`app.dfy`): the application shell as a class. It covers PDF-only file acceptance, the data-URL payload, the start condition, the per-tab cache with its in-flight guard, and New Session.
  - The asynchronous `generateModule` is split into `BeginGenerate` and `CompleteGenerate`/`FailGenerate`.
  - A multiset `pending` records the requests in flight.
  - `DuplicateRequestScenario` shows that the guard lets a second request for the same tab through after a tab switch.
  - `StaleResultScenario` shows that a result arriving after New Session is stored in the new session.
- **`Text`** (`text.dfy`): the JavaScript string operations used above, each with its inverse or a characterisation: `toString`, `padStart`, `split` and `trim`.
- **`StudyTypes`** and **`Wrappers`**: the records of `types.ts`, plus `Option` and `Result`.

Each handler sees the committed state of its component; React's batching and render closures are not modelled. Where a handler reads a value captured in an earlier render, the model says so: a node's end handler uses the playback rate that was current when the node was created.

## Model

| member | source | states |
|---|---|---|
| AudioDecode.Bytes | components/AudioModule.tsx:89-90 | one byte per character, in order, holding the character code modulo 256 |
| AudioDecode.BytesOfLatin1 | components/AudioModule.tsx:88-90 | the bytes of the binary string `atob` produces come back unchanged |
| AudioDecode.Int16Of | components/AudioModule.tsx:92 | a byte pair read as a signed 16-bit value lies in [-32768, 32768) and is the two's complement of lo + 256·hi |
| AudioDecode.Int16Bytes | components/AudioModule.tsx:92 | every 16-bit value has a little-endian byte pair that reads back as that value |
| AudioDecode.Int16BytesOf | components/AudioModule.tsx:92 | encoding the value a byte pair holds gives back that byte pair |
| AudioDecode.PcmSamples | components/AudioModule.tsx:92 | an even number n of bytes gives n/2 samples, sample k from bytes 2k and 2k+1 |
| AudioDecode.DecodeEncode | components/AudioModule.tsx:92 | decoding encoded 16-bit samples gives the samples back |
| AudioDecode.EncodeDecode | components/AudioModule.tsx:92 | every decoded sample is 16-bit and re-encoding gives the original bytes |
| AudioDecode.Normalize | components/AudioModule.tsx:96 | sample/32768 lies in [-1, 1) and times 32768 is the sample again |
| AudioDecode.Normalized | components/AudioModule.tsx:95-97 | one channel value per sample |
| AudioDecode.Duration | components/AudioModule.tsx:93-100 | the buffer's duration is sample frames over 24000, never negative |
| AudioDecode.StoreBytes | components/AudioModule.tsx:89-90 | the loop fills a new byte array with exactly `Bytes(binary)` |
| AudioDecode.FillChannel | components/AudioModule.tsx:93-97 | the loop fills a new channel with exactly the normalised samples of the bytes |
| AudioDecode.DecodePcm | components/AudioModule.tsx:88-97 | fails exactly when the byte count is odd (Int16Array throws) or zero (createBuffer throws); otherwise the channel is the normalised samples of the bytes, |binary|/2 of them, each in [-1, 1), and the duration is that count over 24000 |
| AudioDecode.DecodeSynthesised | components/AudioModule.tsx:88-97 | a payload encoded from 16-bit samples decodes to exactly those samples, each scaled by 1/32768 |
| AudioPlayer.Position | components/AudioModule.tsx:126 | definition, no contract: offset + (now − start)·rate, the position expression shared by lines 126, 146, 161 and 179 |
| AudioPlayer.EndReached | components/AudioModule.tsx:126-127 | definition, no contract: the onended test, position ≥ duration − 0.2; `OnEnded` states its effect |
| AudioPlayer.StopLast | components/AudioModule.tsx:116 | definition, no contract: `sourceNodeRef.current.stop()` (also line 143) marks the last node not live and keeps the list's length; `StartPlayback` and `TogglePlay` state its effect |
| AudioPlayer.RetuneLast | components/AudioModule.tsx:170 | definition, no contract: the last node takes the new rate and the list keeps its length; `SetRate` states its effect |
| AudioPlayer.Clamp | components/AudioModule.tsx:164 | max(0, min(duration, x)) lies in [0, duration], is x inside it and the nearer bound outside it |
| AudioPlayer.Player.LiveSources | components/AudioModule.tsx:112-138 | the nodes producing sound are exactly the live entries, and there is at most one |
| AudioPlayer.Player.PolledTime | components/AudioModule.tsx:179-180 | the polled time is min(offset + (now − start)·rate, duration), never above the duration |
| AudioPlayer.Player.constructor | components/AudioModule.tsx:11-24 | the initial state: voice Kore, paused, nothing generated, rate 1, time and duration 0, no context, buffer or node |
| AudioPlayer.Player.StartPlayback | components/AudioModule.tsx:112-138 | nothing without a context or buffer; otherwise the current node is stopped, one new node is live at the current rate, offset = requested, start = now, playing |
| AudioPlayer.Player.GenerateAll | components/AudioModule.tsx:83-109 | the user is alerted exactly when the audio is missing, base64 is malformed, or the byte count is odd or zero, and then no buffer is stored and playback does not start; otherwise the decoded buffer is stored, the duration set and playback starts at 0 |
| AudioPlayer.Player.TogglePlay | components/AudioModule.tsx:140-154 | playing: the node stops, offset advances by (now − start)·rate, paused, nothing live; paused with a buffer: restart at exactly the stored offset |
| AudioPlayer.Player.SeekBase | components/AudioModule.tsx:159-162 | definition, no contract: the running position while playing, the stored offset while paused; `Seek` clamps it |
| AudioPlayer.Player.Seek | components/AudioModule.tsx:156-166 | nothing without a buffer; otherwise restart at clamp(position + delta), where the position includes the elapsed time only while playing; the offset is in [0, duration] and the player plays, even from pause |
| AudioPlayer.Player.SetRate | components/AudioModule.tsx:168-172 | the current node takes the new rate; offset, start time and everything else stay as they were |
| AudioPlayer.Player.Poll | components/AudioModule.tsx:174-185 | while playing with a context and buffer, currentTime becomes the polled time (≤ duration); otherwise it is unchanged |
| AudioPlayer.Player.OnEnded | components/AudioModule.tsx:124-131 | the node is marked ended; paused and rewound to 0 exactly when offset + (now − start)·capturedRate ≥ duration − 0.2, using the shared refs; otherwise nothing else changes |
| AudioPlayer.Player.SelectVoice | components/AudioModule.tsx:314 | the voice changes and the view returns to the generate screen |
| AudioPlayer.Player.Dispose | components/AudioModule.tsx:34-43 | the current node is stopped, so nothing is live |
| AudioPlayer.FormatTime | components/AudioModule.tsx:187-191 | definition, no contract: minutes, ':' and the seconds padded to two characters; `FormatTimeReadsBack` states what it shows |
| AudioPlayer.JsRemainder | components/AudioModule.tsx:189 | definition, no contract: JavaScript's `%`, the remainder of the division truncated toward zero; `JsRemainderRange` bounds it |
| AudioPlayer.JsRemainderRange | components/AudioModule.tsx:189 | `time % 60` takes the sign of the time and lies strictly within 60 of 0: in [0, 60) for t ≥ 0, in (−60, 0] for t < 0 |
| AudioPlayer.SecondsField | components/AudioModule.tsx:190 | a seconds value below 60 padded with '0' is exactly two digits, has no ':', and reads back as that value |
| AudioPlayer.ParseClockOf | components/AudioModule.tsx:190 | "m:ss" built from minutes m and seconds below 60 reads back as m·60 + ss |
| AudioPlayer.FloorFields | components/AudioModule.tsx:188-189 | for t ≥ 0, floor(t/60) and floor(t mod 60) are the quotient and remainder of floor(t) by 60 |
| AudioPlayer.FormatTimeReadsBack | components/AudioModule.tsx:187-191 | for t ≥ 0 the display is minutes, ':' and the seconds 0..59 on exactly two digits, and reading it back gives floor(t) = mins·60 + secs |
| QuizModel.ProgressFraction | components/Quiz.tsx:68 | (index + 1)/length lies in (0, 1] and is 1 exactly on the last question |
| QuizModel.Quiz.constructor | components/Quiz.tsx:9-16 | first question, no selection, not submitted, score 0, not finished; the invariant holds |
| QuizModel.Quiz.SelectOption | components/Quiz.tsx:18-21 | ignored once submitted; otherwise the key becomes the selection |
| QuizModel.NoSelection | components/Quiz.tsx:24 | definition, no contract: `!selectedOption`, no option or the empty key; `Submit` states that it makes the handler a no-op |
| QuizModel.Quiz.Submit | components/Quiz.tsx:23-29 | nothing without a selection; otherwise submitted, and the score rises by exactly 1 when the selection is the correct key and stays otherwise; submitting an unsubmitted question keeps score ≤ answered |
| QuizModel.Quiz.Next | components/Quiz.tsx:31-39 | before the last question: index + 1, selection and submitted flag cleared; on the last: finished, index unchanged; the index stays below the question count |
| QuizModel.Quiz.Progress | components/Quiz.tsx:68 | the progress bar's fraction lies in (0, 1] |
| QuizModel.Quiz.FinalScore | components/Quiz.tsx:51 | the reported "score out of N" has score ≤ answered ≤ N |
| SummarySheet.Prefix | components/SummarySheet.tsx:35 | definition, no contract: `${index + 1}. `; `PrefixNumbers` states what it denotes |
| SummarySheet.Overflows | components/SummarySheet.tsx:39 | definition, no contract: the page-break test cursor + 8n > 280; `LayoutAt` and `TallItemOverruns` state its consequences |
| SummarySheet.PrefixNumbers | components/SummarySheet.tsx:35 | the prefix of item i is the decimal number i + 1 followed by ". " |
| SummarySheet.PlaceFrom | components/SummarySheet.tsx:34-51 | one placement per item |
| SummarySheet.PlaceFromHead | components/SummarySheet.tsx:34-50 | the first item goes on a new page at y = 20 exactly when it overflows, otherwise at the cursor, and the rest follow from 8n + 6 below it |
| SummarySheet.Layout | components/SummarySheet.tsx:30-51 | one placement per item, from y = 50 on page 1; `LayoutAt` gives the content of each |
| SummarySheet.PlaceFromAt | components/SummarySheet.tsx:34-51 | from any start, item k keeps its line count and numbered prefix, and takes a new page at y = 20 exactly when cursor + 8n > 280 |
| SummarySheet.LayoutAt | components/SummarySheet.tsx:30-51 | starting at y = 50 on page 1, item k is number k+1 with its own line count; it breaks to a new page at y = 20 exactly when cursor + 8n > 280, and otherwise sits at the cursor on the same page with cursor + 8n ≤ 280 |
| SummarySheet.SamePageMovesDown | components/SummarySheet.tsx:50 | on one page each item starts exactly 8n + 6 below the previous one, so y strictly increases |
| SummarySheet.NeverAboveTop | components/SummarySheet.tsx:39-42 | no item starts above y = 20 |
| SummarySheet.TallItemOverruns | components/SummarySheet.tsx:39-48 | an item taller than a fresh page is not split: it starts a new page at y = 20 and runs past 280 |
| SummarySheet.PagesFrom | components/SummarySheet.tsx:39-42 | from any start, the last page is the start page plus the page breaks taken |
| SummarySheet.PageCount | components/SummarySheet.tsx:40 | the document has 1 + (number of page breaks) pages |
| SummarySheet.LayoutPdf | components/SummarySheet.tsx:30-51 | the cursor loop produces exactly the placements of Layout and the page count of its last item |
| SummarySheet.Label | components/SummarySheet.tsx:89 | the on-screen label has at least two digits and denotes i + 1 |
| SummarySheet.LabelDigits | components/SummarySheet.tsx:89 | below 10 the label is '0' and the digit; from 10 on it is the plain decimal number |
| SummarySheet.Sheet.constructor | components/SummarySheet.tsx:5-6 | the sheet starts with its items and not downloading |
| SummarySheet.Sheet.DownloadPdf | components/SummarySheet.tsx:8-60 | the busy flag is clear at the end whether jsPDF throws or not; a saved document holds the layout and its page count |
| StudyTypes.TabName | types.ts:27 | definition, no contract: the TabType literal of each tab; `App.FailureMessageIdentifiesTab` states that distinct tabs have distinct names |
| App.Cached | App.tsx:43 | nothing is ever cached for the audio tab, and a cached entry is a result of its own tab |
| App.Store | App.tsx:56 | the result is stored under its own tab and every other tab's cached entry is unchanged |
| App.DataUrlPayload | App.tsx:29 | the stored payload is absent exactly when the data URL has no comma, and never contains a comma |
| App.DataUrlPayloadIsBase64 | App.tsx:29 | for a data URL header + "," + base64, the stored payload is exactly the base64 text |
| App.FailureMessage | App.tsx:59 | definition, no contract: "Failed to process <tab>. Please try again."; `FailureMessageIdentifiesTab` states that it names the tab |
| App.FailureMessageIdentifiesTab | App.tsx:59 | two failure messages are equal exactly when their tabs are: the message tells which module failed |
| App.TrimmedNonEmpty | App.tsx:36 | pasted text passes the start check exactly when some character is not white space |
| App.App.constructor | App.tsx:11-18 | input screen, file mode, no text, no file, no data, summary tab, nothing loading, no error |
| App.App.ProcessFile | App.tsx:21-33 | a non-PDF type sets the error and leaves the selected file; a PDF clears the error and stores name, type and the data URL's payload |
| App.App.SetInputType | App.tsx:132-133 | the input mode becomes the chosen one |
| App.App.SetContent | App.tsx:165 | the pasted text becomes the typed value |
| App.App.CanStart | App.tsx:36 | definition, no contract: file mode needs a selected file, text mode text whose `trim()` is not empty; `TrimmedNonEmpty` characterises the latter |
| App.App.WouldStart | App.tsx:42-43 | definition, no contract: the tab is not audio, has no cached data and is not the loading tab; `BeginGenerate` starts a request exactly then |
| App.App.BeginGenerate | App.tsx:40-47 | a request starts exactly when the tab is not audio, not cached and not the loading tab; then that tab is loading, the error is cleared and one request is added; otherwise nothing changes |
| App.App.CompleteGenerate | App.tsx:56-62 | the result is cached under its tab, every other tab is unchanged, nothing is loading and the request is settled |
| App.App.FailGenerate | App.tsx:57-62 | the error names the failed tab, nothing is loading and the request is settled |
| App.App.StartLearning | App.tsx:35-38 | without a file in file mode, or with only white space in text mode, nothing changes; otherwise the dashboard opens and the active tab's request starts when its guard allows |
| App.App.SelectTab | App.tsx:65-69 | the tab becomes active; a request for it starts only on the dashboard, for a new tab, when its guard allows |
| App.App.NewSession | App.tsx:89 | input screen, no data, no file, empty text, summary tab |
| Text.IntToString | components/AudioModule.tsx:190 | definition: `i.toString()`, the digits of |i| with a minus sign before them when i < 0; `ParseIntToString` is its partner, and `FormatTimeReadsBack` states what it shows for t ≥ 0 |
| Text.ParseIntToString | components/AudioModule.tsx:190 | `i.toString()` is a decimal literal that reads back as i, for every integer, so it names each integer exactly |
| Text.NatToString | components/SummarySheet.tsx:35 | `n.toString()` is at least one decimal digit and starts with '0' only for 0 |
| Text.ParseNatToString | components/SummarySheet.tsx:35 | reading back `n.toString()` gives n |
| Text.PadStart | components/AudioModule.tsx:190 | `padStart` yields at least `width` characters: the filler repeated, then the string |
| Text.ParsePadded | components/SummarySheet.tsx:89 | zero padding keeps the number a decimal string denotes |
| Text.Split | App.tsx:29 | `split` gives at least one field and no field contains the separator |
| Text.JoinSplit | App.tsx:29 | joining the fields of a split with the separator gives the string back |
| Text.SplitJoin | App.tsx:29 | splitting joined separator-free fields gives the fields back |
| Text.TrimStart | App.tsx:36 | removes exactly the leading white space: what is left is a suffix that does not start with white space |
| Text.TrimEnd | App.tsx:36 | removes exactly the trailing white space: what is left is a prefix that does not end with white space |
| Text.Trim | App.tsx:36 | `trim()` gives a contiguous piece of the input with only white space outside it, and with white space at neither of its ends |
| Text.TrimEmpty | App.tsx:36 | `trim()` gives "" exactly when every character is white space |

## Left out

- Remote generation: services/gemini.ts and the script and speech requests of components/AudioModule.tsx:49-81 are network calls. Their outcome is an input: a `Payload` for the player and a `ModuleResult` or a failure for the application.
- `atob`: base64 decoding is a browser built-in. Its output, the binary string, is the input of decoding, and a malformed payload is the `MalformedBase64` case.
- Web Audio objects: the context, source nodes, `connect` and `close` become the `hasContext` flag and the `sources` entries. When a node's end event fires is up to the caller of `OnEnded`. The clock is the `now` argument.
- AudioPlayer.Player.GenerateAll: each generation creates a new context whose clock starts again at 0, even when decoding then fails. In that case the old node keeps playing and `startTime` stays in the old context's time base. Lines 126 and 179 then subtract an old-context start from a new-context time, and the position can come out negative. The model has one `now` per call and no context identity. It reproduces this only when callers pass the new context's time after a generation.
- AudioPlayer.Player.Dispose: closing the audio context is not modelled, only the stop of the current node.
- The 100 ms `setInterval` poller: only one tick of it (`Poll`) is modelled, not timers or event-loop order.
- Floating point: times, rates and samples are exact reals. IEEE rounding is not modelled; division by 32768 is exact in single precision for 16-bit samples.
- Platform endianness: the 16-bit view is read little-endian, as on every platform that runs this application.
- React rendering: JSX, CSS, the random bar heights, the loading and status flags of the audio view, `alert`, `console` and `window.location.reload` are not modelled. State setters are taken to apply at once, and each handler sees the committed state.
- `FileReader`: the asynchronous read in processFile is merged into `ProcessFile`; the data URL is an argument.
- jsPDF: drawing, fonts and the title are not modelled. `splitTextToSize` becomes the per-item line count.
- components/Flashcard.tsx: its only logic is a card flip, a boolean negation.
- QuizModel.Quiz.constructor: requires a non-empty question list, because the page reads `questions[0]` at once and a list without questions makes the first render fail.
- QuizModel.Quiz.Submit: the bound score ≤ answered is proved only when Submit is called on an unsubmitted question, the only time the page offers it.
- App.App.StartLearning: the start button exists only on the input screen. A call while already on the dashboard is still modelled: the state stays on the dashboard and no request starts. The effect runs only on the change of screen.
- The generation call's input (the file or the text) is not passed on, since the service is not modelled.
