# Chat widget core, modelled in Dafny

This project models the logic of the three browser chat widgets on the site.

**The Convai widget** (`public/static/convai-chat.js`) covers:
- its configuration checks;
- the submit guard;
- the streamed text reply;
- the audio path. Base64 WAV chunks arrive during a reply and are collected. The format is read from the first chunk longer than the 44-byte header. At the end, the 44-byte header is stripped from every chunk, the PCM payloads are joined and de-interleaved into per-channel samples, and one buffer plays. At most one playback handle is current.

**The demo question limit** (`public/static/demo-chatbot.js`) covers:
- a per-page counter in local storage, limited to 10;
- warning styles at 7 and 9;
- a three-tick countdown that removes the counter and returns to the main chat.

**The main chat page** (`public/static/main.js`) covers:
- the `<` / `>` / newline rewrite chain used to render messages;
- the screening flow and its one-way switch into question-and-answer mode;
- the reducer over the answer stream's `token`, `answer`, `sources`, `end` and `error` events.

Modules:
- `Wrappers`: Option and Result.
- `Bytes`: bytes and little-endian DataView reads and writes.
- `Text`: JavaScript `trim`, `includes`, `replace` with a global pattern, text-node escaping, and `parseInt` / `toString` on integers.
- `Wav`: header parse, payload assembly, and decoding.
- `ConvaiChat`: configuration, and the class `ConvaiWidget` holding the module-level audio state and the chat state.
- `DemoChatbot`: the class `DemoCounter` over an abstract key/value store.
- `MainChat`: rendering, and the class `ScreeningChat`.

State that the JavaScript keeps in module variables and DOM elements becomes fields of these classes. Several things are parameters of the model rather than modelled:
- what `atob` returns;
- what the server replies;
- which page elements exist.

Sample values are integers. Normalisation by 32768 or 128 is stated over `real`.

## Model

| member | source | states |
|---|---|---|
| Bytes.I16 | public/static/convai-chat.js:281 | the little-endian int16 read lies in [-32768, 32767], is negative exactly when the high byte has its top bit set, and agrees with the unsigned read modulo 2^16 |
| Wav.ParseWavHeader | public/static/convai-chat.js:171-195 | the parsed header always has data offset 44, and its channel count, sample rate and bit depth fit their 16-, 32- and 16-bit fields |
| Wav.ParseReadsOnlyFormatFields | public/static/convai-chat.js:187-194 | two byte strings that agree on bytes 22-27 and 34-35 parse to the same header, so no RIFF/WAVE/fmt/data tag or other field is checked |
| Wav.ParseCanonicalHeader | public/static/convai-chat.js:171-195 | a chunk that starts with a canonical header for (channels, rate, depth) parses back to exactly that format |
| Wav.PayloadSizeVersusDeclared | public/static/convai-chat.js:241-255 | the bytes the copy needs are never fewer than the declared `totalPcmSize`, and the two are equal exactly when no chunk is shorter than 44 bytes |
| Wav.AssemblePcm | public/static/convai-chat.js:240-255 | assembly succeeds exactly when every chunk has at least 44 bytes; the buffer is then the in-order concatenation of the chunks minus their headers, and its length is the sum of (length - 44) |
| Wav.AssembleFramedParts | public/static/convai-chat.js:251-255 | chunk-boundary invariance: however a PCM stream is split into parts, with any 44-byte header in front of each, assembly returns the joined parts |
| Wav.DeclaredTotal | public/static/convai-chat.js:241-244 | the first loop sums the declared payload size `chunk.length - 44` of every chunk, so a chunk shorter than 44 bytes lowers the total |
| Wav.CopyAt | public/static/convai-chat.js:252-254 | `pcm.set(part, offset)` keeps the bytes before `offset`, puts `part` right after them, and leaves every byte after the part as it was |
| Wav.FlattenNonEmpty | public/static/convai-chat.js:251-255 | joined parts hold data only if some part does |
| Wav.Frames | public/static/convai-chat.js:260-268 | the buffer length is the number of whole frames: that many frames fit in the PCM's bits and one more does not; it is 0 when the channel count or the bit depth is 0 |
| Wav.ReadInBounds | public/static/convai-chat.js:271-276 | for every frame below the sample count and every channel, the sample's bytes at (i*channels + c)*bytesPerSample lie inside the PCM (16- and 8-bit) |
| Wav.WholeFramesInBounds | public/static/convai-chat.js:274-281 | when the PCM is whole 16-bit frames, every read the loop makes, up to the untruncated sample count, is inside the PCM |
| Wav.PartialFrameOverruns | public/static/convai-chat.js:274-281 | when the PCM ends in a partial 16-bit frame, the read for the last channel at the first frame past the whole ones runs past the end |
| Wav.PartialFrameVisited | public/static/convai-chat.js:261-274 | with a partial 16-bit frame, the untruncated loop bound still admits that frame, so the overrunning read happens |
| Wav.SampleAt | public/static/convai-chat.js:278-287 | a 16-bit sample lies in [-32768, 32767], an 8-bit one in [-128, 127], and any other depth gives 0 |
| Wav.Normalized | public/static/convai-chat.js:281-284 | the stored float is in [-1, 1), and it is 0 exactly when the sample is 0 or the depth is unsupported |
| Wav.FillChannel | public/static/convai-chat.js:271-289 | one channel's loop yields the de-interleaved samples of that channel, or fails with a read past the end only for 16-bit PCM that is not whole frames |
| Wav.DecodePcm | public/static/convai-chat.js:259-289 | the nested loops produce exactly the channel data that `Decoded` describes: createBuffer refuses zero channels, length or rate, 16-bit partial frames throw, and otherwise every channel holds its samples |
| Wav.DecodedChannels | public/static/convai-chat.js:264-289 | channel data built sample by sample, with a nonzero length and rate and whole 16-bit frames, is a successful decode |
| Wav.DecodeInterleaved16 | public/static/convai-chat.js:259-289 | round trip: equal-length 16-bit channels, interleaved and written as little-endian PCM, decode back to the same channels |
| ConvaiChat.LoadConfiguration | public/static/convai-chat.js:66-89 | configuration succeeds exactly when the container exists, the character id is non-empty and does not contain `YOUR_`, and the session id is non-empty; it then keeps both ids and has a non-empty service name and welcome message; a missing container and only that gives the container error |
| ConvaiChat.BinaryToBytes | public/static/convai-chat.js:203-207 | the byte array has the binary string's length and holds each character's code |
| ConvaiChat.FirstHeaderIsFirstLong | public/static/convai-chat.js:213-216 | a header is held exactly when some stored chunk is longer than 44 bytes, and it is parsed from the first such chunk |
| ConvaiChat.FirstHeaderAppend | public/static/convai-chat.js:210-216 | appending a chunk never replaces a held header; without one, the new chunk supplies it exactly when it is longer than 44 bytes |
| ConvaiChat.ProcessOutcome | public/static/convai-chat.js:226-299 | processing reports "no chunks" exactly when none are stored and "no header" exactly when chunks exist but no header; audio that plays has the header's rate and channel count |
| ConvaiChat.PlaysIff | public/static/convai-chat.js:226-299 | audio plays exactly when there are chunks, there is a header, every chunk is at least 44 bytes and decoding succeeds; it then plays at the header's rate with one channel per header channel |
| ConvaiChat.CanonicalFirstHeader | public/static/convai-chat.js:210-216 | when every chunk carries the same canonical 16-bit header and one of them carries data, the captured header is that format |
| ConvaiChat.StreamedChannelsPlayBack | public/static/convai-chat.js:200-299 | end to end: 16-bit channels streamed as parts behind canonical headers, split anywhere and empty parts included, are played back as exactly those channels at that rate |
| ConvaiChat.MessageHtml | public/static/convai-chat.js:414-426 | a message's markup, with the text escaped and newlines turned into `<br>`, contains no `<` or `>` except inside an inserted `<br>` |
| ConvaiChat.ConvaiWidget.constructor | public/static/convai-chat.js:17-30 | the widget starts with no chunks, no header, no source, idle, with an empty transcript |
| ConvaiChat.ConvaiWidget.HandleAudioChunk | public/static/convai-chat.js:200-221 | a decoded chunk's byte codes are appended after all earlier chunks, which stay unchanged; a held header is never overwritten; without one, a chunk longer than 44 bytes supplies it; a chunk whose decoding threw changes nothing; the header stays the first long chunk's |
| ConvaiChat.ConvaiWidget.StopAudio | public/static/convai-chat.js:325-338 | the chunks, header and current source are always cleared together; the current source stops sounding, so when at most one buffer sounded, none does afterwards |
| ConvaiChat.ConvaiWidget.PlayAudioBuffer | public/static/convai-chat.js:304-320 | earlier audio is stopped and cleared first, a new source starts on the buffer and becomes current, and exclusive playback (at most one buffer audible) is preserved |
| ConvaiChat.ConvaiWidget.SourceEndedAsWritten | public/static/convai-chat.js:313-316 | the `onended` handler as written: the ended source stops sounding and the current handle is cleared whichever source ended |
| ConvaiChat.ConvaiWidget.SourceEnded | public/static/convai-chat.js:313-316 | the corrected handler: the handle is cleared only when the ended source is the current one, which preserves exclusive playback |
| ConvaiChat.ConvaiWidget.ProcessAndPlayAudio | public/static/convai-chat.js:226-299 | the outcome is what `ProcessOutcome` gives for the stored chunks and header; without playback nothing changes; with it the buffer plays and the chunks and header are cleared |
| ConvaiChat.ConvaiWidget.HandleSubmit | public/static/convai-chat.js:157-166 | an input that is blank after trimming, or a reply in progress, changes nothing at all; otherwise the input is cleared, the trimmed message and an empty bot message are shown, the bot message shows the typing cursor, the reply text restarts empty, the widget is busy, the stream is open, earlier audio is stopped and cleared, and the record of played buffers is untouched |
| ConvaiChat.ConvaiWidget.SendToConvai | public/static/convai-chat.js:343-362 | the widget is marked busy, earlier audio is stopped and cleared before the stream opens, and an empty bot message with a typing cursor is added |
| ConvaiChat.ConvaiWidget.TakeData | public/static/convai-chat.js:370-377 | a data message's text is appended to the full reply text, shown as plain text when non-empty; its audio field adds the decoded chunk; playback, the stream and the transcript are untouched |
| ConvaiChat.ConvaiWidget.OnStreamMessage | public/static/convai-chat.js:364-386 | empty or unparsable data changes nothing; text accumulates into the full reply text shown as plain text; a decoded audio chunk is appended; without `end`, or when processing does not play, chunks, header and sources are as after the append; `end` closes the stream, ends the busy state, shows the fallback when no text ever came, and plays the processed audio, clearing chunks and header and making it the only new source |
| ConvaiChat.ConvaiWidget.FinalizeResponse | public/static/convai-chat.js:388-395 | the widget is idle afterwards, a reply with no text shows the fallback message, and the collected audio is processed as `ProcessOutcome` says: when it plays it becomes the current source and chunks and header are cleared, otherwise the audio state is unchanged |
| ConvaiChat.ConvaiWidget.OnStreamError | public/static/convai-chat.js:397-401 | the stream closes and the widget is idle; a reply with no text shows the fallback message and any other reply stays; the text, transcript and input are unchanged; the collected audio plays or stays exactly as in `FinalizeResponse` |
| ConvaiChat.StaleEndedOverlap | public/static/convai-chat.js:304-338 | with the handler as written, the first buffer's late `ended` event orphans the second, and after the next playback two buffers sound |
| ConvaiChat.StaleEndedIgnored | public/static/convai-chat.js:304-338 | with the corrected handler, the same events leave exactly one buffer sounding |
| Text.TrimEmptyIff | public/static/convai-chat.js:158-159 | a string trims to empty exactly when all its characters are JavaScript white space (the `!message` guard) |
| Text.TrimIsSlice | public/static/convai-chat.js:158 | the trimmed message is a contiguous slice of the input, everything cut off before and after it is white space, and it has no white space at either end |
| Text.EscapeText | public/static/convai-chat.js:464-468 | the escaped text contains no `<` and no `>` |
| Text.ParseInt | public/static/demo-chatbot.js:43 | `parseInt` of blank text is NaN; text whose first non-blank character is a digit parses to a non-negative number; a first character that is not a digit or sign gives NaN; a negative result needs a leading `-` |
| Text.Includes | public/static/convai-chat.js:78 | `includes` holds exactly when the pattern occurs at some index |
| Text.ParseIntToString | public/static/demo-chatbot.js:43 | `parseInt` of an integer's `toString` gives back that integer |
| DemoChatbot.ChatbotTypeOf | public/static/demo-chatbot.js:39 | the page is the office demo exactly when the body has the `office-chatbot` class |
| DemoChatbot.StorageKey | public/static/demo-chatbot.js:39-40 | the key is `office_question_count` exactly on the office page and `fireside_question_count` exactly on the fireside page |
| DemoChatbot.StorageKeysDistinct | public/static/demo-chatbot.js:39-40 | the keys are `office_question_count` and `fireside_question_count`, they differ, and both end in `_question_count` |
| DemoChatbot.ClearDemoCounts | public/static/demo-chatbot.js:296-298 | the main page removes both demo counters and keeps every other stored entry unchanged |
| DemoChatbot.LoadCounter | public/static/demo-chatbot.js:43 | an absent key reads as the counter 0 |
| DemoChatbot.LoadStoredCounter | public/static/demo-chatbot.js:129 | a counter stored with `toString` reads back through the page-load `parseInt` as itself, including NaN |
| DemoChatbot.Increment | public/static/demo-chatbot.js:128 | `++` adds exactly 1 to a number and leaves NaN as NaN |
| DemoChatbot.StyleFor | public/static/demo-chatbot.js:63-70 | the counter carries exactly one state: critical iff the count is at least 9, warning iff it is at least 7 and below 9, plain iff it is below 7 (NaN is plain) |
| DemoChatbot.WarningFor | public/static/demo-chatbot.js:73-78 | a chat warning is emitted exactly when the count is 7 or 9; at 9 it is the last-question warning |
| DemoChatbot.WarningAtSevenText | public/static/demo-chatbot.js:74-75 | the warning at 7 reports 10 - 7 = 3 questions remaining |
| DemoChatbot.CountNeverExceedsLimit | public/static/demo-chatbot.js:115-132 | from any count up to 10, a run of clicks counts the non-blank questions and stops at 10, so the counter never exceeds the limit |
| DemoChatbot.NotANumberNeverLimits | public/static/demo-chatbot.js:120-128 | a NaN counter stays NaN under clicks, so the limit check never blocks it |
| DemoChatbot.DemoCounter.constructor | public/static/demo-chatbot.js:43-82 | the counter is loaded from the page's key, the display and style follow it, and the welcome message is added exactly when the count is 0 and the chat window is empty after any warning; the page starts with input enabled, no redirect scheduled and no transition under way |
| DemoChatbot.DemoCounter.UpdateQuestionCounter | public/static/demo-chatbot.js:57-79 | the display shows the count, the style is `StyleFor` of it, and a warning entry is appended exactly when `WarningFor` gives one |
| DemoChatbot.DemoCounter.Submit | public/static/demo-chatbot.js:115-132 | a blank question, or a click on the disabled button, is ignored and changes nothing; a click at the limit keeps the count, display, style and chat log and starts limit handling; otherwise the count rises by exactly 1, the stored value reads back as the new count, the display and style follow the new count where those elements exist, and a warning entry is added exactly when `WarningFor` gives one and there is a chat window; a bounded counter stays bounded |
| DemoChatbot.DemoCounter.HandleLimitReached | public/static/demo-chatbot.js:145-197 | input is disabled; with the redirect notice it is shown and a countdown from 3 starts, without it the fallback timer is set and the notice and countdown are untouched |
| DemoChatbot.DemoCounter.Tick | public/static/demo-chatbot.js:172-189 | the countdown drops by 1; it stays active exactly while above 0; while it stays active, storage, the transition and the redirect are untouched; on the tick that ends it the counter is removed from storage, the page transitions out and the redirect is scheduled, so this happens once |
| DemoChatbot.DemoCounter.FallbackFires | public/static/demo-chatbot.js:190-196 | the fallback timer removes the counter and navigates to the main chat |
| DemoChatbot.DemoCounter.RedirectFires | public/static/demo-chatbot.js:185-187 | the scheduled redirect navigates to the main chat page |
| DemoChatbot.DemoCounter.ReturnClicked | public/static/demo-chatbot.js:85-98 | the return button removes the counter, so it reads back as 0, and schedules navigation |
| DemoChatbot.TenQuestionsThenRedirect | public/static/demo-chatbot.js:115-189 | from a fresh counter, ten questions are counted, the eleventh is blocked, and three ticks later the counter is gone and the redirect is scheduled |
| MainChat.Render | public/static/main.js:24-27 | no newline survives rendering, and the length grows by 3 for every `<`, `>` and newline |
| MainChat.RenderIsCharwise | public/static/main.js:24-27 | the three chained replacements equal rendering each character on its own (`<` to `&lt;`, `>` to `&gt;`, newline to `<br>`) |
| MainChat.RenderAppend | public/static/main.js:24-27 | rendering distributes over concatenation |
| MainChat.BracketsOnlyInBreaks | public/static/main.js:24-27 | every `<` and every `>` in a rendered message belongs to an inserted `<br>` |
| MainChat.RenderCounts | public/static/main.js:24-27 | the rendered message has one `<` and one `>` per newline of the text; the `&` count grows only by the escaped `<` and `>`, so `&` is not escaped |
| MainChat.RenderPlain | public/static/main.js:24-27 | text with no `<`, `>` or newline is rendered unchanged |
| MainChat.ClickFreshGroup | public/static/main.js:45-55 | clicking option k of a freshly rendered group leaves one button per option, in option order with its key and caption, all disabled, and exactly the k-th selected |
| MainChat.AfterClick | public/static/main.js:49-55 | after a click every button of the group is disabled, the clicked one is selected, and keys and captions are unchanged |
| MainChat.ScreeningChat.constructor | public/static/main.js:8-10 | the page starts in screening mode with no session and no step |
| MainChat.StepBubble | public/static/main.js:37-57 | a step's bubble is the bot's and shows the step's message; a step without options has no buttons, one with options has one button per option |
| MainChat.ScreeningChat.RenderStep | public/static/main.js:36-67 | `currentStepId` becomes the step's id and its message is shown; with options the buttons are shown and the input hidden; without them the input is shown and enabled |
| MainChat.ScreeningChat.OnInitReply | public/static/main.js:161-174 | a reply records the session and renders its first step if any, appending the step's bubble and showing the input exactly when the step has no options; a reply without a step keeps the step, input and loading state; a failure shows the apology and changes nothing else |
| MainChat.ScreeningChat.HandleScreeningResponse | public/static/main.js:69-74 | the response is shown as a user message and the input disabled |
| MainChat.ScreeningChat.OnScreeningReply | public/static/main.js:75-96 | QnA mode is entered iff the reply says `transition_to === 'qna'` (mode never returns to screening), keeping the step id; a transition wins over a next step, which appends the step's bubble and shows the input exactly when the step has no options; a reply with neither changes nothing; a failure shows the apology and keeps the step, input and loading state |
| MainChat.ScreeningChat.EnterQnAMode | public/static/main.js:98-105 | the mode becomes question-and-answer, the confirmation is shown, and the input is shown and enabled |
| MainChat.ScreeningChat.OptionClicked | public/static/main.js:49-55 | the clicked option's key is sent as a user response, its group is disabled with it selected, and all other messages are unchanged |
| MainChat.ScreeningChat.HandleQnAResponse | public/static/main.js:107-114 | the question is shown, the input disabled, an empty bot paragraph is added, and the stream opens |
| MainChat.ScreeningChat.Submit | public/static/main.js:177-188 | a question that is blank after trimming, or one typed while the input is hidden or disabled, is ignored and changes nothing; otherwise it goes to the answer stream iff in QnA mode (opening it with a cleared, error-free paragraph), else to screening (leaving the stream and the paragraph alone), and the input is cleared; the mode, step and session are unchanged |
| MainChat.ScreeningChat.OnStreamEvent | public/static/main.js:116-151 | a token appends its fragment (clearing a lone "..."); an answer replaces the text; neither touches the error style; an error replaces it with its plain text and closes the stream; `end` closes the stream and keeps the text; `sources` and unknown types change nothing |
| MainChat.ScreeningChat.OnStreamFailure | public/static/main.js:153-158 | a connection failure shows the apology, closes the stream and re-enables the input |
| MainChat.TokensConcatenate | public/static/main.js:119-127 | a stream of tokens and non-text events into an empty paragraph shows exactly the concatenation of the token fragments |

## Left out

- Base64 decoding (`atob`) is a browser built-in. Its result, or its failure, is a parameter of `HandleAudioChunk`.
- Float32 storage and Web Audio rounding are not modelled: samples are integers, and `Normalized` states the division exactly over `real`.
- `AudioContext`: the model covers createBuffer's refusal of zero channels, zero length or a zero rate. It does not cover the implementation-defined ranges (for example, sample rates outside 3000-768000 Hz), so such buffers are modelled as accepted.
- `AudioContext` timing: `start`/`stop` and the time of `ended` events are abstract events. A source is a number, and "sounding" is a set of sources.
- `new Uint8Array(n)` for n at or above 2^32: allocation limits are not modelled.
- `EventSource`, `fetch` and JSON parsing: events arrive as parsed datatypes (including "empty" and "unparsable"), and replies as `InitReply` / `ScreeningReply`.
- The race in which both `onerror` and `end` call `finalizeResponse` is not modelled. The stream's `close` is a flag.
- A stream payload whose `text` or `content` is not a string is not modelled.
- The catch in `sendToConvai` (`showError`, removing the bot bubble) is not modelled, because the `EventSource` constructor's failure is not modelled.
- DOM construction, CSS classes other than the counter style, `scrollToBottom`, focus and the textarea auto-resize are left out. Page elements that may be missing are boolean constants of `DemoCounter`.
- Timers are left out: the interval, the 300 ms, 2000 ms and 100 ms timeouts, and the DOMContentLoaded wait. Each firing is a method (`Tick`, `FallbackFires`, `RedirectFires`).
- A disabled or hidden button delivers no click, which is browser behaviour. It is modelled as a guard in `DemoCounter.Submit` and `ScreeningChat.Submit`. The Enter-key handlers only forward to the button.
- DemoChatbot.Increment: the counter is an unbounded integer, not a JavaScript double. Beyond 2^53 in magnitude, `++` in the page can leave the number unchanged; the model always adds 1.
- DemoChatbot.LoadStoredCounter: the `toString`/`parseInt` round trip holds in the page only below 10^21 in magnitude. Above that, `toString` writes exponent form (`"-1e+24"`), and it reads back as the leading digits (-1). Only a stored value that the page never writes itself reaches this range.
- Text.ParseIntToString: holds for the model's integers. For a double at or above 10^21 in magnitude, the page's `toString` gives exponent form, which does not round trip.
- `parseInt` is modelled on decimal text with leading white space, an optional sign and trailing garbage. The `0x` hexadecimal prefix and parsing beyond integers are not modelled.
- `textContent` / `innerHTML` are modelled as two kinds of content (`Content`). Markup produced by the page is not re-serialised by a browser parser. The "..." test recognises the two forms in which "..." is set.
- The demo pages' random session id (`Date.now()` and `Math.random()`) and the MutationObserver that rewires demo links are left out.
- `showStartButton`, `cacheElements`, `initialize` and the `window.ConvaiChat` API object are left out. The API's `clearSession` and `stopAudio` reuse `StopAudio`.
- `public/static/avatar.js`, `public/static/script.js`, `public/static/popup.js`, `public/static/contact.js` and `public/static/session-initalizer.js` are not part of this model.
- Wav.ParseWavHeader: requires 36 bytes (the last DataView read) rather than modelling the RangeError. The widget only calls it on chunks longer than 44 bytes.
- Wav.AssemblePcm: a chunk shorter than 44 bytes is not skipped. The declared size undercounts, so the copy throws and the whole assembly fails.
- Wav.SampleAt: a bit depth other than 8 or 16 is not rejected. Every sample is 0.

## Findings

| source | as written | input that shows it | evidently intended | confidence | as-written member | corrected member |
|---|---|---|---|---|---|---|
| public/static/convai-chat.js:313-316 | the `onended` handler of every source sets `currentAudioSource = null`, even when that source was already replaced | a reply is in progress; the API's `clearSession` (public/static/convai-chat.js:485-489) runs; "Start Chat" (lines 144-148) calls `sendToConvai`, which has no `isProcessing` guard, so two replies overlap; the first reply's finalize plays A; the second reply's `playAudioBuffer` stops the live A and plays B; A's `ended` is delivered after B started and clears the handle of B; the next reply's `stopAudio` (line 347) cannot stop B, and C plays over it | clear the handle only when the ended source is still the current one | medium, not executed (a stopped source's `ended` event is always dispatched after `stop`, so the timing is certain once a playing source is cut off directly; the open question is whether two replies overlap, which needs the route above) | ConvaiChat.StaleEndedOverlap | ConvaiChat.StaleEndedIgnored |
