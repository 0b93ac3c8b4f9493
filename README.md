# PROBOTICS chat front-end — a Dafny model

PROBOTICS is a browser chat front-end for a Gemini agent ("the neural core"). A user talks to the agent by text or by voice. The agent may call tools: memory, canvas, calendar, drive, a simulated SSH shell, 3D, a webhook and image generation. Tool output is shown on a canvas panel or in a file viewer, and conversations are kept as saved sessions. This project models the logic at the centre of that front-end and proves properties of it:

- **The response service** (`services/geminiService.ts`).
  - `ProfileMemory`: the learned user profile (long-term memory). It covers the memory tool's ADD / REMOVE / SET update as a method over the stored profile, and the dossier block injected into the system prompt.
  - `SshSimulator`: the simulated shell, a case- and whitespace-insensitive first-prefix-match table.
  - `Orchestrator`: `generateResponse`. It assembles the system instruction, converts the history, strips data-URL headers, chooses the tools from the module flags, and runs the tool loop over the model's function calls. It also covers the fallback text, the grounding sources and the error path. The two `generateContent` requests are taken as inputs.
- **The control bar's voice controller** (`components/ControlBar.tsx`), in `ControlBar`.
  - The command normaliser and classifier.
  - The recognizer handlers (`onstart`, `onend` with its restart timer, `onerror`, `onresult` with its silence timer).
  - The send lock with its unlock timer, `triggerAutoSend`, `handleSend`, the attachment list and `toggleModule`.
  - A class `VoiceControl` holds the component's state and refs. Each handler is a method proved against a pure reaction function, and the invariants are proved about those functions.
- **`pcmToWav`** (`components/ChatInterface.tsx`, and its copy in `components/HelpAssistant.tsx`), in `Wav`. The 44-byte WAV header and the sample buffer are written into `array<byte>`s setter by setter. They are proved equal to a byte-level specification whose fields are read back little-endian.
- **The help assistant's chat** (`components/HelpAssistant.tsx`), in `HelpAssistant`: the send guard, the request handed to the service, the completion, the attachments and the quick-action rule.
- **The application shell** (`App.tsx`), in `App`.
  - The session auto-save: title, kept title, preview and upsert.
  - Creating and deleting sessions and saved identities.
  - The mutually exclusive camera and screen share.
  - The choice of what the canvas shows for a reply.
- **The two viewers** (`components/CanvasPanel.tsx`, `components/FileViewer.tsx`), in `CanvasPanel`, `FileViewer` and `MimeTypes`.
  - The canvas covers its zoom buttons, the document written into its frame (wrapped unless it already is one), and which view and footer engine are shown.
  - The file viewer covers which renderers it shows.

`Types` holds the shared records: messages, attachments, sessions, the agent configuration and the profile. `JsStrings` holds the JavaScript built-ins the code relies on, with their own proved contracts:
- `trim` with ECMAScript white space;
- `toLowerCase`;
- `startsWith`, `endsWith`, `includes`, `substring`, `indexOf`, with positions and lengths counted in Unicode scalar values (see "## Left out");
- `encodeURIComponent`;
- the array built-ins `findIndex` and `filter`.

Calls to the network, the clock and the browser become parameters of the model:
- the model's replies;
- fetched pages, webhook replies and generated images;
- `Date.now()`;
- whether the browser offers speech recognition or screen sharing;
- whether the user grants it.

Timers are modelled as explicit events: the restart timer, the silence timer and the unlock timer.

## Model

| member | source | states |
|---|---|---|
| ProfileMemory.DefaultProfile | services/geminiService.ts:14-21 | the profile used when nothing is stored has no name, style "Neutral" and no dossier data |
| ProfileMemory.UpdateProfileMemory | services/geminiService.ts:30-52 | the mutating update (push / indexOf + splice on the loaded list) returns exactly the profile given by the per-category rule, and the summary `Profile updated: [category] action "item"` |
| ProfileMemory.RemoveFirstIsSplice | services/geminiService.ts:41-43 | splicing out `indexOf(item)` is removing the first occurrence of the item |
| ProfileMemory.RemoveFirstMultiset | services/geminiService.ts:41-43 | removing takes exactly one copy of the item out of the list's multiset, and an absent item leaves the list unchanged |
| ProfileMemory.AddIdempotent | services/geminiService.ts:39-40 | ADD twice equals ADD once; afterwards the item is present, its count unchanged if it was present, else 1 |
| ProfileMemory.SetIsAdd | services/geminiService.ts:44-47 | SET on a list category behaves exactly like ADD |
| ProfileMemory.RemoveSemantics | services/geminiService.ts:41-43 | REMOVE leaves a list without the item unchanged; for a present item it splices out its first occurrence and takes one copy out of the multiset |
| ProfileMemory.RemoveUndoesAdd | services/geminiService.ts:39-43 | removing a just-added absent fact restores the original list |
| ProfileMemory.RemoveFirstKeepsElements | services/geminiService.ts:41-43 | removal introduces no new element and keeps a duplicate-free list duplicate-free |
| ProfileMemory.UpdatePreservesNoDuplicates | services/geminiService.ts:37-47 | every action (ADD, REMOVE, SET, unknown) keeps a duplicate-free list duplicate-free |
| ProfileMemory.ScalarCategoriesOverwrite | services/geminiService.ts:33-36 | `name` and `communicationStyle` are overwritten whatever the action, and nothing else changes |
| ProfileMemory.ListCategoryChangesOnlyItsList | services/geminiService.ts:37-48 | a list category changes only that list, by the list rule; the other fields are unchanged |
| ProfileMemory.UnknownCategoryNoChange | services/geminiService.ts:33-48 | a category that is not a profile field leaves the profile as it was |
| ProfileMemory.BuildContextDossier | services/geminiService.ts:55-72 | the dossier is empty exactly when the profile has no name, skills, facts or preferences, and otherwise starts with its banner |
| ProfileMemory.ProjectsAndStyleAloneGiveNoDossier | services/geminiService.ts:57-59 | project contexts and the communication style alone never produce a dossier |
| ProfileMemory.NamedProfileHasDossier | services/geminiService.ts:61-71 | a profile with a non-empty name has a dossier whose first line after the banner states that name |
| ProfileMemory.LearnedNameInDossier | services/geminiService.ts:33-34 | after the memory tool learns a non-empty name, the dossier exists and states it |
| SshSimulator.FirstMatchSpec | services/geminiService.ts:156-161 | the lookup finds nothing iff no prefix matches; otherwise it returns a matching entry with no matching entry before it |
| SshSimulator.RespondIsTableLookup | services/geminiService.ts:156-163 | the chain of prefix tests equals a first-match lookup in the command table, with bash's "command not found" for the first word otherwise |
| SshSimulator.SimulateIsTableLookup | services/geminiService.ts:153-164 | the simulator answers by table lookup on the trimmed, lower-cased command |
| SshSimulator.NormalizeIdempotent | services/geminiService.ts:154 | normalising a trimmed or lower-cased command gives the same normal form |
| SshSimulator.SimulateIgnoresCaseAndSpacing | services/geminiService.ts:153-164 | surrounding white space and letter case never change the output |
| SshSimulator.UnknownCommandReport | services/geminiService.ts:163 | a command matching no prefix is reported as not found, naming its first word |
| Orchestrator.MemoryAddition | services/geminiService.ts:408-414 | memory adds nothing exactly when memory is off or the profile has no dossier data |
| Orchestrator.WebhookAddition | services/geminiService.ts:416-424 | the webhook adds nothing exactly when the webhook module is off or has no URL |
| Orchestrator.ActiveInstructionExtends | services/geminiService.ts:406-424 | the configured instruction always leads, and it is sent unchanged exactly when neither a dossier nor a webhook is added |
| Orchestrator.ActiveInstructionEndsWithWebhook | services/geminiService.ts:416-422 | a linked webhook's connector block (URL, description or its default) closes the instruction |
| Orchestrator.StripIsSuffix | services/geminiService.ts:437 | the `^data:(.*,)?` replacement only ever removes a prefix |
| Orchestrator.StripDataUrl | services/geminiService.ts:437 | a one-line data-URL header followed by a comma-free payload is removed exactly, leaving the payload |
| Orchestrator.StripLeavesPlainData | services/geminiService.ts:454 | data not starting with `data:` passes through unchanged |
| Orchestrator.HistoryParts | services/geminiService.ts:429-442 | a message becomes its text part followed by one part per attachment, in order |
| Orchestrator.ConvertHistory | services/geminiService.ts:427-443 | the converted history is no longer than the history and holds only USER and MODEL turns |
| Orchestrator.ConvertHistoryAppend | services/geminiService.ts:427-443 | conversion distributes over concatenation, so it keeps the order of the messages |
| Orchestrator.ConvertSingleMessage | services/geminiService.ts:428-442 | one message is dropped iff it is a SYSTEM or TOOL message, and otherwise kept whole |
| Orchestrator.ConvertHistoryKeepsConversation | services/geminiService.ts:427-443 | nothing is dropped iff every message is conversational |
| Orchestrator.CurrentUserParts | services/geminiService.ts:446-459 | the user's turn is the prompt followed by one part per attachment, in order |
| Orchestrator.SelectionSpec | services/geminiService.ts:465-477 | the offered declarations are exactly the enabled ones (the webhook only with a URL), each once, in the fixed order |
| Orchestrator.EnabledAmongMembers | services/geminiService.ts:468-477 | the selection keeps exactly the enabled declarations |
| Orchestrator.EnabledAmongRanked | services/geminiService.ts:468-477 | the selection keeps the declarations in their fixed order |
| Orchestrator.BuildTools | services/geminiService.ts:479-487 | the declarations tool is present iff there are declarations, search iff it is on and then last, and there are at most two tools |
| Orchestrator.FirstRequestTools | services/geminiService.ts:465-487 | the first request offers exactly the enabled declarations in order, and search exactly when it is on |
| Orchestrator.CallEffect | services/geminiService.ts:523-595 | only memory calls change the profile; only canvas and image calls add (at most one) attachment; link, shell, 3D and webhook calls, and only they, set the tool result |
| Orchestrator.ExecuteCall | services/geminiService.ts:524-595 | the imperative loop body for one call computes exactly its effect |
| Orchestrator.ExecuteFunctionCalls | services/geminiService.ts:521-603 | the imperative tool loop ends in the state given by running every call in order |
| Orchestrator.StepParts | services/geminiService.ts:597-602 | one pass appends exactly one function response named after the call |
| Orchestrator.ToolPartsAnswerCalls | services/geminiService.ts:523-603 | the loop answers every call with one function response named after it, in call order |
| Orchestrator.StepIsLocal | services/geminiService.ts:527-595 | what one pass may change, by the kind of call |
| Orchestrator.ProfileOnlyFromMemory | services/geminiService.ts:531-534 | a run of calls with no memory call leaves the profile unchanged |
| Orchestrator.AttachmentsOnlyFromCanvasAndImage | services/geminiService.ts:535-595 | a run with no canvas or image call produces no attachment |
| Orchestrator.ToolResultOnlyFromResultCalls | services/geminiService.ts:545-578 | a run with no link, shell, 3D or webhook call leaves the tool result as it was |
| Orchestrator.AttachmentsOnlyGrow | services/geminiService.ts:537-589 | generated attachments are never removed: the list before is a prefix of the list after |
| Orchestrator.FinalText | services/geminiService.ts:615-625 | the text is never empty; it is the model's text unless that is empty or says "Standing by", in which case it is the canvas or the idle message |
| Orchestrator.FinalTextIdempotent | services/geminiService.ts:619-625 | applying the fallback to its own result changes nothing |
| Orchestrator.WebSources | services/geminiService.ts:628-634 | the grounding sources are exactly the web entries among the chunks |
| Orchestrator.WebSourcesAppend | services/geminiService.ts:628-634 | the sources of two runs of chunks are those of the first followed by those of the second, so the chunks' order is kept |
| Orchestrator.FailedImageShowsIdle | services/geminiService.ts:591-624 | after a failed image generation and a second reply without text, the user is shown only the idle message, with no sources, attachments or tool result |
| Orchestrator.TurnRequests | services/geminiService.ts:397-613 | without a key the turn throws, makes no request and stores nothing; otherwise the first request is the assembled one, and a second follows iff the reply had calls, with the same settings and the first contents extended by the model turn and one response per call, named after it, in order |
| Orchestrator.TurnAnswers | services/geminiService.ts:615-637 | a turn returns a response iff the key is present, and the text of a returned response is never empty |
| Orchestrator.TurnKeepsProfile | services/geminiService.ts:519-613 | a turn whose reply asks for no memory call leaves the stored profile as it was |
| Orchestrator.TurnReportsFailure | services/geminiService.ts:639-642 | a failed request is returned as `Error: message`, with no sources, no attachments and no tool result |
| Orchestrator.AnswerFirstReply | services/geminiService.ts:517-642 | the part after the first request, as an imperative procedure, yields exactly the turn the specification defines |
| Orchestrator.GenerateResponse | services/geminiService.ts:384-644 | the whole procedure yields exactly the specified turn: outcome, requests made and profile stored |
| ControlBar.RemovePunctuation | components/ControlBar.tsx:207 | the result is no longer than the input and holds no '.', ',' or '!' |
| ControlBar.RemovePunctuationAppend | components/ControlBar.tsx:207 | removing punctuation distributes over concatenation |
| ControlBar.RemovePunctuationKeepsPlain | components/ControlBar.tsx:207 | a string without punctuation is left as it is |
| ControlBar.NormalizeDropsTrailingPunctuation | components/ControlBar.tsx:207 | a lower-case command word followed by punctuation normalises to the word |
| ControlBar.AllPunctuationVanishes | components/ControlBar.tsx:207 | a run of punctuation is removed entirely |
| ControlBar.ClassifyCommandSpec | components/ControlBar.tsx:210-249 | an input is a command iff its normal form is one of the known words, and continuous mode is only recognised from typed text |
| ControlBar.NoFinalNoChunk | components/ControlBar.tsx:166-171 | results none of which is final contribute no text |
| ControlBar.CollectStep | components/ControlBar.tsx:166-171 | one more result extends the collected text by its transcript iff it is final |
| ControlBar.CollectFinal | components/ControlBar.tsx:162-171 | the loop returns the concatenated final transcripts of the new results and whether there was one |
| ControlBar.AppendChunkSpec | components/ControlBar.tsx:181-187 | the text ends with the chunk afterwards, appending the same chunk twice is appending it once, and a new chunk is joined with one space when the text was not empty |
| ControlBar.AutoSendSpec | components/ControlBar.tsx:253-278 | auto-send does nothing iff the lock is held, a response is loading or there is nothing to send; otherwise it sends exactly the trimmed text and the attachments, clears both, takes the lock and leaves the listening flags alone |
| ControlBar.AutoSendKeepsLockReleasable | components/ControlBar.tsx:265-277 | auto-send takes the lock only together with an unlock timer |
| ControlBar.AutoSendWhileLocked | components/ControlBar.tsx:256-258 | auto-send on a held lock changes nothing |
| ControlBar.ToggleCommandsRequestOnlyWhenNeeded | components/ControlBar.tsx:221-241 | a toggling command never changes the controller's state; it asks for nothing iff its target already holds, and otherwise for exactly one toggle |
| ControlBar.CommandKeepsListeningAndLock | components/ControlBar.tsx:221-247 | every command but continuous mode keeps the lock releasable and keep-listening unchanged |
| ControlBar.ResultsKeepListeningAndLock | components/ControlBar.tsx:150-195 | a speech result keeps the lock releasable, never changes keep-listening and never restarts the recognizer |
| ControlBar.ChunkKeepsListeningAndLock | components/ControlBar.tsx:175-189 | a speech chunk keeps the lock releasable and never changes keep-listening |
| ControlBar.ResultsIgnoredWhileBusy | components/ControlBar.tsx:154-157 | speech while the lock is held or a response is loading only cancels the silence timer |
| ControlBar.CommandChunkNotAppended | components/ControlBar.tsx:177-179 | a spoken command never reaches the input text |
| ControlBar.PlainChunkAppended | components/ControlBar.tsx:179-187 | a spoken chunk that is not a command is appended to the idle input, and nothing else changes |
| ControlBar.ManualSendKeepsLockReleasable | components/ControlBar.tsx:310-331 | a manual send always sets the unlock timer with the lock |
| ControlBar.NormalizedCommandNotBlank | components/ControlBar.tsx:207 | an input that normalises to a word is not blank |
| ControlBar.TypedSendCommandSendsNothing | components/ControlBar.tsx:314-321 | typing "enviar" and sending it sends no message (the lock is already held) and only clears the input |
| ControlBar.LockedSendNow | components/ControlBar.tsx:244-246 | the send command on a held lock only clears the input and sets the unlock timer |
| ControlBar.TypedStartCommand | components/ControlBar.tsx:212-218 | typing a continuous-mode word turns keep-listening on, clears the input, keeps the attachments, and starts recognition exactly when not listening and speech is available |
| ControlBar.SendWordsAreSendCommands | components/ControlBar.tsx:244 | "enviar" and "enviar mensaje" name the send command, typed or spoken |
| ControlBar.StartWordsAreStartCommands | components/ControlBar.tsx:212 | "iniciar", "activar voz" and "modo continuo" name continuous mode when typed |
| ControlBar.TypedMessageSent | components/ControlBar.tsx:324-330 | a typed non-command is sent as typed with the attachments, and input and attachments are cleared |
| ControlBar.ManualSendIgnoresLock | components/ControlBar.tsx:310-331 | a typed non-command is sent even while the send lock is held, since `handleSend` checks only the input and the loading flag |
| ControlBar.FlipSpec | components/ControlBar.tsx:380 | flipping negates the named module flag and no other |
| ControlBar.ToggleModule | components/ControlBar.tsx:374-384 | a configuration is reported iff there is one and a handler; only its module flags differ |
| ControlBar.ToggleTwiceRestores | components/ControlBar.tsx:374-384 | toggling a module twice gives back the configuration |
| ControlBar.VoiceControl.constructor | components/ControlBar.tsx:49-63 | the controller starts idle: no text, no attachments, not listening, no lock, no timers |
| ControlBar.VoiceControl.StartRecognition | components/ControlBar.tsx:101-203 | asks for a recognizer exactly when the browser has one, and changes no state |
| ControlBar.VoiceControl.OnStart | components/ControlBar.tsx:115-117 | the listening flag is set |
| ControlBar.VoiceControl.OnEnd | components/ControlBar.tsx:119-139 | a restart is scheduled iff keep-listening is on; otherwise listening stops and the silence timer is cancelled |
| ControlBar.VoiceControl.OnRestartTimeout | components/ControlBar.tsx:124-134 | the recognizer restarts only if keep-listening is still on |
| ControlBar.VoiceControl.OnError | components/ControlBar.tsx:141-148 | a permission error turns keep-listening and listening off; any other error changes nothing |
| ControlBar.VoiceControl.TriggerAutoSend | components/ControlBar.tsx:253-278 | the new state and requests are those of the auto-send reaction |
| ControlBar.VoiceControl.ProcessDynamicCommands | components/ControlBar.tsx:206-250 | reports whether the normalised input was a command, and runs it |
| ControlBar.VoiceControl.RunCommand | components/ControlBar.tsx:210-247 | the new state and requests are those of the command reaction |
| ControlBar.VoiceControl.OnResult | components/ControlBar.tsx:150-195 | the new state and requests are those of the result reaction, and the controller stays valid |
| ControlBar.VoiceControl.HandleChunk | components/ControlBar.tsx:175-189 | the new state and requests are those of the chunk reaction |
| ControlBar.VoiceControl.OnSilenceTimeout | components/ControlBar.tsx:192-194 | the silence timer fires auto-send |
| ControlBar.VoiceControl.OnUnlockTimeout | components/ControlBar.tsx:275-277 | an unlock timer releases the lock and nothing else |
| ControlBar.VoiceControl.ToggleVoiceInput | components/ControlBar.tsx:281-301 | while listening, keep-listening, listening and the silence timer go off; otherwise, with speech available, keep-listening goes on and recognition starts |
| ControlBar.VoiceControl.HandleSend | components/ControlBar.tsx:310-331 | the new state and requests are those of the manual send reaction |
| ControlBar.VoiceControl.SendLocked | components/ControlBar.tsx:316-330 | once the lock is taken, a command runs and only clears the input, or the message is sent |
| ControlBar.VoiceControl.AddAttachment | components/ControlBar.tsx:352-361 | the read file is appended to the attachments, nothing else changes |
| ControlBar.VoiceControl.RemoveAttachment | components/ControlBar.tsx:370-372 | exactly the attachment at that index is dropped, nothing else changes |
| Wav.ReadWritten | components/ChatInterface.tsx:39-50 | reading back a little-endian field gives its value modulo 256^n (the `DataView` wrap-around) |
| Wav.ReadWrittenSmall | components/ChatInterface.tsx:42-48 | a value that fits is read back unchanged |
| Wav.TagBytes | components/ChatInterface.tsx:38-49 | the tags write the ASCII bytes of "RIFF", "WAVE", "fmt " and "data" |
| Wav.CharCodesOfBinary | components/ChatInterface.tsx:26-28 | each byte of the sample buffer is the character code of the binary string |
| Wav.WavFileLayout | components/ChatInterface.tsx:21-53 | the file is a 44-byte header followed by the samples one for one |
| Wav.WavTags | components/ChatInterface.tsx:38-49 | the four tags sit at offsets 0, 8, 12 and 36 |
| Wav.WavSizes | components/ChatInterface.tsx:39-50 | the RIFF size is 36 + len and the data size is len, both modulo 2^32 |
| Wav.WavFormatHead | components/ChatInterface.tsx:42-44 | the fmt chunk has size 16, format 1 (PCM) and one channel |
| Wav.WavFormatRates | components/ChatInterface.tsx:45-48 | sample rate, byte rate twice the rate, block alignment 2, 16 bits per sample |
| Wav.WavFormatConsistent | components/ChatInterface.tsx:42-48 | block alignment is channels × bits / 8 and the byte rate is rate × alignment (modulo 2^32), as the WAV format requires |
| Wav.WavDefaultRate | components/ChatInterface.tsx:21 | at the default 24000 Hz the rate field reads 24000 and the byte rate 48000 |
| Wav.WriteString | components/ChatInterface.tsx:32-36 | the string's character codes are written at the offset, everything before is kept |
| Wav.SetUint32 | components/ChatInterface.tsx:39 | the four little-endian bytes of the value are written at the offset |
| Wav.SetUint16 | components/ChatInterface.tsx:43 | the two little-endian bytes of the value are written at the offset |
| Wav.WriteRiffPart | components/ChatInterface.tsx:38-40 | offsets 0 to 11 hold the RIFF part |
| Wav.WriteFormatHead | components/ChatInterface.tsx:41-44 | offsets 12 to 23 hold the fmt head, earlier bytes kept |
| Wav.WriteFormatRates | components/ChatInterface.tsx:45-48 | offsets 24 to 35 hold the rates, earlier bytes kept |
| Wav.WriteDataPart | components/ChatInterface.tsx:49-50 | offsets 36 to 43 hold the data part, earlier bytes kept |
| Wav.WriteHeader | components/ChatInterface.tsx:30-50 | the header buffer equals the specified 44-byte header |
| Wav.CopySamples | components/ChatInterface.tsx:24-28 | the sample buffer holds the character codes of the binary string |
| Wav.PcmToWav | components/HelpAssistant.tsx:8-41 | the bytes of the produced file are exactly the specified WAV file (header from the byte spec, then the samples) |
| HelpAssistant.HelpChat.HandleSend | components/HelpAssistant.tsx:110-131 | with nothing to send or a request in flight nothing happens and no request is made; otherwise the message is appended, input and attachments cleared, processing starts, and the request carries the history ending in the new message |
| HelpAssistant.HelpChat.SendInput | components/HelpAssistant.tsx:110-131 | the send button makes a request iff the guard allows it; then the input becomes a user message with the attachments, input and attachments are cleared, processing starts and the request carries the input and the history ending in that message; otherwise nothing changes |
| HelpAssistant.HelpChat.Complete | components/HelpAssistant.tsx:136-148 | a successful reply is appended as the assistant's message, a failure appends nothing, and processing stops either way |
| HelpAssistant.HelpChat.RemoveAttachment | components/HelpAssistant.tsx:275 | exactly the attachment at that index is dropped |
| HelpAssistant.HelpChat.AddAttachment | components/HelpAssistant.tsx:155-162 | the uploaded file is appended, flagged as text iff its type mentions text or JSON |
| HelpAssistant.SendHidesQuickActions | components/HelpAssistant.tsx:251 | after a send the quick actions are hidden |
| HelpAssistant.ReplyShowsQuickActions | components/HelpAssistant.tsx:251 | after the user's message, the quick actions return iff a reply arrives |
| App.Shell.constructor | App.tsx:16-39 | the shell starts with no messages, sessions or identities, camera, screen share and canvas off |
| App.Shell.AutoSave | App.tsx:82-109 | with a current session and messages, the session list becomes the upsert of the saved session; otherwise it is unchanged; nothing else changes |
| App.Shell.CreateSession | App.tsx:127-140 | a fresh "New Session" is appended and made current, and the messages are cleared |
| App.Shell.DeleteSession | App.tsx:148-157 | every session with the id is dropped; deleting the current session then creates a fresh one |
| App.Shell.DeleteAgent | App.tsx:184-187 | every saved identity with the id is dropped, nothing else changes |
| App.Shell.ToggleScreenShare | App.tsx:190-230 | unsupported: nothing; active: sharing stops; otherwise the camera goes off and sharing is on iff granted; camera and sharing are never both on |
| App.Shell.ScreenShareEnded | App.tsx:219-222 | the browser's stop button turns sharing off, camera unchanged |
| App.Shell.ToggleCamera | App.tsx:233-239 | the camera flips; turning it on stops an active screen share, so afterwards the screen is never shared |
| App.Shell.ShowReplyAttachments | App.tsx:434-437 | a reply with attachments opens the canvas on the chosen attachment; none leaves it alone |
| App.DerivedTitleShape | App.tsx:87-88 | the title is the first 30 characters of the first user message, followed by "..." iff the message has at least 30, or "New Session" when there is no such text |
| App.TitleFixedByFirstUserMessage | App.tsx:87 | once a user message exists, later messages never change the derived title |
| App.NoUserMessageTitle | App.tsx:88 | a conversation without a user message is titled "New Session" |
| App.KeptTitleRule | App.tsx:92 | an existing non-empty title other than "New Session" survives; a session not yet listed, still called "New Session" or with an empty title takes the derived title |
| App.SavedSessionContents | App.tsx:90-96 | the saved session has the id, the messages and the time, and its preview is a prefix of the last message of at most 50 characters, the whole message when it is short |
| App.UpsertReplacesOrAppends | App.tsx:98-103 | the session with the same id is replaced in place, or it is appended |
| App.UpsertKeepsIdsUnique | App.tsx:98-103 | after the upsert the session occurs once and distinct ids stay distinct |
| App.DeleteSessionRemovesAll | App.tsx:150 | exactly the sessions with another id remain, and a list without the id is unchanged |
| App.DeleteSessionKeepsOrder | App.tsx:150 | deletion distributes over concatenation, so the remaining sessions keep their order |
| App.DeleteAgentRemovesAll | App.tsx:185 | exactly the identities with another id remain |
| App.CanvasChoiceRule | App.tsx:435 | something is shown iff there are attachments: the first 3D model or image among them, else the first attachment |
| MimeTypes.MimeTestsExclusive | components/FileViewer.tsx:12-19 | the PDF, HTML, SVG and image tests exclude one another (SVG is never an image) |
| CanvasPanel.Canvas.constructor | components/CanvasPanel.tsx:12 | the panel starts at 100 percent with nothing written |
| CanvasPanel.Canvas.ZoomIn | components/CanvasPanel.tsx:89 | the "+" button gives `min(200, z + 10)` and keeps the zoom valid |
| CanvasPanel.Canvas.ZoomOut | components/CanvasPanel.tsx:87 | the "-" button gives `max(50, z - 10)` and keeps the zoom valid |
| CanvasPanel.Canvas.ContentChanged | components/CanvasPanel.tsx:15-64 | the frame document is written iff the content is HTML or SVG and the frame's document is reachable, and then it is the content's frame document; otherwise the frame is left alone |
| CanvasPanel.ZoomStaysValid | components/CanvasPanel.tsx:87-89 | both buttons keep 50 to 200 percent in steps of 10, and at the ends they do nothing |
| CanvasPanel.ZoomButtonsUndo | components/CanvasPanel.tsx:87-89 | away from the ends one button undoes the other |
| CanvasPanel.ZoomAfterValid | components/CanvasPanel.tsx:87-89 | any run of clicks keeps a valid zoom valid |
| CanvasPanel.InitialZoomReachesOnlyValid | components/CanvasPanel.tsx:12 | from the initial 100 percent only valid levels are reached |
| CanvasPanel.WrappedEmbedsContent | components/CanvasPanel.tsx:27-58 | a wrapped document holds the content unchanged right after `<body>` and right before `</body>` |
| CanvasPanel.WholeDocumentUnchanged | components/CanvasPanel.tsx:24-26 | content that trimmed and lower-cased starts with a doctype or `<html` is written as it is |
| CanvasPanel.LowerDoctype | components/CanvasPanel.tsx:26-28 | the wrapper's doctype, lower-cased, is the one the wrap test looks for |
| CanvasPanel.FrameDocumentIdempotent | components/CanvasPanel.tsx:24-58 | a written document is never wrapped again |
| CanvasPanel.ExactlyOneView | components/CanvasPanel.tsx:101-142 | exactly one view is shown; the unsupported notice iff the content is not code, image or PDF; the frame iff it is code |
| CanvasPanel.FooterMatchesView | components/CanvasPanel.tsx:150 | the footer names HTML5_WEBKIT iff the frame is shown and IMAGE_PROCESSOR iff the picture is |
| FileViewer.NoFileNothingShown | components/FileViewer.tsx:10 | without a file nothing is rendered |
| FileViewer.HtmlAndSvgUseFrame | components/FileViewer.tsx:59 | HTML and SVG go to the frame and nowhere else, never to the text block |
| FileViewer.UnsupportedWhenNothingApplies | components/FileViewer.tsx:87 | the unsupported notice appears iff no other renderer applies, and then alone |
| FileViewer.OneRendererUnlessFlaggedText | components/FileViewer.tsx:43-91 | a file is always shown, by one renderer, except a PDF or image flagged as text, which also shows its text |

## Left out

- Network calls are not modelled; their replies are parameters of the model. This covers `generateContent`, `fetchUrlContent`, `sendToWebhook` and `generateImage`. How the two replies of a turn arise is not modelled.
- `enhanceUserPrompt` and `synthesizeSpeech` are independent service calls, left out for the same reason.
- Local storage is not modelled; the stored profile is passed in and the profile to store is passed out. This covers the profile, the sessions, the last session id and the agent library, including the mount-time load in `App.tsx`. The JSON parse fallback is not modelled either.
- The terminal log (`onTerminalLog`, `addTerminalLog`) has no effect on the modelled state and is left out.
- Floating point is left out: temperature, avatar scale and media volume.
- The zoom's CSS scale is left out.
- The camera and screen streams, `captureFrame`, `atob`, `Blob`, `URL.createObjectURL` and `FileReader` are browser APIs.
  - `pcmToWav` is modelled from the decoded binary string to the bytes of the file.
  - Uploads are modelled from the file once it is read.
- Rendering is left out: the markup, styles, menus and modals. What is shown is modelled as lists of views and renderers.
- The canvas wrapper's style sheet and line layout are not reproduced. The model keeps its structure: a doctype, `html`, a `head` with a UTF-8 `meta`, and a `body` around the data.
- Real timers are modelled as events the environment delivers: the 150 ms restart, the 2000 ms silence timer, and the 800 ms and 500 ms unlocks. Their durations and interleaving are not.
- `toLowerCase` is modelled for ASCII and Latin-1 letters only. That is enough for the command words ("cámara") and MIME types.
- A tool argument the model leaves out reads as "" rather than `undefined`. Two turns come out differently because of this; the next two lines describe them.
- Orchestrator.TurnRequests and Orchestrator.CallEffect: an `aura_ssh_command` call without `command` makes the source call `trim` on `undefined` (services/geminiService.ts:561, into the simulator at line 154). That throws, and the turn ends at the catch (lines 639-642) with "Error: " and the exception's message, after the first request only. The model instead answers "bash: : command not found" and sends the second request, so on that input a second request follows the calls in the model but not in the source.
- Orchestrator.CallEffect: a `google_calendar` call without `title` puts "undefined" into the link's `text` parameter and its tool result has no title (services/geminiService.ts:548-549). The model puts "" in both. Missing `startDateTime` or `endDateTime` likewise read as "undefined" in `dates` in the source and as "" in the model.
- Strings are sequences of Unicode scalar values, while JavaScript's `length` and `substring` count UTF-16 code units. Lengths and positions therefore agree with the source only for text inside the Basic Multilingual Plane. Beyond it a character counts once in the model and twice in the source, and the source's `substring` can split a surrogate pair, which the model cannot.
- App.DerivedTitleShape: its 30 characters are Unicode scalar values, not the UTF-16 code units that `substring(0, 30)` and `length` count in `App.tsx:87-88`. For a first message with characters outside the Basic Multilingual Plane the title differs: "😀" followed by 40 "a" gives "😀", 29 "a" and "..." in the model, but "😀", 28 "a" and "..." in the source.
- App.SavedSessionContents: its 50-character preview counts Unicode scalar values, not the UTF-16 code units that `substring(0, 50)` counts in `App.tsx:95`, so the preview of a last message with characters outside the Basic Multilingual Plane differs in the same way.
- App.Shell.ToggleScreenShare: the `await` on `getDisplayMedia` (App.tsx:208-216) is modelled as atomic, with the user's answer as the `granted` parameter. A camera toggle that arrives while the picker is open, for instance the spoken "cámara" (components/ControlBar.tsx:222-223), is not modelled. In the source it can leave the camera and the screen share both on. App.Shell.Valid therefore covers only the events the model has, with the share request taken as one step.
- ControlBar: the handlers read the current state through refs. The few places that read React state captured by a closure are modelled as reading the current state, so stale closures are not modelled.
- ControlBar: the `alert` shown when speech recognition is missing is not modelled. Neither is `abort()` on a previous recognizer instance.
- ControlBar.VoiceControl.AddAttachment takes the attachment as read. Its `isText` rule (text, json or javascript) is not modelled.
- The agent loop in `App.tsx` is not modelled: `handleSendMessage` outside the canvas selection, `handleLoadSession`, `handleLoadAgent`, `handleSaveAgent`, `handleClearMemory` and `handleAvatarUpload`. These cover camera frame capture, text-to-speech, the 3D template and the error message.
- HelpAssistant: the welcome message, the spoken welcome and the quick-action texts are not modelled. The copy of `pcmToWav` in `components/HelpAssistant.tsx` is identical to the one in `components/ChatInterface.tsx`, and both are modelled by `Wav.PcmToWav`.
- Orchestrator.LastIndexOf and Orchestrator.FirstLineLength stand for the regular-expression engine on `^data:(.*,)?`. They model only that pattern, by greedy match, with `.` excluding line terminators.
- The declarations' parameter schemas and the safety settings are fixed data sent to the API. They are not modelled.
- Orchestrator.CallEffect: the webhook payload `data` is an object in the source (services/geminiService.ts:292-297). It is sent as `JSON.stringify(payload)` (line 94), kept as the tool result's `payload` (line 576) and shown through `JSON.stringify` (components/ChatInterface.tsx:258). The model abstracts it to a string argument, read as "" when missing, and does not model its structure or its JSON encoding.
- CanvasPanel.Canvas.ContentChanged: whether the frame is mounted and its `contentDocument` is non-null (components/CanvasPanel.tsx:16-18) depends on the browser, so it is the parameter `frameReachable`. The frame's unmounting while other content is shown is not modelled; `frameDocument` keeps the last write.

## Notes on the code

- `handleSend` in `components/ControlBar.tsx` takes the send lock before it runs the command processor. A typed "enviar" therefore reaches `triggerAutoSend` with the lock already held. It clears the input and sends nothing (`ControlBar.TypedSendCommandSendsNothing`).
- The session title in `App.tsx` comes from the first user message even when that message is empty. In that case it is "New Session". An existing empty title is replaced, because `||` treats "" as missing (`App.KeptTitleRule`).
- `handleSend` in `components/ControlBar.tsx:310-331` does not check the send lock; only the automatic send of recognised speech does. A typed message sent while an earlier send still holds the 500 ms or 800 ms lock still goes out, as long as no response is loading (`ControlBar.ManualSendIgnoresLock`).
- When `generate_image` fails (services/geminiService.ts:591-594), only the model is told to inform the user. If the second reply then has no text, the fallback at lines 621-624 shows "Operation completed. Standing by.", which says nothing of the failure (`Orchestrator.FailedImageShowsIdle`).
- The canvas frame in `components/CanvasPanel.tsx` is sandboxed with `allow-scripts` only (line 116), so its document plausibly has an opaque origin and `contentDocument` is null for the page. In that case the effect at lines 15-64 never writes HTML or SVG into the frame (`CanvasPanel.Canvas.ContentChanged` with `frameReachable` false leaves the frame alone).
- `components/FileViewer.tsx` shows the text block next to the PDF or image renderer when such a file has `isText` set (`FileViewer.OneRendererUnlessFlaggedText`).
