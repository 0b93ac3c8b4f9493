/**
 * The voice and command controller of the control bar
 * (components/ControlBar.tsx).
 *
 * The controller is an event-driven state machine. Its state is the
 * keep-listening flag, the listening flag, the send lock, the pending timers
 * (silence, unlock, restart), the input text and the pending attachments.
 * Its events are the recognizer's callbacks (start, end, error, results), the
 * timers falling due, and the user's buttons. What it asks of the outside
 * world (start or stop the recognizer, send a message, toggle the camera,
 * the screen share or the terminal) is appended to an outbox.
 *
 * `Bar` is the state as a value and the functions below give the reaction
 * of the non-trivial handlers; the class `VoiceControl` holds the state in
 * fields and has one method per handler of the component, each proved to do
 * what its function says.
 */
module ControlBar {
  import opened Types
  import opened JsStrings

  // ---------------------------------------------------------------------------
  // Command normalisation and classification

  predicate IsPunctuation(c: char) {
    c == '.' || c == ',' || c == '!'
  }

  /** Every '.', ',' and '!' removed, the other characters kept in order. */
  function RemovePunctuation(s: string): (r: string)
    ensures |r| <= |s|
    ensures forall i :: 0 <= i < |r| ==> !IsPunctuation(r[i])
  {
    if s == [] then []
    else (if IsPunctuation(s[0]) then [] else [s[0]]) + RemovePunctuation(s[1..])
  }

  /** Removing punctuation distributes over concatenation. */
  lemma {:induction false} RemovePunctuationAppend(a: string, b: string)
    ensures RemovePunctuation(a + b) == RemovePunctuation(a) + RemovePunctuation(b)
  {
    if a != [] {
      assert (a + b)[0] == a[0];
      assert (a + b)[1..] == a[1..] + b;
      RemovePunctuationAppend(a[1..], b);
    } else {
      assert a + b == b;
    }
  }

  /** A string without punctuation is left as it is. */
  lemma {:induction false} RemovePunctuationKeepsPlain(s: string)
    requires forall i :: 0 <= i < |s| ==> !IsPunctuation(s[i])
    ensures RemovePunctuation(s) == s
  {
    if s != [] {
      RemovePunctuationKeepsPlain(s[1..]);
      assert [s[0]] + s[1..] == s;
    }
  }

  /** The command an input stands for: lower-cased, trimmed, then without punctuation. */
  function NormalizeCommand(input: string): string {
    RemovePunctuation(Trim(ToLower(input)))
  }

  /** Lowercasing leaves a lowercase word followed by punctuation as it is. */
  lemma LowerWordWithMarks(word: string, marks: string)
    requires ToLower(word) == word
    requires forall i :: 0 <= i < |marks| ==> IsPunctuation(marks[i])
    ensures ToLower(word + marks) == word + marks
  {
    var s := word + marks;
    forall i | 0 <= i < |s|
      ensures ToLower(s)[i] == s[i]
    {
      if i < |word| {
        assert s[i] == word[i] && ToLower(word)[i] == LowerChar(word[i]);
      } else {
        assert IsPunctuation(marks[i - |word|]);
      }
    }
  }

  /** A command word followed by punctuation ("Enviar.", "cámara!") normalises
      to the word itself. */
  lemma NormalizeDropsTrailingPunctuation(word: string, marks: string)
    requires word != [] && !IsWhitespace(word[0]) && !IsWhitespace(word[|word| - 1])
    requires ToLower(word) == word
    requires forall i :: 0 <= i < |word| ==> !IsPunctuation(word[i])
    requires forall i :: 0 <= i < |marks| ==> IsPunctuation(marks[i])
    ensures NormalizeCommand(word + marks) == word
  {
    var s := word + marks;
    LowerWordWithMarks(word, marks);
    assert Trim(s) == s by {
      var last := if marks == [] then word[|word| - 1] else marks[|marks| - 1];
      assert s[0] == word[0] && s[|s| - 1] == last;
      TrimOfUnpadded(s);
    }
    RemovePunctuationAppend(word, marks);
    RemovePunctuationKeepsPlain(word);
    AllPunctuationVanishes(marks);
  }

  lemma {:induction false} AllPunctuationVanishes(marks: string)
    requires forall i :: 0 <= i < |marks| ==> IsPunctuation(marks[i])
    ensures RemovePunctuation(marks) == []
  {
    if marks != [] {
      AllPunctuationVanishes(marks[1..]);
    }
  }

  /** Where an input comes from: typed and sent, or recognised from speech. */
  datatype Source = Typed | Spoken

  /** The commands the processor knows. */
  datatype Command = StartContinuous | CameraOn | CameraOff | ShareScreen | OpenTerminal | SendNow | NoCommand

  const StartWords: seq<string> := ["iniciar", "activar voz", "modo continuo"]
  const CameraOnWords: seq<string> := ["cámara", "camara", "activar cámara", "prender cámara"]
  const CameraOffWords: seq<string> := ["apagar cámara", "detener cámara"]
  const ScreenWords: seq<string> := ["pantalla", "compartir pantalla"]
  const TerminalWords: seq<string> := ["terminal", "abrir terminal"]
  const SendWords: seq<string> := ["enviar", "enviar mensaje"]

  /** The command a normalised input names, tested in the processor's order;
      the continuous-mode words count only when typed. Matching is exact. */
  function ClassifyCommand(command: string, source: Source): Command {
    if source == Typed && command in StartWords then StartContinuous
    else if command in CameraOnWords then CameraOn
    else if command in CameraOffWords then CameraOff
    else if command in ScreenWords then ShareScreen
    else if command in TerminalWords then OpenTerminal
    else if command in SendWords then SendNow
    else NoCommand
  }

  /** Every word the processor recognises from `source`. */
  function KnownWords(source: Source): seq<string> {
    (if source == Typed then StartWords else []) + CameraOnWords + CameraOffWords + ScreenWords + TerminalWords + SendWords
  }

  /** An input is a command exactly when its normalised form is one of the
      known words, and speech never switches continuous mode on. */
  lemma ClassifyCommandSpec(command: string, source: Source)
    ensures ClassifyCommand(command, source) != NoCommand <==> command in KnownWords(source)
    ensures ClassifyCommand(command, source) == StartContinuous ==> source == Typed
  {
  }

  // ---------------------------------------------------------------------------
  // The controller as a value

  /** The parent's props the handlers read. */
  datatype Props = Props(isCameraActive: bool, isScreenShareActive: bool, isTerminalOpen: bool, isLoading: bool)

  /** The controller's state. `pendingUnlocks` and `pendingRestarts` count the
      unlock and restart timers that have not fired yet. */
  datatype Bar = Bar(
    keepListening: bool,
    listening: bool,
    sending: bool,
    silenceTimer: bool,
    pendingUnlocks: nat,
    pendingRestarts: nat,
    inputText: string,
    attachments: seq<Attachment>)

  /** What the controller asks of the outside world. */
  datatype Notice =
    | Listen
    | StopListening
    | SendMessage(text: string, attachments: seq<Attachment>)
    | ToggleCamera
    | ToggleScreenShare
    | ToggleTerminal

  datatype Reaction = Reaction(after: Bar, notices: seq<Notice>)

  /** One transcript of a recognition result (its first alternative) and whether it is final. */
  datatype SpeechResult = SpeechResult(transcript: string, isFinal: bool)

  /** The state before any event. */
  const Idle := Bar(false, false, false, false, 0, 0, "", [])

  /** A held send lock always has an unlock timer pending, so it is always released. */
  predicate LockReleasable(s: Bar) {
    s.sending ==> s.pendingUnlocks > 0
  }

  /** The results not yet seen: from `resultIndex` on. */
  function Pending(results: seq<SpeechResult>, resultIndex: nat): seq<SpeechResult> {
    if resultIndex <= |results| then results[resultIndex..] else []
  }

  /** The final transcripts of `rs`, concatenated in order. */
  function FinalChunk(rs: seq<SpeechResult>): string {
    if rs == [] then ""
    else FinalChunk(rs[..|rs| - 1]) + (if rs[|rs| - 1].isFinal then rs[|rs| - 1].transcript else "")
  }

  predicate AnyFinal(rs: seq<SpeechResult>) {
    exists i :: 0 <= i < |rs| && rs[i].isFinal
  }

  /** Results none of which is final contribute no text. */
  lemma {:induction false} NoFinalNoChunk(rs: seq<SpeechResult>)
    requires !AnyFinal(rs)
    ensures FinalChunk(rs) == ""
  {
    if rs != [] {
      var init := rs[..|rs| - 1];
      assert forall i :: 0 <= i < |init| ==> init[i] == rs[i];
      NoFinalNoChunk(init);
    }
  }

  /** The input text with a recognised chunk appended: not again when the text
      already ends with it, after a single space when the text is not empty. */
  function AppendChunk(prev: string, chunk: string): string {
    if EndsWith(prev, chunk) then prev
    else prev + (if |prev| > 0 then " " else "") + chunk
  }

  /** The text always ends with the chunk afterwards, appending the same chunk
      again changes nothing, and otherwise the chunk is appended after "" or " ". */
  lemma AppendChunkSpec(prev: string, chunk: string)
    ensures EndsWith(AppendChunk(prev, chunk), chunk)
    ensures AppendChunk(AppendChunk(prev, chunk), chunk) == AppendChunk(prev, chunk)
    ensures !EndsWith(prev, chunk) ==>
      exists sep :: (sep == "" <==> prev == "") && (sep == "" || sep == " ") && AppendChunk(prev, chunk) == prev + sep + chunk
  {
    var sep := if |prev| > 0 then " " else "";
    if !EndsWith(prev, chunk) {
      PrefixOfConcat(prev + sep, chunk);
      assert AppendChunk(prev, chunk) == prev + sep + chunk;
    }
  }

  /** `startRecognition`: asks for a recognizer when the browser has one. */
  function StartRecognitionNotices(available: bool): seq<Notice> {
    if available then [Listen] else []
  }

  /** `triggerAutoSend`: nothing while the lock is held, a response is loading,
      or there is neither text nor attachment; otherwise the trimmed text and
      the attachments are sent, the input is cleared and the lock is taken
      until an unlock timer fires. */
  function AutoSend(s: Bar, props: Props): Reaction {
    if s.sending || props.isLoading then Reaction(s, [])
    else
      var text := Trim(s.inputText);
      if text == "" && s.attachments == [] then Reaction(s, [])
      else
        Reaction(
          s.(sending := true, inputText := "", attachments := [], pendingUnlocks := s.pendingUnlocks + 1),
          [SendMessage(text, s.attachments)])
  }

  /** Auto-send does nothing exactly when the lock is held, a response is
      loading or there is nothing to send; otherwise it sends the trimmed text
      and the attachments, clears both and takes the lock. */
  lemma AutoSendSpec(s: Bar, props: Props)
    ensures var r := AutoSend(s, props);
      && (r == Reaction(s, []) <==> s.sending || props.isLoading || (Trim(s.inputText) == "" && s.attachments == []))
      && (r != Reaction(s, []) ==>
            && r.notices == [SendMessage(Trim(s.inputText), s.attachments)]
            && r.after.inputText == "" && r.after.attachments == [] && r.after.sending
            && r.after.keepListening == s.keepListening && r.after.listening == s.listening)
  {
  }

  /** Whether the state a toggling command aims at already holds. */
  predicate TargetReached(command: Command, props: Props) {
    match command
    case CameraOn => props.isCameraActive
    case CameraOff => !props.isCameraActive
    case ShareScreen => props.isScreenShareActive
    case OpenTerminal => props.isTerminalOpen
    case _ => false
  }

  /** `processDynamicCommands` once the command is known. */
  function CommandReaction(s: Bar, command: Command, props: Props, available: bool): Reaction {
    match command
    case StartContinuous =>
      Reaction(s.(keepListening := true), if !s.listening then StartRecognitionNotices(available) else [])
    case CameraOn => Reaction(s, if !props.isCameraActive then [ToggleCamera] else [])
    case CameraOff => Reaction(s, if props.isCameraActive then [ToggleCamera] else [])
    case ShareScreen => Reaction(s, if !props.isScreenShareActive then [ToggleScreenShare] else [])
    case OpenTerminal => Reaction(s, if !props.isTerminalOpen then [ToggleTerminal] else [])
    case SendNow => AutoSend(s, props)
    case NoCommand => Reaction(s, [])
  }

  /** A toggling command whose target already holds is a no-op, and one whose
      target does not hold asks for exactly one toggle; neither changes the state. */
  lemma ToggleCommandsRequestOnlyWhenNeeded(s: Bar, command: Command, props: Props, available: bool)
    requires command in {CameraOn, CameraOff, ShareScreen, OpenTerminal}
    ensures var r := CommandReaction(s, command, props, available);
      && r.after == s
      && (TargetReached(command, props) <==> r.notices == [])
      && (!TargetReached(command, props) ==> |r.notices| == 1)
  {
  }

  /** A chunk of speech: run as a command when it is one, appended to the input otherwise. */
  function ChunkReaction(s: Bar, chunk: string, props: Props, available: bool): Reaction {
    var command := ClassifyCommand(NormalizeCommand(chunk), Spoken);
    if command != NoCommand then CommandReaction(s, command, props, available)
    else Reaction(s.(inputText := if s.sending then "" else AppendChunk(s.inputText, chunk)), [])
  }

  /** `recognition.onresult`: ignored (beyond cancelling the silence timer)
      while the lock is held or a response is loading; otherwise the final
      transcripts are collected, trimmed and handled as a chunk, and the
      silence timer is set anew. */
  function ResultReaction(s: Bar, results: seq<SpeechResult>, resultIndex: nat, props: Props, available: bool): Reaction {
    if s.sending || props.isLoading then Reaction(s.(silenceTimer := false), [])
    else
      var cleared := s.(silenceTimer := false);
      var pending := Pending(results, resultIndex);
      var chunk := Trim(FinalChunk(pending));
      var r := if AnyFinal(pending) && chunk != "" then ChunkReaction(cleared, chunk, props, available) else Reaction(cleared, []);
      Reaction(r.after.(silenceTimer := true), r.notices)
  }

  /** `handleSend`: nothing without text or attachments or while a response is
      loading; otherwise the lock is taken, a typed command is run and the
      text cleared, and any other text is sent as it is with the attachments. */
  function ManualSend(s: Bar, props: Props, available: bool): Reaction {
    if (Trim(s.inputText) == "" && s.attachments == []) || props.isLoading then Reaction(s, [])
    else LockedSend(s.(sending := true), ClassifyCommand(NormalizeCommand(s.inputText), Typed), props, available)
  }

  /** `handleSend` once the lock is taken and the input classified. */
  function LockedSend(locked: Bar, command: Command, props: Props, available: bool): Reaction {
    if command != NoCommand then
      var r := CommandReaction(locked, command, props, available);
      Reaction(r.after.(inputText := "", pendingUnlocks := r.after.pendingUnlocks + 1), r.notices)
    else
      Reaction(
        locked.(inputText := "", attachments := [], pendingUnlocks := locked.pendingUnlocks + 1),
        [SendMessage(locked.inputText, locked.attachments)])
  }

  // ---------------------------------------------------------------------------
  // Properties of the handlers

  /** Auto-send keeps the lock releasable: it takes the lock only together
      with an unlock timer. */
  lemma AutoSendKeepsLockReleasable(s: Bar, props: Props)
    requires LockReleasable(s)
    ensures LockReleasable(AutoSend(s, props).after)
  {
  }

  /** Speech results keep the lock releasable, never touch keep-listening and
      never restart the recognizer: the continuous-mode words are typed-only. */
  lemma ResultsKeepListeningAndLock(s: Bar, results: seq<SpeechResult>, resultIndex: nat, props: Props, available: bool)
    requires LockReleasable(s)
    ensures var r := ResultReaction(s, results, resultIndex, props, available);
      && LockReleasable(r.after)
      && r.after.keepListening == s.keepListening
      && Listen !in r.notices
  {
    var pending := Pending(results, resultIndex);
    var chunk := Trim(FinalChunk(pending));
    if !(s.sending || props.isLoading) && AnyFinal(pending) && chunk != "" {
      ChunkKeepsListeningAndLock(s.(silenceTimer := false), chunk, props, available);
    }
  }

  /** A chunk of speech keeps the lock releasable, never touches keep-listening
      and never restarts the recognizer. */
  lemma ChunkKeepsListeningAndLock(s: Bar, chunk: string, props: Props, available: bool)
    requires LockReleasable(s)
    ensures var r := ChunkReaction(s, chunk, props, available);
      && LockReleasable(r.after)
      && r.after.keepListening == s.keepListening
      && Listen !in r.notices
  {
    var command := ClassifyCommand(NormalizeCommand(chunk), Spoken);
    if command != NoCommand {
      CommandKeepsListeningAndLock(s, command, props, available);
    }
  }

  /** Every command but the continuous-mode one keeps the lock releasable,
      leaves keep-listening alone and does not start the recognizer. */
  lemma CommandKeepsListeningAndLock(s: Bar, command: Command, props: Props, available: bool)
    requires LockReleasable(s) && command != StartContinuous
    ensures var r := CommandReaction(s, command, props, available);
      && LockReleasable(r.after)
      && r.after.keepListening == s.keepListening
      && Listen !in r.notices
  {
    AutoSendKeepsLockReleasable(s, props);
  }

  /** Speech that arrives while the lock is held or a response is loading is
      dropped: only the silence timer is cancelled. */
  lemma ResultsIgnoredWhileBusy(s: Bar, results: seq<SpeechResult>, resultIndex: nat, props: Props, available: bool)
    requires s.sending || props.isLoading
    ensures ResultReaction(s, results, resultIndex, props, available) == Reaction(s.(silenceTimer := false), [])
  {
  }

  /** A recognised chunk that is a command never reaches the input text: the
      text stays as it was, or is cleared by a send. */
  lemma CommandChunkNotAppended(s: Bar, chunk: string, props: Props, available: bool)
    requires ClassifyCommand(NormalizeCommand(chunk), Spoken) != NoCommand
    ensures var r := ChunkReaction(s, chunk, props, available);
      r.after.inputText == s.inputText || r.after.inputText == ""
  {
  }

  /** A chunk that is not a command is appended to the idle input and leaves
      everything else as it was. */
  lemma PlainChunkAppended(s: Bar, chunk: string, props: Props, available: bool)
    requires ClassifyCommand(NormalizeCommand(chunk), Spoken) == NoCommand && !s.sending
    ensures ChunkReaction(s, chunk, props, available) == Reaction(s.(inputText := AppendChunk(s.inputText, chunk)), [])
  {
  }

  /** A manual send keeps the lock releasable: the unlock timer is always set. */
  lemma ManualSendKeepsLockReleasable(s: Bar, props: Props, available: bool)
    requires LockReleasable(s)
    ensures LockReleasable(ManualSend(s, props, available).after)
  {
  }

  /** An input that normalises to a word is not blank. */
  lemma NormalizedCommandNotBlank(input: string)
    requires NormalizeCommand(input) != ""
    ensures Trim(input) != ""
  {
    if Trim(input) == "" {
      TrimLower(input);
    }
  }

  /** Typing a send command and sending it sends nothing: the lock is already
      taken when the command runs, so the command only clears the input. */
  lemma TypedSendCommandSendsNothing(s: Bar, props: Props, available: bool)
    requires NormalizeCommand(s.inputText) in SendWords
    requires !props.isLoading
    ensures var r := ManualSend(s, props, available);
      r.notices == [] && r.after.inputText == "" && r.after.sending && r.after.attachments == s.attachments
  {
    SendWordsAreSendCommands(NormalizeCommand(s.inputText));
    NormalizedCommandNotBlank(s.inputText);
    LockedSendNow(s.(sending := true), props, available);
  }

  /** The send command on a held lock only clears the input. */
  lemma LockedSendNow(locked: Bar, props: Props, available: bool)
    requires locked.sending
    ensures LockedSend(locked, SendNow, props, available) == Reaction(locked.(inputText := "", pendingUnlocks := locked.pendingUnlocks + 1), [])
  {
    AutoSendWhileLocked(locked, props);
  }

  /** Auto-send on a held lock does nothing. */
  lemma AutoSendWhileLocked(s: Bar, props: Props)
    requires s.sending
    ensures AutoSend(s, props) == Reaction(s, [])
  {
  }

  /** The send words name the send command, typed or spoken. */
  lemma SendWordsAreSendCommands(command: string)
    requires command in SendWords
    ensures command != ""
    ensures ClassifyCommand(command, Typed) == SendNow && ClassifyCommand(command, Spoken) == SendNow
  {
  }

  /** Typing a continuous-mode word turns keep-listening on, starts the
      recognizer unless it is listening already, and clears the input. */
  lemma TypedStartCommand(s: Bar, props: Props, available: bool)
    requires NormalizeCommand(s.inputText) in StartWords
    requires !props.isLoading
    ensures var r := ManualSend(s, props, available);
      && r.after.keepListening && r.after.inputText == "" && r.after.attachments == s.attachments
      && r.notices == if !s.listening && available then [Listen] else []
  {
    StartWordsAreStartCommands(NormalizeCommand(s.inputText));
    NormalizedCommandNotBlank(s.inputText);
  }

  /** The continuous-mode words name the continuous-mode command when typed. */
  lemma StartWordsAreStartCommands(command: string)
    requires command in StartWords
    ensures command != "" && ClassifyCommand(command, Typed) == StartContinuous
  {
  }

  /** A typed message that is not a command is sent as typed, with the
      attachments, and the input is cleared. */
  lemma TypedMessageSent(s: Bar, props: Props, available: bool)
    requires ClassifyCommand(NormalizeCommand(s.inputText), Typed) == NoCommand
    requires !props.isLoading && (Trim(s.inputText) != "" || s.attachments != [])
    ensures var r := ManualSend(s, props, available);
      && r.notices == [SendMessage(s.inputText, s.attachments)]
      && r.after.inputText == "" && r.after.attachments == [] && r.after.sending
  {
  }

  /** The send button does not look at the send lock: a typed message goes out
      even while an earlier send still holds it, unlike a spoken one. */
  lemma ManualSendIgnoresLock(s: Bar, props: Props, available: bool)
    requires s.sending
    requires ClassifyCommand(NormalizeCommand(s.inputText), Typed) == NoCommand
    requires !props.isLoading && (Trim(s.inputText) != "" || s.attachments != [])
    ensures ManualSend(s, props, available).notices == [SendMessage(s.inputText, s.attachments)]
  {
  }

  // ---------------------------------------------------------------------------
  // Module flags

  /** The keys of the module menu, one per flag of `ModuleConfig`. */
  datatype ModuleKey = ImageGenKey | SshKey | Model3dKey | CanvasKey | CalendarKey | DriveKey | ScraperKey | BrowserKey | MemoryKey | WebhookKey

  function IsOn(mods: ModuleConfig, key: ModuleKey): bool {
    match key
    case ImageGenKey => mods.imageGen
    case SshKey => mods.ssh
    case Model3dKey => mods.model3d
    case CanvasKey => mods.canvas
    case CalendarKey => mods.calendar
    case DriveKey => mods.drive
    case ScraperKey => mods.scraper
    case BrowserKey => mods.browser
    case MemoryKey => mods.memory
    case WebhookKey => mods.webhook
  }

  /** The flags with the flag of `key` negated. */
  function Flip(mods: ModuleConfig, key: ModuleKey): ModuleConfig {
    ModuleConfig(
      mods.browser != (key == BrowserKey),
      mods.memory != (key == MemoryKey),
      mods.scraper != (key == ScraperKey),
      mods.calendar != (key == CalendarKey),
      mods.drive != (key == DriveKey),
      mods.ssh != (key == SshKey),
      mods.model3d != (key == Model3dKey),
      mods.canvas != (key == CanvasKey),
      mods.webhook != (key == WebhookKey),
      mods.imageGen != (key == ImageGenKey))
  }

  /** Flipping negates the flag of `key` and leaves every other flag as it was. */
  lemma FlipSpec(mods: ModuleConfig, key: ModuleKey, k: ModuleKey)
    ensures IsOn(Flip(mods, key), k) == (IsOn(mods, k) != (k == key))
  {
  }

  /** `toggleModule`: the configuration reported to the parent, if it passed
      both a configuration and a change handler. */
  function ToggleModule(config: Option<AgentConfig>, hasHandler: bool, key: ModuleKey): (r: Option<AgentConfig>)
    ensures r.Some? <==> config.Some? && hasHandler
    ensures r.Some? ==> r.value == config.value.(activeModules := r.value.activeModules)
  {
    if config.Some? && hasHandler then Some(config.value.(activeModules := Flip(config.value.activeModules, key)))
    else None
  }

  /** Two flags are equal when every key reads the same. */
  lemma SameFlags(a: ModuleConfig, b: ModuleConfig)
    requires forall k :: IsOn(a, k) == IsOn(b, k)
    ensures a == b
  {
    assert IsOn(a, ImageGenKey) == IsOn(b, ImageGenKey) && IsOn(a, SshKey) == IsOn(b, SshKey);
    assert IsOn(a, Model3dKey) == IsOn(b, Model3dKey) && IsOn(a, CanvasKey) == IsOn(b, CanvasKey);
    assert IsOn(a, CalendarKey) == IsOn(b, CalendarKey) && IsOn(a, DriveKey) == IsOn(b, DriveKey);
    assert IsOn(a, ScraperKey) == IsOn(b, ScraperKey) && IsOn(a, BrowserKey) == IsOn(b, BrowserKey);
    assert IsOn(a, MemoryKey) == IsOn(b, MemoryKey) && IsOn(a, WebhookKey) == IsOn(b, WebhookKey);
  }

  /** Toggling a module twice gives back the configuration. */
  lemma ToggleTwiceRestores(config: AgentConfig, key: ModuleKey)
    ensures ToggleModule(ToggleModule(Some(config), true, key), true, key) == Some(config)
  {
    var mods := config.activeModules;
    forall k
      ensures IsOn(Flip(Flip(mods, key), key), k) == IsOn(mods, k)
    {
      FlipSpec(mods, key, k);
      FlipSpec(Flip(mods, key), key, k);
    }
    SameFlags(Flip(Flip(mods, key), key), mods);
  }

  // ---------------------------------------------------------------------------
  // The component's handlers

  /** One more result extends the collected text by its transcript when it is final. */
  lemma CollectStep(results: seq<SpeechResult>, from: nat, i: nat)
    requires from <= i < |results|
    ensures FinalChunk(results[from..i + 1]) == FinalChunk(results[from..i]) + (if results[i].isFinal then results[i].transcript else "")
    ensures AnyFinal(results[from..i + 1]) == (AnyFinal(results[from..i]) || results[i].isFinal)
  {
    var longer, shorter := results[from..i + 1], results[from..i];
    assert longer[..|longer| - 1] == shorter;
    assert longer[|longer| - 1] == results[i];
    assert forall k :: 0 <= k < |shorter| ==> shorter[k] == longer[k];
  }

  /** The loop over the new results: the final transcripts in order, and whether there was one. */
  method CollectFinal(results: seq<SpeechResult>, resultIndex: nat) returns (finalChunk: string, hasFinal: bool)
    ensures finalChunk == FinalChunk(Pending(results, resultIndex))
    ensures hasFinal == AnyFinal(Pending(results, resultIndex))
  {
    finalChunk, hasFinal := "", false;
    var i := resultIndex;
    while i < |results|
      invariant resultIndex <= |results| ==> resultIndex <= i <= |results|
      invariant resultIndex <= |results| ==> finalChunk == FinalChunk(results[resultIndex..i])
      invariant resultIndex <= |results| ==> hasFinal == AnyFinal(results[resultIndex..i])
      invariant resultIndex > |results| ==> i == resultIndex && finalChunk == "" && !hasFinal
    {
      CollectStep(results, resultIndex, i);
      if results[i].isFinal {
        finalChunk := finalChunk + results[i].transcript;
        hasFinal := true;
      }
      i := i + 1;
    }
    assert resultIndex <= |results| ==> results[resultIndex..i] == results[resultIndex..];
  }

  /** The control bar's voice controller: the state of `Bar` in fields, and an
      outbox of the requests made so far. */
  class VoiceControl {
    var keepListening: bool
    var listening: bool
    var sending: bool
    var silenceTimer: bool
    var pendingUnlocks: nat
    var pendingRestarts: nat
    var inputText: string
    var attachments: seq<Attachment>
    var outbox: seq<Notice>
    /** Whether the browser offers speech recognition. */
    const speechAvailable: bool

    function State(): Bar
      reads this
    {
      Bar(keepListening, listening, sending, silenceTimer, pendingUnlocks, pendingRestarts, inputText, attachments)
    }

    predicate Valid()
      reads this
    {
      LockReleasable(State())
    }

    constructor (speechAvailable: bool)
      ensures State() == Idle && outbox == [] && this.speechAvailable == speechAvailable
      ensures Valid()
    {
      keepListening, listening, sending, silenceTimer := false, false, false, false;
      pendingUnlocks, pendingRestarts := 0, 0;
      inputText, attachments, outbox := "", [], [];
      this.speechAvailable := speechAvailable;
    }

    /** `startRecognition`. */
    method StartRecognition()
      modifies this
      ensures State() == old(State()) && outbox == old(outbox) + StartRecognitionNotices(speechAvailable)
    {
      if !speechAvailable {
        return;
      }
      outbox := outbox + [Listen];
    }

    /** `recognition.onstart`. */
    method OnStart()
      requires Valid()
      modifies this
      ensures Valid()
      ensures State() == old(State()).(listening := true) && outbox == old(outbox)
    {
      listening := true;
    }

    /** `recognition.onend`: a restart is scheduled exactly while keep-listening
        is on; otherwise listening stops and the silence timer is cancelled. */
    method OnEnd()
      requires Valid()
      modifies this
      ensures Valid()
      ensures State() == if old(keepListening) then old(State()).(pendingRestarts := old(pendingRestarts) + 1)
                         else old(State()).(listening := false, silenceTimer := false)
      ensures outbox == old(outbox)
    {
      if keepListening {
        pendingRestarts := pendingRestarts + 1;
      } else {
        listening := false;
        silenceTimer := false;
      }
    }

    /** The restart timer set by `onend`: the recognizer restarts only if
        keep-listening is still on. */
    method OnRestartTimeout()
      requires Valid() && pendingRestarts > 0
      modifies this
      ensures Valid()
      ensures State() == old(State()).(pendingRestarts := old(pendingRestarts) - 1)
      ensures outbox == old(outbox) + if keepListening then [Listen] else []
    {
      pendingRestarts := pendingRestarts - 1;
      if keepListening {
        outbox := outbox + [Listen];
      }
    }

    /** `recognition.onerror`: a permission error stops the loop for good;
        other errors leave the restart to `onend`. */
    method OnError(error: string)
      requires Valid()
      modifies this
      ensures Valid()
      ensures State() == if error == "not-allowed" || error == "service-not-allowed"
                         then old(State()).(keepListening := false, listening := false)
                         else old(State())
      ensures outbox == old(outbox)
    {
      if error == "not-allowed" || error == "service-not-allowed" {
        keepListening := false;
        listening := false;
      }
    }

    /** `triggerAutoSend`. */
    method TriggerAutoSend(props: Props)
      modifies this
      ensures var r := AutoSend(old(State()), props);
        State() == r.after && outbox == old(outbox) + r.notices
    {
      if sending || props.isLoading {
        return;
      }
      var textToSend := Trim(inputText);
      if textToSend == "" && |attachments| == 0 {
        return;
      }
      sending := true;
      outbox := outbox + [SendMessage(textToSend, attachments)];
      inputText := "";
      attachments := [];
      pendingUnlocks := pendingUnlocks + 1;
    }

    /** `processDynamicCommands`: whether `input` was a command, which then has run. */
    method ProcessDynamicCommands(input: string, source: Source, props: Props) returns (executed: bool)
      modifies this
      ensures var command := ClassifyCommand(NormalizeCommand(input), source);
        var r := CommandReaction(old(State()), command, props, speechAvailable);
        && executed == (command != NoCommand)
        && State() == r.after && outbox == old(outbox) + r.notices
    {
      var command := ClassifyCommand(NormalizeCommand(input), source);
      RunCommand(command, props);
      executed := command != NoCommand;
    }

    /** The body of `processDynamicCommands` once the command is known. */
    method RunCommand(command: Command, props: Props)
      modifies this
      ensures var r := CommandReaction(old(State()), command, props, speechAvailable);
        State() == r.after && outbox == old(outbox) + r.notices
    {
      match command
      case StartContinuous =>
        keepListening := true;
        if !listening {
          StartRecognition();
        }
      case CameraOn =>
        if !props.isCameraActive {
          outbox := outbox + [ToggleCamera];
        }
      case CameraOff =>
        if props.isCameraActive {
          outbox := outbox + [ToggleCamera];
        }
      case ShareScreen =>
        if !props.isScreenShareActive {
          outbox := outbox + [ToggleScreenShare];
        }
      case OpenTerminal =>
        if !props.isTerminalOpen {
          outbox := outbox + [ToggleTerminal];
        }
      case SendNow =>
        TriggerAutoSend(props);
      case NoCommand =>
    }

    /** `recognition.onresult`. */
    method OnResult(results: seq<SpeechResult>, resultIndex: nat, props: Props)
      requires Valid()
      modifies this
      ensures Valid()
      ensures var r := ResultReaction(old(State()), results, resultIndex, props, speechAvailable);
        State() == r.after && outbox == old(outbox) + r.notices
    {
      ResultsKeepListeningAndLock(State(), results, resultIndex, props, speechAvailable);
      if sending || props.isLoading {
        silenceTimer := false;
        return;
      }
      silenceTimer := false;
      var finalChunk, hasFinal := CollectFinal(results, resultIndex);
      var trimmedChunk := Trim(finalChunk);
      if hasFinal && trimmedChunk != "" {
        HandleChunk(trimmedChunk, props);
      }
      silenceTimer := true;
    }

    /** The part of `onresult` that handles a final, non-empty chunk. */
    method HandleChunk(chunk: string, props: Props)
      modifies this
      ensures var r := ChunkReaction(old(State()), chunk, props, speechAvailable);
        State() == r.after && outbox == old(outbox) + r.notices
    {
      var executed := ProcessDynamicCommands(chunk, Spoken, props);
      if !executed {
        inputText := if sending then "" else AppendChunk(inputText, chunk);
      }
    }

    /** The silence timer set by `onresult`. */
    method OnSilenceTimeout(props: Props)
      requires Valid() && silenceTimer
      modifies this
      ensures Valid()
      ensures var r := AutoSend(old(State()).(silenceTimer := false), props);
        State() == r.after && outbox == old(outbox) + r.notices
    {
      silenceTimer := false;
      AutoSendKeepsLockReleasable(State(), props);
      TriggerAutoSend(props);
    }

    /** The unlock timer set by a send releases the lock. */
    method OnUnlockTimeout()
      requires Valid() && pendingUnlocks > 0
      modifies this
      ensures Valid()
      ensures State() == old(State()).(sending := false, pendingUnlocks := old(pendingUnlocks) - 1)
      ensures outbox == old(outbox)
    {
      sending := false;
      pendingUnlocks := pendingUnlocks - 1;
    }

    /** `toggleVoiceInput`: while listening, a manual stop that no restart
        follows; otherwise keep-listening on and a recognizer started, when the
        browser has one. */
    method ToggleVoiceInput()
      requires Valid()
      modifies this
      ensures Valid()
      ensures old(listening) ==>
        && State() == old(State()).(keepListening := false, silenceTimer := false, listening := false)
        && outbox == old(outbox) + [StopListening]
      ensures !old(listening) ==>
        && State() == (if speechAvailable then old(State()).(keepListening := true) else old(State()))
        && outbox == old(outbox) + StartRecognitionNotices(speechAvailable)
    {
      if listening {
        keepListening := false;
        outbox := outbox + [StopListening];
        silenceTimer := false;
        listening := false;
      } else {
        if !speechAvailable {
          return;
        }
        keepListening := true;
        StartRecognition();
      }
    }

    /** `handleSend`. */
    method HandleSend(props: Props)
      requires Valid()
      modifies this
      ensures Valid()
      ensures var r := ManualSend(old(State()), props, speechAvailable);
        State() == r.after && outbox == old(outbox) + r.notices
    {
      ghost var before := State();
      ManualSendKeepsLockReleasable(before, props, speechAvailable);
      if (Trim(inputText) == "" && |attachments| == 0) || props.isLoading {
        return;
      }
      sending := true;
      var command := ClassifyCommand(NormalizeCommand(inputText), Typed);
      SendLocked(command, props);
    }

    /** The part of `handleSend` after the lock is taken: a command runs (as
        `processDynamicCommands` would run it) and the input is cleared, any
        other input is sent. */
    method SendLocked(command: Command, props: Props)
      modifies this
      ensures var r := LockedSend(old(State()), command, props, speechAvailable);
        State() == r.after && outbox == old(outbox) + r.notices
    {
      if command != NoCommand {
        RunCommand(command, props);
        inputText, pendingUnlocks := "", pendingUnlocks + 1;
        return;
      }
      outbox := outbox + [SendMessage(inputText, attachments)];
      inputText := "";
      attachments := [];
      pendingUnlocks := pendingUnlocks + 1;
    }

    /** `handleFileUpload` once the file is read: the attachment is appended. */
    method AddAttachment(att: Attachment)
      requires Valid()
      modifies this
      ensures Valid()
      ensures State() == old(State()).(attachments := old(attachments) + [att]) && outbox == old(outbox)
    {
      attachments := attachments + [att];
    }

    /** `removeAttachment`. */
    method RemoveAttachment(index: int)
      requires Valid()
      modifies this
      ensures Valid()
      ensures State() == old(State()).(attachments := WithoutIndex(old(attachments), index)) && outbox == old(outbox)
    {
      attachments := WithoutIndex(attachments, index);
    }
  }
}
