/**
 * One chat turn against the generative API (`generateResponse` in
 * services/geminiService.ts): the system instruction with the user dossier
 * and the webhook block, the conversion of the history into API contents,
 * the selection of function declarations from the module flags, the tool
 * loop and the at-most-two-request protocol, and the fallback text.
 *
 * The API's replies, the fetched pages, the webhook replies and the
 * generated images are inputs of the model, not computations of it.
 */
module Orchestrator {
  import opened Types
  import opened JsStrings
  import opened ProfileMemory
  import opened SshSimulator

  // ---------------------------------------------------------------------------
  // The API's request and reply shapes

  datatype Part =
    | Text(text: string)
    | InlineData(mimeType: string, data: string)
    | FunctionCallPart(callName: string, callArgs: map<string, string>)
    | FunctionResponse(name: string, result: string)

  datatype Content = Content(role: Role, parts: seq<Part>)

  /** A function call proposed by the model; arguments are strings. */
  datatype FunctionCall = FunctionCall(name: string, args: map<string, string>)

  /** The function declarations the application can offer, in the order it offers them. */
  datatype Declaration =
    | BrowserTool | MemoryTool | CanvasTool | ScrapeTool | CalendarTool
    | DriveTool | SshTool | ThreeTool | WebhookTool | ImageGenTool
  {
    /** The position of the declaration in the selection order. */
    function Rank(): nat {
      match this
      case BrowserTool => 0
      case MemoryTool => 1
      case CanvasTool => 2
      case ScrapeTool => 3
      case CalendarTool => 4
      case DriveTool => 5
      case SshTool => 6
      case ThreeTool => 7
      case WebhookTool => 8
      case ImageGenTool => 9
    }

    /** The function name the model uses to call the declaration. */
    function Name(): string {
      match this
      case BrowserTool => "browser_interaction"
      case MemoryTool => "memory_system"
      case CanvasTool => "render_canvas"
      case ScrapeTool => "web_scrape"
      case CalendarTool => "google_calendar"
      case DriveTool => "google_drive"
      case SshTool => "aura_ssh_command"
      case ThreeTool => "model_3d"
      case WebhookTool => "send_to_webhook"
      case ImageGenTool => "generate_image"
    }
  }

  datatype Tool = FunctionDeclarations(declarations: seq<Declaration>) | GoogleSearch

  /** A `generateContent` request; an empty tool list stands for an absent one. */
  datatype Request = Request(model: string, contents: seq<Content>, systemInstruction: string, tools: seq<Tool>)

  /** What a `generateContent` request resolves to: a reply (its text, its
      function calls, the parts of its first candidate and its grounding
      chunks, each chunk holding a web source or not) or a rejection. */
  datatype Reply =
    | Generated(text: string, functionCalls: seq<FunctionCall>, modelParts: seq<Part>, chunks: seq<Option<GroundingUrl>>)
    | Failed(message: string)

  datatype GeneratedImage = GeneratedImage(mimeType: string, base64: string)

  /** The outside world's answers to one function call: the page a fetch
      returns, the webhook's reply, the image generator's result and the clock. */
  datatype ToolIo = ToolIo(fetched: string, webhookReply: string, image: Option<GeneratedImage>, now: nat)

  datatype Response = Response(
    text: string,
    groundingUrls: seq<GroundingUrl>,
    generatedAttachments: seq<Attachment>,
    toolResult: Option<ToolResult>)

  /** A `generateResponse` promise either rejects or resolves to a response. */
  datatype Outcome = Thrown(error: string) | Returned(response: Response)

  // ---------------------------------------------------------------------------
  // System instruction

  const WebhookFallbackDescription := "No specific instructions provided. Send JSON data when requested."

  /** The webhook connector block appended to the system instruction. */
  function WebhookBlock(hook: WebhookConfig): string {
    "\n\n=== \U{1F517} WEBHOOK CONNECTOR CONFIG ===\nSTATUS: ACTIVE\nTARGET URL: " + hook.url
    + "\nINSTRUCTIONS: " + OrElse(hook.description, WebhookFallbackDescription)
    + "\nRULE: Use the 'send_to_webhook' tool when the user's request matches the instructions above.\n"
    + "===================================\n"
  }

  predicate WebhookLinked(config: AgentConfig) {
    config.activeModules.webhook && config.webhookConfig.url != ""
  }

  /** What the memory module adds to the instruction: the dossier, when memory is on. */
  function MemoryAddition(config: AgentConfig, profile: UserProfile): (m: string)
    ensures m == "" <==> !(config.useMemory && HasDossierData(profile))
  {
    if config.useMemory then BuildContextDossier(profile) else ""
  }

  /** What the webhook module adds: its block, when it is on and has a URL. */
  function WebhookAddition(config: AgentConfig): (w: string)
    ensures w == "" <==> !WebhookLinked(config)
  {
    if WebhookLinked(config) then
      var block := WebhookBlock(config.webhookConfig);
      assert |block| >= |config.webhookConfig.url| > 0;
      block
    else ""
  }

  /** The configured instruction, then the dossier when memory is on, then the
      webhook block when the webhook module is on and has a URL. */
  function ActiveSystemInstruction(config: AgentConfig, profile: UserProfile): string {
    config.systemInstruction + MemoryAddition(config, profile) + WebhookAddition(config)
  }

  /** The configured instruction always leads, and it is sent unchanged exactly
      when memory adds no dossier and no webhook is linked. */
  lemma ActiveInstructionExtends(config: AgentConfig, profile: UserProfile)
    ensures var r := ActiveSystemInstruction(config, profile);
      && StartsWith(r, config.systemInstruction)
      && (r == config.systemInstruction <==> !(config.useMemory && HasDossierData(profile)) && !WebhookLinked(config))
  {
    ExtendedTwice(config.systemInstruction, MemoryAddition(config, profile), WebhookAddition(config));
  }

  /** A linked webhook's block closes the instruction. */
  lemma ActiveInstructionEndsWithWebhook(config: AgentConfig, profile: UserProfile)
    requires WebhookLinked(config)
    ensures EndsWith(ActiveSystemInstruction(config, profile), WebhookBlock(config.webhookConfig))
  {
    PrefixOfConcat(config.systemInstruction + MemoryAddition(config, profile), WebhookAddition(config));
  }

  // ---------------------------------------------------------------------------
  // Data-URL stripping: `data.replace(/^data:(.*,)?/, '')`

  /** The length of the first line of `s`. */
  function FirstLineLength(s: string): (n: nat)
    ensures n <= |s|
    ensures forall i :: 0 <= i < n ==> !IsLineTerminator(s[i])
    ensures n < |s| ==> IsLineTerminator(s[n])
  {
    if s == [] || IsLineTerminator(s[0]) then 0 else 1 + FirstLineLength(s[1..])
  }

  /** The index of the last `c` in `s`, or -1. */
  function LastIndexOf(s: string, c: char): (r: int)
    ensures -1 <= r < |s|
    ensures r == -1 <==> c !in s
    ensures r >= 0 ==> s[r] == c && c !in s[r + 1..]
  {
    if s == [] then -1
    else if s[|s| - 1] == c then |s| - 1
    else
      var r := LastIndexOf(s[..|s| - 1], c);
      assert s == s[..|s| - 1] + [s[|s| - 1]];
      r
  }

  /** The regular expression `^data:(.*,)?` matches "data:" and, when the
      first line goes on to hold a comma, everything up to its last comma. */
  function StripDataUrlPrefix(data: string): string {
    if StartsWith(data, "data:") then
      var rest := data[5..];
      var k := LastIndexOf(rest[..FirstLineLength(rest)], ',');
      if k >= 0 then rest[k + 1..] else rest
    else data
  }

  /** Stripping only ever removes a prefix. */
  lemma StripIsSuffix(data: string)
    ensures var r := StripDataUrlPrefix(data); |r| <= |data| && r == data[|data| - |r|..]
  {
  }

  /** A data URL whose header is on one line and whose payload holds no comma
      (base64 never does) loses exactly its header. */
  lemma StripDataUrl(header: string, payload: string)
    requires forall i :: 0 <= i < |header| ==> !IsLineTerminator(header[i])
    requires ',' !in payload
    ensures StripDataUrlPrefix("data:" + header + "," + payload) == payload
  {
    var data := "data:" + header + "," + payload;
    assert data[..5] == "data:";
    var rest := data[5..];
    assert rest == header + "," + payload;
    var n := FirstLineLength(rest);
    assert rest[|header|] == ',';
    assert n > |header|;
    var line := rest[..n];
    assert line[|header|] == ',';
    assert LastIndexOf(line, ',') == |header|;
    var k := |header|;
    assert rest[k + 1..] == payload;
  }

  /** A string without the "data:" scheme passes through unchanged. */
  lemma StripLeavesPlainData(data: string)
    requires !StartsWith(data, "data:")
    ensures StripDataUrlPrefix(data) == data
  {
  }

  // ---------------------------------------------------------------------------
  // History and current turn

  /** The part a history attachment becomes. */
  function HistoryAttachmentPart(att: Attachment): Part {
    if att.isText then Text("\n[FILE: " + att.name + "]\n" + att.data + "\n")
    else InlineData(att.mimeType, StripDataUrlPrefix(att.data))
  }

  /** The part an attachment of the current turn becomes. */
  function CurrentAttachmentPart(att: Attachment): Part {
    if att.isText then Text("\n--- DATA STREAM: " + att.name + " ---\n" + att.data + "\n")
    else InlineData(att.mimeType, StripDataUrlPrefix(att.data))
  }

  function HistoryParts(msg: Message): (parts: seq<Part>)
    ensures |parts| == 1 + |msg.attachments|
    ensures parts[0] == Text(msg.content)
    ensures forall i :: 0 <= i < |msg.attachments| ==> parts[i + 1] == HistoryAttachmentPart(msg.attachments[i])
  {
    [Text(msg.content)] + seq(|msg.attachments|, i requires 0 <= i < |msg.attachments| => HistoryAttachmentPart(msg.attachments[i]))
  }

  predicate Conversational(role: Role) {
    role != System && role != Tool
  }

  /** The history as API contents: SYSTEM and TOOL messages dropped, the rest
      in order, each as its text followed by one part per attachment. */
  function ConvertHistory(history: seq<Message>): (contents: seq<Content>)
    ensures |contents| <= |history|
    ensures forall i :: 0 <= i < |contents| ==> Conversational(contents[i].role)
  {
    if history == [] then []
    else
      var head := if Conversational(history[0].role) then [Content(history[0].role, HistoryParts(history[0]))] else [];
      head + ConvertHistory(history[1..])
  }

  /** Conversion preserves order: it distributes over concatenation. */
  lemma {:induction false} ConvertHistoryAppend(a: seq<Message>, b: seq<Message>)
    ensures ConvertHistory(a + b) == ConvertHistory(a) + ConvertHistory(b)
  {
    if a != [] {
      assert (a + b)[0] == a[0];
      assert (a + b)[1..] == a[1..] + b;
      ConvertHistoryAppend(a[1..], b);
    } else {
      assert a + b == b;
    }
  }

  /** A single message is dropped exactly when it is a SYSTEM or TOOL message. */
  lemma ConvertSingleMessage(m: Message)
    ensures ConvertHistory([m]) == if Conversational(m.role) then [Content(m.role, HistoryParts(m))] else []
  {
    assert [m][1..] == [];
  }

  /** Every retained message is kept whole: its text and every attachment. */
  lemma {:induction false} ConvertHistoryKeepsConversation(history: seq<Message>)
    ensures |ConvertHistory(history)| == |history| <==> forall i :: 0 <= i < |history| ==> Conversational(history[i].role)
  {
    if history != [] {
      ConvertHistoryKeepsConversation(history[1..]);
      assert forall i :: 1 <= i < |history| ==> history[i] == history[1..][i - 1];
      if !Conversational(history[0].role) {
        assert |ConvertHistory(history)| < |history|;
      }
    }
  }

  function CurrentUserParts(prompt: string, attachments: seq<Attachment>): (parts: seq<Part>)
    ensures |parts| == 1 + |attachments|
    ensures parts[0] == Text(prompt)
    ensures forall i :: 0 <= i < |attachments| ==> parts[i + 1] == CurrentAttachmentPart(attachments[i])
  {
    [Text(prompt)] + seq(|attachments|, i requires 0 <= i < |attachments| => CurrentAttachmentPart(attachments[i]))
  }

  /** The contents of the first request: the converted history, then the user's turn. */
  function InitialContents(prompt: string, history: seq<Message>, attachments: seq<Attachment>): seq<Content> {
    ConvertHistory(history) + [Content(User, CurrentUserParts(prompt, attachments))]
  }

  // ---------------------------------------------------------------------------
  // Tool selection

  predicate Enabled(d: Declaration, mods: ModuleConfig, webhookUrl: string) {
    match d
    case BrowserTool => mods.browser
    case MemoryTool => mods.memory
    case CanvasTool => mods.canvas
    case ScrapeTool => mods.scraper
    case CalendarTool => mods.calendar
    case DriveTool => mods.drive
    case SshTool => mods.ssh
    case ThreeTool => mods.model3d
    case WebhookTool => mods.webhook && webhookUrl != ""
    case ImageGenTool => mods.imageGen
  }

  predicate StrictlyRanked(ds: seq<Declaration>) {
    forall i, j :: 0 <= i < j < |ds| ==> ds[i].Rank() < ds[j].Rank()
  }

  /** Every declaration, in the order the selection tests them. */
  const AllDeclarations: seq<Declaration> :=
    [BrowserTool, MemoryTool, CanvasTool, ScrapeTool, CalendarTool, DriveTool, SshTool, ThreeTool, WebhookTool, ImageGenTool]

  /** The enabled declarations of `ds`, in the order of `ds`. */
  function EnabledAmong(ds: seq<Declaration>, mods: ModuleConfig, webhookUrl: string): seq<Declaration> {
    if ds == [] then []
    else (if Enabled(ds[0], mods, webhookUrl) then [ds[0]] else []) + EnabledAmong(ds[1..], mods, webhookUrl)
  }

  /** The function declarations offered for the module flags: each enabled
      declaration pushed in turn, in the fixed order. */
  function SelectFunctionDeclarations(mods: ModuleConfig, webhookUrl: string): seq<Declaration> {
    EnabledAmong(AllDeclarations, mods, webhookUrl)
  }

  /** Filtering keeps exactly the enabled members. */
  lemma {:induction false} EnabledAmongMembers(ds: seq<Declaration>, mods: ModuleConfig, webhookUrl: string)
    ensures forall d :: d in EnabledAmong(ds, mods, webhookUrl) <==> d in ds && Enabled(d, mods, webhookUrl)
  {
    if ds != [] {
      EnabledAmongMembers(ds[1..], mods, webhookUrl);
      assert ds == [ds[0]] + ds[1..];
    }
  }

  /** Filtering keeps the members in order. */
  lemma {:induction false} EnabledAmongRanked(ds: seq<Declaration>, mods: ModuleConfig, webhookUrl: string)
    requires StrictlyRanked(ds)
    ensures StrictlyRanked(EnabledAmong(ds, mods, webhookUrl))
  {
    if ds != [] {
      var tail := ds[1..];
      assert StrictlyRanked(tail) by {
        forall i, j | 0 <= i < j < |tail|
          ensures tail[i].Rank() < tail[j].Rank()
        {
          assert tail[i] == ds[i + 1] && tail[j] == ds[j + 1];
        }
      }
      EnabledAmongRanked(tail, mods, webhookUrl);
      EnabledAmongMembers(tail, mods, webhookUrl);
      var rest := EnabledAmong(tail, mods, webhookUrl);
      if Enabled(ds[0], mods, webhookUrl) {
        var r := [ds[0]] + rest;
        forall i, j | 0 <= i < j < |r|
          ensures r[i].Rank() < r[j].Rank()
        {
          if i == 0 {
            assert r[j] == rest[j - 1] && rest[j - 1] in tail;
            var k :| 0 <= k < |tail| && tail[k] == rest[j - 1];
            assert ds[k + 1] == tail[k];
          } else {
            assert r[i] == rest[i - 1] && r[j] == rest[j - 1];
          }
        }
      }
    }
  }

  /** The selection offers exactly the enabled declarations, each once, in the fixed order. */
  lemma SelectionSpec(mods: ModuleConfig, webhookUrl: string)
    ensures var funcs := SelectFunctionDeclarations(mods, webhookUrl);
      && (forall d :: d in funcs <==> Enabled(d, mods, webhookUrl))
      && StrictlyRanked(funcs)
  {
    assert forall i :: 0 <= i < |AllDeclarations| ==> AllDeclarations[i].Rank() == i;
    forall d: Declaration
      ensures d in AllDeclarations
    {
      assert AllDeclarations[d.Rank()] == d;
    }
    EnabledAmongMembers(AllDeclarations, mods, webhookUrl);
    EnabledAmongRanked(AllDeclarations, mods, webhookUrl);
  }

  /** The tool list: the declarations when there are any, then search when it is on. */
  function BuildTools(funcs: seq<Declaration>, useSearch: bool): (tools: seq<Tool>)
    ensures FunctionDeclarations(funcs) in tools <==> funcs != []
    ensures GoogleSearch in tools <==> useSearch
    ensures useSearch ==> tools[|tools| - 1] == GoogleSearch
    ensures |tools| <= 2
  {
    (if funcs != [] then [FunctionDeclarations(funcs)] else []) + (if useSearch then [GoogleSearch] else [])
  }

  // ---------------------------------------------------------------------------
  // Function calls

  /** A call's argument, "" when the model left it out. */
  function Arg(call: FunctionCall, key: string): string {
    if key in call.args then call.args[key] else ""
  }

  const CanvasRendered := "Visual content rendered."
  const ThreeGenerated := "3D Code generated and sent to frontend renderer."
  const ImageGenerated := "Image generated successfully. Inform the user."
  const ImageFailed := "Error: Failed to generate image. The model might not be available or the prompt was rejected. Inform the user about this failure."

  function CalendarUrl(call: FunctionCall): string {
    "https://calendar.google.com/calendar/render?action=TEMPLATE&text=" + EncodeUriComponent(Arg(call, "title"))
    + "&dates=" + Arg(call, "startDateTime") + "/" + Arg(call, "endDateTime")
    + "&details=" + EncodeUriComponent(OrElse(Arg(call, "details"), ""))
    + "&location=" + EncodeUriComponent(OrElse(Arg(call, "location"), ""))
  }

  function DriveUrl(kind: string): string {
    if kind == "presentation" then "https://docs.google.com/presentation/create"
    else if kind == "spreadsheet" then "https://docs.google.com/spreadsheets/create"
    else "https://docs.google.com/document/create"
  }

  function ImageName(now: nat): string {
    "generated_image_" + NatToString(now) + ".png"
  }

  /** What the tool loop has accumulated: the stored profile, the function
      responses, the generated attachments and the latest tool result. */
  datatype ToolState = ToolState(
    profile: UserProfile,
    parts: seq<Part>,
    attachments: seq<Attachment>,
    toolResult: Option<ToolResult>)

  /** What one call does besides its function response: its result string,
      and the profile, attachments and tool result afterwards. */
  datatype Effect = Effect(result: string, profile: UserProfile, attachments: seq<Attachment>, toolResult: Option<ToolResult>)

  predicate IsProfileCall(call: FunctionCall) {
    call.name == "memory_system"
  }

  predicate IsAttachmentCall(call: FunctionCall) {
    call.name == "render_canvas" || call.name == "generate_image"
  }

  predicate IsResultCall(call: FunctionCall) {
    || call.name == "google_calendar" || call.name == "google_drive" || call.name == "aura_ssh_command"
    || call.name == "model_3d" || call.name == "send_to_webhook"
  }

  /** The loop body for `call`, dispatching on its name. Only memory calls
      touch the profile, only canvas and image calls add (at most one)
      attachment, and only link, shell, 3D and webhook calls set the tool result. */
  function CallEffect(st: ToolState, call: FunctionCall, io: ToolIo, webhookUrl: string): (e: Effect)
    ensures !IsProfileCall(call) ==> e.profile == st.profile
    ensures IsAttachmentCall(call) ==> st.attachments <= e.attachments && |e.attachments| <= |st.attachments| + 1
    ensures !IsAttachmentCall(call) ==> e.attachments == st.attachments
    ensures IsResultCall(call) ==> e.toolResult.Some?
    ensures !IsResultCall(call) ==> e.toolResult == st.toolResult
  {
    var n := call.name;
    var same := Effect("", st.profile, st.attachments, st.toolResult);
    if n == "browser_interaction" || n == "web_scrape" then
      same.(result := io.fetched)
    else if n == "memory_system" then
      var category, info, action := Arg(call, "category"), Arg(call, "info"), Arg(call, "action");
      same.(result := UpdateSummary(category, info, action), profile := UpdatedProfile(st.profile, category, info, action))
    else if n == "render_canvas" then
      var att := Attachment(Arg(call, "title"), Arg(call, "type"), Arg(call, "content"), Arg(call, "type") != "image/svg+xml");
      same.(result := CanvasRendered, attachments := st.attachments + [att])
    else if n == "google_calendar" then
      var url := CalendarUrl(call);
      same.(result := "Intent link created: " + url, toolResult := Some(CalendarLink(url, Arg(call, "title"))))
    else if n == "google_drive" then
      var url := DriveUrl(Arg(call, "type"));
      same.(result := "Drive link created: " + url, toolResult := Some(CalendarLink(url, "New " + OrElse(Arg(call, "title"), "Document"))))
    else if n == "aura_ssh_command" then
      var output := SimulateSshCommand(Arg(call, "command"));
      same.(result := "STDOUT: " + output, toolResult := Some(SshTerminal(Arg(call, "command"), output)))
    else if n == "model_3d" then
      same.(result := ThreeGenerated, toolResult := Some(Model3D(Arg(call, "code"), Arg(call, "description"))))
    else if n == "send_to_webhook" then
      same.(result := "WEBHOOK RESPONSE: " + io.webhookReply, toolResult := Some(WebhookCall(Arg(call, "data"), io.webhookReply, webhookUrl)))
    else if n == "generate_image" then
      match io.image
      case Some(img) =>
        same.(result := ImageGenerated, attachments := st.attachments + [Attachment(ImageName(io.now), img.mimeType, img.base64, false)])
      case None => same.(result := ImageFailed)
    else
      same
  }

  /** One pass of the loop: the call's effect, and its function response appended. */
  function Step(st: ToolState, call: FunctionCall, io: ToolIo, webhookUrl: string): ToolState {
    var e := CallEffect(st, call, io, webhookUrl);
    ToolState(e.profile, st.parts + [FunctionResponse(call.name, e.result)], e.attachments, e.toolResult)
  }

  /** The state after the loop has handled `calls`, one `io` per call. */
  function RunTools(init: ToolState, calls: seq<FunctionCall>, io: seq<ToolIo>, webhookUrl: string): ToolState
    requires |io| == |calls|
  {
    if calls == [] then init
    else Step(RunTools(init, calls[..|calls| - 1], io[..|io| - 1], webhookUrl), calls[|calls| - 1], io[|io| - 1], webhookUrl)
  }

  /** The loop body for one call: the tool named by `call` runs against the
      accumulated state. */
  method ExecuteCall(st: ToolState, call: FunctionCall, w: ToolIo, webhookUrl: string)
    returns (result: string, profile: UserProfile, generatedAttachments: seq<Attachment>, finalToolResult: Option<ToolResult>)
    ensures Effect(result, profile, generatedAttachments, finalToolResult) == CallEffect(st, call, w, webhookUrl)
  {
    profile, generatedAttachments, finalToolResult := st.profile, st.attachments, st.toolResult;
    result := "";
    if call.name == "browser_interaction" || call.name == "web_scrape" {
      result := w.fetched;
    } else if call.name == "memory_system" {
      profile, result := UpdateProfileMemory(profile, Arg(call, "category"), Arg(call, "info"), Arg(call, "action"));
    } else if call.name == "render_canvas" {
      generatedAttachments := generatedAttachments
        + [Attachment(Arg(call, "title"), Arg(call, "type"), Arg(call, "content"), Arg(call, "type") != "image/svg+xml")];
      result := CanvasRendered;
    } else if call.name == "google_calendar" {
      var url := CalendarUrl(call);
      finalToolResult := Some(CalendarLink(url, Arg(call, "title")));
      result := "Intent link created: " + url;
    } else if call.name == "google_drive" {
      var baseUrl := "https://docs.google.com/document/create";
      if Arg(call, "type") == "spreadsheet" { baseUrl := "https://docs.google.com/spreadsheets/create"; }
      if Arg(call, "type") == "presentation" { baseUrl := "https://docs.google.com/presentation/create"; }
      finalToolResult := Some(CalendarLink(baseUrl, "New " + OrElse(Arg(call, "title"), "Document")));
      result := "Drive link created: " + baseUrl;
    } else if call.name == "aura_ssh_command" {
      var output := SimulateSshCommand(Arg(call, "command"));
      finalToolResult := Some(SshTerminal(Arg(call, "command"), output));
      result := "STDOUT: " + output;
    } else if call.name == "model_3d" {
      finalToolResult := Some(Model3D(Arg(call, "code"), Arg(call, "description")));
      result := ThreeGenerated;
    } else if call.name == "send_to_webhook" {
      finalToolResult := Some(WebhookCall(Arg(call, "data"), w.webhookReply, webhookUrl));
      result := "WEBHOOK RESPONSE: " + w.webhookReply;
    } else if call.name == "generate_image" {
      if w.image.Some? {
        generatedAttachments := generatedAttachments
          + [Attachment(ImageName(w.now), w.image.value.mimeType, w.image.value.base64, false)];
        result := ImageGenerated;
      } else {
        result := ImageFailed;
      }
    }
  }

  /** Handling one more call is one more `Step`. */
  lemma RunToolsExtend(init: ToolState, calls: seq<FunctionCall>, io: seq<ToolIo>, webhookUrl: string, i: nat)
    requires |io| == |calls| && i < |calls|
    ensures RunTools(init, calls[..i + 1], io[..i + 1], webhookUrl)
      == Step(RunTools(init, calls[..i], io[..i], webhookUrl), calls[i], io[i], webhookUrl)
  {
    assert calls[..i + 1][..i] == calls[..i] && io[..i + 1][..i] == io[..i];
  }

  /** The tool loop: each call is answered by its tool, and its result is sent back as a function response. */
  method ExecuteFunctionCalls(stored: UserProfile, calls: seq<FunctionCall>, io: seq<ToolIo>, webhookUrl: string)
    returns (profile: UserProfile, toolParts: seq<Part>, generatedAttachments: seq<Attachment>, finalToolResult: Option<ToolResult>)
    requires |io| == |calls|
    ensures ToolState(profile, toolParts, generatedAttachments, finalToolResult)
      == RunTools(ToolState(stored, [], [], None), calls, io, webhookUrl)
  {
    ghost var init := ToolState(stored, [], [], None);
    profile, toolParts, generatedAttachments, finalToolResult := stored, [], [], None;
    for i := 0 to |calls|
      invariant ToolState(profile, toolParts, generatedAttachments, finalToolResult) == RunTools(init, calls[..i], io[..i], webhookUrl)
    {
      var before := ToolState(profile, toolParts, generatedAttachments, finalToolResult);
      var result;
      result, profile, generatedAttachments, finalToolResult := ExecuteCall(before, calls[i], io[i], webhookUrl);
      toolParts := toolParts + [FunctionResponse(calls[i].name, result)];
      assert ToolState(profile, toolParts, generatedAttachments, finalToolResult) == Step(before, calls[i], io[i], webhookUrl);
      RunToolsExtend(init, calls, io, webhookUrl, i);
    }
    assert calls[..|calls|] == calls && io[..|io|] == io;
  }

  /** One pass of the loop appends exactly one function response, named after the call. */
  lemma StepParts(st: ToolState, call: FunctionCall, w: ToolIo, webhookUrl: string)
    ensures var p := Step(st, call, w, webhookUrl).parts;
      && |p| == |st.parts| + 1
      && (forall i :: 0 <= i < |st.parts| ==> p[i] == st.parts[i])
      && p[|st.parts|].FunctionResponse? && p[|st.parts|].name == call.name
  {
  }

  /** Started without responses, the loop answers every call with one function
      response named after it, in the order of the calls. */
  lemma {:induction false} ToolPartsAnswerCalls(init: ToolState, calls: seq<FunctionCall>, io: seq<ToolIo>, webhookUrl: string)
    requires |io| == |calls| && init.parts == []
    ensures var parts := RunTools(init, calls, io, webhookUrl).parts;
      && |parts| == |calls|
      && forall i :: 0 <= i < |calls| ==> parts[i].FunctionResponse? && parts[i].name == calls[i].name
  {
    if calls != [] {
      var n := |calls| - 1;
      var before := RunTools(init, calls[..n], io[..n], webhookUrl);
      ToolPartsAnswerCalls(init, calls[..n], io[..n], webhookUrl);
      StepParts(before, calls[n], io[n], webhookUrl);
      var parts := Step(before, calls[n], io[n], webhookUrl).parts;
      assert RunTools(init, calls, io, webhookUrl).parts == parts;
      forall i | 0 <= i < n
        ensures parts[i].FunctionResponse? && parts[i].name == calls[i].name
      {
        assert calls[..n][i] == calls[i];
      }
    }
  }

  /** What one pass of the loop may change, by the kind of call. */
  lemma StepIsLocal(st: ToolState, call: FunctionCall, w: ToolIo, webhookUrl: string)
    ensures var next := Step(st, call, w, webhookUrl);
      && (!IsProfileCall(call) ==> next.profile == st.profile)
      && st.attachments <= next.attachments
      && (!IsAttachmentCall(call) ==> next.attachments == st.attachments)
      && (!IsResultCall(call) ==> next.toolResult == st.toolResult)
  {
  }

  /** Calls other than memory calls leave the profile as it was. */
  lemma {:induction false} ProfileOnlyFromMemory(init: ToolState, calls: seq<FunctionCall>, io: seq<ToolIo>, webhookUrl: string)
    requires |io| == |calls|
    requires forall i :: 0 <= i < |calls| ==> !IsProfileCall(calls[i])
    ensures RunTools(init, calls, io, webhookUrl).profile == init.profile
  {
    if calls != [] {
      var n := |calls| - 1;
      assert forall i :: 0 <= i < n ==> calls[..n][i] == calls[i];
      ProfileOnlyFromMemory(init, calls[..n], io[..n], webhookUrl);
      StepIsLocal(RunTools(init, calls[..n], io[..n], webhookUrl), calls[n], io[n], webhookUrl);
    }
  }

  /** Calls other than canvas and image calls produce no attachment. */
  lemma {:induction false} AttachmentsOnlyFromCanvasAndImage(init: ToolState, calls: seq<FunctionCall>, io: seq<ToolIo>, webhookUrl: string)
    requires |io| == |calls|
    requires forall i :: 0 <= i < |calls| ==> !IsAttachmentCall(calls[i])
    ensures RunTools(init, calls, io, webhookUrl).attachments == init.attachments
  {
    if calls != [] {
      var n := |calls| - 1;
      assert forall i :: 0 <= i < n ==> calls[..n][i] == calls[i];
      AttachmentsOnlyFromCanvasAndImage(init, calls[..n], io[..n], webhookUrl);
      StepIsLocal(RunTools(init, calls[..n], io[..n], webhookUrl), calls[n], io[n], webhookUrl);
    }
  }

  /** Calls other than link, shell, 3D and webhook calls leave the tool result as it was. */
  lemma {:induction false} ToolResultOnlyFromResultCalls(init: ToolState, calls: seq<FunctionCall>, io: seq<ToolIo>, webhookUrl: string)
    requires |io| == |calls|
    requires forall i :: 0 <= i < |calls| ==> !IsResultCall(calls[i])
    ensures RunTools(init, calls, io, webhookUrl).toolResult == init.toolResult
  {
    if calls != [] {
      var n := |calls| - 1;
      assert forall i :: 0 <= i < n ==> calls[..n][i] == calls[i];
      ToolResultOnlyFromResultCalls(init, calls[..n], io[..n], webhookUrl);
      StepIsLocal(RunTools(init, calls[..n], io[..n], webhookUrl), calls[n], io[n], webhookUrl);
    }
  }

  /** The loop never removes a generated attachment. */
  lemma {:induction false} AttachmentsOnlyGrow(init: ToolState, calls: seq<FunctionCall>, io: seq<ToolIo>, webhookUrl: string)
    requires |io| == |calls|
    ensures init.attachments <= RunTools(init, calls, io, webhookUrl).attachments
  {
    if calls != [] {
      var n := |calls| - 1;
      var prev := RunTools(init, calls[..n], io[..n], webhookUrl);
      AttachmentsOnlyGrow(init, calls[..n], io[..n], webhookUrl);
      StepIsLocal(prev, calls[n], io[n], webhookUrl);
      PrefixTransitive(init.attachments, prev.attachments, RunTools(init, calls, io, webhookUrl).attachments);
    }
  }

  lemma PrefixTransitive<T>(a: seq<T>, b: seq<T>, c: seq<T>)
    requires a <= b && b <= c
    ensures a <= c
  {
    assert c[..|a|] == b[..|a|];
  }

  // ---------------------------------------------------------------------------
  // Final text and grounding

  const CanvasFallback := "Visual data stream generated and rendered on Canvas."
  const SilentFallback := "Operation completed. Standing by."

  /** A text the user should not be shown as it is: empty, or the model's idle phrase. */
  predicate NeedsFallback(text: string) {
    text == "" || Contains(text, "Standing by")
  }

  /** The text of the response: the model's text unless it needs a fallback,
      in which case the canvas message when attachments were generated and the
      idle message otherwise. It is never empty. */
  function FinalText(text: string, hasAttachments: bool): (r: string)
    ensures r != ""
    ensures !NeedsFallback(text) ==> r == text
    ensures NeedsFallback(text) ==> r == (if hasAttachments then CanvasFallback else SilentFallback)
  {
    if NeedsFallback(text) && hasAttachments then CanvasFallback
    else if NeedsFallback(text) then SilentFallback
    else text
  }

  /** The fallback texts are themselves final: the idle message contains the
      idle phrase and is kept only because it is the fallback, the canvas
      message does not contain it. */
  lemma FinalTextIdempotent(text: string, hasAttachments: bool)
    ensures FinalText(FinalText(text, hasAttachments), hasAttachments) == FinalText(text, hasAttachments)
  {
    assert OccursAt(SilentFallback, "Standing by", 21);
    if Contains(CanvasFallback, "Standing by") {
      ContainsChar(CanvasFallback, "Standing by", 0);
    }
  }

  /** The web sources among the grounding chunks, in order. */
  function WebSources(chunks: seq<Option<GroundingUrl>>): (urls: seq<GroundingUrl>)
    ensures |urls| <= |chunks|
    ensures forall g :: g in urls <==> Some(g) in chunks
  {
    if chunks == [] then []
    else
      var rest := WebSources(chunks[1..]);
      assert chunks == [chunks[0]] + chunks[1..];
      match chunks[0]
      case Some(g) => [g] + rest
      case None => rest
  }

  /** The web sources of two runs of chunks are those of the first followed by
      those of the second: the chunks' order is kept. */
  lemma {:induction false} WebSourcesAppend(a: seq<Option<GroundingUrl>>, b: seq<Option<GroundingUrl>>)
    ensures WebSources(a + b) == WebSources(a) + WebSources(b)
  {
    if a == [] {
      assert a + b == b;
    } else {
      assert (a + b)[1..] == a[1..] + b;
      WebSourcesAppend(a[1..], b);
    }
  }

  /** The response for a reply once the tools have run. */
  function Finish(reply: Reply, st: ToolState): Response {
    match reply
    case Generated(text, _, _, chunks) =>
      Response(FinalText(text, st.attachments != []), WebSources(chunks), st.attachments, st.toolResult)
    case Failed(message) => Response("Error: " + message, [], [], None)
  }

  // ---------------------------------------------------------------------------
  // The turn

  const MissingKey := "API Key is missing."

  predicate HasCalls(reply: Reply) {
    reply.Generated? && reply.functionCalls != []
  }

  /** The requests of a turn when the first reply asks for tools: the first
      request's contents extended by the model's turn and the tool responses. */
  function SecondContents(contents: seq<Content>, first: Reply, st: ToolState): seq<Content>
    requires first.Generated?
  {
    contents + [Content(Model, first.modelParts), Content(Tool, st.parts)]
  }

  /** The first `generateContent` request of a turn. */
  function FirstRequest(prompt: string, history: seq<Message>, attachments: seq<Attachment>, config: AgentConfig, stored: UserProfile): Request {
    Request(
      config.modelName,
      InitialContents(prompt, history, attachments),
      ActiveSystemInstruction(config, stored),
      BuildTools(SelectFunctionDeclarations(config.activeModules, config.webhookConfig.url), config.useSearch))
  }

  /** What a turn amounts to: its outcome, the requests it made, and the
      profile as stored afterwards. */
  datatype Turn = Turn(outcome: Outcome, requests: seq<Request>, saved: UserProfile)

  /** The turn once its first request is sent: when the reply asks for tools,
      the tools run and a second request goes out, extended by the model's
      turn and the tool responses; otherwise the first reply is final. */
  function AfterFirstReply(request: Request, stored: UserProfile, first: Reply, second: Reply, io: seq<ToolIo>, webhookUrl: string): Turn
    requires first.Generated? ==> |io| == |first.functionCalls|
  {
    if HasCalls(first) then
      var st := RunTools(ToolState(stored, [], [], None), first.functionCalls, io, webhookUrl);
      Turn(Returned(Finish(second, st)), [request, request.(contents := SecondContents(request.contents, first, st))], st.profile)
    else
      Turn(Returned(Finish(first, ToolState(stored, [], [], None))), [request], stored)
  }

  /** A failed image generation reaches the user only through the model: when
      the second reply has no text, the user is shown the idle message, which
      does not mention the failure. */
  lemma FailedImageShowsIdle(
    request: Request, stored: UserProfile, args: map<string, string>, text: string, parts: seq<Part>,
    chunks: seq<Option<GroundingUrl>>, w: ToolIo, second: Reply, webhookUrl: string)
    requires w.image == None
    requires second.Generated? && second.text == "" && second.chunks == []
    ensures var first := Generated(text, [FunctionCall("generate_image", args)], parts, chunks);
      AfterFirstReply(request, stored, first, second, [w], webhookUrl).outcome
        == Returned(Response(SilentFallback, [], [], None))
  {
    var call := FunctionCall("generate_image", args);
    var init := ToolState(stored, [], [], None);
    assert [call][..0] == [] && [w][..0] == [];
    assert RunTools(init, [call], [w], webhookUrl) == Step(init, call, w, webhookUrl);
  }

  /** A turn: without a key it fails before any request; otherwise it sends the
      first request and goes on with its reply. */
  function TurnOf(
    apiKeyPresent: bool, prompt: string, history: seq<Message>, attachments: seq<Attachment>,
    config: AgentConfig, stored: UserProfile, first: Reply, second: Reply, io: seq<ToolIo>): Turn
    requires first.Generated? ==> |io| == |first.functionCalls|
  {
    if !apiKeyPresent then Turn(Thrown(MissingKey), [], stored)
    else AfterFirstReply(FirstRequest(prompt, history, attachments, config, stored), stored, first, second, io, config.webhookConfig.url)
  }

  /** Without a key the turn fails before any request and stores nothing; with
      one it sends one request, or two exactly when the first reply asks for
      tools. The second request is the first with its contents extended by the
      model's turn and one tool response per call, named after the call, in order. */
  lemma TurnRequests(
    apiKeyPresent: bool, prompt: string, history: seq<Message>, attachments: seq<Attachment>,
    config: AgentConfig, stored: UserProfile, first: Reply, second: Reply, io: seq<ToolIo>)
    requires first.Generated? ==> |io| == |first.functionCalls|
    ensures var t := TurnOf(apiKeyPresent, prompt, history, attachments, config, stored, first, second, io);
      && (!apiKeyPresent ==> t.outcome == Thrown(MissingKey) && t.requests == [] && t.saved == stored)
      && (apiKeyPresent ==>
            && |t.requests| == (if HasCalls(first) then 2 else 1)
            && t.requests[0] == FirstRequest(prompt, history, attachments, config, stored))
      && (|t.requests| == 2 ==>
            && t.requests[1] == t.requests[0].(contents := t.requests[1].contents)
            && |t.requests[1].contents| == |t.requests[0].contents| + 2
            && t.requests[1].contents[..|t.requests[0].contents|] == t.requests[0].contents
            && t.requests[1].contents[|t.requests[0].contents|] == Content(Model, first.modelParts)
            && (var tools := t.requests[1].contents[|t.requests[0].contents| + 1];
               && tools.role == Tool && |tools.parts| == |first.functionCalls|
               && forall i :: 0 <= i < |first.functionCalls| ==>
                    tools.parts[i].FunctionResponse? && tools.parts[i].name == first.functionCalls[i].name))
  {
    if apiKeyPresent && HasCalls(first) {
      ToolPartsAnswerCalls(ToolState(stored, [], [], None), first.functionCalls, io, config.webhookConfig.url);
    }
  }

  /** A turn with a key always returns a response, and its text is never empty. */
  lemma TurnAnswers(
    apiKeyPresent: bool, prompt: string, history: seq<Message>, attachments: seq<Attachment>,
    config: AgentConfig, stored: UserProfile, first: Reply, second: Reply, io: seq<ToolIo>)
    requires first.Generated? ==> |io| == |first.functionCalls|
    ensures var t := TurnOf(apiKeyPresent, prompt, history, attachments, config, stored, first, second, io);
      && (t.outcome.Returned? <==> apiKeyPresent)
      && (t.outcome.Returned? ==> t.outcome.response.text != "")
  {
  }

  /** The profile is stored anew only by memory calls: a turn whose first reply
      asks for no memory call leaves it as it was. */
  lemma TurnKeepsProfile(
    apiKeyPresent: bool, prompt: string, history: seq<Message>, attachments: seq<Attachment>,
    config: AgentConfig, stored: UserProfile, first: Reply, second: Reply, io: seq<ToolIo>)
    requires first.Generated? ==> |io| == |first.functionCalls|
    requires first.Generated? ==> forall i :: 0 <= i < |first.functionCalls| ==> !IsProfileCall(first.functionCalls[i])
    ensures TurnOf(apiKeyPresent, prompt, history, attachments, config, stored, first, second, io).saved == stored
  {
    if apiKeyPresent && HasCalls(first) {
      ProfileOnlyFromMemory(ToolState(stored, [], [], None), first.functionCalls, io, config.webhookConfig.url);
    }
  }

  /** A failed request is reported as the turn's text, with nothing else. */
  lemma TurnReportsFailure(
    apiKeyPresent: bool, prompt: string, history: seq<Message>, attachments: seq<Attachment>,
    config: AgentConfig, stored: UserProfile, first: Reply, second: Reply, io: seq<ToolIo>, message: string)
    requires first.Generated? ==> |io| == |first.functionCalls|
    requires apiKeyPresent
    requires (if HasCalls(first) then second else first) == Failed(message)
    ensures TurnOf(apiKeyPresent, prompt, history, attachments, config, stored, first, second, io).outcome
      == Returned(Response("Error: " + message, [], [], None))
  {
  }

  /** The first request offers exactly the enabled function declarations, each
      once and in the fixed order, and the search tool exactly when it is on. */
  lemma FirstRequestTools(prompt: string, history: seq<Message>, attachments: seq<Attachment>, config: AgentConfig, stored: UserProfile)
    ensures var tools := FirstRequest(prompt, history, attachments, config, stored).tools;
      var funcs := SelectFunctionDeclarations(config.activeModules, config.webhookConfig.url);
      && (GoogleSearch in tools <==> config.useSearch)
      && (FunctionDeclarations(funcs) in tools <==> exists d :: Enabled(d, config.activeModules, config.webhookConfig.url))
      && (forall d :: d in funcs <==> Enabled(d, config.activeModules, config.webhookConfig.url))
      && StrictlyRanked(funcs)
  {
    var funcs := SelectFunctionDeclarations(config.activeModules, config.webhookConfig.url);
    SelectionSpec(config.activeModules, config.webhookConfig.url);
    if funcs != [] {
      assert funcs[0] in funcs;
    }
  }

  /** The part of `generateResponse` after the first request: `first` is
      what it resolved to, `second` what the follow-up resolves to. */
  method AnswerFirstReply(request: Request, stored: UserProfile, first: Reply, second: Reply, io: seq<ToolIo>, webhookUrl: string)
    returns (outcome: Outcome, requests: seq<Request>, saved: UserProfile)
    requires first.Generated? ==> |io| == |first.functionCalls|
    ensures Turn(outcome, requests, saved) == AfterFirstReply(request, stored, first, second, io, webhookUrl)
  {
    requests := [request];
    saved := stored;
    var st := ToolState(stored, [], [], None);
    var response := first;
    if HasCalls(first) {
      var profile, toolParts, generatedAttachments, finalToolResult :=
        ExecuteFunctionCalls(stored, first.functionCalls, io, webhookUrl);
      st := ToolState(profile, toolParts, generatedAttachments, finalToolResult);
      saved := profile;
      requests := [request, request.(contents := SecondContents(request.contents, first, st))];
      response := second;
    }
    outcome := Returned(Finish(response, st));
  }

  /** `generateResponse`. `first` and `second` are what the first and the second
      `generateContent` request resolve to; `io` answers the first reply's
      function calls one by one. Returns the outcome, the requests made and
      the profile as stored afterwards. */
  method GenerateResponse(
    apiKeyPresent: bool, prompt: string, history: seq<Message>, attachments: seq<Attachment>,
    config: AgentConfig, stored: UserProfile, first: Reply, second: Reply, io: seq<ToolIo>)
    returns (outcome: Outcome, requests: seq<Request>, saved: UserProfile)
    requires first.Generated? ==> |io| == |first.functionCalls|
    ensures Turn(outcome, requests, saved) == TurnOf(apiKeyPresent, prompt, history, attachments, config, stored, first, second, io)
  {
    if !apiKeyPresent {
      return Thrown(MissingKey), [], stored;
    }
    var instruction := ActiveSystemInstruction(config, stored);
    var contents := InitialContents(prompt, history, attachments);
    var funcs := SelectFunctionDeclarations(config.activeModules, config.webhookConfig.url);
    var tools := BuildTools(funcs, config.useSearch);
    var request := Request(config.modelName, contents, instruction, tools);
    outcome, requests, saved := AnswerFirstReply(request, stored, first, second, io, config.webhookConfig.url);
  }
}
