/**
 * The session list, the saved identities, the camera / screen-share switch
 * and the canvas of the application shell (App.tsx).
 *
 * Title, preview, deletion filters and the canvas choice are functions; the
 * class `Shell` holds the state cells the handlers update, with one method
 * per handler. Ids and timestamps (`Date.now()`) are parameters, and the
 * session list is the value that would be written to local storage.
 */
module App {
  import opened Types
  import opened JsStrings

  const NewSessionTitle := "New Session"
  const EmptyPreview := "Empty"
  const TitleLength: nat := 30
  const PreviewLength: nat := 50

  // ---------------------------------------------------------------------------
  // Titles and previews

  predicate IsUserMessage(m: Message) {
    m.role == User
  }

  /** The title derived from the conversation: the first 30 characters of the
      first user message, followed by "..." when that prefix is 30 characters
      long; "New Session" when there is no user message or the first one is
      empty. */
  function DerivedTitle(messages: seq<Message>): string {
    var i := FindIndex(messages, IsUserMessage);
    var first := if i >= 0 then Take(messages[i].content, TitleLength) else "";
    if first != "" then first + (if |first| == TitleLength then "..." else "") else NewSessionTitle
  }

  /** The title an upserted session gets: a new session, or one still called
      "New Session" (or with an empty title), takes the derived title; any
      other existing title is kept. */
  function KeptTitle(existing: Option<ChatSession>, derived: string): string {
    match existing
    case None => derived
    case Some(s) => if s.title == NewSessionTitle then derived else OrElse(s.title, derived)
  }

  /** The preview: the first 50 characters of the last message. */
  function Preview(messages: seq<Message>): string
    requires |messages| > 0
  {
    Take(messages[|messages| - 1].content, PreviewLength)
  }

  // ---------------------------------------------------------------------------
  // The session list

  predicate HasId(id: string, s: ChatSession) {
    s.id == id
  }

  function SessionIndex(sessions: seq<ChatSession>, id: string): int {
    FindIndex(sessions, s => HasId(id, s))
  }

  predicate UniqueIds(sessions: seq<ChatSession>) {
    forall i, j :: 0 <= i < j < |sessions| ==> sessions[i].id != sessions[j].id
  }

  /** The session the auto-save writes for conversation `messages` under `id`. */
  function SavedSession(sessions: seq<ChatSession>, id: string, messages: seq<Message>, now: int): ChatSession
    requires |messages| > 0
  {
    var i := SessionIndex(sessions, id);
    var existing := if i >= 0 then Some(sessions[i]) else None;
    ChatSession(id, KeptTitle(existing, DerivedTitle(messages)), messages, now, Preview(messages))
  }

  /** The list the auto-save writes: `updated` replaces the session with its id,
      or is appended when there is none. */
  function Upserted(sessions: seq<ChatSession>, updated: ChatSession): seq<ChatSession> {
    var i := SessionIndex(sessions, updated.id);
    if i >= 0 then sessions[i := updated] else sessions + [updated]
  }

  /** A fresh, empty session. */
  function NewSession(id: string, now: int): ChatSession {
    ChatSession(id, NewSessionTitle, [], now, EmptyPreview)
  }

  function WithoutSession(sessions: seq<ChatSession>, id: string): seq<ChatSession> {
    Filter(sessions, s => !HasId(id, s))
  }

  function WithoutAgent(agents: seq<SavedAgent>, id: string): seq<SavedAgent> {
    Filter(agents, (a: SavedAgent) => a.id != id)
  }

  // ---------------------------------------------------------------------------
  // The canvas

  /** Attachments the canvas prefers: a 3D model page or an image. */
  predicate PrefersCanvas(a: Attachment) {
    Contains(a.name, "3d_model") || StartsWith(a.mimeType, "image/")
  }

  /** What the canvas shows of a reply's attachments: the first preferred one,
      else the first one; nothing (the canvas is not opened) for none. */
  function CanvasChoice(attachments: seq<Attachment>): Option<Attachment> {
    if attachments == [] then None
    else
      var i := FindIndex(attachments, PrefersCanvas);
      Some(if i >= 0 then attachments[i] else attachments[0])
  }

  // ---------------------------------------------------------------------------
  // The shell's state

  class Shell {
    var messages: seq<Message>
    var sessions: seq<ChatSession>
    var currentSessionId: Option<string>
    var savedAgents: seq<SavedAgent>
    var isCameraActive: bool
    var isScreenShareActive: bool
    var isCanvasOpen: bool
    var canvasContent: Option<Attachment>
    /** Whether the browser offers `getDisplayMedia`. */
    const screenShareSupported: bool

    /** Camera and screen share are never on together, and screen share is
        only ever on where the browser supports it. */
    predicate Valid()
      reads this
    {
      !(isCameraActive && isScreenShareActive) && (isScreenShareActive ==> screenShareSupported)
    }

    constructor (screenShareSupported: bool)
      ensures Valid() && this.screenShareSupported == screenShareSupported
      ensures messages == [] && sessions == [] && currentSessionId == None && savedAgents == []
      ensures !isCameraActive && !isScreenShareActive && !isCanvasOpen && canvasContent == None
    {
      this.screenShareSupported := screenShareSupported;
      messages, sessions, currentSessionId, savedAgents := [], [], None, [];
      isCameraActive, isScreenShareActive, isCanvasOpen, canvasContent := false, false, false, None;
    }

    /** The auto-save effect: with a current session and a non-empty
        conversation, the session is written into the list (replaced in place
        or appended); otherwise the list is left alone. The source tests the
        id for truthiness; `Some` stands for that because ids are made from
        the clock and are never empty. */
    method AutoSave(now: int)
      modifies this
      ensures currentSessionId.Some? && |messages| > 0 ==>
        sessions == Upserted(old(sessions), SavedSession(old(sessions), currentSessionId.value, messages, now))
      ensures !(currentSessionId.Some? && |messages| > 0) ==> sessions == old(sessions)
      ensures messages == old(messages) && currentSessionId == old(currentSessionId) && savedAgents == old(savedAgents)
      ensures isCameraActive == old(isCameraActive) && isScreenShareActive == old(isScreenShareActive)
      ensures isCanvasOpen == old(isCanvasOpen) && canvasContent == old(canvasContent)
    {
      if currentSessionId.Some? && |messages| > 0 {
        var id := currentSessionId.value;
        var existingIndex := SessionIndex(sessions, id);
        var updated := SavedSession(sessions, id, messages, now);
        var newSessions := sessions;
        if existingIndex >= 0 {
          newSessions := newSessions[existingIndex := updated];
        } else {
          newSessions := newSessions + [updated];
        }
        sessions := newSessions;
      }
    }

    /** `handleCreateSession`: a fresh session is appended and made current,
        and the conversation is cleared. */
    method CreateSession(id: string, now: int)
      modifies this
      ensures sessions == old(sessions) + [NewSession(id, now)]
      ensures currentSessionId == Some(id) && messages == []
      ensures savedAgents == old(savedAgents)
      ensures isCameraActive == old(isCameraActive) && isScreenShareActive == old(isScreenShareActive)
      ensures isCanvasOpen == old(isCanvasOpen) && canvasContent == old(canvasContent)
    {
      sessions := sessions + [NewSession(id, now)];
      currentSessionId := Some(id);
      messages := [];
    }

    /** `handleDeleteSession`: every session with the id is dropped; when it
        was the current one, a fresh session (`newId`) is created. */
    method DeleteSession(id: string, newId: string, now: int)
      modifies this
      ensures old(currentSessionId) == Some(id) ==>
        sessions == WithoutSession(old(sessions), id) + [NewSession(newId, now)]
        && currentSessionId == Some(newId) && messages == []
      ensures old(currentSessionId) != Some(id) ==>
        sessions == WithoutSession(old(sessions), id)
        && currentSessionId == old(currentSessionId) && messages == old(messages)
      ensures savedAgents == old(savedAgents)
      ensures isCameraActive == old(isCameraActive) && isScreenShareActive == old(isScreenShareActive)
      ensures isCanvasOpen == old(isCanvasOpen) && canvasContent == old(canvasContent)
    {
      sessions := WithoutSession(sessions, id);
      if currentSessionId == Some(id) {
        CreateSession(newId, now);
      }
    }

    /** `handleDeleteAgent`: every saved identity with the id is dropped. */
    method DeleteAgent(id: string)
      modifies this
      ensures savedAgents == WithoutAgent(old(savedAgents), id)
      ensures messages == old(messages) && sessions == old(sessions) && currentSessionId == old(currentSessionId)
      ensures isCameraActive == old(isCameraActive) && isScreenShareActive == old(isScreenShareActive)
      ensures isCanvasOpen == old(isCanvasOpen) && canvasContent == old(canvasContent)
    {
      savedAgents := WithoutAgent(savedAgents, id);
    }

    /** `handleToggleScreenShare`: nothing where the browser cannot share the
        screen; an active share is stopped; otherwise the camera is turned
        off and the share is on exactly when the user grants it. */
    method ToggleScreenShare(granted: bool)
      requires Valid()
      modifies this
      ensures Valid()
      ensures !screenShareSupported ==> isScreenShareActive == old(isScreenShareActive) && isCameraActive == old(isCameraActive)
      ensures screenShareSupported && old(isScreenShareActive) ==> !isScreenShareActive && isCameraActive == old(isCameraActive)
      ensures screenShareSupported && !old(isScreenShareActive) ==> isScreenShareActive == granted && !isCameraActive
      ensures messages == old(messages) && sessions == old(sessions) && currentSessionId == old(currentSessionId)
      ensures savedAgents == old(savedAgents) && isCanvasOpen == old(isCanvasOpen) && canvasContent == old(canvasContent)
    {
      if !screenShareSupported {
        return;
      }
      if isScreenShareActive {
        isScreenShareActive := false;
      } else {
        if isCameraActive {
          isCameraActive := false;
        }
        isScreenShareActive := granted;
      }
    }

    /** The browser's own "stop sharing" button. */
    method ScreenShareEnded()
      requires Valid()
      modifies this
      ensures Valid() && !isScreenShareActive && isCameraActive == old(isCameraActive)
      ensures messages == old(messages) && sessions == old(sessions) && currentSessionId == old(currentSessionId)
      ensures savedAgents == old(savedAgents) && isCanvasOpen == old(isCanvasOpen) && canvasContent == old(canvasContent)
    {
      isScreenShareActive := false;
    }

    /** `handleToggleCamera`: the camera flips; turning it on stops an active
        screen share first, so afterwards the screen is never shared. */
    method ToggleCamera()
      requires Valid()
      modifies this
      ensures Valid()
      ensures isCameraActive == !old(isCameraActive)
      ensures !isScreenShareActive
      ensures messages == old(messages) && sessions == old(sessions) && currentSessionId == old(currentSessionId)
      ensures savedAgents == old(savedAgents) && isCanvasOpen == old(isCanvasOpen) && canvasContent == old(canvasContent)
    {
      var wasActive := isCameraActive;
      if !isCameraActive && isScreenShareActive {
        ToggleScreenShare(false);
      }
      isCameraActive := !wasActive;
    }

    /** The canvas part of `handleSendMessage`: a reply with attachments opens
        the canvas on the chosen one. */
    method ShowReplyAttachments(attachments: seq<Attachment>)
      modifies this
      ensures attachments == [] ==> isCanvasOpen == old(isCanvasOpen) && canvasContent == old(canvasContent)
      ensures attachments != [] ==> isCanvasOpen && canvasContent == CanvasChoice(attachments)
      ensures messages == old(messages) && sessions == old(sessions) && currentSessionId == old(currentSessionId)
      ensures savedAgents == old(savedAgents)
      ensures isCameraActive == old(isCameraActive) && isScreenShareActive == old(isScreenShareActive)
    {
      if |attachments| > 0 {
        var contentToShow := CanvasChoice(attachments);
        canvasContent := contentToShow;
        isCanvasOpen := true;
      }
    }
  }

  // ---------------------------------------------------------------------------
  // Properties

  /** The derived title starts with the first user message's first 30
      characters and carries "..." exactly when the message is at least 30
      characters long; it is "New Session" when there is no such text. */
  lemma DerivedTitleShape(messages: seq<Message>)
    ensures var i := FindIndex(messages, IsUserMessage);
      var t := DerivedTitle(messages);
      if i >= 0 && messages[i].content != "" then
        var c := messages[i].content;
        var n := if |c| < TitleLength then |c| else TitleLength;
        && |t| == n + (if |c| >= TitleLength then 3 else 0)
        && t[..n] == c[..n]
        && (|c| >= TitleLength ==> t[n..] == "...")
      else t == NewSessionTitle
  {
  }

  /** Only the first user message decides the title: the rest of the
      conversation, however it goes on, does not change it. */
  lemma {:induction false} TitleFixedByFirstUserMessage(messages: seq<Message>, more: seq<Message>)
    requires exists j :: 0 <= j < |messages| && IsUserMessage(messages[j])
    ensures DerivedTitle(messages + more) == DerivedTitle(messages)
  {
    var j :| 0 <= j < |messages| && IsUserMessage(messages[j]);
    FindIndexOfPrefix(messages, more, IsUserMessage, j);
  }

  /** `findIndex` on a list that starts with `a`, where `a` has a match at
      `j`, finds the same position as on `a`. */
  lemma {:induction false} FindIndexOfPrefix<T>(a: seq<T>, b: seq<T>, p: T -> bool, j: int)
    requires 0 <= j < |a| && p(a[j])
    ensures FindIndex(a + b, p) == FindIndex(a, p)
  {
    var i := FindIndex(a, p);
    var k := FindIndex(a + b, p);
    assert (a + b)[j] == a[j];
    assert i >= 0 && i <= j;
    assert (a + b)[i] == a[i];
  }

  /** Without any user message (a conversation of system notes, say) the
      title stays "New Session". */
  lemma NoUserMessageTitle(messages: seq<Message>)
    requires forall j :: 0 <= j < |messages| ==> messages[j].role != User
    ensures DerivedTitle(messages) == NewSessionTitle
  {
  }

  /** A non-empty title other than "New Session" survives the auto-save; a
      session still called "New Session", not yet in the list, or with an
      empty title (which `||` treats as missing) takes the derived title. */
  lemma KeptTitleRule(sessions: seq<ChatSession>, id: string, messages: seq<Message>, now: int)
    requires |messages| > 0
    ensures var i := SessionIndex(sessions, id);
      var t := SavedSession(sessions, id, messages, now).title;
      && (i >= 0 && sessions[i].title != NewSessionTitle && sessions[i].title != "" ==> t == sessions[i].title)
      && (i < 0 || sessions[i].title == NewSessionTitle ==> t == DerivedTitle(messages))
      && (i >= 0 && sessions[i].title == "" ==> t == DerivedTitle(messages))
  {
  }

  /** The saved session carries the conversation and its preview: the last
      message's first 50 characters. */
  lemma SavedSessionContents(sessions: seq<ChatSession>, id: string, messages: seq<Message>, now: int)
    requires |messages| > 0
    ensures var s := SavedSession(sessions, id, messages, now);
      var last := messages[|messages| - 1].content;
      && s.id == id && s.messages == messages && s.lastModified == now
      && |s.preview| <= PreviewLength
      && StartsWith(last, s.preview)
      && (|last| <= PreviewLength ==> s.preview == last)
  {
  }

  /** The upsert replaces the session with the same id in place, or appends
      when there is none, and leaves every other session as it was. */
  lemma UpsertReplacesOrAppends(sessions: seq<ChatSession>, updated: ChatSession)
    ensures var r := Upserted(sessions, updated);
      var i := SessionIndex(sessions, updated.id);
      && (i >= 0 ==> |r| == |sessions| && r[i] == updated)
      && (i < 0 ==> |r| == |sessions| + 1 && r[|sessions|] == updated)
      && (forall j :: 0 <= j < |sessions| && j != i ==> r[j] == sessions[j])
  {
  }

  /** After the upsert the list holds the session exactly once, and a list
      whose ids were unique keeps them unique. */
  lemma UpsertKeepsIdsUnique(sessions: seq<ChatSession>, updated: ChatSession)
    requires UniqueIds(sessions)
    ensures var r := Upserted(sessions, updated);
      && UniqueIds(r)
      && updated in r
      && (forall j :: 0 <= j < |r| && r[j].id == updated.id ==> r[j] == updated)
  {
    var i := SessionIndex(sessions, updated.id);
    var r := Upserted(sessions, updated);
    if i < 0 {
      assert r[|sessions|] == updated;
    } else {
      assert r[i] == updated;
    }
  }

  /** Deleting keeps exactly the sessions with another id, in their order:
      none with the id remains, and no other is lost. */
  lemma DeleteSessionRemovesAll(sessions: seq<ChatSession>, id: string)
    ensures forall s :: s in WithoutSession(sessions, id) <==> s in sessions && s.id != id
    ensures |WithoutSession(sessions, id)| <= |sessions|
    ensures (forall j :: 0 <= j < |sessions| ==> sessions[j].id != id) ==> WithoutSession(sessions, id) == sessions
  {
    FilterMembers(sessions, s => !HasId(id, s));
    if forall j :: 0 <= j < |sessions| ==> sessions[j].id != id {
      FilterKeepsAll(sessions, s => !HasId(id, s));
    }
  }

  /** Deleting keeps the order: deleting from a concatenation deletes from
      each part. */
  lemma DeleteSessionKeepsOrder(front: seq<ChatSession>, back: seq<ChatSession>, id: string)
    ensures WithoutSession(front + back, id) == WithoutSession(front, id) + WithoutSession(back, id)
  {
    FilterAppend(front, back, s => !HasId(id, s));
  }

  /** Deleting an identity keeps exactly the identities with another id. */
  lemma DeleteAgentRemovesAll(agents: seq<SavedAgent>, id: string)
    ensures forall a :: a in WithoutAgent(agents, id) <==> a in agents && a.id != id
  {
    FilterMembers(agents, (a: SavedAgent) => a.id != id);
  }

  /** The canvas shows one of the reply's attachments: the first one it
      prefers, or the first one when it prefers none. */
  lemma CanvasChoiceRule(attachments: seq<Attachment>)
    ensures CanvasChoice(attachments).Some? <==> attachments != []
    ensures attachments != [] ==>
      var chosen := CanvasChoice(attachments).value;
      && chosen in attachments
      && ((exists j :: 0 <= j < |attachments| && PrefersCanvas(attachments[j])) ==>
            PrefersCanvas(chosen)
            && exists k :: 0 <= k < |attachments| && attachments[k] == chosen
                 && forall j :: 0 <= j < k ==> !PrefersCanvas(attachments[j]))
      && ((forall j :: 0 <= j < |attachments| ==> !PrefersCanvas(attachments[j])) ==> chosen == attachments[0])
  {
    if attachments != [] {
      var i := FindIndex(attachments, PrefersCanvas);
      if i >= 0 {
        assert attachments[i] == CanvasChoice(attachments).value;
      }
    }
  }
}
