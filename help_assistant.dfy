/**
 * The help assistant's chat (components/HelpAssistant.tsx): a message list,
 * an input line and pending attachments, a send that hands the conversation
 * to the response service, and the rule that shows the quick-action buttons.
 *
 * The call to the service is asynchronous; the model splits it into the send
 * (`HandleSend`, which returns the request) and its completion (`Complete`,
 * which receives the reply text, or nothing when the call failed). Message
 * ids and timestamps (`Date.now()`) are parameters.
 */
module HelpAssistant {
  import opened Types
  import opened JsStrings

  /** What `handleSend` passes to `generateResponse`: the prompt, the history
      and the attachments of the new message. */
  datatype HelpRequest = HelpRequest(prompt: string, history: seq<Message>, attachments: seq<Attachment>)

  /** The user's message for a send. */
  function UserMessage(id: string, text: string, now: int, attachments: seq<Attachment>): Message {
    Message(id, User, text, now, attachments, [], None, None)
  }

  /** The assistant's message for a reply. */
  function ReplyMessage(id: string, text: string, now: int): Message {
    Message(id, Model, text, now, [], [], None, None)
  }

  /** The quick actions are offered while there are no messages, or when the
      last message is the assistant's. */
  predicate QuickActionsVisible(messages: seq<Message>) {
    |messages| == 0 || messages[|messages| - 1].role == Model
  }

  /** The guard of `handleSend`: something to send, and no request in flight. */
  predicate CanSend(text: string, attachments: seq<Attachment>, isProcessing: bool) {
    !((Trim(text) == "" && attachments == []) || isProcessing)
  }

  /** The `isText` flag of an uploaded file: its MIME type mentions text or JSON. */
  predicate UploadIsText(mimeType: string) {
    Contains(mimeType, "text") || Contains(mimeType, "json")
  }

  class HelpChat {
    var messages: seq<Message>
    var input: string
    var attachments: seq<Attachment>
    var isProcessing: bool

    constructor ()
      ensures messages == [] && input == "" && attachments == [] && !isProcessing
    {
      messages, input, attachments, isProcessing := [], "", [], false;
    }

    /** `handleSend(text)`: when there is something to send and no request is
        in flight, the user's message (with a copy of the pending attachments)
        is appended, the input and the attachments are cleared, processing
        starts, and the request carries the previous messages followed by the
        new one. Otherwise nothing happens and no request is made. */
    method HandleSend(text: string, id: string, now: int) returns (request: Option<HelpRequest>)
      modifies this
      ensures !CanSend(text, old(attachments), old(isProcessing)) ==>
        && request == None
        && messages == old(messages) && input == old(input) && attachments == old(attachments)
        && isProcessing == old(isProcessing)
      ensures CanSend(text, old(attachments), old(isProcessing)) ==>
        var msg := UserMessage(id, text, now, old(attachments));
        && messages == old(messages) + [msg]
        && input == "" && attachments == [] && isProcessing
        && request == Some(HelpRequest(text, old(messages) + [msg], old(attachments)))
    {
      if (Trim(text) == "" && |attachments| == 0) || isProcessing {
        return None;
      }
      var msg := UserMessage(id, text, now, attachments);
      var history := messages + [msg];
      messages := messages + [msg];
      input := "";
      var sent := attachments;
      attachments := [];
      isProcessing := true;
      request := Some(HelpRequest(text, history, sent));
    }

    /** The send button: `handleSend` with the input line. */
    method SendInput(id: string, now: int) returns (request: Option<HelpRequest>)
      modifies this
      ensures CanSend(old(input), old(attachments), old(isProcessing)) <==> request.Some?
      ensures request.Some? ==> request.value.prompt == old(input) && input == ""
      ensures !CanSend(old(input), old(attachments), old(isProcessing)) ==>
        && messages == old(messages) && input == old(input) && attachments == old(attachments)
        && isProcessing == old(isProcessing)
      ensures CanSend(old(input), old(attachments), old(isProcessing)) ==>
        var msg := UserMessage(id, old(input), now, old(attachments));
        && messages == old(messages) + [msg]
        && input == "" && attachments == [] && isProcessing
        && request == Some(HelpRequest(old(input), old(messages) + [msg], old(attachments)))
    {
      request := HandleSend(input, id, now);
    }

    /** The end of the request: the reply, if the call succeeded, is appended
        as the assistant's message, and processing stops either way. */
    method Complete(reply: Option<string>, id: string, now: int)
      modifies this
      ensures messages == old(messages) + (if reply.Some? then [ReplyMessage(id, reply.value, now)] else [])
      ensures input == old(input) && attachments == old(attachments) && !isProcessing
    {
      if reply.Some? {
        messages := messages + [ReplyMessage(id, reply.value, now)];
      }
      isProcessing := false;
    }

    /** The remove button of attachment `index`. */
    method RemoveAttachment(index: int)
      modifies this
      ensures attachments == if 0 <= index < |old(attachments)| then old(attachments)[..index] + old(attachments)[index + 1..]
                             else old(attachments)
      ensures messages == old(messages) && input == old(input) && isProcessing == old(isProcessing)
    {
      WithoutIndexIsSplice(attachments, index);
      attachments := WithoutIndex(attachments, index);
    }

    /** `handleFileUpload` once the file is read: the file becomes an attachment. */
    method AddAttachment(name: string, mimeType: string, data: string)
      modifies this
      ensures attachments == old(attachments) + [Attachment(name, mimeType, data, UploadIsText(mimeType))]
      ensures messages == old(messages) && input == old(input) && isProcessing == old(isProcessing)
    {
      attachments := attachments + [Attachment(name, mimeType, data, UploadIsText(mimeType))];
    }
  }

  /** A send hides the quick actions: the last message is then the user's. */
  lemma SendHidesQuickActions(messages: seq<Message>, id: string, text: string, now: int, attachments: seq<Attachment>)
    ensures !QuickActionsVisible(messages + [UserMessage(id, text, now, attachments)])
  {
  }

  /** A reply shows them again; a failed request leaves them hidden, because
      the user's message stays last. */
  lemma ReplyShowsQuickActions(messages: seq<Message>, reply: Option<string>, id: string, now: int)
    requires |messages| > 0 && messages[|messages| - 1].role == User
    ensures QuickActionsVisible(messages + (if reply.Some? then [ReplyMessage(id, reply.value, now)] else []))
      <==> reply.Some?
  {
  }
}
