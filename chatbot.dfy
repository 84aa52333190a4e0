/** The chat widget: a message list, the input box, an in-flight flag and
    the conversation id handed out by the remote function. The remote call's
    outcome is a parameter; sending is split at its `await` so that the
    in-flight state can be observed. */
module ChatBot {
  import opened Base
  import opened JsText
  import opened Ui

  datatype Role = UserRole | Assistant

  /** Message ids: `welcome`, or a prefix with the clock reading. */
  datatype MessageId = WelcomeId | UserId(stamp: int) | AssistantId(stamp: int) | ErrorId(stamp: int)

  datatype Message = Message(id: MessageId, role: Role, content: string, timestamp: int)

  const WelcomeText := "Hello! I'm your business consulting assistant. I can help you learn about Reforzo's services, our approach to operational excellence, and how we can help transform your business. What would you like to know?"
  const FallbackText := "I apologize, but I encountered an issue. Please try again."
  const ErrorText := "I'm sorry, I encountered an error. Please try again or contact our team directly."
  const SendFailedToast := Toast("Error", "Failed to send message. Please try again.", true)

  /** The function's JSON answer. */
  datatype ResponseBody = ResponseBody(error: Option<string>, response: Option<string>, conversationId: Option<string>)

  /** The body sent to the remote function: the message, the widget's session
      id and the conversation id known at the time. */
  datatype ChatRequest = ChatRequest(message: string, sessionId: string, conversationId: Option<string>)

  /** How the remote call ends: an error object, an exception, or data
      (which can be null). */
  datatype InvokeOutcome = InvokeError(message: string) | InvokeThrows | Invoked(data: Option<ResponseBody>)

  /** JavaScript truthiness of an optional string. */
  predicate Truthy(s: Option<string>) {
    s.Some? && s.value != []
  }

  /** The call produced an answer: no error object, non-null data without a
      truthy `error` field. Anything else lands in the `catch`. */
  predicate Answered(outcome: InvokeOutcome) {
    outcome.Invoked? && outcome.data.Some? && !Truthy(outcome.data.value.error)
  }

  /** `data.response || fallback` */
  function ReplyText(body: ResponseBody): (text: string)
    ensures text != []
    ensures Truthy(body.response) ==> text == body.response.value
  {
    if Truthy(body.response) then body.response.value else FallbackText
  }

  /** The message that answers a send: the assistant's reply, or the error
      message when the call failed. */
  function ReplyMessage(outcome: InvokeOutcome, now: int): (m: Message)
    ensures m.role == Assistant && m.id != WelcomeId
    ensures Answered(outcome) ==> m.content == ReplyText(outcome.data.value) && m.id == AssistantId(now)
    ensures !Answered(outcome) ==> m.content == ErrorText && m.id == ErrorId(now)
  {
    if Answered(outcome) then Message(AssistantId(now), Assistant, ReplyText(outcome.data.value), now)
    else Message(ErrorId(now), Assistant, ErrorText, now)
  }

  /** A message the user sent. */
  predicate IsSent(m: Message) { m.role == UserRole }
  /** A reply to a sent message: any assistant message but the welcome. */
  predicate IsReply(m: Message) { m.role == Assistant && m.id != WelcomeId }

  function CountSent(ms: seq<Message>): nat {
    if ms == [] then 0 else (if IsSent(ms[|ms| - 1]) then 1 else 0) + CountSent(ms[..|ms| - 1])
  }

  function CountReplies(ms: seq<Message>): nat {
    if ms == [] then 0 else (if IsReply(ms[|ms| - 1]) then 1 else 0) + CountReplies(ms[..|ms| - 1])
  }

  lemma CountsAppend(ms: seq<Message>, m: Message)
    ensures CountSent(ms + [m]) == CountSent(ms) + (if IsSent(m) then 1 else 0)
    ensures CountReplies(ms + [m]) == CountReplies(ms) + (if IsReply(m) then 1 else 0)
  {
    assert (ms + [m])[..|ms + [m]| - 1] == ms;
  }

  class ChatWidget {
    var isOpen: bool
    var messages: seq<Message>
    var inputValue: string
    var isLoading: bool
    var conversationId: Option<string>
    /** Fixed at mount from the clock and a random number. */
    var sessionId: string
    /** The bodies sent to the remote function, in order. */
    var requests: seq<ChatRequest>
    var toasts: seq<Toast>

    /** Every sent message has exactly one reply, except the one in flight,
        which is the last message; a stored conversation id is never empty. */
    ghost predicate Valid()
      reads this
    {
      CountSent(messages) == CountReplies(messages) + (if isLoading then 1 else 0) &&
      (isLoading ==> messages != [] && IsSent(messages[|messages| - 1])) &&
      (conversationId.Some? ==> conversationId.value != [])
    }

    /** The widget is mounted with a session id drawn by the caller. */
    constructor (session: string)
      ensures Valid()
      ensures !isOpen && messages == [] && inputValue == [] && !isLoading && conversationId == None && requests == []
      ensures toasts == [] && sessionId == session
    {
      isOpen, messages, inputValue, isLoading, conversationId, requests := false, [], [], false, None, [];
      sessionId := session;
      toasts := [];
    }

    /** `setIsOpen(open)` followed by the effect on `isOpen`: opening an
        empty chat seeds the welcome message. */
    method SetOpen(open: bool, now: int)
      requires Valid()
      modifies this`isOpen, this`messages
      ensures Valid() && isOpen == open
      ensures open && old(messages) == [] ==> messages == [Message(WelcomeId, Assistant, WelcomeText, now)]
      ensures !(open && old(messages) == []) ==> messages == old(messages)
    {
      isOpen := open;
      if open && messages == [] {
        messages := [Message(WelcomeId, Assistant, WelcomeText, now)];
      }
    }

    /** Typing, or picking a quick reply. */
    method SetInput(value: string)
      requires Valid()
      modifies this`inputValue
      ensures Valid() && inputValue == value
    {
      inputValue := value;
    }

    /** `sendMessage` up to the `await`: nothing happens for blank input or
        while a send is in flight; otherwise the trimmed text is appended as
        the user's message and sent, the input is cleared and loading set. */
    method BeginSend(now: int) returns (sent: bool)
      requires Valid()
      modifies this`messages, this`inputValue, this`isLoading, this`requests
      ensures Valid()
      ensures sent <==> Trim(old(inputValue)) != [] && !old(isLoading)
      ensures !sent ==> messages == old(messages) && inputValue == old(inputValue) &&
                        isLoading == old(isLoading) && requests == old(requests)
      ensures sent ==> messages == old(messages) + [Message(UserId(now), UserRole, Trim(old(inputValue)), now)] &&
                       inputValue == [] && isLoading &&
                       requests == old(requests) + [ChatRequest(Trim(old(inputValue)), sessionId, conversationId)]
    {
      if Trim(inputValue) == [] || isLoading {
        return false;
      }
      var userMessage := Message(UserId(now), UserRole, Trim(inputValue), now);
      CountsAppend(messages, userMessage);
      messages := messages + [userMessage];
      inputValue := [];
      isLoading := true;
      requests := requests + [ChatRequest(userMessage.content, sessionId, conversationId)];
      sent := true;
    }

    /** `sendMessage` after the `await`: exactly one reply is appended, a
        first conversation id is kept, a failure also raises a toast, and
        loading ends. */
    method CompleteSend(outcome: InvokeOutcome, now: int)
      requires Valid() && isLoading
      modifies this`messages, this`isLoading, this`conversationId, this`toasts
      ensures Valid() && !isLoading
      ensures messages == old(messages) + [ReplyMessage(outcome, now)]
      ensures toasts == old(toasts) + (if Answered(outcome) then [] else [SendFailedToast])
      ensures old(conversationId).Some? ==> conversationId == old(conversationId)
      ensures old(conversationId).None? && Answered(outcome) && Truthy(outcome.data.value.conversationId) ==>
                conversationId == outcome.data.value.conversationId
      ensures !(Answered(outcome) && Truthy(outcome.data.value.conversationId)) ==> conversationId == old(conversationId)
    {
      var reply := ReplyMessage(outcome, now);
      CountsAppend(messages, reply);
      messages := messages + [reply];
      if !Answered(outcome) {
        toasts := toasts + [SendFailedToast];
      }
      if Answered(outcome) {
        var received := outcome.data.value.conversationId;
        if Truthy(received) && conversationId.None? {
          conversationId := received;
        }
      }
      isLoading := false;
    }

    /** A whole send whose remote call ends with `outcome`. */
    method SendMessage(outcome: InvokeOutcome, now: int) returns (sent: bool)
      requires Valid() && !isLoading
      modifies this`messages, this`inputValue, this`isLoading, this`requests, this`conversationId, this`toasts
      ensures Valid() && !isLoading
      ensures sent <==> Trim(old(inputValue)) != []
      ensures SendDone(outcome, now, sessionId, sent, old(messages), messages, old(inputValue), inputValue,
                       old(requests), requests, old(toasts), toasts, old(conversationId), conversationId)
    {
      sent := BeginSend(now);
      if sent {
        CompleteSend(outcome, now);
      }
    }

    /** `handleKeyPress`: Enter sends, Shift+Enter does not. */
    method HandleKeyPress(key: string, shiftKey: bool, outcome: InvokeOutcome, now: int) returns (sent: bool)
      requires Valid() && !isLoading
      modifies this`messages, this`inputValue, this`isLoading, this`requests, this`conversationId, this`toasts
      ensures Valid() && !isLoading
      ensures !(key == "Enter" && !shiftKey) ==>
                !sent && messages == old(messages) && inputValue == old(inputValue) && requests == old(requests) &&
                toasts == old(toasts) && conversationId == old(conversationId)
      ensures key == "Enter" && !shiftKey ==>
                (sent <==> Trim(old(inputValue)) != []) &&
                SendDone(outcome, now, sessionId, sent, old(messages), messages, old(inputValue), inputValue,
                         old(requests), requests, old(toasts), toasts, old(conversationId), conversationId)
    {
      if key == "Enter" && !shiftKey {
        sent := SendMessage(outcome, now);
      } else {
        sent := false;
      }
    }
  }

  /** The effect of a whole `sendMessage` on the widget. Blank input changes
      nothing. Otherwise the user's trimmed message and its reply are
      appended, the input is cleared, one request is sent, a failure toasts,
      and a first truthy conversation id is kept. */
  predicate SendDone(outcome: InvokeOutcome, now: int, sessionId: string, sent: bool,
                     messages0: seq<Message>, messages: seq<Message>, input0: string, input: string,
                     requests0: seq<ChatRequest>, requests: seq<ChatRequest>, toasts0: seq<Toast>, toasts: seq<Toast>,
                     conversation0: Option<string>, conversation: Option<string>)
  {
    (!sent ==>
       messages == messages0 && input == input0 && requests == requests0 && toasts == toasts0 &&
       conversation == conversation0) &&
    (sent ==>
       messages == messages0 + [Message(UserId(now), UserRole, Trim(input0), now), ReplyMessage(outcome, now)] &&
       input == [] &&
       requests == requests0 + [ChatRequest(Trim(input0), sessionId, conversation0)] &&
       toasts == toasts0 + (if Answered(outcome) then [] else [SendFailedToast]) &&
       (conversation0.Some? ==> conversation == conversation0) &&
       (conversation0.None? && Answered(outcome) && Truthy(outcome.data.value.conversationId) ==>
          conversation == outcome.data.value.conversationId) &&
       (!(Answered(outcome) && Truthy(outcome.data.value.conversationId)) ==> conversation == conversation0))
  }
}
