/**
 * The jQuery chat widget (`jqueryClient/script.js`): each submitted message appends an
 * outgoing bubble and a "Thinking..." bubble to the chat box, and the API Gateway reply
 * fills in the second one and replaces the session id.
 */
module JQueryChat {
  import opened Wrappers

  /** The ECMAScript `WhiteSpace` and `LineTerminator` characters that `String.prototype.trim` removes. */
  predicate IsJsSpace(c: char) {
    c == '\t' || c == '\n' || c == '\U{000B}' || c == '\U{000C}' || c == '\r' || c == ' ' ||
    c == '\U{00A0}' || c == '\U{1680}' || ('\U{2000}' <= c <= '\U{200A}') ||
    c == '\U{2028}' || c == '\U{2029}' || c == '\U{202F}' || c == '\U{205F}' ||
    c == '\U{3000}' || c == '\U{FEFF}'
  }

  function TrimStart(s: string): (r: string)
    ensures |r| <= |s| && r == s[|s| - |r|..]
    ensures forall i :: 0 <= i < |s| - |r| ==> IsJsSpace(s[i])
    ensures r != [] ==> !IsJsSpace(r[0])
    decreases |s|
  {
    if s != [] && IsJsSpace(s[0]) then TrimStart(s[1..]) else s
  }

  function TrimEnd(s: string): (r: string)
    ensures |r| <= |s| && r == s[..|r|]
    ensures forall i :: |r| <= i < |s| ==> IsJsSpace(s[i])
    ensures r != [] ==> !IsJsSpace(r[|r| - 1])
    decreases |s|
  {
    if s != [] && IsJsSpace(s[|s| - 1]) then TrimEnd(s[..|s| - 1]) else s
  }

  function Trim(s: string): string {
    TrimEnd(TrimStart(s))
  }

  /** `trim()` yields the empty string exactly when every character is white space. */
  lemma TrimIsEmptyIffBlank(s: string)
    ensures Trim(s) == "" <==> forall i :: 0 <= i < |s| ==> IsJsSpace(s[i])
  {
  }

  /** The result of `trim()` has no white space at either end. */
  lemma TrimmedHasNoOuterSpace(s: string)
    ensures Trim(s) != "" ==> !IsJsSpace(Trim(s)[0]) && !IsJsSpace(Trim(s)[|Trim(s)| - 1])
  {
  }

  const Outgoing: string := "chat-outgoing"
  const Incoming: string := "chat-incoming"
  const Thinking: string := "Thinking..."
  const FailureText: string := "Oops! Something went wrong. Please try again!"

  /** The Bootstrap icon in a bubble: `bi-person` for the user's own messages, `bi-cpu` otherwise. */
  datatype Icon = Person | Cpu

  function IconFor(className: string): (icon: Icon)
    ensures icon == Person <==> className == Outgoing
  {
    if className == Outgoing then Person else Cpu
  }

  /** One `<li>` in the chat box: its classes, its icon, and its `<p>` element's text and classes. */
  class ChatLi {
    const classes: set<string>
    const icon: Icon
    var text: string
    var textClasses: set<string>

    /** `createChatLi(message, className)` */
    constructor (message: string, className: string)
      ensures classes == {"chat", className} && icon == IconFor(className)
      ensures text == message && textClasses == {}
    {
      classes := {"chat", className};
      icon := IconFor(className);
      text := message;
      textClasses := {};
    }
  }

  /** The JSON body posted to the API: `{"question": ..., "sessionId": ...}`. */
  datatype ChatRequest = ChatRequest(question: string, sessionId: string)

  datatype ChatReply = ChatReply(answer: string, sessionId: string)

  /** The `$.ajax` POST, settled: `done` with the reply or `fail`. */
  type Api = ChatRequest -> Result<ChatReply, ProviderError>

  /** `li` is a bubble created with `className` whose `<p>` shows `text` with `textClasses`. */
  predicate Shows(li: ChatLi, className: string, text: string, textClasses: set<string>)
    reads li
  {
    li.classes == {"chat", className} && li.icon == IconFor(className) &&
    li.text == text && li.textClasses == textClasses
  }

  /** Bubbles come in pairs: the user's at even positions, the assistant's at odd ones. */
  predicate Paired(box: seq<ChatLi>) {
    |box| % 2 == 0 &&
    forall i :: 0 <= i < |box| ==>
      box[i].classes == {"chat", if i % 2 == 0 then Outgoing else Incoming} &&
      box[i].icon == IconFor(if i % 2 == 0 then Outgoing else Incoming)
  }

  lemma PairedAppend(box: seq<ChatLi>, outgoing: ChatLi, incoming: ChatLi)
    requires Paired(box)
    requires outgoing.classes == {"chat", Outgoing} && outgoing.icon == Person
    requires incoming.classes == {"chat", Incoming} && incoming.icon == Cpu
    ensures Paired(box + [outgoing, incoming])
  {
  }

  class ChatClient {
    var inputText: string
    var userMessage: Option<string>
    var sessionId: string
    var chatbox: seq<ChatLi>

    /** The page's initial state: `userMessage` undefined and `sessionId` `""`; the input and the chat box are assumed empty, since their markup is not modelled. */
    constructor ()
      ensures inputText == "" && userMessage == None && sessionId == "" && chatbox == []
    {
      inputText, userMessage, sessionId, chatbox := "", None, "", [];
    }

    /**
     * `generateResponse(incomingChatLi)`: post the current message and session id; on
     * success store the returned session id and show the answer, on failure mark the
     * bubble's text as an error.
     */
    method GenerateResponse(incoming: ChatLi, api: Api)
      requires userMessage.Some?
      modifies this, incoming
      ensures inputText == old(inputText) && userMessage == old(userMessage) && chatbox == old(chatbox)
      ensures
        var reply := api(ChatRequest(userMessage.value, old(sessionId)));
        match reply
        case Ok(r) =>
          sessionId == r.sessionId && incoming.text == r.answer &&
          incoming.textClasses == old(incoming.textClasses)
        case Err(_) =>
          sessionId == old(sessionId) && incoming.text == FailureText &&
          incoming.textClasses == old(incoming.textClasses) + {"error"}
    {
      var reply := api(ChatRequest(userMessage.value, sessionId));
      match reply {
        case Ok(r) =>
          sessionId := r.sessionId;
          incoming.text := r.answer;
        case Err(_) =>
          incoming.textClasses := incoming.textClasses + {"error"};
          incoming.text := FailureText;
      }
    }

    /** `chatbox.append` of the outgoing bubble and then of the "Thinking..." placeholder. */
    method AppendBubbles(message: string) returns (outgoing: ChatLi, incoming: ChatLi)
      modifies this
      ensures fresh(outgoing) && fresh(incoming) && outgoing != incoming
      ensures chatbox == old(chatbox) + [outgoing, incoming]
      ensures Shows(outgoing, Outgoing, message, {}) && Shows(incoming, Incoming, Thinking, {})
      ensures inputText == old(inputText) && userMessage == old(userMessage) && sessionId == old(sessionId)
      ensures Paired(old(chatbox)) ==> Paired(chatbox)
    {
      outgoing := new ChatLi(message, Outgoing);
      chatbox := chatbox + [outgoing];
      incoming := new ChatLi(Thinking, Incoming);
      chatbox := chatbox + [incoming];
      if Paired(old(chatbox)) {
        PairedAppend(old(chatbox), outgoing, incoming);
      }
    }

    /**
     * `handleChat()`: trim the input; if nothing is left, stop; otherwise append the
     * outgoing bubble and the "Thinking..." bubble, clear the input and ask the API.
     */
    method HandleChat(api: Api)
      modifies this
      ensures userMessage == Some(Trim(old(inputText)))
      ensures Trim(old(inputText)) == "" ==>
        inputText == old(inputText) && sessionId == old(sessionId) && chatbox == old(chatbox)
      ensures Trim(old(inputText)) != "" ==>
        var n := |old(chatbox)|;
        var message := Trim(old(inputText));
        var reply := api(ChatRequest(message, old(sessionId)));
        inputText == "" && |chatbox| == n + 2 && chatbox[..n] == old(chatbox) &&
        fresh(chatbox[n]) && fresh(chatbox[n + 1]) &&
        Shows(chatbox[n], Outgoing, message, {}) &&
        match reply
        case Ok(r) => sessionId == r.sessionId && Shows(chatbox[n + 1], Incoming, r.answer, {})
        case Err(_) => sessionId == old(sessionId) && Shows(chatbox[n + 1], Incoming, FailureText, {"error"})
      ensures Paired(old(chatbox)) ==> Paired(chatbox)
    {
      var message := Trim(inputText);
      userMessage := Some(message);
      if message == "" {
        return;
      }
      ghost var n := |chatbox|;
      var outgoing, incoming := AppendBubbles(message);
      inputText := "";
      GenerateResponse(incoming, api);
      assert chatbox[n] == outgoing && chatbox[n + 1] == incoming;
      assert Shows(outgoing, Outgoing, message, {});
    }
  }
}
