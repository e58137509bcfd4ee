/**
 * The hosted-interface Streamlit client (`streamlit_sample.py`): a message list and a
 * session id in the session state, and one Lambda call per prompt whose reply replaces
 * the session id.
 */
module LambdaChat {
  import opened Wrappers

  datatype Role = User | Assistant

  /** `{"role": role, "content": content}` */
  datatype Message = Message(role: Role, content: string)

  const FunctionName: string := "InvokeKnowledgeBase"

  /** `lambda_client.invoke(FunctionName=..., Payload={"question": ..., "sessionId": ...})` */
  datatype Invocation = Invocation(functionName: string, question: string, sessionId: string)

  /** The decoded `body` of the Lambda's reply. */
  datatype LambdaReply = LambdaReply(answer: string, sessionId: string)

  /**
   * The ways the call and the decoding of its reply can raise: a `ClientError`, a
   * `JSONDecodeError` on either `json.loads`, or any other exception (a missing key).
   */
  datatype InvokeError = ClientError(message: string) | JsonDecodeError | UnexpectedError

  type Invoker = Invocation -> Result<LambdaReply, InvokeError>

  /** The message `st.error` shows for each failure. */
  function ErrorMessage(e: InvokeError): string {
    match e
    case ClientError(_) => "Sorry, I'm having trouble connecting to the service. Please try again later."
    case JsonDecodeError => "Sorry, I received an invalid response. Please try again."
    case UnexpectedError => "An unexpected error occurred. Please try again later."
  }

  /** The two session-state keys, once initialised. */
  datatype ChatState = ChatState(messages: seq<Message>, sessionId: string)

  /** The effect of one prompt and the reply to it. */
  function Step(s: ChatState, prompt: string, reply: Result<LambdaReply, InvokeError>): ChatState {
    match reply
    case Ok(r) => ChatState(s.messages + [Message(User, prompt), Message(Assistant, r.answer)], r.sessionId)
    case Err(_) => s
  }

  class SampleSession {
    var messages: Option<seq<Message>>
    var sessionId: Option<string>

    /** A new browser session holds neither key. */
    constructor ()
      ensures messages == None && sessionId == None
    {
      messages, sessionId := None, None;
    }

    predicate Ready()
      reads this
    {
      messages.Some? && sessionId.Some?
    }

    function State(): ChatState
      reads this
      requires Ready()
    {
      ChatState(messages.value, sessionId.value)
    }

    /** The top of the script: `messages` becomes `[]` and `sessionId` becomes `""`, each only when absent. */
    method Initialize()
      modifies this
      ensures Ready()
      ensures messages == Some(old(messages).GetOr([])) && sessionId == Some(old(sessionId).GetOr(""))
    {
      if messages.None? {
        messages := Some([]);
      }
      if sessionId.None? {
        sessionId := Some("");
      }
    }

    /**
     * The prompt branch: invoke the Lambda with the prompt and the stored session id; on
     * success store the returned session id and append the user's and the assistant's
     * messages; on any failure change nothing and show the matching error.
     */
    method HandlePrompt(prompt: Option<string>, invoke: Invoker) returns (error: Option<string>)
      requires Ready()
      modifies this
      ensures Ready()
      ensures !Truthy(prompt) ==> State() == old(State()) && error == None
      ensures Truthy(prompt) ==>
        var reply := invoke(Invocation(FunctionName, prompt.value, old(State()).sessionId));
        State() == Step(old(State()), prompt.value, reply) &&
        error == if reply.Err? then Some(ErrorMessage(reply.error)) else None
    {
      error := None;
      if !Truthy(prompt) {
        return;
      }
      var question := prompt.value;
      var reply := invoke(Invocation(FunctionName, question, sessionId.value));
      match reply {
        case Err(e) =>
          error := Some(ErrorMessage(e));
        case Ok(r) =>
          sessionId := Some(r.sessionId);
          messages := Some(messages.value + [Message(User, question)]);
          messages := Some(messages.value + [Message(Assistant, r.answer)]);
          assert messages.value == old(messages.value) + [Message(User, question), Message(Assistant, r.answer)];
      }
    }
  }

  /** A prompt together with the Lambda's reply to it. */
  datatype Exchange = Exchange(prompt: string, reply: Result<LambdaReply, InvokeError>)

  function Replay(s: ChatState, xs: seq<Exchange>): ChatState
    decreases |xs|
  {
    if |xs| == 0 then s else Replay(Step(s, xs[0].prompt, xs[0].reply), xs[1..])
  }

  /** The session id of the latest successful reply, `initial` when none succeeded. */
  function LatestSessionId(initial: string, xs: seq<Exchange>): string
    decreases |xs|
  {
    if |xs| == 0 then initial
    else if xs[|xs| - 1].reply.Ok? then xs[|xs| - 1].reply.value.sessionId
    else LatestSessionId(initial, xs[..|xs| - 1])
  }

  function Successes(xs: seq<Exchange>): nat
    decreases |xs|
  {
    if |xs| == 0 then 0 else (if xs[|xs| - 1].reply.Ok? then 1 else 0) + Successes(xs[..|xs| - 1])
  }

  lemma {:induction false} ReplaySnoc(s: ChatState, xs: seq<Exchange>, x: Exchange)
    ensures Replay(s, xs + [x]) == Step(Replay(s, xs), x.prompt, x.reply)
    decreases |xs|
  {
    if |xs| > 0 {
      assert (xs + [x])[1..] == xs[1..] + [x];
      ReplaySnoc(Step(s, xs[0].prompt, xs[0].reply), xs[1..], x);
    }
  }

  /**
   * Unlike the knowledge-base application, the session id rotates: after any sequence of
   * prompts it is the one the latest successful reply returned, and failures never touch it.
   */
  lemma {:induction false} SessionIdIsLatest(s: ChatState, xs: seq<Exchange>)
    ensures Replay(s, xs).sessionId == LatestSessionId(s.sessionId, xs)
    decreases |xs|
  {
    if |xs| > 0 {
      var init := xs[..|xs| - 1];
      assert xs == init + [xs[|xs| - 1]];
      ReplaySnoc(s, init, xs[|xs| - 1]);
      SessionIdIsLatest(s, init);
    }
  }

  /** The message list keeps its old entries and grows by exactly two per successful reply. */
  lemma {:induction false} MessagesGrowByTwo(s: ChatState, xs: seq<Exchange>)
    ensures |Replay(s, xs).messages| == |s.messages| + 2 * Successes(xs)
    ensures Replay(s, xs).messages[..|s.messages|] == s.messages
    decreases |xs|
  {
    if |xs| > 0 {
      var init := xs[..|xs| - 1];
      assert xs == init + [xs[|xs| - 1]];
      ReplaySnoc(s, init, xs[|xs| - 1]);
      MessagesGrowByTwo(s, init);
      var before := Replay(s, init).messages;
      assert before[..|s.messages|] == s.messages;
      var after := Replay(s, xs).messages;
      assert after[..|before|] == before;
      assert after[..|s.messages|] == before[..|s.messages|];
    }
  }
}
