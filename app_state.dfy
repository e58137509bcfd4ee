/**
 * The Streamlit session state of the knowledge-base application (`app.py` and
 * `cognito.py` share it): one field per key the two files use, `None` while the key is
 * absent, and the chat-history entries that live in it.
 */
module AppState {
  import opened Wrappers
  import opened Identity

  /** A value of a retrieved reference's `metadata` map. */
  datatype MetaValue = MetaString(s: string) | MetaNumber(n: int)

  /** `Reference: {document, page}` of one flattened citation. */
  datatype Reference = Reference(document: Option<MetaValue>, page: Option<MetaValue>)

  /** `{Text, Reference}`: one flattened citation. */
  datatype SourceRef = SourceRef(text: Option<string>, reference: Reference)

  /** `{"user": question}` or `{"assistant": answer, "citations": citations}`. */
  datatype HistoryEntry =
    | UserEntry(user: string)
    | AssistantEntry(assistant: string, citations: Option<seq<SourceRef>>)

  /** A snapshot of every key of the session state. */
  datatype StateValue = StateValue(
    userInfo: Option<UserInfo>,
    chatHistory: Option<seq<HistoryEntry>>,
    sessionId: Option<string>,
    knowledgeBaseId: Option<string>,
    dataSourceId: Option<string>,
    bucketName: Option<string>,
    modelId: Option<string>)

  /** The state of a new browser session, and after `session_state.clear()`. */
  const EmptyState: StateValue := StateValue(None, None, None, None, None, None, None)

  class SessionState {
    var userInfo: Option<UserInfo>
    var chatHistory: Option<seq<HistoryEntry>>
    var sessionId: Option<string>
    var knowledgeBaseId: Option<string>
    var dataSourceId: Option<string>
    var bucketName: Option<string>
    var modelId: Option<string>

    function Value(): StateValue
      reads this
    {
      StateValue(userInfo, chatHistory, sessionId, knowledgeBaseId, dataSourceId, bucketName, modelId)
    }

    /** A new browser session holds no keys. */
    constructor ()
      ensures Value() == EmptyState
    {
      userInfo, chatHistory, sessionId := None, None, None;
      knowledgeBaseId, dataSourceId, bucketName, modelId := None, None, None, None;
    }

    /** `st.session_state.clear()`: every key is removed. */
    method Clear()
      modifies this
      ensures Value() == EmptyState
    {
      userInfo, chatHistory, sessionId := None, None, None;
      knowledgeBaseId, dataSourceId, bucketName, modelId := None, None, None, None;
    }
  }
}
