/**
 * The knowledge-base chat application (`app.py`): configuration lookup, the
 * retrieve-and-generate request and its answer, the chat turn that records history and
 * keeps the first session id, saving parameters, the ingestion poll loop, and the S3 key
 * rules of the file manager.
 */
module KnowledgeBase {
  import opened Wrappers
  import opened Identity
  import opened AppState

  // ---------------------------------------------------------------------------------
  // Configuration

  /** The four values the settings panel edits. */
  datatype Config = Config(knowledgeBaseId: string, dataSourceId: string, bucketName: string, modelId: string)

  /** The process environment, read with `os.getenv(name, default)`. */
  type Env = map<string, string>

  const DefaultModelId: string := "amazon.nova-lite-v1:0"

  function GetEnv(env: Env, name: string, default: string): string {
    if name in env then env[name] else default
  }

  /** Each value comes from the session state when its key is present, otherwise from the environment. */
  function ResolveConfig(s: StateValue, env: Env): Config {
    Config(
      knowledgeBaseId := if s.knowledgeBaseId.Some? then s.knowledgeBaseId.value else GetEnv(env, "KnowledgeBaseId", ""),
      dataSourceId := if s.dataSourceId.Some? then s.dataSourceId.value else GetEnv(env, "DataSourceId", ""),
      bucketName := if s.bucketName.Some? then s.bucketName.value else GetEnv(env, "KnowledgeBaseBucket", ""),
      modelId := if s.modelId.Some? then s.modelId.value else GetEnv(env, "ModelId", DefaultModelId))
  }

  /** Without stored parameters the environment decides, and the model defaults to Nova Lite. */
  lemma ConfigFallsBackToEnvironment(s: StateValue, env: Env)
    requires s.knowledgeBaseId == s.dataSourceId == s.bucketName == s.modelId == None
    ensures ResolveConfig(s, env).knowledgeBaseId == GetEnv(env, "KnowledgeBaseId", "")
    ensures ResolveConfig(s, env).dataSourceId == GetEnv(env, "DataSourceId", "")
    ensures ResolveConfig(s, env).bucketName == GetEnv(env, "KnowledgeBaseBucket", "")
    ensures ResolveConfig(s, env).modelId == GetEnv(env, "ModelId", DefaultModelId)
    ensures "ModelId" in env ==> ResolveConfig(s, env).modelId == env["ModelId"]
    ensures "ModelId" !in env ==> ResolveConfig(s, env).modelId == DefaultModelId
  {
  }

  // ---------------------------------------------------------------------------------
  // Saving parameters

  /** The session state after "Save": the four parameters stored, the session id removed. */
  function AfterSave(s: StateValue, kb: string, ds: string, bucket: string, model: string): StateValue {
    s.(knowledgeBaseId := Some(kb), dataSourceId := Some(ds), bucketName := Some(bucket), modelId := Some(model), sessionId := None)
  }

  /** `kb_parametersettings` when "Save" is pressed. */
  method SaveParameters(state: SessionState, kb: string, ds: string, bucket: string, model: string)
    modifies state
    ensures state.Value() == AfterSave(old(state.Value()), kb, ds, bucket, model)
  {
    state.knowledgeBaseId := Some(kb);
    state.dataSourceId := Some(ds);
    state.bucketName := Some(bucket);
    state.modelId := Some(model);
    if state.sessionId.Some? {
      state.sessionId := None;
    }
  }

  /**
   * After saving, the rerun resolves exactly the saved parameters whatever the environment
   * says, no session id is stored, and the identity and history are untouched.
   */
  lemma SavedParametersTakeEffect(s: StateValue, env: Env, kb: string, ds: string, bucket: string, model: string)
    ensures ResolveConfig(AfterSave(s, kb, ds, bucket, model), env) == Config(kb, ds, bucket, model)
    ensures AfterSave(s, kb, ds, bucket, model).sessionId == None
    ensures AfterSave(s, kb, ds, bucket, model).userInfo == s.userInfo
    ensures AfterSave(s, kb, ds, bucket, model).chatHistory == s.chatHistory
  {
  }

  // ---------------------------------------------------------------------------------
  // The retrieve-and-generate request

  const ModelArnPrefix: string := "arn:aws:bedrock:us-east-1::foundation-model/"

  /** The foundation-model ARN of a model id; the id can be read back from it. */
  function ModelArn(modelId: string): (arn: string)
    ensures |arn| == |ModelArnPrefix| + |modelId|
    ensures arn[..|ModelArnPrefix|] == ModelArnPrefix && arn[|ModelArnPrefix|..] == modelId
  {
    ModelArnPrefix + modelId
  }

  /** The retrieval filter `{"equals": {"key": key, "value": value}}`. */
  datatype Filter = Equals(key: string, value: Option<string>)

  datatype VectorSearch = VectorSearch(filter: Filter, numberOfResults: int)

  /** `retrieveAndGenerateConfiguration`. */
  datatype GenerateConfig = GenerateConfig(configType: string, knowledgeBaseId: string, modelArn: string, vectorSearch: VectorSearch)

  /** A `retrieve_and_generate` call; `sessionId` is `None` when the keyword is not passed. */
  datatype GenerateRequest = GenerateRequest(inputText: string, sessionId: Option<string>, configuration: GenerateConfig)

  /**
   * The request of `query_knowledge_base`: with or without a session id, it targets the
   * configured knowledge base and model, filters on the caller's user name and caps the
   * results at 5; the session id is passed exactly when it is truthy.
   */
  function BuildRequest(query: string, sessionId: Option<string>, config: Config, userName: Option<string>): (r: GenerateRequest)
    ensures r.inputText == query
    ensures r.configuration.configType == "KNOWLEDGE_BASE"
    ensures r.configuration.knowledgeBaseId == config.knowledgeBaseId
    ensures r.configuration.modelArn == ModelArnPrefix + config.modelId
    ensures r.configuration.vectorSearch.filter == Equals("user", userName)
    ensures r.configuration.vectorSearch.numberOfResults == 5
    ensures r.sessionId.Some? <==> Truthy(sessionId)
    ensures r.sessionId.Some? ==> r.sessionId == sessionId
  {
    var arn := ModelArn(config.modelId);
    if Truthy(sessionId) then
      GenerateRequest(query, Some(sessionId.value),
        GenerateConfig("KNOWLEDGE_BASE", config.knowledgeBaseId, arn, VectorSearch(Equals("user", userName), 5)))
    else
      GenerateRequest(query, None,
        GenerateConfig("KNOWLEDGE_BASE", config.knowledgeBaseId, arn, VectorSearch(Equals("user", userName), 5)))
  }

  /** The two request shapes differ in the session id alone. */
  lemma RequestShapesAgree(query: string, sessionId: Option<string>, config: Config, userName: Option<string>)
    ensures BuildRequest(query, sessionId, config, userName).(sessionId := None) == BuildRequest(query, None, config, userName)
  {
  }

  // ---------------------------------------------------------------------------------
  // The answer and its citations

  const SourceUriKey: string := "x-amz-bedrock-kb-source-uri"
  const PageNumberKey: string := "x-amz-bedrock-kb-document-page-number"

  /** One entry of `retrievedReferences`: `content.text` and `metadata`. */
  datatype RetrievedReference = RetrievedReference(contentText: Option<string>, metadata: map<string, MetaValue>)

  /** One entry of `citations`; a citation without `retrievedReferences` contributes nothing. */
  datatype Citation = Citation(retrievedReferences: Option<seq<RetrievedReference>>)

  /** The parts of a `retrieve_and_generate` response that are read. */
  datatype GenerateResponse = GenerateResponse(outputText: string, sessionId: string, citations: Option<seq<Citation>>)

  /** The knowledge-base runtime: a request, and its response or a `ClientError`. */
  type Generator = GenerateRequest -> Result<GenerateResponse, ProviderError>

  function Lookup(m: map<string, MetaValue>, key: string): Option<MetaValue> {
    if key in m then Some(m[key]) else None
  }

  /** `{Text: content.text, Reference: {document: <source uri>, page: <page number>}}` */
  function ToSourceRef(r: RetrievedReference): SourceRef {
    SourceRef(r.contentText, Reference(Lookup(r.metadata, SourceUriKey), Lookup(r.metadata, PageNumberKey)))
  }

  function RefsOf(c: Citation): seq<RetrievedReference> {
    c.retrievedReferences.GetOr([])
  }

  /** Each reference mapped in place: same length, same order. */
  function MapRefs(rs: seq<RetrievedReference>): (r: seq<SourceRef>)
    ensures |r| == |rs| && forall i :: 0 <= i < |rs| ==> r[i] == ToSourceRef(rs[i])
  {
    seq(|rs|, i requires 0 <= i < |rs| => ToSourceRef(rs[i]))
  }

  /** `citations[].retrievedReferences[].{...}`: every reference of every citation, in order. */
  function FlattenCitations(cs: seq<Citation>): seq<SourceRef> {
    if |cs| == 0 then [] else MapRefs(RefsOf(cs[0])) + FlattenCitations(cs[1..])
  }

  /** Flattening distributes over concatenation: the order of citations is kept. */
  lemma {:induction false} FlattenConcat(a: seq<Citation>, b: seq<Citation>)
    ensures FlattenCitations(a + b) == FlattenCitations(a) + FlattenCitations(b)
  {
    if |a| == 0 {
      assert a + b == b;
    } else {
      assert (a + b)[0] == a[0];
      assert (a + b)[1..] == a[1..] + b;
      FlattenConcat(a[1..], b);
    }
  }

  /** The number of references in the first `i` citations: where citation `i`'s references start. */
  function Offset(cs: seq<Citation>, i: int): nat
    requires 0 <= i <= |cs|
  {
    if i == 0 then 0 else Offset(cs, i - 1) + |RefsOf(cs[i - 1])|
  }

  lemma {:induction false} FlattenPrefixLength(cs: seq<Citation>, i: int)
    requires 0 <= i <= |cs|
    ensures |FlattenCitations(cs[..i])| == Offset(cs, i)
  {
    if i > 0 {
      FlattenPrefixLength(cs, i - 1);
      assert cs[..i] == cs[..i - 1] + [cs[i - 1]];
      FlattenConcat(cs[..i - 1], [cs[i - 1]]);
      assert FlattenCitations([cs[i - 1]]) == MapRefs(RefsOf(cs[i - 1])) + FlattenCitations([]);
    }
  }

  /** Reference `j` of citation `i` exists and, mapped, sits at position `Offset(cs, i) + j` of `out`. */
  predicate PlacedAt(cs: seq<Citation>, out: seq<SourceRef>, i: int, j: int) {
    0 <= i < |cs| && 0 <= j < |RefsOf(cs[i])| &&
    Offset(cs, i) + j < |out| && out[Offset(cs, i) + j] == ToSourceRef(RefsOf(cs[i])[j])
  }

  /** Reference `j` of citation `i`, mapped, is entry `Offset(cs, i) + j` of the flattened list. */
  lemma FlattenAt(cs: seq<Citation>, i: int, j: int)
    requires 0 <= i < |cs| && 0 <= j < |RefsOf(cs[i])|
    ensures PlacedAt(cs, FlattenCitations(cs), i, j)
  {
    var prefix := cs[..i];
    var tail := cs[i..];
    assert cs == prefix + tail;
    FlattenConcat(prefix, tail);
    FlattenPrefixLength(cs, i);
    assert tail[0] == cs[i];
    var head := MapRefs(RefsOf(cs[i]));
    var flat := FlattenCitations(cs);
    assert FlattenCitations(tail) == head + FlattenCitations(tail[1..]);
    assert flat == FlattenCitations(prefix) + (head + FlattenCitations(tail[1..]));
    assert flat[Offset(cs, i) + j] == head[j];
  }

  /**
   * The flattened list holds exactly the references, each once and in order: its length is
   * the total number of references, and reference `j` of citation `i` sits at `Offset(cs, i) + j`.
   */
  lemma FlattenLayout(cs: seq<Citation>)
    ensures |FlattenCitations(cs)| == Offset(cs, |cs|)
    ensures forall i, j :: 0 <= i < |cs| && 0 <= j < |RefsOf(cs[i])| ==> PlacedAt(cs, FlattenCitations(cs), i, j)
  {
    assert cs[..|cs|] == cs;
    FlattenPrefixLength(cs, |cs|);
    forall i, j | 0 <= i < |cs| && 0 <= j < |RefsOf(cs[i])|
      ensures PlacedAt(cs, FlattenCitations(cs), i, j)
    {
      FlattenAt(cs, i, j);
    }
  }

  /** Reference `j` of citation `i`, mapped. */
  predicate CitedAt(cs: seq<Citation>, i: int, j: int, x: SourceRef) {
    0 <= i < |cs| && 0 <= j < |RefsOf(cs[i])| && x == ToSourceRef(RefsOf(cs[i])[j])
  }

  /** Something is in the flattened list exactly when it is the mapping of some reference of some citation. */
  lemma {:induction false} FlattenMembership(cs: seq<Citation>, x: SourceRef)
    ensures x in FlattenCitations(cs) <==> exists i, j :: CitedAt(cs, i, j, x)
  {
    if |cs| > 0 {
      var rest := cs[1..];
      FlattenMembership(rest, x);
      var head := MapRefs(RefsOf(cs[0]));
      assert FlattenCitations(cs) == head + FlattenCitations(rest);
      if x in head {
        var j :| 0 <= j < |head| && head[j] == x;
        assert CitedAt(cs, 0, j, x);
      }
      if x in FlattenCitations(rest) {
        var i, j :| CitedAt(rest, i, j, x);
        assert rest[i] == cs[i + 1];
        assert CitedAt(cs, i + 1, j, x);
      }
      if exists i, j :: CitedAt(cs, i, j, x) {
        var i, j :| CitedAt(cs, i, j, x);
        if i == 0 {
          assert head[j] == x;
        } else {
          assert rest[i - 1] == cs[i];
          assert CitedAt(rest, i - 1, j, x);
        }
      }
    }
  }

  /** The citations of a response: `None` without a `citations` key, else the flattened list. */
  function ExtractCitations(response: GenerateResponse): (r: Option<seq<SourceRef>>)
    ensures r.None? <==> response.citations.None?
    ensures r.Some? ==> forall x :: x in r.value <==> exists i, j :: CitedAt(response.citations.value, i, j, x)
    ensures r.Some? ==> var cs := response.citations.value;
      |r.value| == Offset(cs, |cs|) &&
      forall i, j :: 0 <= i < |cs| && 0 <= j < |RefsOf(cs[i])| ==> PlacedAt(cs, r.value, i, j)
  {
    match response.citations
    case None => None
    case Some(cs) =>
      forall x ensures x in FlattenCitations(cs) <==> exists i, j :: CitedAt(cs, i, j, x) {
        FlattenMembership(cs, x);
      }
      FlattenLayout(cs);
      Some(FlattenCitations(cs))
  }

  /** `(generated_text, sessionId, citations)` */
  datatype Answer = Answer(text: string, sessionId: string, citations: Option<seq<SourceRef>>)

  /** `query_knowledge_base`: `None` when the call raises a `ClientError`. */
  function QueryKnowledgeBase(generate: Generator, query: string, sessionId: Option<string>, config: Config, userName: Option<string>): (a: Option<Answer>)
    ensures a.Some? <==> generate(BuildRequest(query, sessionId, config, userName)).Ok?
    ensures a.Some? ==>
      var response := generate(BuildRequest(query, sessionId, config, userName)).value;
      a.value == Answer(response.outputText, response.sessionId, ExtractCitations(response))
  {
    match generate(BuildRequest(query, sessionId, config, userName))
    case Err(_) => None
    case Ok(response) => Some(Answer(response.outputText, response.sessionId, ExtractCitations(response)))
  }

  // ---------------------------------------------------------------------------------
  // The chat turn

  datatype TurnOutcome =
    | NoInput                                   // nothing was submitted
    | Warned                                    // a question, but no knowledge base id
    | Failed                                    // the query raised; nothing is recorded
    | Answered(question: string, answer: Answer)

  /** What one run of `chatbot_interface` does with the submitted input. */
  function TurnOutcomeOf(s: StateValue, input: Option<string>, config: Config, userName: Option<string>, generate: Generator): TurnOutcome {
    if !Truthy(input) then NoInput
    else if config.knowledgeBaseId == "" then Warned
    else
      match QueryKnowledgeBase(generate, input.value, s.sessionId, config, userName)
      case None => Failed
      case Some(a) => Answered(input.value, a)
  }

  /** The two entries a handled question adds: the user's, then the assistant's with its citations. */
  function Exchange(question: string, a: Answer): seq<HistoryEntry> {
    [UserEntry(question), AssistantEntry(a.text, a.citations)]
  }

  /** The stored session id is kept when present, otherwise the returned one is stored. */
  function StoreSessionId(stored: Option<string>, returned: string): Option<string> {
    if stored.None? then Some(returned) else stored
  }

  /** The session state after one run of `chatbot_interface` with the given outcome. */
  function AfterTurn(s: StateValue, outcome: TurnOutcome): StateValue {
    var history := s.chatHistory.GetOr([]);
    match outcome
    case Answered(q, a) => s.(chatHistory := Some(history + Exchange(q, a)), sessionId := StoreSessionId(s.sessionId, a.sessionId))
    case _ => s.(chatHistory := Some(history))
  }

  /** `chatbot_interface`: initialise the history, then handle submitted input. */
  method ChatbotTurn(state: SessionState, input: Option<string>, config: Config, userName: Option<string>, generate: Generator)
    returns (outcome: TurnOutcome)
    modifies state
    ensures outcome == TurnOutcomeOf(old(state.Value()), input, config, userName, generate)
    ensures state.Value() == AfterTurn(old(state.Value()), outcome)
  {
    if state.chatHistory.None? {
      state.chatHistory := Some([]);
    }
    outcome := NoInput;
    if Truthy(input) {
      if config.knowledgeBaseId != "" {
        var answer := QueryKnowledgeBase(generate, input.value, state.sessionId, config, userName);
        if answer.None? {
          outcome := Failed;
        } else {
          outcome := Answered(input.value, answer.value);
          if state.sessionId.None? {
            state.sessionId := Some(answer.value.sessionId);
          }
          ghost var before := state.chatHistory.value;
          state.chatHistory := Some(state.chatHistory.value + [UserEntry(input.value)]);
          state.chatHistory := Some(state.chatHistory.value + [AssistantEntry(answer.value.text, answer.value.citations)]);
          assert state.chatHistory.value == before + Exchange(input.value, answer.value);
        }
      } else {
        outcome := Warned;
      }
    }
  }

  /**
   * One turn: an answered question adds exactly the user entry and then the assistant
   * entry with the answer's citations; every other outcome leaves the history and the
   * session id as they were.
   */
  lemma TurnEffect(s: StateValue, outcome: TurnOutcome)
    ensures var h := s.chatHistory.GetOr([]); var h' := AfterTurn(s, outcome).chatHistory;
      h'.Some? &&
      (outcome.Answered? ==>
        |h'.value| == |h| + 2 && h'.value[..|h|] == h &&
        h'.value[|h|] == UserEntry(outcome.question) &&
        h'.value[|h| + 1] == AssistantEntry(outcome.answer.text, outcome.answer.citations)) &&
      (!outcome.Answered? ==> h'.value == h && AfterTurn(s, outcome).sessionId == s.sessionId)
  {
  }

  /** Empty input or a missing knowledge base id never reaches the provider and records nothing. */
  lemma UnhandledInputChangesNothing(s: StateValue, input: Option<string>, config: Config, userName: Option<string>, generate: Generator)
    requires !Truthy(input) || config.knowledgeBaseId == ""
    ensures var o := TurnOutcomeOf(s, input, config, userName, generate);
      (o == NoInput || o == Warned) && AfterTurn(s, o) == s.(chatHistory := Some(s.chatHistory.GetOr([])))
  {
  }

  /** Replaying turn outcomes one after another from a session state. */
  function Replay(s: StateValue, outcomes: seq<TurnOutcome>): StateValue
    decreases |outcomes|
  {
    if |outcomes| == 0 then s else Replay(AfterTurn(s, outcomes[0]), outcomes[1..])
  }

  /** The session id returned by the first answered turn, if any. */
  function FirstReturnedSessionId(outcomes: seq<TurnOutcome>): Option<string> {
    if |outcomes| == 0 then None
    else if outcomes[0].Answered? then Some(outcomes[0].answer.sessionId)
    else FirstReturnedSessionId(outcomes[1..])
  }

  /**
   * The first token wins: a stored session id survives every later turn, and an absent one
   * becomes the id returned by the first answered turn and then never rotates.
   */
  lemma {:induction false} SessionIdFirstWins(s: StateValue, outcomes: seq<TurnOutcome>)
    ensures Replay(s, outcomes).sessionId == if s.sessionId.Some? then s.sessionId else FirstReturnedSessionId(outcomes)
    decreases |outcomes|
  {
    if |outcomes| > 0 {
      SessionIdFirstWins(AfterTurn(s, outcomes[0]), outcomes[1..]);
    }
  }

  /** The entries a sequence of turns records: one exchange per answered turn. */
  function Transcript(outcomes: seq<TurnOutcome>): seq<HistoryEntry> {
    if |outcomes| == 0 then []
    else (if outcomes[0].Answered? then Exchange(outcomes[0].question, outcomes[0].answer) else []) + Transcript(outcomes[1..])
  }

  function AnsweredCount(outcomes: seq<TurnOutcome>): nat {
    if |outcomes| == 0 then 0 else (if outcomes[0].Answered? then 1 else 0) + AnsweredCount(outcomes[1..])
  }

  /** The history after many turns is the old history followed by the transcript, two entries per answered turn. */
  lemma {:induction false} HistoryIsTranscript(s: StateValue, outcomes: seq<TurnOutcome>)
    ensures Replay(s, outcomes).chatHistory.GetOr([]) == s.chatHistory.GetOr([]) + Transcript(outcomes)
    ensures |Transcript(outcomes)| == 2 * AnsweredCount(outcomes)
    decreases |outcomes|
  {
    if |outcomes| > 0 {
      var s' := AfterTurn(s, outcomes[0]);
      HistoryIsTranscript(s', outcomes[1..]);
      var step := if outcomes[0].Answered? then Exchange(outcomes[0].question, outcomes[0].answer) else [];
      assert Replay(s, outcomes) == Replay(s', outcomes[1..]);
      assert |step| == if outcomes[0].Answered? then 2 else 0;
      assert Transcript(outcomes) == step + Transcript(outcomes[1..]);
      assert s'.chatHistory.GetOr([]) == s.chatHistory.GetOr([]) + step;
      assert s.chatHistory.GetOr([]) + step + Transcript(outcomes[1..]) == s.chatHistory.GetOr([]) + (step + Transcript(outcomes[1..]));
    }
  }

  /** A history alternates user and assistant entries, starting with a user entry and ending with an assistant one. */
  predicate Alternates(h: seq<HistoryEntry>) {
    |h| % 2 == 0 && forall i :: 0 <= i < |h| ==> (h[i].UserEntry? <==> i % 2 == 0)
  }

  /** Every turn keeps the history alternating. */
  lemma TurnKeepsAlternation(s: StateValue, outcome: TurnOutcome)
    requires Alternates(s.chatHistory.GetOr([]))
    ensures Alternates(AfterTurn(s, outcome).chatHistory.value)
  {
  }

  /**
   * After "Save" the next query is sent without a session id, and the session id its answer
   * returns is the one stored from then on.
   */
  lemma SaveStartsNewConversation(s: StateValue, kb: string, ds: string, bucket: string, model: string,
                                  question: string, config: Config, userName: Option<string>, a: Answer)
    ensures BuildRequest(question, AfterSave(s, kb, ds, bucket, model).sessionId, config, userName).sessionId == None
    ensures AfterTurn(AfterSave(s, kb, ds, bucket, model), Answered(question, a)).sessionId == Some(a.sessionId)
  {
  }

  // ---------------------------------------------------------------------------------
  // Knowledge-base synchronisation

  const InFlightStatuses: set<string> := {"IN_PROGRESS", "STARTING", "STOPPING"}

  /** `status in ['IN_PROGRESS', 'STARTING', 'STOPPING']`; an error status (`None`) is not in flight. */
  predicate InFlight(status: Option<string>) {
    status.Some? && status.value in InFlightStatuses
  }

  /** `get_ingestion_job(knowledgeBaseId, dataSourceId, ingestionJobId)`. */
  datatype JobStatusRequest = JobStatusRequest(knowledgeBaseId: string, dataSourceId: string, ingestionJobId: string)

  /**
   * The ingestion service as the loop sees it: the answer to the request on the given poll
   * (0 for the first), the job's status or a `ClientError`. The poll number stands for the
   * time at which the service is asked.
   */
  type StatusService = (JobStatusRequest, nat) -> Result<string, ProviderError>

  /** `check_ingestion_job_status`: the job's status, `None` on a `ClientError`. */
  function StatusOf(check: Result<string, ProviderError>): Option<string> {
    if check.Ok? then Some(check.value) else None
  }

  /** The status the loop sees on poll `k`. */
  function PolledStatus(service: StatusService, request: JobStatusRequest, k: nat): Option<string> {
    StatusOf(service(request, k))
  }

  /** Some poll eventually sees a status that is not in flight. */
  ghost predicate Settles(service: StatusService, request: JobStatusRequest) {
    exists k: nat :: !InFlight(PolledStatus(service, request, k))
  }

  /**
   * The `while True` loop of `sync_knowledge_base_job`: ask about the same job on every poll
   * until a status is not in flight, and return that status and the number of polls made.
   */
  method PollUntilDone(service: StatusService, request: JobStatusRequest) returns (status: Option<string>, polls: nat)
    requires Settles(service, request)
    ensures polls >= 1
    ensures status == PolledStatus(service, request, polls - 1) && !InFlight(status)
    ensures forall k: nat :: k < polls - 1 ==> InFlight(PolledStatus(service, request, k))
  {
    ghost var last: nat :| !InFlight(PolledStatus(service, request, last));
    status := None;
    polls := 0;
    while true
      invariant polls <= last
      invariant forall k: nat :: k < polls ==> InFlight(PolledStatus(service, request, k))
      decreases last - polls
    {
      status := PolledStatus(service, request, polls);
      polls := polls + 1;
      if !InFlight(status) {
        break;
      }
    }
  }

  /** The job STARTING, IN_PROGRESS, IN_PROGRESS, COMPLETE is polled four times and ends COMPLETE. */
  method PollScenario() returns (status: Option<string>, polls: nat)
    ensures status == Some("COMPLETE") && polls == 4
  {
    var script: seq<Result<string, ProviderError>> := [Ok("STARTING"), Ok("IN_PROGRESS"), Ok("IN_PROGRESS")];
    var service: StatusService := (r: JobStatusRequest, k: nat) => if k < |script| then script[k] else Ok("COMPLETE");
    var request := JobStatusRequest("kb-1", "ds-1", "job-1");
    assert !InFlight(PolledStatus(service, request, 3));
    status, polls := PollUntilDone(service, request);
    assert InFlight(PolledStatus(service, request, 0));
    assert InFlight(PolledStatus(service, request, 1));
    assert InFlight(PolledStatus(service, request, 2));
  }

  /** `start_ingestion_job(knowledgeBaseId, dataSourceId)`: the new job's id, or a `ClientError`. */
  type StartJob = (string, string) -> Result<string, ProviderError>

  datatype SyncOutcome =
    | MissingKnowledgeBase                      // "Please enter a Knowledge Base ID."
    | StartFailed                               // "Failed to start sync."
    | Synced(jobId: string, status: Option<string>, polls: nat)

  /** The job id `sync_knowledge_base` returns, `None` on a `ClientError`. */
  function StartedJob(config: Config, start: StartJob): Option<string> {
    var r := start(config.knowledgeBaseId, config.dataSourceId);
    if r.Ok? then Some(r.value) else None
  }

  /** The status request for a started job: the configured knowledge base and data source, and the job id. */
  function JobRequest(config: Config, jobId: string): JobStatusRequest {
    JobStatusRequest(config.knowledgeBaseId, config.dataSourceId, jobId)
  }

  /** `sync_knowledge_base_job` once "Sync Knowledge Base" is pressed. */
  method SyncKnowledgeBaseJob(config: Config, start: StartJob, service: StatusService) returns (outcome: SyncOutcome)
    requires config.knowledgeBaseId != "" && Truthy(StartedJob(config, start)) ==>
      Settles(service, JobRequest(config, StartedJob(config, start).value))
    ensures config.knowledgeBaseId == "" ==> outcome == MissingKnowledgeBase
    ensures config.knowledgeBaseId != "" && !Truthy(StartedJob(config, start)) ==> outcome == StartFailed
    ensures config.knowledgeBaseId != "" && Truthy(StartedJob(config, start)) ==>
      var request := JobRequest(config, StartedJob(config, start).value);
      outcome.Synced? && Some(outcome.jobId) == StartedJob(config, start) && outcome.polls >= 1 &&
      outcome.status == PolledStatus(service, request, outcome.polls - 1) && !InFlight(outcome.status) &&
      forall k: nat :: k < outcome.polls - 1 ==> InFlight(PolledStatus(service, request, k))
  {
    if config.knowledgeBaseId == "" {
      return MissingKnowledgeBase;
    }
    var jobId := StartedJob(config, start);
    if !Truthy(jobId) {
      return StartFailed;
    }
    var status, polls := PollUntilDone(service, JobRequest(config, jobId.value));
    outcome := Synced(jobId.value, status, polls);
  }

  /**
   * A status check that raises ends the poll like a finished job: the job is reported as
   * synced after two polls, with no status.
   */
  method SyncAfterFailedCheck() returns (outcome: SyncOutcome)
    ensures outcome == Synced("job-1", None, 2)
  {
    var config := Config("kb-1", "ds-1", "bucket", DefaultModelId);
    var start: StartJob := (kb, ds) => Ok("job-1");
    var service: StatusService := (r: JobStatusRequest, k: nat) => if k == 0 then Ok("STARTING") else Err(ProviderError("throttled"));
    assert StartedJob(config, start) == Some("job-1");
    assert !InFlight(PolledStatus(service, JobRequest(config, "job-1"), 1));
    outcome := SyncKnowledgeBaseJob(config, start, service);
    assert InFlight(PolledStatus(service, JobRequest(config, "job-1"), 0));
  }

  // ---------------------------------------------------------------------------------
  // S3 keys of the file manager

  predicate StartsWith(s: string, prefix: string) {
    |prefix| <= |s| && s[..|prefix|] == prefix
  }

  predicate EndsWith(s: string, suffix: string) {
    |suffix| <= |s| && s[|s| - |suffix|..] == suffix
  }

  /** The key an uploaded file is stored under. */
  function ObjectKey(userName: string, fileName: string): string {
    userName + "/" + fileName
  }

  /** The key of an uploaded file's metadata sidecar. */
  function MetadataKey(userName: string, fileName: string): string {
    userName + "/" + fileName + ".metadata.json"
  }

  /** `{"metadataAttributes": {"user": userName}}`, the sidecar's JSON body. */
  datatype SidecarDocument = SidecarDocument(metadataAttributes: map<string, string>)

  /** The two writes of an upload: `upload_fileobj` with user metadata, then `put_object` of the sidecar. */
  datatype S3Write =
    | UploadFileObject(bucket: string, key: string, userMetadata: map<string, string>)
    | PutJsonObject(bucket: string, key: string, body: SidecarDocument, contentType: string)

  function UploadWrites(bucket: string, userName: string, fileName: string): seq<S3Write> {
    [ UploadFileObject(bucket, ObjectKey(userName, fileName), map["user" := userName]),
      PutJsonObject(bucket, MetadataKey(userName, fileName), SidecarDocument(map["user" := userName]), "application/json") ]
  }

  /**
   * Both keys of an upload lie under the owner's prefix, the sidecar's key is the object's
   * key with `.metadata.json` appended, and both writes tag the owner.
   */
  lemma UploadKeysBelongToOwner(bucket: string, userName: string, fileName: string)
    ensures var w := UploadWrites(bucket, userName, fileName);
      |w| == 2 && w[0].key == ObjectKey(userName, fileName) && w[1].key == MetadataKey(userName, fileName) &&
      StartsWith(w[0].key, userName + "/") && StartsWith(w[1].key, userName + "/") &&
      w[1].key == w[0].key + ".metadata.json" &&
      w[0].userMetadata == w[1].body.metadataAttributes == map["user" := userName]
  {
  }

  type ObjectWriter = S3Write -> Result<(), ProviderError>

  /** The writes that took effect, and whether the upload reported success. */
  datatype UploadOutcome = UploadOutcome(written: seq<S3Write>, ok: bool)

  /**
   * The upload of `s3_file_management`: the two writes in order; a failure stops the
   * sequence, so a failed sidecar write leaves the object without its sidecar.
   */
  function Upload(bucket: string, userName: string, fileName: string, write: ObjectWriter): (o: UploadOutcome)
    ensures |o.written| <= 2 && o.written == UploadWrites(bucket, userName, fileName)[..|o.written|]
    ensures o.ok <==> |o.written| == 2
    ensures !o.ok ==> write(UploadWrites(bucket, userName, fileName)[|o.written|]).Err?
    ensures forall k :: 0 <= k < |o.written| ==> write(o.written[k]).Ok?
  {
    var w := UploadWrites(bucket, userName, fileName);
    if write(w[0]).Err? then UploadOutcome([], false)
    else if write(w[1]).Err? then UploadOutcome([w[0]], false)
    else UploadOutcome(w, true)
  }

  /** `.endswith('.pdf')` over the listed keys, in order. */
  function PdfFiles(files: seq<string>): (r: seq<string>)
    ensures |r| <= |files|
    ensures forall x :: x in r <==> x in files && EndsWith(x, ".pdf")
  {
    if |files| == 0 then []
    else (if EndsWith(files[0], ".pdf") then [files[0]] else []) + PdfFiles(files[1..])
  }

  /** The filter keeps a single key exactly when it ends in `.pdf`. */
  lemma PdfFilesSingleton(x: string)
    ensures PdfFiles([x]) == if EndsWith(x, ".pdf") then [x] else []
  {
    assert [x][1..] == [];
  }

  /** The filter distributes over concatenation: listing order is kept and no key is repeated or dropped. */
  lemma {:induction false} PdfFilesConcat(a: seq<string>, b: seq<string>)
    ensures PdfFiles(a + b) == PdfFiles(a) + PdfFiles(b)
  {
    if |a| == 0 {
      assert a + b == b;
    } else {
      assert (a + b)[0] == a[0];
      assert (a + b)[1..] == a[1..] + b;
      PdfFilesConcat(a[1..], b);
    }
  }

  /** A metadata sidecar never shows in the file list. */
  lemma SidecarIsNotListed(userName: string, fileName: string, files: seq<string>)
    ensures MetadataKey(userName, fileName) !in PdfFiles(files)
  {
    var k := MetadataKey(userName, fileName);
    var base := userName + "/" + fileName;
    assert k == base + ".metadata.json";
    assert k[|k| - 4..] == "json";
    assert k[|k| - 4] == 'j';
  }

  /** The index of the first `/` in `s`, `|s|` when there is none. */
  function SlashIndex(s: string): (i: nat)
    ensures i <= |s| && (i < |s| ==> s[i] == '/')
    ensures forall j :: 0 <= j < i ==> s[j] != '/'
  {
    if |s| == 0 || s[0] == '/' then 0 else 1 + SlashIndex(s[1..])
  }

  /** The first segment of a key: the user it was uploaded for. */
  function Owner(key: string): string {
    key[..SlashIndex(key)]
  }

  /** `file.split('/')[1]`: `None` where the index raises (a key without `/`). */
  function DisplayName(key: string): (r: Option<string>)
    ensures r.Some? <==> '/' in key
  {
    var i := SlashIndex(key);
    if i == |key| then None
    else
      var rest := key[i + 1..];
      Some(rest[..SlashIndex(rest)])
  }

  /** A stored object's key gives back its owner and, as the shown name, the uploaded file's name. */
  lemma ObjectKeyRoundTrip(userName: string, fileName: string)
    requires '/' !in userName && '/' !in fileName
    ensures Owner(ObjectKey(userName, fileName)) == userName
    ensures DisplayName(ObjectKey(userName, fileName)) == Some(fileName)
  {
    var k := ObjectKey(userName, fileName);
    assert k[|userName|] == '/';
    assert forall j :: 0 <= j < |userName| ==> k[j] == userName[j];
    assert SlashIndex(k) == |userName|;
    assert k[..|userName|] == userName;
    var rest := k[|userName| + 1..];
    assert rest == fileName;
    assert SlashIndex(rest) == |fileName|;
    assert rest[..|fileName|] == fileName;
    assert DisplayName(k) == Some(rest[..SlashIndex(rest)]);
  }

  // ---------------------------------------------------------------------------------
  // Listing the owner's files

  /** `list_objects_v2(Bucket, Prefix)` */
  datatype ListRequest = ListRequest(bucket: string, prefix: string)

  /** The keys of `Contents`; `None` when the response has no `Contents`. */
  datatype ListResponse = ListResponse(contents: Option<seq<string>>)

  type ObjectLister = ListRequest -> Result<ListResponse, ProviderError>

  /** What the object store answers for a prefix: the stored keys that start with it, in order. */
  function ObjectsWithPrefix(keys: seq<string>, prefix: string): (r: seq<string>)
    ensures forall k :: k in r <==> k in keys && StartsWith(k, prefix)
  {
    if |keys| == 0 then []
    else (if StartsWith(keys[0], prefix) then [keys[0]] else []) + ObjectsWithPrefix(keys[1..], prefix)
  }

  /** The prefix `s3_file_management` lists with: the bare user name. */
  function ListPrefixAsWritten(userName: string): string {
    userName
  }

  /** A user "al" listing with the bare user name is shown "alice"'s upload. */
  lemma BarePrefixListsOtherUsersFiles()
    ensures var key := ObjectKey("alice", "report.pdf");
      PdfFiles(ObjectsWithPrefix([key], ListPrefixAsWritten("al"))) == [key] && Owner(key) != "al"
  {
  }

  /** The prefix that keeps a listing to the user's own folder. */
  function OwnerPrefix(userName: string): string {
    userName + "/"
  }

  /** Listing with the owner's prefix returns only keys whose owner is that user. */
  lemma OwnerPrefixListsOnlyOwnKeys(keys: seq<string>, userName: string)
    requires '/' !in userName
    ensures forall k :: k in ObjectsWithPrefix(keys, OwnerPrefix(userName)) ==> Owner(k) == userName
  {
    forall k | k in ObjectsWithPrefix(keys, OwnerPrefix(userName)) ensures Owner(k) == userName {
      assert k[..|userName| + 1] == userName + "/";
      assert k[|userName|] == '/';
      assert forall j :: 0 <= j < |userName| ==> k[j] == userName[j];
      assert SlashIndex(k) == |userName|;
      assert k[..|userName|] == userName;
    }
  }

  /** The keys a listing response names, `[]` on a `ClientError`. */
  function ListedKeys(r: Result<ListResponse, ProviderError>): seq<string> {
    if r.Ok? then r.value.contents.GetOr([]) else []
  }

  /**
   * The "Existing Files" list of `s3_file_management`: nothing without a bucket, else the
   * `.pdf` keys listed under the owner's prefix.
   */
  function FilesToShow(bucket: string, userName: string, list: ObjectLister): (r: Option<seq<string>>)
    ensures r.None? <==> bucket == ""
    ensures r.Some? ==> r.value == PdfFiles(ListedKeys(list(ListRequest(bucket, OwnerPrefix(userName)))))
    ensures r.Some? ==> forall x :: x in r.value <==>
      x in ListedKeys(list(ListRequest(bucket, OwnerPrefix(userName)))) && EndsWith(x, ".pdf")
  {
    if bucket == "" then None
    else Some(PdfFiles(ListedKeys(list(ListRequest(bucket, OwnerPrefix(userName))))))
  }

  /** After uploading `alice/report.pdf`, alice's list holds exactly that file and bob's is empty. */
  lemma UploadThenListScenario()
    ensures var store := [ObjectKey("alice", "report.pdf"), MetadataKey("alice", "report.pdf")];
      PdfFiles(ObjectsWithPrefix(store, OwnerPrefix("alice"))) == [ObjectKey("alice", "report.pdf")] &&
      PdfFiles(ObjectsWithPrefix(store, OwnerPrefix("bob"))) == []
  {
    var obj := ObjectKey("alice", "report.pdf");
    var meta := MetadataKey("alice", "report.pdf");
    UploadKeysBelongToOwner("", "alice", "report.pdf");
    assert obj[0] == 'a' && meta[0] == 'a';
    assert OwnerPrefix("bob")[0] == 'b';
    assert !StartsWith(obj, OwnerPrefix("bob")) && !StartsWith(meta, OwnerPrefix("bob"));
    assert obj[|obj| - 4..] == ".pdf";
    SidecarIsNotListed("alice", "report.pdf", [meta]);
    assert [obj, meta][1..] == [meta] && [meta][1..] == [];
    assert ObjectsWithPrefix([meta], OwnerPrefix("alice")) == [meta] + ObjectsWithPrefix([], OwnerPrefix("alice"));
    assert ObjectsWithPrefix([obj, meta], OwnerPrefix("alice")) == [obj, meta];
    assert ObjectsWithPrefix([meta], OwnerPrefix("bob")) == ObjectsWithPrefix([], OwnerPrefix("bob"));
    assert ObjectsWithPrefix([obj, meta], OwnerPrefix("bob")) == [];
    assert PdfFiles([obj, meta]) == [obj] + PdfFiles([meta]);
  }

}
