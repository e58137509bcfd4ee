# Bedrock knowledge-base chatbots, modelled in Dafny

This project models the local logic of three chat front ends for an Amazon Bedrock
knowledge base:

- **The Terraform-deployed Streamlit application** (`app.py` with `cognito.py`).
  - A Cognito-backed authenticator keeps the signed-in identity in the Streamlit session state.
  - The chat panel sends each question to `retrieve_and_generate`. The request always filters on the user's name and caps retrieval at 5 results. A session id is attached only once one is stored.
  - It records the user and assistant entries with flattened citations. It keeps the first session id the service returns.
  - The settings panel stores four parameters and drops the session id.
  - The file manager writes a PDF and its metadata sidecar under `<user>/`, lists the keys, and polls an ingestion job until it leaves the in-flight states.
- **The hosted-interface Streamlit sample** (`streamlit_sample.py`). It sends each prompt with the stored session id to a Lambda function. On success it replaces the session id and appends both messages. On failure it changes nothing.
- **The jQuery widget** (`script.js`). It trims the input, appends an outgoing bubble and a "Thinking..." bubble, then fills the second bubble with the answer or an error. On success it replaces the session id.

Every external service is a function-typed parameter that maps the request to `Result<response, error>`. This covers Bedrock, Cognito, S3, Lambda, the token endpoint and the AJAX call. The ingestion-status service also takes the poll number, which stands for the moment it is asked. The contracts can therefore say which request was sent and what follows from each answer. One service is also given behaviour: S3's `list_objects_v2` is modelled as a string-prefix filter over the stored keys (`ObjectsWithPrefix`), which is what the listing lemmas rest on.

Modules:

- `Wrappers`: `Option`, `Result`.
- `Identity`: `UserInfo` and its construction.
- `AppState`: the session state of the Streamlit application, as a class.
- `Cognito`: the authenticator class and the hosted-UI URLs.
- `KnowledgeBase`: the rest of `app.py`.
- `LambdaChat`: `streamlit_sample.py`.
- `JQueryChat`: `script.js`.

## Model

| member | source | states |
|---|---|---|
| Identity.FirstEmailIsFirstMatch | contextual-chatbot-application-with-terraform/src/cognito.py:57-65 | the e-mail is the Value of the first attribute named `email`, and None when no attribute has that name |
| Identity.FirstEmail | contextual-chatbot-application-with-terraform/src/cognito.py:61-65 | definition: the `Value` of the first attribute whose `Name` is `email`, None when there is none; characterised by FirstEmailIsFirstMatch |
| Identity.ScanEmail | contextual-chatbot-application-with-terraform/src/cognito.py:61-65 | the scan loop with its early `break` returns exactly the first-match e-mail |
| Identity.GroupNames | contextual-chatbot-application-with-terraform/src/cognito.py:90 | the comprehension yields the GroupNames in response order, and fails exactly when some entry has no GroupName |
| Identity.GetUserGroups | contextual-chatbot-application-with-terraform/src/cognito.py:83-93 | group names in response order; `[]` on a failed call or on a raising comprehension |
| Identity.FromCognitoResponse | contextual-chatbot-application-with-terraform/src/cognito.py:54-80 | IsLoggedIn is true; UserName is the response's Username; Email is the first `email` attribute's value and is present only if such an attribute exists; Groups is the lookup for that user name; Group is the first group, and None exactly when there are no groups |
| AppState.SessionState.Clear | contextual-chatbot-application-with-terraform/src/cognito.py:211 | `session_state.clear()` removes every key |
| Cognito.ForgotPasswordUrlShape | contextual-chatbot-application-with-terraform/src/cognito.py:181-185 | the forgot-password link is `https://{domain}.auth.{region}.amazoncognito.com/` + `forgotPassword?` + the shared query with client_id, response_type=code, scope=email+openid+profile and redirect_uri |
| Cognito.SignupUrlShape | contextual-chatbot-application-with-terraform/src/cognito.py:186-190 | the sign-up link is the same base + `signup?` + the same shared query |
| Cognito.TokenUrlShape | contextual-chatbot-application-with-terraform/src/cognito.py:157 | the token endpoint is the same base + `oauth2/token` |
| Cognito.ForgotPasswordUrl | contextual-chatbot-application-with-terraform/src/cognito.py:181-185 | definition: the forgot-password link assembled piece by piece as `login` does |
| Cognito.SignupUrl | contextual-chatbot-application-with-terraform/src/cognito.py:186-190 | definition: the sign-up link assembled piece by piece as `login` does |
| Cognito.TokenUrl | contextual-chatbot-application-with-terraform/src/cognito.py:157 | definition: the token endpoint `https://{domain}.auth.{region}.amazoncognito.com/oauth2/token` |
| Cognito.SignedInUser | contextual-chatbot-application-with-terraform/src/cognito.py:137-152 | an identity is produced exactly when there is a token and get_user succeeds; it is logged in with the response's user name |
| Cognito.TokenOf | contextual-chatbot-application-with-terraform/src/cognito.py:130 | definition: `AuthenticationResult.AccessToken` of a successful `initiate_auth`, None where the lookup or the call raises |
| Cognito.ExchangedToken | contextual-chatbot-application-with-terraform/src/cognito.py:168 | definition: `access_token` of a successful token-endpoint reply, None where the lookup or the request raises |
| Cognito.CognitoAuthenticator.constructor | contextual-chatbot-application-with-terraform/src/cognito.py:96-103 | a stored UserInfo is reused and nothing changes; otherwise a logged-out UserInfo goes into both `self.User` and the session state |
| Cognito.CognitoAuthenticator.GetUserInfo | contextual-chatbot-application-with-terraform/src/cognito.py:137-152 | on success `self.User` and `session_state['UserInfo']` become the same built identity and no other key changes; on failure both are unchanged |
| Cognito.CognitoAuthenticator.Authenticate | contextual-chatbot-application-with-terraform/src/cognito.py:117-134 | sends USER_PASSWORD_AUTH with the app client id and the credentials; a missing token or any failure leaves both stores unchanged |
| Cognito.CognitoAuthenticator.LoginFromCode | contextual-chatbot-application-with-terraform/src/cognito.py:154-174 | posts grant_type=authorization_code, the client id, the code and the redirect URI to the token URL; installs the user only on success |
| Cognito.CognitoAuthenticator.Logout | contextual-chatbot-application-with-terraform/src/cognito.py:209-212 | the whole session state is emptied, not only the identity |
| Cognito.LogoutThenRerun | contextual-chatbot-application-with-terraform/src/cognito.py:209-212 | after logout and the rerun's fresh authenticator, the visitor is logged out and only the logged-out UserInfo is stored |
| KnowledgeBase.ConfigFallsBackToEnvironment | contextual-chatbot-application-with-terraform/src/app.py:32-35 | without stored parameters each value comes from its environment variable, a set `ModelId` included, and the model id defaults to `amazon.nova-lite-v1:0` only when `ModelId` is unset |
| KnowledgeBase.ResolveConfig | contextual-chatbot-application-with-terraform/src/app.py:32-35 | definition: each of the four values is the session-state value when that key is present, else `os.getenv` of KnowledgeBaseId, DataSourceId, KnowledgeBaseBucket or ModelId, with the source's defaults |
| KnowledgeBase.SaveParameters | contextual-chatbot-application-with-terraform/src/app.py:294-301 | Save stores the four parameters and removes the session id; every other key keeps its value |
| KnowledgeBase.AfterSave | contextual-chatbot-application-with-terraform/src/app.py:295-301 | definition: the four parameters stored, the session id removed, every other field as before |
| KnowledgeBase.SavedParametersTakeEffect | contextual-chatbot-application-with-terraform/src/app.py:294-301 | after Save the resolved configuration is exactly the saved values whatever the environment says, no session id is stored, and identity and history are untouched |
| KnowledgeBase.SaveStartsNewConversation | contextual-chatbot-application-with-terraform/src/app.py:299-301 | the question after Save is sent without a session id, and the id its answer returns is then stored |
| KnowledgeBase.ModelArn | contextual-chatbot-application-with-terraform/src/app.py:180 | the ARN is the us-east-1 foundation-model prefix followed by the model id, and the id can be read back from it |
| KnowledgeBase.BuildRequest | contextual-chatbot-application-with-terraform/src/app.py:183-231 | every request carries the filter `equals {user: UserName}`, 5 results, type KNOWLEDGE_BASE, the configured knowledge base and the model ARN; the session id is attached iff it is truthy |
| KnowledgeBase.RequestShapesAgree | contextual-chatbot-application-with-terraform/src/app.py:183-231 | the two request shapes differ only in the session id |
| KnowledgeBase.MapRefs | contextual-chatbot-application-with-terraform/src/app.py:241-243 | one `{Text, Reference{document, page}}` entry per reference, in the same order |
| KnowledgeBase.ToSourceRef | contextual-chatbot-application-with-terraform/src/app.py:241-242 | definition: `{Text: content.text, Reference: {document: metadata."x-amz-bedrock-kb-source-uri", page: metadata."x-amz-bedrock-kb-document-page-number"}}`, with None for a missing field |
| KnowledgeBase.FlattenCitations | contextual-chatbot-application-with-terraform/src/app.py:241-243 | definition: each citation's mapped references followed by those of the later citations |
| KnowledgeBase.FlattenConcat | contextual-chatbot-application-with-terraform/src/app.py:241-243 | flattening keeps the order of citations: it distributes over concatenation |
| KnowledgeBase.FlattenMembership | contextual-chatbot-application-with-terraform/src/app.py:241-243 | an item is in the flattened list iff it is the `{Text, Reference{document, page}}` mapping of some reference of some citation |
| KnowledgeBase.FlattenAt | contextual-chatbot-application-with-terraform/src/app.py:241-243 | reference j of citation i, mapped, is entry Offset(i) + j of the flattened list |
| KnowledgeBase.FlattenLayout | contextual-chatbot-application-with-terraform/src/app.py:241-243 | the flattened list has as many entries as there are references, and each reference sits at its offset |
| KnowledgeBase.ExtractCitations | contextual-chatbot-application-with-terraform/src/app.py:237-243 | None exactly when the response has no `citations`; otherwise the list has exactly one entry per reference, and reference j of citation i, mapped, sits at position Offset(i) + j. Offset(i) counts the references of the citations before i, so order is kept and nothing repeats. Membership is as in FlattenMembership |
| KnowledgeBase.QueryKnowledgeBase | contextual-chatbot-application-with-terraform/src/app.py:176-250 | an answer is returned iff the provider call for BuildRequest succeeds; it holds the output text, the returned session id and the extracted citations |
| KnowledgeBase.ChatbotTurn | contextual-chatbot-application-with-terraform/src/app.py:252-276 | the outcome is no input, a warning, a failure or an answer, as the session state and input dictate; the new state is AfterTurn of the old one |
| KnowledgeBase.TurnOutcomeOf | contextual-chatbot-application-with-terraform/src/app.py:262-276 | definition: no input when the input is empty or absent; a warning when the knowledge-base id is empty; otherwise a failure or the answer of QueryKnowledgeBase with the stored session id |
| KnowledgeBase.StoreSessionId | contextual-chatbot-application-with-terraform/src/app.py:269-270 | definition: a stored session id is kept; only an absent one takes the returned id |
| KnowledgeBase.AfterTurn | contextual-chatbot-application-with-terraform/src/app.py:255-274 | definition: the history is initialised; an answered turn appends the user entry and then the assistant entry and stores the session id as StoreSessionId says; other outcomes change nothing else |
| KnowledgeBase.TurnEffect | contextual-chatbot-application-with-terraform/src/app.py:272-274 | an answered turn appends exactly the user entry and then the assistant entry with citations; every other outcome leaves history and session id as they were |
| KnowledgeBase.UnhandledInputChangesNothing | contextual-chatbot-application-with-terraform/src/app.py:262-276 | empty input or an empty knowledge-base id gives no input or a warning and records nothing |
| KnowledgeBase.SessionIdFirstWins | contextual-chatbot-application-with-terraform/src/app.py:266-270 | after any turn sequence the session id is the stored one if there was one, else the id of the first answered turn; it never rotates |
| KnowledgeBase.HistoryIsTranscript | contextual-chatbot-application-with-terraform/src/app.py:272-274 | the history after many turns is the old history followed by one user/assistant pair per answered turn |
| KnowledgeBase.TurnKeepsAlternation | contextual-chatbot-application-with-terraform/src/app.py:273-274 | user and assistant entries keep alternating, user first, across every turn |
| KnowledgeBase.PollUntilDone | contextual-chatbot-application-with-terraform/src/app.py:163-166 | every poll asks about the same job; polling stops at the first status not in {IN_PROGRESS, STARTING, STOPPING}, an error status included, and every earlier status was in flight |
| KnowledgeBase.StatusOf | contextual-chatbot-application-with-terraform/src/app.py:139-152 | definition: `check_ingestion_job_status` gives the job status, or None on a `ClientError` |
| KnowledgeBase.InFlight | contextual-chatbot-application-with-terraform/src/app.py:165 | definition: the loop goes on exactly when the status is one of `IN_PROGRESS`, `STARTING`, `STOPPING`; a failed check (None) is not in flight |
| KnowledgeBase.PolledStatus | contextual-chatbot-application-with-terraform/src/app.py:164 | definition: the status the loop sees on a given poll of the same request |
| KnowledgeBase.PollScenario | contextual-chatbot-application-with-terraform/src/app.py:163-166 | a job that reports STARTING, IN_PROGRESS, IN_PROGRESS, then COMPLETE gives 4 polls ending COMPLETE |
| KnowledgeBase.SyncKnowledgeBaseJob | contextual-chatbot-application-with-terraform/src/app.py:154-171 | an empty knowledge-base id gives a warning; a failed start gives "Failed to start sync."; otherwise every status check asks about the configured knowledge base, the data source and the started job id, and the job is polled to its first status that is not in flight, which a failed check (no status) also is |
| KnowledgeBase.StartedJob | contextual-chatbot-application-with-terraform/src/app.py:126-136 | definition: `start_ingestion_job` with the configured knowledge base and data source; the job id on success, None on a `ClientError` |
| KnowledgeBase.JobRequest | contextual-chatbot-application-with-terraform/src/app.py:143-147 | definition: the `get_ingestion_job` request for the configured knowledge base and data source and the given job id |
| KnowledgeBase.SyncAfterFailedCheck | contextual-chatbot-application-with-terraform/src/app.py:163-167 | a job whose second status check raises is reported as synced after two polls with no status, the "Sync Completed" branch |
| KnowledgeBase.UploadKeysBelongToOwner | contextual-chatbot-application-with-terraform/src/app.py:100-118 | the object key is `user/name` and the sidecar key is that key + `.metadata.json`, both under `user/`; both carry the metadata `{user: userName}` |
| KnowledgeBase.ObjectKey | contextual-chatbot-application-with-terraform/src/app.py:100 | definition: `userName + "/" + name` |
| KnowledgeBase.MetadataKey | contextual-chatbot-application-with-terraform/src/app.py:115 | definition: `userName/name.metadata.json` |
| KnowledgeBase.UploadWrites | contextual-chatbot-application-with-terraform/src/app.py:100-118 | definition: `upload_fileobj` of the object with metadata `{user: userName}`, then `put_object` of the JSON sidecar with content type `application/json` |
| KnowledgeBase.Upload | contextual-chatbot-application-with-terraform/src/app.py:98-123 | the two writes happen in order, and the first failure stops the sequence; success means both were written |
| KnowledgeBase.PdfFiles | contextual-chatbot-application-with-terraform/src/app.py:75 | the listed files are exactly the listed keys ending in `.pdf`, never more of them than listed keys |
| KnowledgeBase.PdfFilesSingleton | contextual-chatbot-application-with-terraform/src/app.py:75 | a single key is kept exactly when it ends in `.pdf` |
| KnowledgeBase.PdfFilesConcat | contextual-chatbot-application-with-terraform/src/app.py:75 | the filter distributes over concatenation, so with PdfFilesSingleton it keeps listing order and keeps each listed key once |
| KnowledgeBase.SidecarIsNotListed | contextual-chatbot-application-with-terraform/src/app.py:75 | a metadata sidecar never appears in the file list |
| KnowledgeBase.ObjectKeyRoundTrip | contextual-chatbot-application-with-terraform/src/app.py:78 | for names without `/`, a stored key gives back its owner, and `split('/')[1]` gives back the uploaded file name |
| KnowledgeBase.ObjectsWithPrefix | contextual-chatbot-application-with-terraform/src/app.py:65 | a key is in what `list_objects_v2(Prefix=...)` returns exactly when it is stored and starts with the prefix; the definition keeps the stored order |
| KnowledgeBase.ListPrefixAsWritten | contextual-chatbot-application-with-terraform/src/app.py:65 | definition: the listing prefix as written, the bare user name |
| KnowledgeBase.DisplayName | contextual-chatbot-application-with-terraform/src/app.py:78 | `split('/')[1]` yields a name exactly when the key contains a `/`; otherwise the index raises |
| KnowledgeBase.BarePrefixListsOtherUsersFiles | contextual-chatbot-application-with-terraform/src/app.py:65 | with `Prefix=userName`, user "al" is shown "alice/report.pdf" |
| KnowledgeBase.OwnerPrefixListsOnlyOwnKeys | contextual-chatbot-application-with-terraform/src/app.py:65 | listing with the prefix `userName + "/"` returns only keys owned by that user |
| KnowledgeBase.FilesToShow | contextual-chatbot-application-with-terraform/src/app.py:62-75 | no list without a bucket; otherwise the `.pdf` filter, applied in listing order, of the keys listed under the owner's prefix, with `[]` on a listing error |
| KnowledgeBase.ListedKeys | contextual-chatbot-application-with-terraform/src/app.py:66-69 | definition: the `Key`s of `Contents`, `[]` when `Contents` is missing or the call raises a `ClientError` |
| KnowledgeBase.UploadThenListScenario | contextual-chatbot-application-with-terraform/src/app.py:65-75 | after alice uploads report.pdf her list is exactly that file, and bob's list is empty |
| LambdaChat.SampleSession.Initialize | contextual-chatbot-with-aws-hosted-interface/streamlit-serverless/streamlit_serverless_app/streamlit_sample/streamlit_sample.py:13-17 | `messages` becomes `[]` and `sessionId` becomes `""` only when absent; existing values are kept |
| LambdaChat.SampleSession.HandlePrompt | contextual-chatbot-with-aws-hosted-interface/streamlit-serverless/streamlit_serverless_app/streamlit_sample/streamlit_sample.py:25-73 | the Lambda InvokeKnowledgeBase gets the prompt and the stored session id; success replaces the session id and appends the user and assistant messages; each failure leaves both unchanged and shows its own message |
| LambdaChat.Step | contextual-chatbot-with-aws-hosted-interface/streamlit-serverless/streamlit_serverless_app/streamlit_sample/streamlit_sample.py:46-58 | definition: a successful reply replaces the session id and appends the user message and then the assistant message; a failure leaves the state as it was |
| LambdaChat.ErrorMessage | contextual-chatbot-with-aws-hosted-interface/streamlit-serverless/streamlit_serverless_app/streamlit_sample/streamlit_sample.py:60-73 | definition: the connection message for a `ClientError`, the invalid-response message for a `JSONDecodeError`, and the unexpected-error message otherwise |
| LambdaChat.SessionIdIsLatest | contextual-chatbot-with-aws-hosted-interface/streamlit-serverless/streamlit_serverless_app/streamlit_sample/streamlit_sample.py:46-48 | after any prompt sequence the session id is the one from the latest successful reply, or the initial one if none succeeded |
| LambdaChat.MessagesGrowByTwo | contextual-chatbot-with-aws-hosted-interface/streamlit-serverless/streamlit_serverless_app/streamlit_sample/streamlit_sample.py:51-58 | the message list keeps its old entries and grows by exactly two per successful reply |
| JQueryChat.TrimStart | amazon-bedrock-knowledgebase-chatbot-poc/jqueryClient/script.js:53 | removes exactly the leading ECMAScript white space |
| JQueryChat.TrimEnd | amazon-bedrock-knowledgebase-chatbot-poc/jqueryClient/script.js:53 | removes exactly the trailing ECMAScript white space |
| JQueryChat.Trim | amazon-bedrock-knowledgebase-chatbot-poc/jqueryClient/script.js:53 | definition: `trim()` as TrimEnd of TrimStart |
| JQueryChat.TrimIsEmptyIffBlank | amazon-bedrock-knowledgebase-chatbot-poc/jqueryClient/script.js:53-57 | the trimmed message is empty, so the handler returns, iff every input character is white space |
| JQueryChat.TrimmedHasNoOuterSpace | amazon-bedrock-knowledgebase-chatbot-poc/jqueryClient/script.js:53 | a non-empty trimmed message starts and ends with a non-space character |
| JQueryChat.IconFor | amazon-bedrock-knowledgebase-chatbot-poc/jqueryClient/script.js:16-17 | the person icon iff the class is `chat-outgoing`, the cpu icon otherwise |
| JQueryChat.ChatLi.constructor | amazon-bedrock-knowledgebase-chatbot-poc/jqueryClient/script.js:14-19 | the item has the classes `chat` and the given class, the matching icon and the message as its text |
| JQueryChat.ChatClient.constructor | amazon-bedrock-knowledgebase-chatbot-poc/jqueryClient/script.js:2-10 | `sessionId` starts as `""` and `userMessage` is undefined; the chat box and the input are assumed to start empty |
| JQueryChat.PairedAppend | amazon-bedrock-knowledgebase-chatbot-poc/jqueryClient/script.js:58-63 | appending an outgoing and then an incoming bubble keeps the chat box in user/assistant pairs |
| JQueryChat.ChatClient.AppendBubbles | amazon-bedrock-knowledgebase-chatbot-poc/jqueryClient/script.js:58-63 | appends two fresh, distinct bubbles in order: the outgoing one with the message, then the incoming "Thinking..." placeholder; the input, the message and the session id are untouched, and pairing is preserved |
| JQueryChat.ChatClient.GenerateResponse | amazon-bedrock-knowledgebase-chatbot-poc/jqueryClient/script.js:22-51 | posts `{question: userMessage, sessionId}`; on success the session id and the bubble text become the reply's; on failure the session id is kept, the text gets class `error` and "Oops! Something went wrong. Please try again!" |
| JQueryChat.ChatClient.HandleChat | amazon-bedrock-knowledgebase-chatbot-poc/jqueryClient/script.js:52-68 | blank input sends nothing, appends nothing and keeps the input; otherwise it appends the outgoing bubble and then the placeholder, clears the input and settles the placeholder as GenerateResponse does; pairing is preserved |

## Left out

- External services are parameters, and their behaviour is not modelled, with one exception. This covers Bedrock, the Bedrock agent, Cognito, the S3 writes, Lambda, the token endpoint and the API Gateway call. The exception is S3's listing, which the listing lemmas take to be a string-prefix match over the stored keys, in stored order (`ObjectsWithPrefix`); pagination beyond the first 1000 keys is not modelled. An error result stands for every exception the source's `try` blocks catch.
- The module-level lookups of `cognito.py` (lines 20-28) are not modelled. They read the pool domain, region, client id and callback URL; `PoolConfig` holds these values as given. A missing `COGNITO_CLIENT_ID` or `COGNITO_POOL_ID` is not modelled.
- Pydantic validation of `UserInfo`, logging, `print` and the `__str__` methods are not modelled.
- `login` renders a form. Its button handlers are modelled as `Authenticate`, and its links as the URL functions. `main` (`app.py`:305-335) only routes between these and is not modelled; `st.query_params.clear()` and `st.rerun()` are not modelled either.
- Display is not modelled: `st.chat_message`, `st.markdown`, expanders, columns, spinners and `scrollTop`. This includes the history display of `app.py`:279-284, which calls `len` on citations that may be None.
- `view_content` (a base64 PDF preview) and the Delete button of the file manager are not modelled. They are an S3 read and an S3 delete per listed key.
- KnowledgeBase.ExtractCitations: the jmespath engine is not modelled, only this one projection. The projection over `citations[]` skips a citation whose `retrievedReferences` is null, so that citation contributes nothing, and the following `[]` merges the lists. Inside `{Text, Reference}` a missing `content.text` or metadata key becomes null (None in the model), and the entry is kept.
- Page numbers are modelled as integers. Floating-point page numbers are not modelled.
- When `query_knowledge_base` fails, it returns None, and the tuple unpacking at `app.py`:266 raises. The model records this as the `Failed` outcome, with no history or session-id change.
- KnowledgeBase.PollUntilDone requires that some poll sees a status that is not in flight. A job that never leaves the in-flight states makes the source loop forever, and that run is not modelled.
- KnowledgeBase.SyncKnowledgeBaseJob has the same requirement for the started job: it promises nothing about a job that stays in flight forever, on which the loop at `app.py`:163-166 never ends.
- KnowledgeBase.FilesToShow uses the corrected prefix `userName + "/"` (see Findings), not the bare user name of `app.py`:65.
- KnowledgeBase.OwnerPrefixListsOnlyOwnKeys holds only for user names without `/`. Nothing in the source rules such names out, and with the corrected prefix a user "al" would still list the keys of a user "al/x".
- User names for S3 are strings. A missing user name (`None` in the source) would make the key concatenation raise, and that case is not modelled.
- The message of `script.js` is placed into HTML unescaped (`<p>${message}</p>`). The model keeps it as the text; any markup it contains is not modelled.
- JQueryChat.ChatClient.constructor: the chat box and the textarea get their initial content from the page's HTML, which is not part of this model. The model assumes both start empty.
- Asynchrony in `script.js` is not modelled. The 600 ms `setTimeout` and the AJAX reply are one sequential step, so a second message typed while a reply is pending is not modelled. A reply without `sessionId` or `answer` fields (`undefined` in JavaScript) is not modelled either.
- The streamlit sample's Lambda reply is modelled after decoding. The raw payload bytes and the two `json.loads` calls are folded into the `JsonDecodeError` and `UnexpectedError` results.

## Findings

| source | as written | input that shows it | evidently intended | confidence | as-written member | corrected member |
|---|---|---|---|---|---|---|
| contextual-chatbot-application-with-terraform/src/app.py:65 | the file list is `list_objects_v2(Prefix=userName)`, with no trailing `/` | user "al" while "alice/report.pdf" is stored: it is listed, and can be viewed and deleted, by "al" | only the user's own folder is listed: `Prefix=userName + "/"`, as the upload keys at lines 100 and 115 are built; this isolates users only when user names contain no `/` | medium, not executed | KnowledgeBase.BarePrefixListsOtherUsersFiles | KnowledgeBase.OwnerPrefixListsOnlyOwnKeys |
