# claudio-server-v2 in Dafny

A Dafny model of the voice server `claudio-server-v2` and of the MCP hub it mounts, with proofs about it.

The MCP hub model covers:
- the tool registry built from the mounted providers;
- the wrapper that writes one usage record per tool call;
- the shared-secret guard;
- the session maps of the streamable `/mcp` transport and the legacy `/sse` + `/messages` transport;
- `GET /providers`.

The Notion provider model covers:
- credential lookup: a static token, or the token store;
- one refresh of the access token and one retry after a 401;
- the record written after a refresh;
- the five tools' argument rules and request bodies;
- the OAuth 2.0 authorization-code routes.

The Pinecone provider model covers API-key and index-host resolution, and the four tools, each of which makes at most one upstream call.

The two stores are each modelled twice: the in-memory backend as the reference, and the relational backend shown to agree with it.
- The token store keeps one record per (provider, subject).
- The usage store is an append-only log of tool calls; it also reports counts per provider and per tool.

The voice server model covers:
- the conversation store;
- the Azure text-to-speech client:
  - the SSML document it builds;
  - the request it sends;
  - how `streamDeltas` cuts streamed text into sentences;
- the speech-to-text WebSocket handler:
  - the 44-byte WAV header;
  - the audio buffer and the 96000-byte partial cut;
  - the `stop` and `reset` control messages;
- the HTTP routes of `index.js`:
  - persona selection;
  - `/boot` and `/conversation/*`;
  - `/respond` up to its tool-call follow-up;
  - `/tts-azure` and `/tts-dia`.

Every outside service is a parameter:
- Notion and Pinecone are oracles from (call index, request) to a response.
- OpenAI is an oracle from the `input` list to a response.
- Azure is an oracle from the synthesis request to an audio handle or an error.
- Whisper is an oracle from WAV bytes to a transcript or an error.

Each handler returns the calls it made, so contracts can talk about what was sent upstream and in what order. Clocks, random ids and the transports' generated session ids are also parameters.

Modules follow the program's files:
- `Hub` is `lib/mcp/index.js`.
- `Notion` and `Pinecone` are the two providers.
- `TokenStore` and `UsageStore` are the two stores.
- `Conversations` is `conversations.js`.
- `Tts` is `tts-azure.js`.
- `Stt` is `stt-whisper.js`.
- `Server` is `index.js`.

Supporting modules model the JavaScript built-ins these files use:
- `JsValue`: truthiness, `||`, property access and `String(v)`.
- `Text`: `trim` and `\s`.
- `Schema`: the zod argument rules and the conditional-spread idiom.
- `Base64` and `Utf8`: `Buffer.from(s).toString('base64')`.
- `Uri`: `encodeURIComponent`.
- `XmlEscape`: `escapeXml`, with an unescaper as its inverse.
- `Bytes`: `writeUInt16LE` and `writeUInt32LE`.
- `Http`: the `{ ok, status, json }` triple.

The hub's session endpoints behave as follows:
- `POST /mcp` with an unknown session id and an `initialize` body opens a new session.
- `POST /mcp` with an unknown id and any other body answers 400 with a JSON-RPC error object, code -32000.
- Streamable sessions are never removed from the map, not on close and not on `DELETE`; see Findings.
- A session id naming a member every JavaScript object inherits, such as `constructor`, passes the lookup, and the handler then throws; see Findings.
- `Hub.Serve` routes requests as the code does; `Hub.ServeCorrected` routes them with both of those faults removed.

## Model

| member | source | states |
|---|---|---|
| Hub.Registry | lib/mcp/index.js:31-51 | the server registers exactly the tools of the mounted providers, each under its own provider's name |
| Hub.ListProviders | lib/mcp/index.js:117-122 | `/providers` lists the provider names in mount order |
| Hub.ListingMatchesRegistry | lib/mcp/index.js:117-122 | the tool names `/providers` lists are exactly the registered tools, in registration order |
| Hub.MountedListing | lib/mcp/index.js:24-28 | the mounted hub lists notion, pinecone and nova-memory, and 14 tool names, no two alike |
| Hub.Resolve | lib/mcp/index.js:33-36 | a tool name resolves exactly when some registration carries it, and to a registration with that name |
| Hub.Invoke | lib/mcp/index.js:37-47 | the wrapper returns the handler's own outcome and appends exactly one usage record: success iff the handler succeeded, the error text on failure, the provider and tool of the registration |
| Hub.CallTool | lib/mcp/index.js:31-51 | a name no provider declares is refused without a usage record; a declared one returns that tool handler's own outcome and appends one record naming the tool, a provider declaring it, the latency and whether it succeeded |
| Hub.ResolveDeclared | lib/mcp/index.js:31-36 | a name resolves on the built server exactly when some provider declares it, and to a registration of that provider |
| Hub.UsageCountsHandledCalls | lib/mcp/index.js:37-47 | over any sequence of calls the log grows by exactly the number of calls that reached a handler, keeping earlier records |
| Hub.GuardPasses | lib/mcp/index.js:54-59 | with no secret every request passes; otherwise exactly those whose `x-mcp-key` equals it |
| Hub.Known | lib/mcp/index.js:64-66 | a session is found iff the header is set, non-empty and in the map |
| Hub.McpPost | lib/mcp/index.js:63-81 | corrected lookup (own keys only): a known session reuses its transport; otherwise a non-initialize body gets the -32000 error and changes nothing, and an initialize body adds the new transport under the id it generated |
| Hub.McpGet | lib/mcp/index.js:82-87 | corrected lookup: an unknown or missing id is answered 400 exactly; a known one is delegated to its transport |
| Hub.McpDeleteAsWritten | lib/mcp/index.js:88-93 | as written, DELETE leaves the session map unchanged and answers like GET, throwing on an inherited name; elsewhere its answer is the corrected DELETE's |
| Hub.DeletedSessionStillRouted | lib/mcp/index.js:88-93 | after a successful DELETE the same id is still routed to the terminated transport |
| Hub.McpDelete | lib/mcp/index.js:88-93 | corrected DELETE: an unknown id is a 400 that changes nothing; a known one is delegated and removed |
| Hub.DeletedSessionRefused | lib/mcp/index.js:63-93 | once deleted, an id is refused by GET, DELETE and a non-initialize POST |
| Hub.SseOpen | lib/mcp/index.js:97-103 | opening a stream adds its session and leaves the streamable map alone |
| Hub.SseClose | lib/mcp/index.js:100 | the close event removes exactly that session |
| Hub.SsePost | lib/mcp/index.js:104-109 | corrected lookup: `/messages` goes to the stream named by `String(sessionId \|\| '')`, or is a 400 |
| Hub.SseLifecycle | lib/mcp/index.js:96-109 | open then close restores the map, and afterwards the id is refused |
| Hub.Serve | lib/mcp/index.js:55-109 | the routes as written: without the secret nothing changes and the reply is 401; every reply that is not a delegation, a throw included, leaves both maps unchanged; no request removes a session from either map |
| Hub.ServeCorrected | lib/mcp/index.js:55-109 | the routes with own-key lookup and a removing DELETE: nothing throws, a DELETE of a live session removes exactly it, and error replies change nothing |
| Hub.ServeAgreesIffOrdinary | lib/mcp/index.js:63-109 | behind the guard, the as-written and corrected routers agree on a request exactly when it names no inherited member and is not a DELETE of a live session |
| Hub.FindAsWritten | lib/mcp/index.js:63-93 | `sessionId && transports[sessionId]` finds a session exactly when the own-key lookup does, and an inherited member exactly for a non-empty id outside the map naming one |
| Hub.McpPostAsWritten | lib/mcp/index.js:63-81 | as written, an id naming an inherited member passes the check and the handler throws with nothing changed; every other request goes as in the corrected POST |
| Hub.SsePostAsWritten | lib/mcp/index.js:104-109 | as written, a `sessionId` naming an inherited member throws instead of answering 400; every other request goes as in the corrected route |
| Hub.McpGetAsWritten | lib/mcp/index.js:82-87 | as written, an id naming an inherited member throws instead of answering 400; every other request is answered as by the corrected route |
| Hub.InheritedIdEscapesCheck | lib/mcp/index.js:63-109 | the id `constructor` on an empty hub makes POST, GET, DELETE and `/messages` throw, where the corrected routes answer 400 |
| Notion.BasicAuth | lib/mcp/providers/notion.js:5-7 | the header starts with `Basic ` |
| Notion.BasicAuthDecodes | lib/mcp/providers/notion.js:5-7 | Base64- then UTF-8-decoding the header recovers `id:secret` |
| Notion.SubjectKey | lib/mcp/providers/notion.js:33-34 | `subject \|\| 'default'` is never empty |
| Notion.GetAccessToken | lib/mcp/providers/notion.js:31-36 | a static token wins without a store lookup; otherwise the stored record's token, or the no-token error when there is none |
| Notion.MergeRefreshed | lib/mcp/providers/notion.js:45-51 | the refreshed record keeps the subject and the new access token; the refresh token, workspace id, workspace name and bot id are the response's when truthy and the previous record's otherwise; an array scope is stored space-joined, any other truthy scope as given, else the previous scope when truthy, else null |
| Notion.Refresh | lib/mcp/providers/notion.js:38-54 | a rejected refresh fails and writes nothing; an accepted one stores the merged record and returns its access token |
| Notion.RunTool | lib/mcp/providers/notion.js:64-72 | no credentials means no call; otherwise one API call, a refresh exactly on a 401 with a refresh token on record, a retry only after a successful refresh and with its token; at most two API calls and one refresh |
| Notion.RefreshAndRetry | lib/mcp/providers/notion.js:67-70 | a failed refresh ends the run without writing; a successful one is stored and its token used for the single retry |
| Notion.StaticTokenNeverRefreshes | lib/mcp/providers/notion.js:31-32 | with a static token exactly one call is made with it, the store is untouched and the outcome does not depend on the store |
| Notion.RetryIsBounded | lib/mcp/providers/notion.js:67-71 | when Notion always answers 401 and refreshes succeed, a tool makes two API calls and one refresh, and still fails |
| Notion.GetSelf | lib/mcp/providers/notion.js:59-74 | accepted iff `subject` is absent or a string; then `GET users/me` through the refresh protocol |
| Notion.SearchBody | lib/mcp/providers/notion.js:88 | the search body holds query and page size, and filter, sort and cursor exactly when truthy, each with the argument's value |
| Notion.Search | lib/mcp/providers/notion.js:75-97 | with query defaulting to `''` and page size to 25, accepted iff the schema holds; then `POST search` with that body |
| Notion.FetchPage | lib/mcp/providers/notion.js:98-113 | accepted iff `page_id` is a string; then `GET pages/<page_id>` |
| Notion.QueryBody | lib/mcp/providers/notion.js:127 | the query body holds the page size, and filter, sorts and cursor exactly when truthy |
| Notion.QueryDatabase | lib/mcp/providers/notion.js:114-136 | with page size defaulting to 25, accepted iff the schema holds; then `POST databases/<id>/query` with that body |
| Notion.CreatePageBody | lib/mcp/providers/notion.js:148 | the body holds parent and properties, and children exactly when truthy |
| Notion.CreatePage | lib/mcp/providers/notion.js:137-157 | accepted iff properties is an object and children absent or an array; then `POST pages` |
| Notion.AuthStart | lib/mcp/providers/notion.js:161-172 | static mode needs no OAuth; a missing client id or redirect URI is a 400; the consent redirect happens exactly otherwise, to Notion's authorize URL with exactly five parameters: the client id, `response_type=code`, `owner=user`, the redirect URI and the state |
| Notion.QueryGet | lib/mcp/providers/notion.js:166-170 | a parameter found is one the list holds; one not found is named by no entry |
| Notion.ConsentLookups | lib/mcp/providers/notion.js:166-170 | each of the five consent parameters is read back by name from the list |
| Notion.AuthorizedRecord | lib/mcp/providers/notion.js:182-188 | the stored record is keyed by the workspace (or `default`) and holds the response's tokens and the raw response |
| Notion.Callback | lib/mcp/providers/notion.js:173-191 | no code: 400 and no call; otherwise exactly one code exchange; a rejected exchange or a null body is a 500 that stores nothing; an accepted one is authorized and upserts the record built from the token response |
| Notion.CallbackThenGet | lib/mcp/providers/notion.js:182-189 | after a successful callback the record reads back under its workspace |
| Pinecone.KeyFor | lib/mcp/providers/pinecone.js:48 | the key is the non-empty argument, else the configured key |
| Pinecone.TrimTrailingSlashes | lib/mcp/providers/pinecone.js:26 | the result is a prefix without a trailing `/`, and only slashes were removed |
| Pinecone.TrimTrailingSlashesIdempotent | lib/mcp/providers/pinecone.js:26 | trimming twice is trimming once |
| Pinecone.TrailingSlashIgnored | lib/mcp/providers/pinecone.js:23-27 | extra trailing slashes on a host do not change the URL built from it |
| Pinecone.GetHost | lib/mcp/providers/pinecone.js:23-27 | the argument host, else the configured one, trimmed; neither is the host-required error |
| Pinecone.Exchange | lib/mcp/providers/pinecone.js:12-21 | without a key nothing is sent and the call fails; with one, exactly one request carrying the key, reported under the tool's verb |
| Pinecone.HostExchange | lib/mcp/providers/pinecone.js:46-48 | the host is resolved before the key is checked: no host, no call |
| Pinecone.UpsertBody | lib/mcp/providers/pinecone.js:39-47 | the vectors as the schema parsed them, each cut down to `id`, `values` and a `metadata` it has, in their order, and the namespace exactly when truthy |
| Pinecone.StripVector | lib/mcp/providers/pinecone.js:39-43 | a parsed vector keeps exactly the schema's keys it sets, with their values |
| Pinecone.StripVectorKeeps | lib/mcp/providers/pinecone.js:39-43 | a valid vector stays valid once stripped, keeps `id` and `values`, keeps `metadata` exactly when given, and stripping again changes nothing |
| Pinecone.Upsert | lib/mcp/providers/pinecone.js:31-52 | accepted iff the schema holds; then `POST <host>/vectors/upsert` with the stripped vectors |
| Pinecone.QuerySearchFields | lib/mcp/providers/pinecone.js:71-76 | topK always; vector, id, namespace and filter exactly when truthy |
| Pinecone.QueryBody | lib/mcp/providers/pinecone.js:71-79 | as above, plus the two include flags exactly when they are booleans |
| Pinecone.Query | lib/mcp/providers/pinecone.js:54-84 | with topK defaulting to 10, accepted iff the schema and the vector-or-id refinement hold; then `POST <host>/query` |
| Pinecone.QuerySendsVectorOrId | lib/mcp/providers/pinecone.js:68-80 | every query sent names a vector or an id and a topK between 1 and 100 |
| Pinecone.QueryDefaultTopK | lib/mcp/providers/pinecone.js:64 | a query without topK asks for ten matches |
| Pinecone.DescribeIndex | lib/mcp/providers/pinecone.js:86-99 | accepted iff the index name is a string; then `GET` on the encoded name |
| Pinecone.DescribeIndexTargetsName | lib/mcp/providers/pinecone.js:95 | the URL is the fixed prefix and one slash-free segment that decodes back to the name |
| Pinecone.NormalizeMessage | lib/mcp/providers/pinecone.js:108-111 | a parsed message holds exactly role (defaulting to `user`) and content |
| Pinecone.Chat | lib/mcp/providers/pinecone.js:101-118 | accepted iff the schema holds (at least one message); then `POST` to the encoded assistant with the normalized messages |
| Pinecone.ChatSendsRoles | lib/mcp/providers/pinecone.js:105-114 | every message sent has one of the three roles and string content |
| Pinecone.NoKeyNoCall | lib/mcp/providers/pinecone.js:12-21 | no tool makes more than one call, none without a key, and every call carries the resolved key |
| TokenStore.Upsert | lib/mcp/stores/tokenStore.js:64-69 | the record replaces any earlier one under its key, keeping the first creation time; no other key changes |
| TokenStore.Get | lib/mcp/stores/tokenStore.js:70-72 | the record under `provider:subject`, subject defaulting to `default`, or none |
| TokenStore.KeyInjective | lib/mcp/stores/tokenStore.js:65 | with colon-free provider names the key determines the pair |
| TokenStore.KeyCollision | lib/mcp/stores/tokenStore.js:65 | with a colon in a provider name two pairs share a key |
| TokenStore.GetAfterUpsert | lib/mcp/stores/tokenStore.js:64-72 | a write reads back under its own pair |
| TokenStore.UpsertFrames | lib/mcp/stores/tokenStore.js:64-72 | a write leaves every other colon-free pair's record as it was |
| TokenStore.UpsertTwice | lib/mcp/stores/tokenStore.js:64-69 | two writes to a pair leave one record with the second's fields, the first's creation time and the second's update time |
| TokenStore.Nullable | lib/mcp/stores/tokenStore.js:40-43 | `?? null` never leaves a value undefined and keeps a defined one |
| TokenStore.SqlUpsert | lib/mcp/stores/tokenStore.js:24-46 | the insert fails exactly on a missing access token; otherwise the pair's row is the record's columns, stamped updated now and created at its first insert, and no other row changes |
| TokenStore.SqlGet | lib/mcp/stores/tokenStore.js:47-58 | a row is found iff the pair, subject defaulting to `default`, is in the table, and the row found is the one stored under that pair |
| TokenStore.UpsertAgree | lib/mcp/stores/tokenStore.js:24-69 | the two backends stay in agreement across an upsert |
| TokenStore.GetAgree | lib/mcp/stores/tokenStore.js:47-72 | agreeing backends answer every read with the same record |
| UsageStore.Append | lib/mcp/stores/usageStore.js:38 | a log call appends the record and changes nothing earlier |
| UsageStore.ComputeStats | lib/mcp/stores/usageStore.js:39-47 | the total is the log length and each count map holds exactly the keys that occur, each with its number of records |
| UsageStore.TallyStep | lib/mcp/stores/usageStore.js:42-44 | counting one more record keeps a tally exact |
| UsageStore.CountAfterAppend | lib/mcp/stores/usageStore.js:38 | logging a record adds one to exactly its own keys' counts |
| UsageStore.ByToolCountsPairs | lib/mcp/stores/usageStore.js:43 | with colon-free providers the `provider:tool` count is the number of calls of that tool |
| UsageStore.TallySum | lib/mcp/stores/usageStore.js:39-47 | an exact tally sums to the length of the log |
| UsageStore.StatsSums | lib/mcp/stores/usageStore.js:39-47 | both count maps sum to the total |
| UsageStore.ToRow | lib/mcp/stores/usageStore.js:18-24 | the row keeps provider and tool, coerces success to a boolean, and writes subject, latency and error text as given, or null when they are null or absent |
| Conversations.Create | conversations.js:3-7 | the new conversation holds a copy of an array seed, else nothing; other conversations are untouched |
| Conversations.Reduce | conversations.js:11-13 | an accepted message is stored as exactly its role and text |
| Conversations.Append | conversations.js:8-16 | an unknown id is ignored; otherwise the accepted messages are added at the end |
| Conversations.Snapshot | conversations.js:17 | the conversation, or an empty list for an unknown id |
| Conversations.AcceptedSpec | conversations.js:11-15 | the filter keeps exactly the acceptable messages, reduced and well-formed |
| Conversations.AcceptedConcat | conversations.js:11-15 | filtering distributes over concatenation |
| Conversations.AppendTwice | conversations.js:8-16 | appending in two calls is appending once with both lists |
| Conversations.AcceptedWellFormed | conversations.js:11-15 | messages already in stored form pass unchanged |
| Conversations.AcceptedIdempotent | conversations.js:11-15 | filtering twice is filtering once |
| Conversations.StaysWellFormed | conversations.js:8-17 | a conversation of well-formed messages stays well-formed across appends |
| Conversations.AppendFrames | conversations.js:8-16 | an append touches one conversation only |
| XmlEscape.EscapeXmlChar | tts-azure.js:44-51 | the five chained replacements turn each character into its entity |
| XmlEscape.EscapeXmlConcat | tts-azure.js:44-51 | escaping distributes over concatenation |
| XmlEscape.EscapeXmlIsPerCharacter | tts-azure.js:44-51 | the chained replacements equal the one-pass, per-character reference escape |
| XmlEscape.EscapeXmlSafe | tts-azure.js:44-51 | escaped text holds no markup character, and every `&` begins an entity |
| XmlEscape.EscapeXmlIdentity | tts-azure.js:44-51 | text without special characters is unchanged |
| XmlEscape.UnescapeEscape | tts-azure.js:44-51 | unescaping recovers the text |
| Tts.TemplateTrim | tts-azure.js:17-23 | `trim()` removes exactly the template's outer whitespace |
| Tts.SsmlShape | tts-azure.js:17-23 | the document is the fixed wrapper around the voice and the escaped text |
| Tts.VoiceBreaksAttribute | tts-azure.js:19 | as written, a voice holding `"` ends the name attribute early |
| Tts.SsmlReadsBack | tts-azure.js:17-23 | with the voice escaped, the attribute reads back as the voice, and the character data a parser finds after the start tag reads back as the text |
| Tts.FromEnv | index.js:21-24 | a set region is kept; an unset one becomes `eastus` |
| Tts.FromEnvEndpoint | tts-azure.js:7-10 | the server's synthesizer posts to `https://<region>.tts.speech.microsoft.com/cognitiveservices/v1`, `eastus` when no region is set, with the key it was given |
| Tts.SynthesizeCall | tts-azure.js:13-34 | as written: the request goes to the region's endpoint with the key and MP3 format; the escaped text follows the raw voice at its fixed offset for every voice; when the voice holds nothing XML escapes, a parser reads back both the voice name and the text |
| Tts.AsWrittenReadsBack | tts-azure.js:17-23 | as written, the escaped text follows the raw voice at its fixed offset for every voice; for a voice with nothing to escape the document equals the escaped one, and a parser reads back both the voice name and the text |
| Tts.SafeSynthesizeCall | tts-azure.js:17-34 | with the voice escaped, a parser reads back the voice name and the text for every voice, and the request equals the one made as written whenever the voice has nothing to escape |
| Tts.Synthesize | tts-azure.js:13-42 | the audio stream exactly when Azure supplies it for the request made as written, and Azure's status and text otherwise |
| Tts.SplitSingle | tts-azure.js:62-63 | text splits into one piece iff it holds no sentence end, and that piece is the text |
| Tts.PiecesHaveNoMatch | tts-azure.js:63 | no piece of the split holds a sentence end |
| Tts.SplitAppend | tts-azure.js:59-64 | splitting the buffer plus a delta re-splits only the buffer's last piece |
| Tts.SentencesTrimmed | tts-azure.js:66-71 | every text handed to synthesis is trimmed and non-empty |
| Tts.StreamDeltas | tts-azure.js:54-80 | the texts synthesised are the sentences of the whole streamed text, in order |
| Tts.StreamDeltasChunking | tts-azure.js:54-80 | however the text is cut into deltas, the same sentences are synthesised |
| Tts.BufferHasNoSentenceEnd | tts-azure.js:62-64 | what stays buffered holds no sentence end |
| Stt.WavHeader | stt-whisper.js:111-124 | the header is 44 bytes |
| Stt.WriteWav | stt-whisper.js:103-127 | the file is written iff the RIFF size fits 32 bits; then it is the 44-byte header followed by the samples |
| Stt.RatesConsistent | stt-whisper.js:104-108 | byte rate 32000 and block align 2; the 96000-byte cut is three seconds |
| Stt.WavHeaderFields | stt-whisper.js:111-124 | every header field reads back at its offset |
| Stt.ReadWriteWav | stt-whisper.js:103-127 | a WAV reader recovers the samples from the written file |
| Stt.Transcribe | stt-whisper.js:74-101 | an empty buffer does nothing; an oversized one reports the range error without reaching Whisper; otherwise Whisper gets one WAV file that reads back as the buffer, and the client gets the trimmed transcript of the requested kind, nothing when it is blank, or the error text |
| Stt.StopFlushes | stt-whisper.js:28-34 | `stop` transcribes the whole buffer as final and empties it |
| Stt.ResetClears | stt-whisper.js:36-41 | `reset` empties the buffer and acknowledges, transcribing nothing |
| Stt.OtherControlIgnored | stt-whisper.js:25-42 | any other control message changes nothing and sends nothing |
| Stt.BinaryConserves | stt-whisper.js:45-57 | a binary frame loses no audio; a chunk of exactly 96000 bytes is cut iff the buffer reaches it and nothing is in flight |
| Stt.RunBinaryConserves | stt-whisper.js:45-57 | over any run of frames, the chunks transcribed followed by the final buffer are the initial buffer followed by all audio received |
| Server.LoadPersona | index.js:28-59 | the persona is trimmed |
| Server.PersonaPriority | index.js:28-59 | the persona is the first available of PDF, `persona.md`, `persona.example.md` and the fallback |
| Server.PersonaShadows | index.js:34-58 | a present file shadows those after it, whatever their contents |
| Server.Boot | index.js:61-68 | the conversation is a non-empty seed, else one system message with the persona; other conversations are untouched |
| Server.BootDefaultWellFormed | index.js:62-65 | without a seed the conversation is one well-formed system message carrying the persona |
| Server.ConversationInit | index.js:95-99 | the conversation is the seed when it is an array, else empty |
| Server.ConversationAppend | index.js:101-107 | an empty id is a 400 that changes nothing; otherwise the messages are appended |
| Server.ConversationSnapshot | index.js:109-113 | an empty id is a 400; otherwise the conversation's items |
| Server.AppendThenSnapshot | index.js:101-113 | a snapshot after an append shows the accepted messages at the end; other conversations are unchanged |
| Server.ToInput | index.js:123-131 | mapping a history item throws exactly on `null` or `undefined` |
| Server.ToInputs | index.js:123-132 | the list maps iff no item is `null` or `undefined`, one input per item |
| Server.ToInputsSpec | index.js:123-132 | each input carries its item's role and text, with `output_text` exactly for assistant messages |
| Server.Respond | index.js:115-257 | a missing id or text is a 400 with no upstream call; at most one call otherwise; the store changes only on the direct path |
| Server.Answer | index.js:168-251 | a failed call is answered with its status, or 502, and nothing changes; otherwise the `tool_calls` scan picks the path: an entry naming `searchMemory` gives the follow-up reply, a null or undefined entry before one gives the 500, and no array or no such entry gives the direct path, whose reply streams `output_text` (or `''`) and whose conversation gains the assistant message exactly when that text is a non-empty string and the conversation exists |
| Server.SearchMemoryRequested | index.js:177-182 | the scan of `tool_calls` finds a request exactly when some entry's `function.name` is `searchMemory` and no null or undefined entry comes before it, and throws exactly when a null or undefined entry comes before any such request |
| Server.RespondTakesDirectPath | index.js:177-251 | when the one upstream call succeeds and `tool_calls` is not an array, or holds no null, undefined or `searchMemory` entry, the reply streams the direct answer |
| Server.RespondSendsTurn | index.js:122-166 | with both fields present and no stored message null or undefined, one call carries the history and the user turn, mapped item by item |
| Server.RespondNullHistory | index.js:115-257 | a null or undefined stored message makes the mapping throw: no call is made, the store is unchanged and the reply is the 500 |
| Server.RespondUpstreamFailure | index.js:168-171 | a failed upstream call is answered with its status, or 502, and changes nothing |
| Server.RespondAppendsAssistant | index.js:242-251 | when the direct path is taken, the reply streams `output_text`, and the conversation gains one assistant message exactly when that text is a non-empty string |
| Server.Speak | index.js:84-90 | the reply is the audio exactly when Azure supplies it for the request made as written, and then it is Azure's own stream; otherwise it is the route's 500 |
| Server.TtsAzure | index.js:77-93 | no text: 400 and no synthesis; otherwise exactly one synthesis call |
| Server.TtsAzureVoice | index.js:79-84 | one call, whose escaped text follows the raw voice at its fixed offset; the voice is the `voice` parameter, or Emma when absent, and when it holds nothing XML escapes a parser reads back the voice name and the text; audio is returned exactly when Azure supplies it |
| Server.SpeakCall | index.js:84-90 | one synthesis whose escaped text follows the raw voice at its fixed offset; for a voice with nothing to escape a parser reads back the voice name and the text; audio comes back exactly when Azure supplies it |
| Tts.DefaultVoicePlain | tts-azure.js:13 | the default voice holds nothing XML escapes |
| Server.TtsDia | index.js:260-273 | no text: 400 and no synthesis; otherwise exactly one synthesis call |
| Server.TtsDiaVoice | index.js:262-266 | `/tts-dia` makes one call, which names Emma and whose text a parser reads back; audio is returned exactly when Azure supplies it |
| Base64.DecodeEncode | lib/mcp/providers/notion.js:6 | Base64 decoding undoes the encoding used for the Basic header |
| Base64.EncodeAlphabet | lib/mcp/providers/notion.js:6 | the encoding uses only the alphabet, with padding at the end only |
| Utf8.DecodeEncode | lib/mcp/providers/notion.js:6 | UTF-8 decoding undoes `Buffer.from(s)` |
| Uri.DecodeEncode | lib/mcp/providers/pinecone.js:95 | `decodeURIComponent` undoes `encodeURIComponent` |
| Uri.EscapeBytesSafe | lib/mcp/providers/pinecone.js:95 | an encoded name holds only unreserved characters and `%` escapes |
| Bytes.LE32RoundTrip | stt-whisper.js:113 | a 32-bit little-endian field reads back as written |
| Text.TrimSpec | tts-azure.js:67-68 | `trim` yields a trimmed slice of the input, framed by spaces |
| Text.TrimIdempotent | tts-azure.js:67-68 | trimming twice is trimming once |
| Text.TrimEmptyIffBlank | tts-azure.js:67 | `trim` is empty exactly on blank input |

## Left out

- Network access: every upstream service is an oracle. The model leaves out request headers other than the ones contracts mention, the Notion API version header, JSON serialisation of bodies, and the text-or-`{raw}` parsing of response bodies.
- The MCP SDK: what a transport does with a delegated request is not modelled. Sessions map ids to opaque handles.
- Postgres: the relational backends are maps keyed by their primary keys. Table creation, connection pools, and the formats of `to_char` and `new Date(expires_at)` are left out.
- UsageStore.ComputeStats: models the in-memory `stats()`. The SQL `group by` queries are taken to return the same counts.
- Express, CORS, the 2 MB body limit, `/health`, `/healthz` and `app.listen` are not modelled. The model has no `headersSent` branch: error replies are taken to be sent before any audio.
- The nova-memory provider is not part of this model; its five tool names appear only in the mounted listing.
- Test scripts are not modelled.
- File-system access: the persona files and the WAV file are values. The temporary file name and `unlinkSync`, including its errors, are left out.
- Server.LoadPersona: the multi-line boot text used when the PDF exists is abbreviated to its first line.
- Server.Respond: the searchMemory follow-up (index.js:177-237) ends in the `FollowUp` reply. The second OpenAI call, the memory search and the append after it are not modelled.
- Server.Respond: a response body that is not JSON makes `r.json()` throw (a 500); this is not modelled, and the body is taken as parsed. Neither is a `tool_calls` object with a numeric `length`.
- Stt.OnFrame: assumes control messages arrive as strings and audio as buffers. Which frames the WebSocket library delivers as strings is outside this model.
- Stt: the handler runs each frame to completion, so interleaving of awaited transcriptions is not modelled. The `processing` flag is kept in the state so the partial cut's guard is modelled.
- Whisper back-ends: the local server, the OpenAI fallback and the choice between them form one oracle from WAV bytes to text.
- Tts.StreamDeltas: states the texts handed to `synthesize` when every synthesis succeeds. A rejected synthesis throws out of the loop, which is not modelled; neither are the audio callbacks.
- Tts.Synthesize: the audio is an opaque stream handle, and the piping of it is not modelled.
- Pinecone.Upsert: takes `index_host` to be any string. zod's URL-format check is left out because URL parsing is not part of this model.
- Pinecone.Query: takes `index_host` to be any string. zod's URL-format check is left out because URL parsing is not part of this model.
- Error replies carry only their `error` field. The `detail` text, the upstream error text and the log lines are left out.
- Numbers are integers. Floating point is left out, so are non-integer `topK` or `page_size` values and latency in fractional milliseconds.
- Strings are sequences of Unicode scalar values. Lone UTF-16 surrogates, which `Buffer.from` and `encodeURIComponent` treat specially, cannot occur.
- Hub.Invoke: the latency is a parameter, not a clock reading.
- Hub.Serve: a handler that throws ends in `Thrown`. What Express then sends the client is not modelled.
- Server.TtsAzureVoice: the voice is said to read back only when it holds none of `& < > " '`, because the route inserts it unescaped; Findings shows a voice that does not read back.
- Tts.SynthesizeCall: for a voice holding any of `& < > " '`, the model states only that the escaped text follows the raw voice at its fixed offset (`Tts.VoiceContent`); what a parser then reads as the voice element's data is not characterised, since a voice such as `x"><voice name="y` opens further markup. The same holds for Tts.AsWrittenReadsBack, Server.SpeakCall and Server.TtsAzureVoice.
- Random values are parameters: the OAuth `state`, conversation ids and transport session ids.

## Findings

| source | as written | input that shows it | evidently intended | confidence | as-written member | corrected member |
|---|---|---|---|---|---|---|
| lib/mcp/index.js:88-93 | `DELETE /mcp` passes the request to the transport but never removes the session; no `onclose` handler removes it either | `DELETE /mcp` with a live session id, then `GET /mcp` with the same id | the deleted session leaves the map, so later requests with its id get the 400 | not executed; medium | Hub.McpDeleteAsWritten (shown by Hub.DeletedSessionStillRouted) | Hub.McpDelete (proved by Hub.DeletedSessionRefused), routed by Hub.ServeCorrected |
| lib/mcp/index.js:62-109 | the session maps are plain objects, so `transports[sessionId]` also finds members inherited from `Object.prototype` | `GET /mcp` (or POST, DELETE, `/messages?sessionId=`) with the id `constructor` and no sessions | an id that is not a session gets the 400 "Invalid or missing session ID" | not executed; high | Hub.McpPostAsWritten, Hub.McpGetAsWritten, Hub.McpDeleteAsWritten, Hub.SsePostAsWritten (shown by Hub.InheritedIdEscapesCheck) | Hub.McpPost, Hub.McpGet, Hub.McpDelete, Hub.SsePost, routed by Hub.ServeCorrected (related by Hub.ServeAgreesIffOrdinary) |
| tts-azure.js:17-23 | the voice name is put into the `name` attribute without escaping, while the text is escaped | `/tts-azure?text=hi&voice=x%22%20xml:lang=fr` | the voice is escaped like the text, so the attribute always reads back as the voice requested | not executed; high | Tts.SsmlAsWritten, used by Tts.SynthesizeCall (shown by Tts.VoiceBreaksAttribute) | Tts.Ssml, used by Tts.SafeSynthesizeCall (proved by Tts.SsmlReadsBack) |
