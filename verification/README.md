# ELAI relay backend, modelled in Dafny

The backend of ELAI is a small HTTP relay with three handlers:

- `/api/health` reports liveness.
- `/api/projects` fetches the owner's GitHub repositories and publishes a summary of the five most-starred non-fork ones.
- `/api/chat` checks its configuration and the inbound message. It then forwards the message to a Flowise chat endpoint and relays the reply or the error.

This project models the decision logic of those handlers as pure functions over abstract inputs. The network call of each handler is replaced by its outcome, given as a parameter. JavaScript truthiness is written out:

- `Json.Truthy` and `Json.Present` decide truthiness.
- `Repos.IsFork` models `!!repo.fork`. The filter keeps the repositories for which it is false.
- `Repos.StarRank` models `stargazers_count || 0`.

Modules, one per component:

- `Wrappers`: `Option` (`None` is JavaScript `undefined`) and `Result`.
- `Json`: parsed JSON values, truthiness, property reads, the `{error: …}` body.
- `Repos`: the upstream repository record and the published `ProjectSummary`. `Field<T>` tells a missing key from a JSON `null`.
- `Http`: responses, as a status and a body.
- `StableSort`: the stable descending sort that `Array.prototype.sort` performs with the comparator `(a, b) => key(b) - key(a)`. It is stable since ECMAScript 2019. The module proves the sort is sorted, is a permutation, and is stable. It also proves it is the only order with those properties, so the model fits any conforming engine.
- `ProjectAggregator`: the `/api/projects` pipeline.
- `ChatRelay`: the `/api/chat` guards, the outbound request and the outcome mapping.
- `HealthReporter`: `/api/health`.

In four places a reader of the HTTP interface might expect other behaviour. In each, the model follows the code:

- One might expect summaries to show `null` for a missing description or language. The code copies both fields unchanged (`SummariesCopyFields`).
- One might expect a message to be trimmed before the emptiness check. The backend does not trim: only a falsy message is rejected (`WhitespaceMessageForwarded`). The trim is in the front end (frontend/src/App.jsx:51).
- One might expect all configuration to be read once at start-up. The code reads `FLOWISE_API_KEY` on each request (backend/index.js:66). `Config.apiKey` stands for the value in force for that request.
- One might expect a malformed repository payload to be an error. In the code, a non-array payload is an empty list with status 200 (backend/index.js:28). Only a `null` or `undefined` array entry fails, because reading its `fork` throws (`FailureIsGeneric`).

## Model

| member | source | states |
|---|---|---|
| StableSort.Sort | backend/index.js:31 | the sorted list is non-increasing in the key and is a permutation of the input: same multiset, same length |
| StableSort.SortIsStable | backend/index.js:31 | for every key, the elements with that key keep their input order |
| StableSort.SortIsUnique | backend/index.js:31 | any order of the input that is sorted and keeps ties in input order is exactly the modelled sort |
| ProjectAggregator.Records | backend/index.js:28-30 | reading the entries fails exactly when some entry is `null`/`undefined`; otherwise each entry is the corresponding record |
| ProjectAggregator.HandleProjects | backend/index.js:23-47 | the response is 200 with a project list, or else exactly 500 `{error: "Unable to load projects right now."}`; it is 200 exactly when the fetch succeeded and the payload is a non-array or an array without null entries; a 200 list is empty for a non-array payload and otherwise is exactly the pipeline's summaries of the records |
| ProjectAggregator.NonForks | backend/index.js:30 | no repository in the filter's output is a fork, and the output is no longer than the input |
| ProjectAggregator.NonForksExact | backend/index.js:30 | the filter keeps exactly the repositories whose `fork` is not `true` |
| ProjectAggregator.NonForksAppend | backend/index.js:30 | filtering a concatenation is concatenating the filtered parts, so the filter keeps upstream order and multiplicity |
| ProjectAggregator.NonForksSingle | backend/index.js:30 | one repository is kept exactly when it is not a fork |
| ProjectAggregator.TopRepos | backend/index.js:32 | the selection is a prefix of the ranking, of length min(5, number of non-fork repositories) |
| ProjectAggregator.Summaries | backend/index.js:33-41 | as many summaries as selected repositories, at most 5, non-increasing in `stars \|\| 0`, each among the summaries of the non-fork repositories |
| ProjectAggregator.SummarizeAll | backend/index.js:33-41 | the mapped list has one summary per repository, each the summary of the repository at the same position |
| ProjectAggregator.TopFromNonForks | backend/index.js:30-32 | every selected repository is one of the non-fork repositories |
| Repos.Summarize | backend/index.js:33-41 | `html_url` becomes `url`, `updated_at` becomes `updatedAt`, `stars` is the raw count, and the summary ranks as its repository did |
| ProjectAggregator.RankedIsStableSortOfNonForks | backend/index.js:29-31 | the ranking is a sorted, tie-preserving permutation of the non-fork repositories |
| ProjectAggregator.ProjectCount | backend/index.js:29-41 | the output length is min(5, number of non-fork repositories), so never more than 5 |
| ProjectAggregator.TopOfAnyStableSort | backend/index.js:31-32 | the selection is the first five of any sorted, tie-preserving order of the non-forks |
| ProjectAggregator.TopExcludesForks | backend/index.js:30-32 | every selected repository is an input repository and is not a fork |
| ProjectAggregator.TopIsSorted | backend/index.js:31-32 | the selection is non-increasing in `stargazers_count \|\| 0` |
| ProjectAggregator.TopKeepsTies | backend/index.js:31-32 | for each star key, the selected repositories are a prefix of that key's non-fork repositories in upstream order |
| ProjectAggregator.SummariesCopyFields | backend/index.js:33-41 | each summary copies id, name, description, language; `html_url` becomes `url`, `updated_at` becomes `updatedAt`; `stars` is the raw count, whose rank equals the sort key |
| ProjectAggregator.PublishedList | backend/index.js:28-43 | a 200 response lists at most 5 summaries, non-increasing in stars; for an array payload the list is the pipeline's summaries, of length exactly min(5, number of non-fork repositories), each among the summaries of the non-fork repositories |
| ProjectAggregator.NonArrayIsEmptyList | backend/index.js:28-43 | a non-array payload gives 200 with an empty list, not an error |
| ProjectAggregator.FailureIsGeneric | backend/index.js:44-46 | a failed fetch, or a null entry, gives exactly 500 with the fixed body, whatever the cause |
| ProjectAggregator.MissingStarsStayMissing | backend/index.js:31-39 | a missing star count ranks as 0 but is published as missing, not as 0 |
| ChatRelay.Headers | backend/index.js:61-68 | `Content-Type: application/json` is always present; `Authorization: Bearer <key>` is present exactly when the key is set and non-empty; no other header |
| ChatRelay.RelayOutcome | backend/index.js:81-92 | a reply is relayed verbatim with 200; an error keeps its status unless it is missing or 0, which becomes 500; its body is kept unless missing or falsy, which becomes the generic error; a transport failure is 500 with the generic error; the status is never 0 |
| ChatRelay.RequestObject | backend/index.js:55 | every property read from a missing or falsy body is `undefined`; otherwise it is the body's own property |
| ChatRelay.OutboundBody | backend/index.js:72-77 | the body has exactly the keys `question` and `overrideConfig`; `question` is the message; `overrideConfig` has the key `sessionId` exactly when the session id is truthy, holding that id |
| ChatRelay.Prepare | backend/index.js:51-79 | the guards fail exactly when the URL is empty or the message is falsy; the URL check wins with 500, otherwise 400; a passing request goes to the configured URL with the key-derived headers and the outbound body |
| ChatRelay.HandleChat | backend/index.js:50-94 | an outbound request is made exactly when the URL is set and the message is truthy; then it goes to the configured URL and the response is the relayed outcome; otherwise the response is 500 or 400 |
| ChatRelay.NotConfiguredFirst | backend/index.js:51-53 | an empty URL gives 500 `{error: "FLOWISE_API_URL is not configured."}` whatever the body, and no request is made |
| ChatRelay.MessageIsRequired | backend/index.js:55-58 | with a URL set, a missing body or a missing or falsy message gives 400 `{error: "Message is required."}` and no request |
| ChatRelay.ForwardedRequest | backend/index.js:60-81 | the request body has exactly the keys `question` and `overrideConfig`; it carries the message as `question`; `overrideConfig` holds `sessionId` only when the id is truthy and nothing else; the headers are the key-derived ones; the response is the relayed outcome |
| ChatRelay.ErrorRelayedVerbatim | backend/index.js:89-92 | an error with a non-zero status and a truthy body is relayed with that status and body unchanged |
| ChatRelay.BareErrorIsGeneric | backend/index.js:89-92 | an error without a status (or with 0) and without a truthy body becomes 500 with the generic message |
| ChatRelay.WhitespaceMessageForwarded | backend/index.js:55-58 | a message of one space is not rejected; the backend does not trim |
| ChatRelay.FalsyMessageRejected | backend/index.js:56-58 | a message of `0` or `false` is rejected like a missing one |
| ChatRelay.EmptyObjectRejected | backend/index.js:55-58 | the body `{}` gives 400 with the fixed message |
| ChatRelay.EchoRoundTrip | backend/index.js:70-81 | for `{message: "hi", sessionId: "s1"}`, the service receives `{question: "hi", overrideConfig: {sessionId: "s1"}}` and its reply comes back with 200 |
| ChatRelay.EmptySessionOmitted | backend/index.js:74-76 | an empty session id is not sent: `overrideConfig` is empty |
| ChatRelay.RateLimitRelayed | backend/index.js:89-92 | a 429 with `{error: "rate limited"}` is relayed as the same 429 and body |
| HealthReporter.HandleHealth | backend/index.js:19-21 | status 200 with `status: "ok"` and the given timestamp |

## Left out

- Express routing, CORS, `express.json`, dotenv and server start-up (backend/index.js:1-17, 96-98) are framework plumbing. The parsed request body is an input.
- The two axios calls (backend/index.js:25-27, 70-79) are network I/O. Each becomes an outcome parameter (`FetchOutcome`, `UpstreamOutcome`). The fixed GitHub URL and its page size of 100 are left out with them.
- The `console.error` and `console.log` calls are side effects only and are not modelled.
- The wall-clock timestamp of `/api/health` is a parameter of `HandleHealth`.
- JSON numbers are integers. Fractions and NaN are not modelled.
- Repository fields hold the types GitHub documents. A field of another JSON type (say, a star count given as a string, which the comparator would coerce) is not modelled.
- The JSON serialisation of a `ProjectSummary` is kept abstract. For instance, a missing field is omitted on the wire while `null` is written.
- An exception thrown by `res.json` itself inside the chat `try` block is not modelled.
- The front end (frontend/src/App.jsx) is not part of this model. Neither is vite.config.js.
