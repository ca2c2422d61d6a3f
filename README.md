# Visitor counter and edge router, modelled in Dafny

This project models the counting service behind a personal resume site, and
the edge router in front of it.

- **The counter handlers.** Three drafts keep a count in a document
  container: `api/SetVisitorCount/index.js`, `api/function_app.py` and
  `api/GetVisitorCount/index.js`. Each is modelled against one abstract
  store (`store.dfy`, module `Store`). The store is a map from document id
  to a document holding a count and an ETag version token. A fresh ETag is
  issued on every write, and a replace is guarded by `IfMatch`, following
  sections 13.1.1 and 15.5.13 of RFC 9110.
  - SetVisitorCount is a bounded retry loop. It reads, increments and does a
    conditional replace, and it retries only on 412 with exponential backoff.
  - The Python app has two handlers. `visitor_count` does read, increment and
    unconditional upsert. `likes` is a keyed counter with GET and POST.
  - GetVisitorCount is a pure function from the input binding to a response
    and an output binding.
- **The edge router** (`worker/src/index.js`, module `Worker`). It is a
  stateless dispatcher. It serves a debug route, the visitor-count API proxy
  and a static-site proxy.

The environment is explicit:
- Store failures are `fault` arguments that carry the error's status code.
- A competing writer is a per-attempt `rival` flag. When set, another
  increment commits between this call's read and its write.
- The network is an `upstream` function from outbound request to response
  or thrown error.
- The backoff waits are a ghost sequence of milliseconds.

Files: `wrappers.dfy` (Option), `store.dfy`, `set_visitor_count.dfy`,
`function_app.dfy`, `get_visitor_count.dfy`, `worker.dfy`.

Behaviour worth knowing:
- GetVisitorCount increments and writes on every call, despite its name.
- In SetVisitorCount, a failed create of the missing item (409 when another
  caller created it first) ends the call with 500. It is not retried.
- The store calls have no time-outs.
- `visitor_count` does not always answer 200. When its fallback create
  raises, the exception escapes the handler (`Raised`).

## Model

| member | source | states |
|---|---|---|
| `Store.ReadOp` | api/SetVisitorCount/index.js:16 | A read fails exactly when a fault is injected, with that code. Otherwise it returns the stored document under the id, or none when there is none. |
| `Store.Container.Read` | api/function_app.py:25 | The in-place store's read returns what ReadOp describes, and changes nothing. |
| `Store.ReplaceOp` | api/SetVisitorCount/index.js:30-34 | A replace writes if and only if there is no fault, the document exists and its stored ETag equals the If-Match token. On a stale token it answers 412, on a missing document 404. A refused replace leaves the store unchanged. A successful one returns the stored document with a fresh ETag. |
| `Store.Container.ReplaceIfMatch` | api/SetVisitorCount/index.js:30-34 | The in-place store's conditional replace changes the map exactly as ReplaceOp says. |
| `Store.CreateOp` | api/SetVisitorCount/index.js:21 | A create succeeds if and only if there is no fault and no document with that id yet. A fault answers its own code; an existing id answers 409. A refused create writes nothing. |
| `Store.Container.Create` | api/function_app.py:36 | The in-place create changes the map exactly as CreateOp says. |
| `Store.UpsertOp` | api/function_app.py:29 | An upsert has no version check: without a fault it always writes, with one it writes nothing. |
| `Store.Container.Upsert` | api/function_app.py:85 | The in-place upsert changes the map exactly as UpsertOp says. |
| `Store.RivalWrite` | api/SetVisitorCount/index.js:39-40 | A competing writer's commit adds exactly 1 to that counter. It gives the document an ETag different from the one read, and leaves other ids untouched. |
| `Store.Container.RivalCommit` | api/SetVisitorCount/index.js:39-40 | The competing commit changes the map exactly as RivalWrite says. |
| `SetVisitorCount.Try` | api/SetVisitorCount/index.js:14-37 | One attempt, with these outcomes: (1) When every stored ETag is below the next one handed out, a successful replace means no rival wrote after the read, and it stores the count read plus 1 (a missing count reads as 0). The body is the stored item. (2) An attempt that finishes without a replace found no item, and created it at 1, answered as `{id "1", count 1}`. (3) A losing attempt writes nothing itself. Without faults, an existing item's replace fails exactly when a rival commits, and then with 412. |
| `SetVisitorCount.TrySeeds` | api/SetVisitorCount/index.js:16-24 | A missing item read without faults is created at 1 and answered as `{id "1", count 1}`. When a competing writer created it after the read, the create is refused with 409 and only the competing write is stored. |
| `SetVisitorCount.TryCounts` | api/SetVisitorCount/index.js:16-37 | Over one attempt the counter under "1" gains exactly the competing commits plus 1 when the attempt finishes. ETags stay below the next one handed out, and other ids keep their counts. |
| `SetVisitorCount.TryOnce` | api/SetVisitorCount/index.js:14-37 | The statement form of one attempt (read, seed or increment, conditional replace) sets the response or throws exactly as Try describes, and leaves the store Try describes. |
| `SetVisitorCount.Handle` | api/SetVisitorCount/index.js:7-56 | The while loop leaves the same response, final store and backoff waits as the retry specification Run. |
| `SetVisitorCount.RunNoLostUpdate` | api/SetVisitorCount/index.js:16-39 | No lost update: the final count equals the initial count, plus the rival commits, plus 1 exactly when the call answers 200. Other ids are untouched, and ETag freshness is preserved. |
| `SetVisitorCount.RunResponses` | api/SetVisitorCount/index.js:10-55 | At most 5 waits. The response is one of: 200 whose body is the stored item or the seeded `{id "1", count 1}` (the stored count then being 1), 500 "Internal Server Error", or 500 "Max retries exceeded". The last happens exactly when all 5 attempts ended in 412. |
| `SetVisitorCount.OtherErrorsAreNotRetried` | api/SetVisitorCount/index.js:47-50 | An error other than 412, a failed create included, gives 500 "Internal Server Error" at once, with no wait and no write of its own. |
| `SetVisitorCount.Backoffs` | api/SetVisitorCount/index.js:46 | The n waits from attempt number `from` on: the k-th is 50 * 2^(from+k) ms. |
| `SetVisitorCount.RunDelays` | api/SetVisitorCount/index.js:41-46 | The waits after attempt `attempt` are the backoffs from `attempt+1` on. So the k-th wait is 50 * 2^(attempt+k+1) ms, the wait after the counter is raised. |
| `SetVisitorCount.ExhaustedDelays` | api/SetVisitorCount/index.js:41-55 | A call that exhausts its retries waits 100, 200, 400, 800 and 1600 ms. |
| `SetVisitorCount.RunConsultsFiveAttempts` | api/SetVisitorCount/index.js:10-13 | The loop is bounded: only the first 5 attempts' environment affects the result. |
| `SetVisitorCount.TwoWritersScenario` | api/SetVisitorCount/index.js:16-46 | Two callers both read count 5. This call loses with 412, waits 100 ms, rereads 6 and stores 7. |
| `GetVisitorCount.Handle` | api/GetVisitorCount/index.js:1-30 | With no input document the count is 1. Otherwise it is the input count plus 1 (a missing count reads as 0). The response count equals the output document's count, and the output always has id "1" and partition key "1". |
| `GetVisitorCount.StoredCountIsAnswered` | api/GetVisitorCount/index.js:7-30 | Against a store: the answer is the stored count (0 when missing) plus 1, and writing the output binding leaves exactly that count stored. |
| `GetVisitorCount.AgreesWithConditionalIncrement` | api/GetVisitorCount/index.js:8-15 | Without contention, the binding handler computes the same next count that SetVisitorCount's conditional replace stores. |
| `FunctionApp.IncrementOrCreate` | api/function_app.py:23-37 | Read, increment and upsert with a create-at-1 fallback. A returned count is the count left stored. If the try block completes it returns stored + 1; otherwise 1, or None when the create raised, which then wrote nothing. Other ids are untouched. |
| `FunctionApp.IncrementOrCreateItem` | api/function_app.py:23-37 | The statement form of the block has the effect IncrementOrCreate describes. |
| `FunctionApp.VisitorCountOutcome` | api/function_app.py:10-43 | `visitor_count` answers 200 `{"count": n}` with n the count it left stored, or the exception escapes. When the read, the `count` key and the upsert all succeed, an existing item gives stored + 1. A missing item read without faults, rival or create failure is created at 1 and answers 1. |
| `FunctionApp.VisitorCount` | api/function_app.py:10-43 | The handler's effect on the store and its reply are VisitorCountOutcome's. |
| `FunctionApp.StoredLikes` | api/function_app.py:66-72 | GET reports the stored count, or 0 when the read raises, the item is missing or it has no count. |
| `FunctionApp.LikesOutcome` | api/function_app.py:56-104 | Without an id (absent or empty): 400 with the message, store untouched. GET: 200 with StoredLikes, store untouched. POST: 200 with the count it left stored, or 500 "Internal Server Error" with nothing written. When the read, the `count` key and the upsert all succeed, an existing count gives stored + 1. A missing item read without faults or rival is created at 1 and answers 1. Other ids keep their documents. Any other method: no response. |
| `FunctionApp.Likes` | api/function_app.py:46-104 | The handler's effect on the store and its reply are LikesOutcome's. |
| `FunctionApp.UpsertLosesConcurrentIncrement` | api/function_app.py:25-31 | The unconditional upsert loses an increment: when a rival commits between read and upsert, the counter still gains only 1 although both report success. |
| `Worker.RouteOf` | worker/src/index.js:6-26 | `/api/debug` is the debug route and `/api/visitorCount` the counter route, checked in that order. Every other path is static. |
| `Worker.BackendFor` | worker/src/index.js:29-45 | POST uses AZURE_INCREMENT_URL and every other method AZURE_FUNCTION_URL. When that variable is unset or empty, the result names it. |
| `Worker.ResolveOnOrigin` | worker/src/index.js:80 | Resolving a pathname on the origin keeps host = origin, the search and an absolute pathname. This is what line 80 does for every pathname not starting with `//`; for one that does, it is the corrected resolution (see Findings). |
| `Worker.StaticTarget` | worker/src/index.js:80-85 | The corrected static target: origin + pathname + search, with `/` or an empty pathname mapped to `/index.html`; every other absolute path is kept. |
| `Worker.Fetch` | worker/src/index.js:2-105 | Debug: JSON diagnostics for any method, no fetch. Counter route with its variable unset: 500 naming the variable, no fetch. Otherwise it forwards method and headers without the body, relays status, headers and body with `Access-Control-Allow-Origin: *`, or answers 502 "Error fetching from function: …". Static: it forwards method, headers and body to StaticTarget with Host set to the origin host and redirect manual, and passes the answer through, or 502 "Error fetching from backend: …". Whatever the pathname, both the static target's host and the Host header are the origin's host. |
| `Worker.ResolveAsWritten` | worker/src/index.js:80 | The URL constructor as called: a pathname not starting with `//` resolves on the origin. |
| `Worker.AnyHostReachable` | worker/src/index.js:80-96 | A pathname `//host/rest` resolves to `host`, for every host without a slash in the model's host syntax (no lower-casing, user info, port or forbidden code points), so the request picks the host. |
| `Worker.DoubleSlashLeavesOrigin` | worker/src/index.js:80-96 | `//attacker.example/x` resolves to https://attacker.example/x, which is not the origin. |

## Left out

- Cosmos DB and Azure Functions plumbing is not modelled: client construction, connection strings, database and container names, and logging. Each handler gets its own `Container`. The partition key is taken to equal the document id, as in every call the source makes.
- Real concurrency and timing. A competing writer appears only as one optional increment between a read and the following write. `setTimeout` is replaced by the ghost `delays` record.
- JavaScript and Python value semantics beyond integers. A count is an integer or absent (`None`). Non-numeric counts are not modelled, and neither are JavaScript's 2^53 float precision limit or `NaN`.
- A JSON `null` count is not modelled. `likes` GET would answer `{"likes": null}` for it, where the model's absent count answers 0.
- Python exceptions other than store failures, a missing item and a missing `count` key. JSON serialisation failures are an example.
- The host's answer when an exception escapes `visitor_count`, or when `likes` returns nothing. The model stops at `Raised` and `NoResponse`.
- URL parsing, `Headers` and `Request` internals. Request URLs are (host, pathname, search). Header names are lower-case map keys. The fetch API's method-name normalisation is not modelled.
- The debug response's `TargetHostname` (a parse of AZURE_STORAGE_URL that throws when the variable is unset) and its JSON layout.
- The static proxy's "AZURE_STORAGE_URL is not set" 500 branch. The origin is a non-empty constant, so the branch is never taken.
- Default response headers, such as `content-type` on text responses, and body streaming.
- Worker.Fetch: it uses the corrected origin resolution (see Findings). A pathname starting with `//` is therefore sent to the origin, not to the host it names.
- Worker.StaticTarget, Worker.ResolveOnOrigin: they state the corrected resolution. As written, line 80 resolves a pathname starting with `//` to the host it names; Worker.ResolveAsWritten models that.
- FunctionApp.VisitorCount, FunctionApp.Likes: the model assumes the container is obtained from the `ResumeDB` database proxy. Lines 17 and 53 call `get_container_client` on the `CosmosClient` itself. The azure-cosmos client offers that method on the database proxy, so as written each call may raise an `AttributeError` before any store call. The model does not capture that failure.

## Findings

| source | as written | input that shows it | evidently intended | confidence | as-written member | corrected member |
|---|---|---|---|---|---|---|
| worker/src/index.js:80 | The static target is built by resolving the request's pathname and search against the origin URL. A pathname beginning with two slashes is a network-path reference, so its first segment becomes the target host. Line 96 then sets that host as the Host header. | GET `//attacker.example/x` is forwarded to `https://attacker.example/x` | Static requests always go to the origin host, with the pathname kept | medium; not executed. The edge may merge the doubled slash before the worker sees the URL. | `Worker.DoubleSlashLeavesOrigin` | `Worker.Fetch` |
