/** The Python function app (api/function_app.py): the `visitor_count` and
    `likes` HTTP handlers over a document container.

    Both increment paths read the item, add one to its `count` and upsert it
    back unconditionally; any exception on that path (read failure, missing
    item, missing `count` property, failed upsert) is caught and the item is
    created at 1 instead. An exception from that create escapes: in
    `visitor_count` the host answers for the handler (`Raised`), in `likes`
    the outer handler turns it into 500.

    The environment's choices for one call are a `Faults` record: which store
    calls fail, and whether a competing writer commits its own increment
    right after a read that reached the store. */
module FunctionApp {
  import opened Wrappers
  import opened Store

  const VisitorItemId := "visitor-count"
  const MissingIdMessage := "Please pass an id on the query string"
  const InternalErrorMessage := "Internal Server Error"

  datatype Faults = Faults(read: Option<int>, rival: bool, upsert: Option<int>, create: Option<int>)

  /** `req.method` and `req.params.get('id')`. */
  datatype HttpRequest = HttpRequest(httpMethod: string, id: Option<string>)

  datatype Body = CountJson(count: int) | LikesJson(likes: int) | Text(message: string)

  /** What a handler ends with: an `HttpResponse`, falling off the end
      (returning None), or an exception escaping the handler. */
  datatype Reply = Returned(status: int, body: Body) | NoResponse | Raised

  /** Whether the first `try` block completes: the read found the item, it
      has a `count` and the upsert went through. */
  predicate IncrementSucceeds(s: StoreState, key: string, f: Faults) {
    f.read.None? && key in s.docs && s.docs[key].count.Some? && f.upsert.None?
  }

  /** The store after the read, when a competing writer commits there. */
  function AfterRead(s: StoreState, key: string, f: Faults): StoreState {
    if f.read.None? && f.rival then RivalWrite(s, key) else s
  }

  /** The read-increment-upsert block with its create-at-1 fallback. The
      first component is the count returned, None when the create raised. */
  function IncrementOrCreate(s: StoreState, key: string, f: Faults): (r: (Option<int>, StoreState))
    // The count returned is the count left stored.
    ensures r.0.Some? ==> key in r.1.docs && r.1.docs[key].count == r.0
    ensures IncrementSucceeds(s, key, f) ==> r.0 == Some(s.docs[key].count.value + 1)
    ensures !IncrementSucceeds(s, key, f) ==>
              && (r.0.Some? <==> f.create.None? && key !in AfterRead(s, key, f).docs)
              && (r.0.Some? ==> r.0 == Some(1))
    // A create that raised wrote nothing.
    ensures r.0.None? ==> r.1 == AfterRead(s, key, f)
    ensures forall k :: k in s.docs && k != key ==> k in r.1.docs && r.1.docs[k] == s.docs[k]
    ensures forall k :: k != key ==> (k in r.1.docs <==> k in s.docs)
    ensures Valid(s) ==> Valid(r.1)
    // Without a competing writer, a returned count is the stored count plus 1.
    ensures !(f.read.None? && f.rival) && r.0.Some? ==> r.0.value == CountOf(s, key) + 1
  {
    var s1 := AfterRead(s, key, f);
    if IncrementSucceeds(s, key, f) then
      var n := s.docs[key].count.value + 1;
      var (_, s2) := UpsertOp(s1, key, Some(n), f.upsert);
      (Some(n), s2)
    else
      var (created, s2) := CreateOp(s1, key, Some(1), f.create);
      (if created.Ok? then Some(1) else None, s2)
  }

  /** `visitor_count`. */
  function VisitorCountOutcome(s: StoreState, f: Faults): (r: (Reply, StoreState))
    ensures r.0.Returned? ==> r.0.status == 200 && r.0.body.CountJson?
    ensures r.0.Returned? ==> VisitorItemId in r.1.docs && r.1.docs[VisitorItemId].count == Some(r.0.body.count)
    ensures r.0.Returned? || r.0.Raised?
    ensures IncrementSucceeds(s, VisitorItemId, f) ==> r.0 == Returned(200, CountJson(s.docs[VisitorItemId].count.value + 1))
    ensures VisitorItemId !in s.docs && f.read.None? && !f.rival && f.create.None? ==>
              r.0 == Returned(200, CountJson(1)) && r.1 == Write(s, VisitorItemId, Some(1))
    ensures forall k :: k in s.docs && k != VisitorItemId ==> k in r.1.docs && r.1.docs[k] == s.docs[k]
  {
    var (count, t) := IncrementOrCreate(s, VisitorItemId, f);
    if count.Some? then (Returned(200, CountJson(count.value)), t) else (Raised, t)
  }

  /** What a GET reports: the stored `count`, or 0 when the read raised or
      the item has no `count`. */
  function StoredLikes(s: StoreState, id: string, readFault: Option<int>): (n: int)
    ensures readFault.None? ==> n == CountOf(s, id)
    ensures readFault.Some? ==> n == 0
  {
    match ReadOp(s, id, readFault)
    case Ok(Some(item)) => if item.count.Some? then item.count.value else 0
    case _ => 0
  }

  /** `likes`. */
  function LikesOutcome(s: StoreState, req: HttpRequest, f: Faults): (r: (Reply, StoreState))
    // Without an id: 400, and the store is not touched.
    ensures req.id.None? || req.id.value == "" ==> r == (Returned(400, Text(MissingIdMessage)), s)
    // GET only reads.
    ensures req.id.Some? && req.id.value != "" && req.httpMethod == "GET" ==>
              r == (Returned(200, LikesJson(StoredLikes(s, req.id.value, f.read))), s)
    // POST answers with the count it left stored, or 500; other ids keep their documents.
    ensures req.id.Some? && req.id.value != "" && req.httpMethod == "POST" ==>
              && (r.0 == Returned(500, Text(InternalErrorMessage)) || (r.0.Returned? && r.0.status == 200 && r.0.body.LikesJson?))
              && (r.0.Returned? && r.0.status == 200 ==> req.id.value in r.1.docs && r.1.docs[req.id.value].count == Some(r.0.body.likes))
              && (r.0.Returned? && r.0.status == 500 ==> r.1 == AfterRead(s, req.id.value, f))
              && (IncrementSucceeds(s, req.id.value, f) ==> r.0 == Returned(200, LikesJson(s.docs[req.id.value].count.value + 1)))
              && (req.id.value !in s.docs && f.read.None? && !f.rival && f.create.None? ==>
                    r.0 == Returned(200, LikesJson(1)) && r.1 == Write(s, req.id.value, Some(1)))
              && forall k :: k in s.docs && k != req.id.value ==> k in r.1.docs && r.1.docs[k] == s.docs[k]
    // Any other method falls off the end.
    ensures req.id.Some? && req.id.value != "" && req.httpMethod != "GET" && req.httpMethod != "POST" ==> r == (NoResponse, s)
  {
    if req.id.None? || req.id.value == "" then (Returned(400, Text(MissingIdMessage)), s)
    else
      var id := req.id.value;
      if req.httpMethod == "GET" then (Returned(200, LikesJson(StoredLikes(s, id, f.read))), s)
      else if req.httpMethod == "POST" then
        var (count, t) := IncrementOrCreate(s, id, f);
        if count.Some? then (Returned(200, LikesJson(count.value)), t)
        else (Returned(500, Text(InternalErrorMessage)), t)
      else (NoResponse, s)
  }

  /** The unconditional upsert loses a concurrent increment: when a competing
      writer commits between the read and the upsert, the counter still
      gains only one, although two increments reported success. */
  lemma UpsertLosesConcurrentIncrement(s: StoreState, key: string, f: Faults)
    requires IncrementSucceeds(s, key, f) && f.rival
    ensures var (count, t) := IncrementOrCreate(s, key, f);
              && CountOf(RivalWrite(s, key), key) == CountOf(s, key) + 1
              && count == Some(CountOf(s, key) + 1)
              && CountOf(t, key) == CountOf(s, key) + 1
  {
  }

  /** The block as statements: in place of the dictionary update the item's
      new count is held in `count`. */
  method IncrementOrCreateItem(c: Container, key: string, f: Faults) returns (count: Option<int>)
    modifies c
    ensures (count, c.State()) == IncrementOrCreate(old(c.State()), key, f)
  {
    var failed := false;
    var read := c.Read(key, f.read);
    if read.Ok? && f.rival {
      c.RivalCommit(key);
    }
    if read.Err? || read.value.None? || read.value.value.count.None? {
      failed := true;
    } else {
      var item := read.value.value;
      item := item.(count := Some(item.count.value + 1));
      var upserted := c.Upsert(key, item.count, f.upsert);
      if upserted.Err? {
        failed := true;
      } else {
        count := item.count;
      }
    }
    if failed {
      var created := c.Create(key, Some(1), f.create);
      count := if created.Ok? then Some(1) else None;
    }
  }

  method VisitorCount(c: Container, f: Faults) returns (reply: Reply)
    modifies c
    ensures (reply, c.State()) == VisitorCountOutcome(old(c.State()), f)
  {
    var count := IncrementOrCreateItem(c, VisitorItemId, f);
    if count.Some? {
      reply := Returned(200, CountJson(count.value));
    } else {
      reply := Raised;
    }
  }

  method Likes(c: Container, req: HttpRequest, f: Faults) returns (reply: Reply)
    modifies c
    ensures (reply, c.State()) == LikesOutcome(old(c.State()), req, f)
  {
    if req.id.None? || req.id.value == "" {
      return Returned(400, Text(MissingIdMessage));
    }
    var id := req.id.value;
    if req.httpMethod == "GET" {
      var read := c.Read(id, f.read);
      var likes := 0;
      if read.Ok? && read.value.Some? && read.value.value.count.Some? {
        likes := read.value.value.count.value;
      }
      reply := Returned(200, LikesJson(likes));
    } else if req.httpMethod == "POST" {
      var count := IncrementOrCreateItem(c, id, f);
      if count.Some? {
        reply := Returned(200, LikesJson(count.value));
      } else {
        reply := Returned(500, Text(InternalErrorMessage));
      }
    } else {
      reply := NoResponse;
    }
  }
}
