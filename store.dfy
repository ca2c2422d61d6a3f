/** A document container with optimistic concurrency control.

    Every stored document carries an ETag version token. The store hands out
    a fresh token on every successful write, so a writer that presents the
    token it read (an If-Match precondition, section 13.1.1 of RFC 9110) can
    only overwrite the version it saw; a stale token is refused with 412
    Precondition Failed (section 15.5.13 of RFC 9110).

    Store failures that do not follow from the stored data (transport errors,
    throttling, ...) are not modelled by cause: each operation takes a
    `fault` argument, chosen by the environment, that makes it fail with the
    given status code and leaves the store unchanged. */
module Store {
  import opened Wrappers

  /** The result of a store call: a value, or the status code of the error it raised. */
  datatype Result<T> = Ok(value: T) | Err(code: int)

  const NotFound := 404
  const Conflict := 409
  const PreconditionFailed := 412

  /** A stored document: its `count` property (None when the document has
      no `count` property) and its `_etag`. The document id is its key in the store;
      every caller uses the id as the partition key too. */
  datatype Doc = Doc(count: Option<int>, etag: nat)

  datatype StoreState = StoreState(docs: map<string, Doc>, nextEtag: nat)

  /** Every ETag in use is below the next one the store hands out. */
  predicate Valid(s: StoreState) {
    forall k :: k in s.docs ==> s.docs[k].etag < s.nextEtag
  }

  /** JavaScript's `(count || 0)`: a missing count reads as 0. */
  function Effective(c: Option<int>): int {
    match c
    case None => 0
    case Some(v) => v
  }

  /** JavaScript's `(count || 0) + 1`. */
  function NextCount(c: Option<int>): int {
    Effective(c) + 1
  }

  /** The counter value a document holds, 0 when there is no document. */
  function CountOf(s: StoreState, key: string): int {
    if key in s.docs then Effective(s.docs[key].count) else 0
  }

  /** A successful write of `count` under `key`, with a new ETag. */
  function Write(s: StoreState, key: string, count: Option<int>): (t: StoreState)
    ensures key in t.docs && t.docs[key].count == count
    ensures t.docs.Keys == s.docs.Keys + {key}
    ensures forall k :: k in s.docs && k != key ==> t.docs[k] == s.docs[k]
    ensures Valid(s) ==> Valid(t)
    ensures Valid(s) ==> forall k :: k in s.docs ==> s.docs[k].etag != t.docs[key].etag
  {
    StoreState(s.docs[key := Doc(count, s.nextEtag)], s.nextEtag + 1)
  }

  /** A point read: the document under `key`, or None when there is none. */
  function ReadOp(s: StoreState, key: string, fault: Option<int>): (r: Result<Option<Doc>>)
    ensures r.Err? <==> fault.Some?
    ensures r.Err? ==> r.code == fault.value
    ensures r.Ok? ==> (r.value.Some? <==> key in s.docs)
    ensures r.Ok? && r.value.Some? ==> r.value.value == s.docs[key]
  {
    match fault
    case Some(code) => Err(code)
    case None => Ok(if key in s.docs then Some(s.docs[key]) else None)
  }

  /** A replace guarded by `IfMatch: ifMatch`: it writes only when the stored
      ETag is the one presented, and answers 412 when it is not. */
  function ReplaceOp(s: StoreState, key: string, count: Option<int>, ifMatch: nat, fault: Option<int>)
    : (r: (Result<Doc>, StoreState))
    ensures r.0.Ok? <==> fault.None? && key in s.docs && s.docs[key].etag == ifMatch
    ensures r.0.Ok? ==> r.1 == Write(s, key, count) && r.0.value == r.1.docs[key]
    ensures r.0.Err? ==> r.1 == s
    ensures fault.Some? ==> r.0 == Err(fault.value)
    ensures fault.None? && key !in s.docs ==> r.0 == Err(NotFound)
    ensures fault.None? && key in s.docs && s.docs[key].etag != ifMatch ==> r.0 == Err(PreconditionFailed)
  {
    if fault.Some? then (Err(fault.value), s)
    else if key !in s.docs then (Err(NotFound), s)
    else if s.docs[key].etag != ifMatch then (Err(PreconditionFailed), s)
    else
      var t := Write(s, key, count);
      (Ok(t.docs[key]), t)
  }

  /** An insert: refused with 409 when a document with that id exists. */
  function CreateOp(s: StoreState, key: string, count: Option<int>, fault: Option<int>)
    : (r: (Result<Doc>, StoreState))
    ensures r.0.Ok? <==> fault.None? && key !in s.docs
    ensures r.0.Ok? ==> r.1 == Write(s, key, count) && r.0.value == r.1.docs[key]
    ensures r.0.Err? ==> r.1 == s
    ensures fault.Some? ==> r.0 == Err(fault.value)
    ensures fault.None? && key in s.docs ==> r.0 == Err(Conflict)
  {
    if fault.Some? then (Err(fault.value), s)
    else if key in s.docs then (Err(Conflict), s)
    else
      var t := Write(s, key, count);
      (Ok(t.docs[key]), t)
  }

  /** An unconditional insert-or-replace: no version check at all. */
  function UpsertOp(s: StoreState, key: string, count: Option<int>, fault: Option<int>)
    : (r: (Result<Doc>, StoreState))
    ensures r.0.Ok? <==> fault.None?
    ensures r.0.Ok? ==> r.1 == Write(s, key, count) && r.0.value == r.1.docs[key]
    ensures r.0.Err? ==> r.1 == s && r.0.code == fault.value
  {
    if fault.Some? then (Err(fault.value), s)
    else
      var t := Write(s, key, count);
      (Ok(t.docs[key]), t)
  }

  /** What a competing writer does when it commits between another caller's
      read and write: it raises the counter under `key` by one (creating the
      document at 1 when there is none), which gives the document a new ETag. */
  function RivalWrite(s: StoreState, key: string): (t: StoreState)
    ensures CountOf(t, key) == CountOf(s, key) + 1
    ensures forall k :: k != key ==> CountOf(t, k) == CountOf(s, k)
    ensures t.docs.Keys == s.docs.Keys + {key}
    ensures forall k :: k in s.docs && k != key ==> t.docs[k] == s.docs[k]
    ensures Valid(s) ==> Valid(t)
    ensures Valid(s) && key in s.docs ==> t.docs[key].etag != s.docs[key].etag
  {
    Write(s, key, Some(CountOf(s, key) + 1))
  }

  /** The store itself: a map from document id to document, updated in place,
      and the source of fresh ETags. */
  class Container {
    var docs: map<string, Doc>
    var nextEtag: nat

    function State(): StoreState
      reads this
    {
      StoreState(docs, nextEtag)
    }

    constructor (initial: StoreState)
      ensures State() == initial
    {
      docs := initial.docs;
      nextEtag := initial.nextEtag;
    }

    method Read(key: string, fault: Option<int>) returns (r: Result<Option<Doc>>)
      ensures r == ReadOp(State(), key, fault)
    {
      if fault.Some? {
        r := Err(fault.value);
      } else if key in docs {
        r := Ok(Some(docs[key]));
      } else {
        r := Ok(None);
      }
    }

    /** Assigns a fresh ETag to `count` under `key`. */
    method Commit(key: string, count: Option<int>) returns (d: Doc)
      modifies this
      ensures State() == Write(old(State()), key, count) && d == docs[key]
    {
      d := Doc(count, nextEtag);
      docs := docs[key := d];
      nextEtag := nextEtag + 1;
    }

    method ReplaceIfMatch(key: string, count: Option<int>, ifMatch: nat, fault: Option<int>)
      returns (r: Result<Doc>)
      modifies this
      ensures (r, State()) == ReplaceOp(old(State()), key, count, ifMatch, fault)
    {
      if fault.Some? {
        r := Err(fault.value);
      } else if key !in docs {
        r := Err(NotFound);
      } else if docs[key].etag != ifMatch {
        r := Err(PreconditionFailed);
      } else {
        var d := Commit(key, count);
        r := Ok(d);
      }
    }

    method Create(key: string, count: Option<int>, fault: Option<int>) returns (r: Result<Doc>)
      modifies this
      ensures (r, State()) == CreateOp(old(State()), key, count, fault)
    {
      if fault.Some? {
        r := Err(fault.value);
      } else if key in docs {
        r := Err(Conflict);
      } else {
        var d := Commit(key, count);
        r := Ok(d);
      }
    }

    method Upsert(key: string, count: Option<int>, fault: Option<int>) returns (r: Result<Doc>)
      modifies this
      ensures (r, State()) == UpsertOp(old(State()), key, count, fault)
    {
      if fault.Some? {
        r := Err(fault.value);
      } else {
        var d := Commit(key, count);
        r := Ok(d);
      }
    }

    /** A competing writer commits an increment (see RivalWrite). */
    method RivalCommit(key: string)
      modifies this
      ensures State() == RivalWrite(old(State()), key)
    {
      var n := if key in docs then Effective(docs[key].count) else 0;
      var _ := Commit(key, Some(n + 1));
    }
  }
}
