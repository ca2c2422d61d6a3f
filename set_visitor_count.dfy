/** The conditional-increment handler (api/SetVisitorCount/index.js).

    Each attempt reads document "1", raises its count by one and replaces it
    under an If-Match precondition on the ETag it read. A 412 answer means a
    competing writer committed in between: the handler waits 50 * 2^attempt
    milliseconds and tries again, at most five times. A missing document is
    seeded at 1; any other error ends the call with 500.

    The environment is an oracle, one `Attempt` per attempt number: whether
    the read fails, whether a competing writer commits between the read and
    the write, and whether the write fails for a reason of its own. */
module SetVisitorCount {
  import opened Wrappers
  import opened Store

  const MaxRetries := 5
  const ItemId := "1"
  const BaseDelayMs := 50

  datatype Attempt = Attempt(readFault: Option<int>, rival: bool, writeFault: Option<int>)

  /** What `context.res` carries. `Updated` is the item the replace returned,
      `Seeded` the literal `{ id: "1", count: 1 }` the create sent. */
  datatype Body = Updated(id: string, item: Doc) | Seeded(id: string, count: int) | Message(text: string)

  /** A response without an explicit status is sent as 200. */
  datatype Response = Response(status: int, body: Body)

  const InternalError := Response(500, Message("Internal Server Error"))
  const RetriesExhausted := Response(500, Message("Max retries exceeded"))

  function Pow2(n: nat): (p: nat)
    ensures p >= 1
  {
    if n == 0 then 1 else 2 * Pow2(n - 1)
  }

  /** The wait after the conflict that brought the attempt counter to `attempt`. */
  function Backoff(attempt: nat): nat {
    BaseDelayMs * Pow2(attempt)
  }

  /** One pass through the body of the `try`: either it sets the response and
      returns, or it throws an error with a status code. `rivals` is the
      number of competing writes (0 or 1) that committed during the attempt. */
  datatype Step =
    | Finished(response: Response, store: StoreState, rivals: nat)
    | Thrown(code: int, store: StoreState, rivals: nat)

  function Try(s: StoreState, a: Attempt): (r: Step)
    // A replace that succeeds was guarded by the ETag still stored: no one
    // wrote in between, and the stored count is the one read plus 1.
    ensures r.Finished? && r.response.body.Updated? ==> ItemId in s.docs
    ensures Valid(s) && r.Finished? && r.response.body.Updated? ==>
              && !a.rival
              && r.store == Write(s, ItemId, Some(NextCount(s.docs[ItemId].count)))
              && r.response.body.item == r.store.docs[ItemId]
    // A missing item is created at 1 and returned as sent.
    ensures r.Finished? && !r.response.body.Updated? ==>
              && ItemId !in s.docs && !a.rival
              && r.response == Response(200, Seeded(ItemId, 1))
              && r.store == Write(s, ItemId, Some(1))
    // A losing attempt writes nothing; only the competing writer changed the store.
    ensures r.Thrown? ==> r.store == if a.rival && a.readFault.None? then RivalWrite(s, ItemId) else s
    ensures r.rivals == if a.rival && a.readFault.None? then 1 else 0
    ensures r.Finished? ==> r.response.status == 200
    // Without faults, an existing item is lost to a rival exactly when one commits, with 412.
    ensures Valid(s) && a.readFault.None? && a.writeFault.None? && ItemId in s.docs ==>
              (r.Thrown? <==> a.rival) && (r.Thrown? ==> r.code == PreconditionFailed)
  {
    match ReadOp(s, ItemId, a.readFault)
    case Err(code) => Thrown(code, s, 0)
    case Ok(found) =>
      var s1 := if a.rival then RivalWrite(s, ItemId) else s;
      var n := if a.rival then 1 else 0;
      match found
      case None =>
        var (created, s2) := CreateOp(s1, ItemId, Some(1), a.writeFault);
        if created.Err? then Thrown(created.code, s2, n)
        else Finished(Response(200, Seeded(ItemId, 1)), s2, n)
      case Some(item) =>
        var (updated, s2) := ReplaceOp(s1, ItemId, Some(NextCount(item.count)), item.etag, a.writeFault);
        if updated.Err? then Thrown(updated.code, s2, n)
        else Finished(Response(200, Updated(ItemId, updated.value)), s2, n)
  }

  /** A missing item read without faults is seeded at 1 and answered as
      sent; when a competing writer created it after the read, the create is
      refused with 409 and only the competing write is left. */
  lemma TrySeeds(s: StoreState, a: Attempt)
    requires ItemId !in s.docs && a.readFault.None? && a.writeFault.None?
    ensures !a.rival ==> Try(s, a) == Finished(Response(200, Seeded(ItemId, 1)), Write(s, ItemId, Some(1)), 0)
    ensures a.rival ==> Try(s, a) == Thrown(Conflict, RivalWrite(s, ItemId), 1)
  {
  }

  /** The counter under "1" gains exactly the competing commits plus this
      attempt's own write, which happens only when it finishes; ETags stay
      fresh and other ids keep their counts. */
  lemma TryCounts(s: StoreState, a: Attempt)
    requires Valid(s)
    ensures var r := Try(s, a);
              && Valid(r.store)
              && CountOf(r.store, ItemId) == CountOf(s, ItemId) + r.rivals + (if r.Finished? then 1 else 0)
              && forall k :: k != ItemId ==> CountOf(r.store, k) == CountOf(s, k)
  {
  }

  /** The whole call from attempt number `attempt` on: the response, the final
      store, the waits taken (in order) and the competing writes that committed. */
  datatype Outcome = Outcome(response: Response, store: StoreState, delays: seq<nat>, rivals: nat)

  function Run(s: StoreState, oracle: nat -> Attempt, attempt: nat): Outcome
    decreases MaxRetries - attempt
  {
    if attempt >= MaxRetries then Outcome(RetriesExhausted, s, [], 0)
    else
      match Try(s, oracle(attempt))
      case Finished(response, t, n) => Outcome(response, t, [], n)
      case Thrown(code, t, n) =>
        if code == PreconditionFailed then
          var rest := Run(t, oracle, attempt + 1);
          Outcome(rest.response, rest.store, [Backoff(attempt + 1)] + rest.delays, n + rest.rivals)
        else Outcome(InternalError, t, [], n)
  }

  /** One pass through the `try` block: it either sets the response
      (`finished`) or throws `failure`; `rivals` counts the competing commits. */
  method TryOnce(c: Container, a: Attempt) returns (finished: bool, res: Response, failure: int, ghost rivals: nat)
    modifies c
    ensures Try(old(c.State()), a) ==
              if finished then Finished(res, c.State(), rivals) else Thrown(failure, c.State(), rivals)
  {
    finished, res, failure, rivals := false, InternalError, 0, 0;
    // 1. Read the item
    var read := c.Read(ItemId, a.readFault);
    if read.Err? {
      failure := read.code;
      return;
    }
    if a.rival {
      c.RivalCommit(ItemId);
      rivals := 1;
    }
    if read.value.None? {
      var created := c.Create(ItemId, Some(1), a.writeFault);
      if created.Ok? {
        finished, res := true, Response(200, Seeded(ItemId, 1));
      } else {
        failure := created.code;
      }
      return;
    }
    // 2. Increment
    var item := read.value.value;
    item := item.(count := Some(NextCount(item.count)));
    // 3. Replace, conditional on the ETag read
    var updated := c.ReplaceIfMatch(ItemId, item.count, item.etag, a.writeFault);
    if updated.Ok? {
      finished, res := true, Response(200, Updated(ItemId, updated.value));
    } else {
      failure := updated.code;
    }
  }

  /** The handler. `delays` records the `setTimeout` waits in order. */
  method Handle(c: Container, oracle: nat -> Attempt) returns (res: Response, ghost delays: seq<nat>)
    modifies c
    ensures var out := Run(old(c.State()), oracle, 0);
              res == out.response && c.State() == out.store && delays == out.delays
  {
    var attempt := 0;
    delays := [];
    ghost var rivals: nat := 0;
    while attempt < MaxRetries
      invariant 0 <= attempt <= MaxRetries
      invariant var whole, rest := Run(old(c.State()), oracle, 0), Run(c.State(), oracle, attempt);
                  whole == Outcome(rest.response, rest.store, delays + rest.delays, rivals + rest.rivals)
      decreases MaxRetries - attempt
    {
      ghost var s := c.State();
      var finished, failure;
      ghost var n;
      finished, res, failure, n := TryOnce(c, oracle(attempt));
      rivals := rivals + n;
      if finished {
        return;
      }
      // catch
      if failure == PreconditionFailed {
        ghost var rest := Run(c.State(), oracle, attempt + 1);
        assert Run(s, oracle, attempt).delays == [Backoff(attempt + 1)] + rest.delays;
        assert delays + ([Backoff(attempt + 1)] + rest.delays) == delays + [Backoff(attempt + 1)] + rest.delays;
        attempt := attempt + 1;
        delays := delays + [Backoff(attempt)];
      } else {
        res := InternalError;
        return;
      }
    }
    res := RetriesExhausted;
  }

  /** No lost update: every unit the counter gained is either a competing
      writer's commit or this call's own single write, made only when the
      call answers 200. Documents under other ids are untouched. */
  lemma {:induction false} RunNoLostUpdate(s: StoreState, oracle: nat -> Attempt, attempt: nat)
    requires Valid(s)
    ensures var out := Run(s, oracle, attempt);
              && Valid(out.store)
              && CountOf(out.store, ItemId) == CountOf(s, ItemId) + out.rivals + (if out.response.status == 200 then 1 else 0)
              && forall k :: k != ItemId ==> CountOf(out.store, k) == CountOf(s, k)
    decreases MaxRetries - attempt
  {
    if attempt < MaxRetries {
      var step := Try(s, oracle(attempt));
      TryCounts(s, oracle(attempt));
      if step.Thrown? && step.code == PreconditionFailed {
        RunNoLostUpdate(step.store, oracle, attempt + 1);
      }
    }
  }

  /** The call answers 200 with what it stored, 500 "Internal Server Error",
      or 500 "Max retries exceeded"; the last exactly when every one of the
      remaining attempts ended in 412, each followed by a wait. */
  lemma {:induction false} RunResponses(s: StoreState, oracle: nat -> Attempt, attempt: nat)
    requires attempt <= MaxRetries
    ensures var out := Run(s, oracle, attempt);
              && |out.delays| <= MaxRetries - attempt
              && (out.response == RetriesExhausted <==> |out.delays| == MaxRetries - attempt)
              && (out.response.status == 200 || out.response == InternalError || out.response == RetriesExhausted)
              && (out.response.status == 200 ==> out.response.body.Updated? || out.response.body.Seeded?)
              && (out.response.body.Updated? ==> ItemId in out.store.docs && out.response.body.item == out.store.docs[ItemId])
              && (out.response.body.Seeded? ==> out.response.body == Seeded(ItemId, 1) && ItemId in out.store.docs && out.store.docs[ItemId].count == Some(1))
    decreases MaxRetries - attempt
  {
    if attempt < MaxRetries {
      var step := Try(s, oracle(attempt));
      if step.Thrown? && step.code == PreconditionFailed {
        RunResponses(step.store, oracle, attempt + 1);
      }
    }
  }

  /** An error other than 412, from any store call of the attempt (a failed
      create of the missing item included), ends the call with 500 at once:
      no wait, no further attempt, and nothing written by this call. */
  lemma OtherErrorsAreNotRetried(s: StoreState, oracle: nat -> Attempt, attempt: nat)
    requires attempt < MaxRetries
    requires Try(s, oracle(attempt)).Thrown? && Try(s, oracle(attempt)).code != PreconditionFailed
    ensures var a := oracle(attempt); var out := Run(s, oracle, attempt);
              && out.response == InternalError
              && out.delays == []
              && out.store == if a.rival && a.readFault.None? then RivalWrite(s, ItemId) else s
  {
  }

  /** The waits `Backoff(from)`, `Backoff(from + 1)`, ..., `n` of them. */
  function Backoffs(from: nat, n: nat): (r: seq<nat>)
    decreases n
    ensures |r| == n
    ensures forall k :: 0 <= k < n ==> r[k] == Backoff(from + k)
  {
    if n == 0 then [] else [Backoff(from)] + Backoffs(from + 1, n - 1)
  }

  /** The waits after attempt `attempt` are the backoffs from `attempt + 1`
      on: the k-th (counting from 0) is 50 * 2^(attempt + k + 1) ms. */
  lemma {:induction false} RunDelays(s: StoreState, oracle: nat -> Attempt, attempt: nat)
    ensures var out := Run(s, oracle, attempt);
              out.delays == Backoffs(attempt + 1, |out.delays|)
    decreases MaxRetries - attempt
  {
    if attempt < MaxRetries {
      var step := Try(s, oracle(attempt));
      if step.Thrown? && step.code == PreconditionFailed {
        RunDelays(step.store, oracle, attempt + 1);
      }
    }
  }

  /** The waits of a call that exhausts its retries: 100, 200, 400, 800 and
      1600 ms (the last one is taken before the final give-up). */
  lemma ExhaustedDelays(s: StoreState, oracle: nat -> Attempt)
    requires Run(s, oracle, 0).response == RetriesExhausted
    ensures Run(s, oracle, 0).delays == [100, 200, 400, 800, 1600]
  {
    RunResponses(s, oracle, 0);
    RunDelays(s, oracle, 0);
    assert Pow2(5) == 32 by {
      assert Pow2(2) == 4;
      assert Pow2(4) == 16;
    }
    assert Backoffs(1, 5) == [100, 200, 400, 800, 1600];
  }

  /** The loop is bounded: the call consults the environment only for its
      first `MaxRetries` attempts. */
  lemma {:induction false} RunConsultsFiveAttempts(s: StoreState, o1: nat -> Attempt, o2: nat -> Attempt, attempt: nat)
    requires forall i :: 0 <= i < MaxRetries ==> o1(i) == o2(i)
    ensures Run(s, o1, attempt) == Run(s, o2, attempt)
    decreases MaxRetries - attempt
  {
    if attempt < MaxRetries {
      var step := Try(s, o1(attempt));
      if step.Thrown? && step.code == PreconditionFailed {
        RunConsultsFiveAttempts(step.store, o1, o2, attempt + 1);
      }
    }
  }

  /** Two callers both read count 5; the other one commits first, this call's
      replace is refused with 412, it rereads 6 and writes 7 after one 100 ms wait. */
  lemma TwoWritersScenario(oracle: nat -> Attempt)
    requires oracle(0) == Attempt(None, true, None)
    requires oracle(1) == Attempt(None, false, None)
    ensures var s := StoreState(map[ItemId := Doc(Some(5), 5)], 6);
            var out := Run(s, oracle, 0);
              && out.response.status == 200
              && out.response.body.Updated? && out.response.body.item.count == Some(7)
              && CountOf(out.store, ItemId) == 7
              && out.delays == [100]
  {
    var s := StoreState(map[ItemId := Doc(Some(5), 5)], 6);
    var first := Try(s, oracle(0));
    assert first == Thrown(PreconditionFailed, RivalWrite(s, ItemId), 1);
    var s1 := RivalWrite(s, ItemId);
    assert s1.docs[ItemId] == Doc(Some(6), 6);
    assert Try(s1, oracle(1)).response.body.item == Doc(Some(7), 7);
    assert Backoff(1) == 100;
  }
}
