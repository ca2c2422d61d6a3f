/** The binding-based handler (api/GetVisitorCount/index.js).

    The host reads document "1" into `inputDocument` (absent when there is
    none); the handler answers with the next count and hands the host an
    output document that overwrites document "1" with that count. Despite its
    name it increments on every call, and its write is unconditional. */
module GetVisitorCount {
  import opened Wrappers
  import opened Store
  import SetVisitorCount

  const DocId := "1"

  datatype OutputDocument = OutputDocument(id: string, count: int, partitionKey: string)

  /** `context.res`: no explicit status (sent as 200), body `{ count }`. */
  datatype Response = Response(status: int, count: int)

  /** What one call sets: the response and the output binding. */
  datatype Invocation = Invocation(response: Response, output: OutputDocument)

  function Handle(inputDocument: Option<Doc>): (r: Invocation)
    ensures r.response.status == 200
    ensures r.response.count == r.output.count
    ensures r.output.id == DocId && r.output.partitionKey == DocId
    ensures inputDocument.None? ==> r.response.count == 1
    ensures inputDocument.Some? ==> r.response.count == Effective(inputDocument.value.count) + 1
  {
    var currentCount := if inputDocument.Some? then Effective(inputDocument.value.count) else 0;
    var newCount := currentCount + 1;
    Invocation(Response(200, newCount), OutputDocument(DocId, newCount, DocId))
  }

  /** The input binding: the stored document "1", if any. */
  function Input(s: StoreState): (d: Option<Doc>)
    ensures d.Some? <==> DocId in s.docs
  {
    if DocId in s.docs then Some(s.docs[DocId]) else None
  }

  /** The host's write of the output binding. */
  function Apply(s: StoreState, out: OutputDocument): StoreState {
    Write(s, out.id, Some(out.count))
  }

  /** One call against a store raises its counter by exactly one and answers
      with the value it leaves stored. */
  lemma StoredCountIsAnswered(s: StoreState)
    ensures var r := Handle(Input(s));
              && r.response.count == CountOf(s, DocId) + 1
              && CountOf(Apply(s, r.output), DocId) == r.response.count
  {
  }

  /** The handler computes the same next count, `(count || 0) + 1`, that a
      conditional replace writes when it meets no competing writer. */
  lemma AgreesWithConditionalIncrement(s: StoreState, a: SetVisitorCount.Attempt)
    requires Valid(s) && DocId in s.docs
    requires a.readFault.None? && !a.rival && a.writeFault.None?
    ensures var step := SetVisitorCount.Try(s, a);
              && step.Finished?
              && CountOf(step.store, DocId) == Handle(Input(s)).response.count
  {
  }
}
