/**
 * A document as the server checked it: `RangedSpan`, `CompletionStatus`,
 * `FlecheDocument` and the decoder `FlecheDocument.parse`
 * (coqlspclient/coq_lsp_structs.py).
 */
module Fleche {
  import opened Wrappers
  import opened PyJson
  import opened LspTypes

  /** A span of the document and its payload (`None` when the server sent none). */
  datatype RangedSpan = RangedSpan(range: Range, span: Json)
  datatype CompletionStatus = CompletionStatus(status: Json, range: Range)
  datatype FlecheDocument = FlecheDocument(spans: seq<RangedSpan>, completed: CompletionStatus)

  /** One iteration of the span loop of `FlecheDocument.parse`. */
  function SpanOf(span: Json): (r: Res<RangedSpan>)
    ensures r.Ok? <==> span.JObject? && "range" in span.fields && RangeOf(span.fields["range"]).Ok?
    ensures r.Ok? ==> r.value == RangedSpan(RangeOf(span.fields["range"]).value, ArgOr(span.fields, "span", JNull))
  {
    var raw :- GetKey(span, "range");
    var range :- RangeOf(raw);
    Ok(RangedSpan(range, ArgOr(span.fields, "span", JNull)))
  }

  /** The spans `ss` are decoded one per entry of the list `j`, in order. */
  predicate DecodedSpans(j: Json, ss: seq<RangedSpan>) {
    j.JList? && |ss| == |j.items| && forall i :: 0 <= i < |ss| ==> SpanOf(j.items[i]) == Ok(ss[i])
  }

  /** What `FlecheDocument.parse` returns or raises for `doc`. */
  function FlecheDocumentOf(doc: Json): (r: Res<Option<FlecheDocument>>)
    ensures doc.JObject? ==> (r == Ok(None) <==> !("spans" in doc.fields && "completed" in doc.fields))
    ensures r.Ok? && r.value.Some? ==>
      && doc.JObject? && "spans" in doc.fields && "completed" in doc.fields
      && DecodedSpans(doc.fields["spans"], r.value.value.spans)
      && doc.fields["completed"].JObject? && "status" in doc.fields["completed"].fields
      && r.value.value.completed.status == doc.fields["completed"].fields["status"]
      && "range" in doc.fields["completed"].fields
      && RangeOf(doc.fields["completed"].fields["range"]) == Ok(r.value.value.completed.range)
  {
    var hasSpans :- Contains("spans", doc);
    if !hasSpans then Ok(None)
    else if !Contains("completed", doc).value then Ok(None)
    else
      var spansRaw :- GetKey(doc, "spans");
      var items :- Iterate(spansRaw);
      var spans :- Traverse(items, SpanOf);
      var completed := doc.fields["completed"];
      var status :- GetKey(completed, "status");
      var rangeRaw :- GetKey(completed, "range");
      var range :- RangeOf(rangeRaw);
      Ok(Some(FlecheDocument(spans, CompletionStatus(status, range))))
  }

  /** `FlecheDocument.parse`, with its append loop over the spans. */
  method ParseFlecheDocument(doc: Json) returns (r: Res<Option<FlecheDocument>>)
    ensures r == FlecheDocumentOf(doc)
  {
    var hasSpans :- Contains("spans", doc);
    if !hasSpans || !Contains("completed", doc).value {
      return Ok(None);
    }
    var spansRaw :- GetKey(doc, "spans");
    var items :- Iterate(spansRaw);
    var spans: seq<RangedSpan> := [];
    for i := 0 to |items|
      invariant |spans| == i
      invariant forall k :: 0 <= k < i ==> SpanOf(items[k]) == Ok(spans[k])
    {
      var span := items[i];
      var rangeRaw :- GetKey(span, "range");
      var range :- RangeOf(rangeRaw);
      spans := spans + [RangedSpan(range, if "span" in span.fields then span.fields["span"] else JNull)];
    }
    assert Traverse(items, SpanOf).Ok?;
    assert Traverse(items, SpanOf).value == spans;
    var completed := doc.fields["completed"];
    var status :- GetKey(completed, "status");
    var rangeRaw :- GetKey(completed, "range");
    var range :- RangeOf(rangeRaw);
    return Ok(Some(FlecheDocument(spans, CompletionStatus(status, range))));
  }

  // ---------------------------------------------------------------------------
  // The wire form, and the round trip through the decoder

  function EncodeSpan(s: RangedSpan): Json {
    JObject(map["range" := EncodeRange(s.range), "span" := s.span])
  }

  function EncodeFlecheDocument(d: FlecheDocument): Json {
    JObject(map[
      "spans" := JList(Map(d.spans, EncodeSpan)),
      "completed" := JObject(map["status" := d.completed.status, "range" := EncodeRange(d.completed.range)])])
  }

  /** Decoding the wire form of a document gives the document back. */
  lemma {:induction false} FlecheDocumentRoundTrip(d: FlecheDocument)
    ensures FlecheDocumentOf(EncodeFlecheDocument(d)) == Ok(Some(d))
  {
    forall s | s in d.spans ensures SpanOf(EncodeSpan(s)) == Ok(s) {
      RangeRoundTrip(s.range);
    }
    TraverseInverse(d.spans, EncodeSpan, SpanOf);
    RangeRoundTrip(d.completed.range);
  }
}
