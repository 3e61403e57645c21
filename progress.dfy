/**
 * File-progress notifications: `CoqFileProgressKind`,
 * `CoqFileProgressProcessingInfo`, `CoqFileProgressParams` and the decoder
 * `CoqFileProgressParams.parse` (coqlspclient/coq_lsp_structs.py).
 */
module Progress {
  import opened Wrappers
  import opened PyJson
  import opened LspTypes

  /** `CoqFileProgressKind`: Processing = 1, FatalError = 2. */
  datatype ProgressKind = Processing | FatalError

  datatype ProcessingInfo = ProcessingInfo(range: Range, kind: Option<ProgressKind>)
  datatype FileProgress = FileProgress(textDocument: TextDocumentId, processing: seq<ProcessingInfo>)

  /** The enumeration value of a kind. */
  function KindValue(k: ProgressKind): int {
    match k
    case Processing => 1
    case FatalError => 2
  }

  /**
   * `CoqFileProgressKind(v)`: the member whose value equals `v`. Python's
   * `True` equals 1, so it also selects Processing; anything else raises.
   */
  function KindOf(v: Json): (r: Res<ProgressKind>)
    ensures r == Ok(Processing) <==> v == JInt(1) || v == JBool(true)
    ensures r == Ok(FatalError) <==> v == JInt(2)
    ensures r.Err? ==> r.error == ValueError(v)
  {
    if v == JInt(1) || v == JBool(true) then Ok(Processing)
    else if v == JInt(2) then Ok(FatalError)
    else Err(ValueError(v))
  }

  lemma KindRoundTrip(k: ProgressKind)
    ensures KindOf(JInt(KindValue(k))) == Ok(k)
  {
  }

  /** One iteration of the loop of `CoqFileProgressParams.parse`. */
  function ProcessingInfoOf(progress: Json): (r: Res<ProcessingInfo>)
    ensures r.Ok? ==> progress.JObject? && "range" in progress.fields
    ensures r.Ok? ==> RangeOf(progress.fields["range"]) == Ok(r.value.range)
    ensures r.Ok? ==> (r.value.kind.None? <==> "kind" !in progress.fields)
    ensures r.Ok? && r.value.kind.Some? ==> KindOf(progress.fields["kind"]) == Ok(r.value.kind.value)
    ensures progress.JObject? && "range" in progress.fields && RangeOf(progress.fields["range"]).Ok? &&
            "kind" in progress.fields && KindOf(progress.fields["kind"]).Err?
            ==> r == Err(ValueError(progress.fields["kind"]))
  {
    var raw :- GetKey(progress, "range");
    var range :- RangeOf(raw);
    var kind :- if "kind" in progress.fields then
                  var k :- KindOf(progress.fields["kind"]);
                  Ok(Some(k))
                else Ok(None);
    Ok(ProcessingInfo(range, kind))
  }

  /** What `CoqFileProgressParams.parse` returns or raises for `params`. */
  function FileProgressOf(params: Json): (r: Res<Option<FileProgress>>)
    ensures params.JObject? ==>
      (r == Ok(None) <==> !("textDocument" in params.fields && "processing" in params.fields))
    ensures r.Ok? && r.value.Some? ==>
      && params.JObject? && "textDocument" in params.fields && "processing" in params.fields
      && params.fields["processing"].JList?
      && |r.value.value.processing| == |params.fields["processing"].items|
      && forall i :: 0 <= i < |r.value.value.processing| ==>
           ProcessingInfoOf(params.fields["processing"].items[i]) == Ok(r.value.value.processing[i])
    ensures r.Ok? && r.value.Some? ==>
      && params.fields["textDocument"].JObject?
      && {"uri", "version"} <= params.fields["textDocument"].fields.Keys
      && r.value.value.textDocument ==
           TextDocumentId(params.fields["textDocument"].fields["uri"], params.fields["textDocument"].fields["version"])
  {
    var hasDocument :- Contains("textDocument", params);
    if !hasDocument then Ok(None)
    else if !Contains("processing", params).value then Ok(None)
    else
      var document :- GetKey(params, "textDocument");
      var uri :- GetKey(document, "uri");
      var version :- GetKey(document, "version");
      var items :- Iterate(params.fields["processing"]);
      var processing :- Traverse(items, ProcessingInfoOf);
      Ok(Some(FileProgress(TextDocumentId(uri, version), processing)))
  }

  /** `CoqFileProgressParams.parse`, with its append loop over `processing`. */
  method ParseFileProgress(params: Json) returns (r: Res<Option<FileProgress>>)
    ensures r == FileProgressOf(params)
  {
    var hasDocument :- Contains("textDocument", params);
    if !hasDocument || !Contains("processing", params).value {
      return Ok(None);
    }
    var document :- GetKey(params, "textDocument");
    var uri :- GetKey(document, "uri");
    var version :- GetKey(document, "version");
    var items :- Iterate(params.fields["processing"]);
    var processing: seq<ProcessingInfo> := [];
    for i := 0 to |items|
      invariant |processing| == i
      invariant forall k :: 0 <= k < i ==> ProcessingInfoOf(items[k]) == Ok(processing[k])
    {
      var progress := items[i];
      var rangeRaw :- GetKey(progress, "range");
      var range :- RangeOf(rangeRaw);
      var kind: Option<ProgressKind> := None;
      if "kind" in progress.fields {
        var k :- KindOf(progress.fields["kind"]);
        kind := Some(k);
      }
      processing := processing + [ProcessingInfo(range, kind)];
    }
    assert Traverse(items, ProcessingInfoOf).Ok?;
    assert Traverse(items, ProcessingInfoOf).value == processing;
    return Ok(Some(FileProgress(TextDocumentId(uri, version), processing)));
  }

  // ---------------------------------------------------------------------------
  // The wire form, and the round trip through the decoder

  function EncodeProcessingInfo(p: ProcessingInfo): Json {
    var base := map["range" := EncodeRange(p.range)];
    JObject(if p.kind.Some? then base["kind" := JInt(KindValue(p.kind.value))] else base)
  }

  function EncodeFileProgress(f: FileProgress): Json {
    JObject(map[
      "textDocument" := EncodeTextDocumentId(f.textDocument),
      "processing" := JList(Map(f.processing, EncodeProcessingInfo))])
  }

  /** `CoqFileProgressParams.parse` on a dictionary whose parts each decode. */
  lemma FileProgressOfParts(m: map<string, Json>, f: FileProgress, items: seq<Json>)
    requires "textDocument" in m && "processing" in m
    requires m["textDocument"] == EncodeTextDocumentId(f.textDocument)
    requires m["processing"] == JList(items) && Traverse(items, ProcessingInfoOf) == Ok(f.processing)
    ensures FileProgressOf(JObject(m)) == Ok(Some(f))
  {
  }

  /** The loop over the wire form of the processing list gives the list back. */
  lemma {:induction false} ProcessingRoundTrip(ps: seq<ProcessingInfo>)
    ensures Traverse(Map(ps, EncodeProcessingInfo), ProcessingInfoOf) == Ok(ps)
  {
    forall p | p in ps ensures ProcessingInfoOf(EncodeProcessingInfo(p)) == Ok(p) {
      RangeRoundTrip(p.range);
      if p.kind.Some? {
        KindRoundTrip(p.kind.value);
      }
    }
    TraverseInverse(ps, EncodeProcessingInfo, ProcessingInfoOf);
  }

  /** Decoding the wire form of a notification gives the notification back. */
  lemma {:induction false} FileProgressRoundTrip(f: FileProgress)
    ensures FileProgressOf(EncodeFileProgress(f)) == Ok(Some(f))
  {
    ProcessingRoundTrip(f.processing);
    FileProgressOfParts(EncodeFileProgress(f).fields, f, Map(f.processing, EncodeProcessingInfo));
  }
}
