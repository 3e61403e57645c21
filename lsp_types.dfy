/**
 * The pylspclient records the decoders build: Position, Range and
 * VersionedTextDocumentIdentifier. pylspclient is not part of this model;
 * these are plain records, with Range converting its `start` and `end`
 * dictionaries into Positions by keyword call, as pylspclient's Range does.
 */
module LspTypes {
  import opened Wrappers
  import opened PyJson

  datatype Position = Position(line: Json, character: Json)
  datatype Range = Range(start: Position, end: Position)
  datatype TextDocumentId = TextDocumentId(uri: Json, version: Json)

  /** `Position(**d)`. */
  function PositionOf(d: Json): (r: Res<Position>)
  {
    var args :- KwArgs(d, {"line", "character"}, {"line", "character"});
    Ok(Position(args["line"], args["character"]))
  }

  /** `Range(**d)`. */
  function RangeOf(d: Json): (r: Res<Range>)
  {
    var args :- KwArgs(d, {"start", "end"}, {"start", "end"});
    var start :- PositionOf(args["start"]);
    var end :- PositionOf(args["end"]);
    Ok(Range(start, end))
  }

  /** `VersionedTextDocumentIdentifier(**d)`. */
  function TextDocumentIdOf(d: Json): (r: Res<TextDocumentId>)
  {
    var args :- KwArgs(d, {"uri", "version"}, {"uri", "version"});
    Ok(TextDocumentId(args["uri"], args["version"]))
  }

  /** The wire form of each record, as the server sends it. */
  function EncodePosition(p: Position): Json {
    JObject(map["line" := p.line, "character" := p.character])
  }

  function EncodeRange(r: Range): Json {
    JObject(map["start" := EncodePosition(r.start), "end" := EncodePosition(r.end)])
  }

  function EncodeTextDocumentId(t: TextDocumentId): Json {
    JObject(map["uri" := t.uri, "version" := t.version])
  }

  lemma RangeRoundTrip(r: Range)
    ensures RangeOf(EncodeRange(r)) == Ok(r)
  {
  }

  lemma TextDocumentIdRoundTrip(t: TextDocumentId)
    ensures TextDocumentIdOf(EncodeTextDocumentId(t)) == Ok(t)
  {
  }
}
