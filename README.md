# coq-lsp client structures in Dafny

This project models the decoding layer of the Python client for the coq-lsp
language server (`coqlspclient/coq_lsp_structs.py`). The server answers in
JSON. The client turns the decoded dictionaries into Python objects:

- `Goal.parse` and `GoalConfig.parse` build goal states. Each hypothesis entry is
  first rewritten in place so that its `def` key becomes `definition`.
- `GoalAnswer.parse` builds the answer to a goals request. It overwrites the
  request's `textDocument`, `position` and `goals` keys, and replaces each
  non-string message by a `Message`.
- `GoalAnswer.__repr__` renders an answer through its helper `recursive_vars`.
- `FlecheDocument.parse` builds the document the server has checked.
- `CoqFileProgressParams.parse` builds a file-progress notification.
- `FileContext` accumulates the terms, aliases and notations of a file.

Decoded JSON is the datatype `PyJson.Json`. The Python built-ins the decoders
use (`key in d`, `d[key]`, `t[n]`, `for x in xs`, truthiness, `C(**d)`) are
functions that return the exception Python would raise (`KeyError`,
`TypeError`, `IndexError`, `ValueError`) instead of a value. `Traverse`
models a comprehension or append loop that stops at the first exception.

Each decoder has a specification function (`GoalOf`, `GoalConfigOf`,
`GoalAnswerOf`, `FlecheDocumentOf`, `FileProgressOf`). Its contract states
what the result holds in terms of the input. Where the source is a loop, a
method with that loop is proved equal to the specification function:

- `RenameDefsInPlace` and `DecodeMessagesInPlace` rewrite an array in place,
  as the source rewrites its list.
- `ParseFlecheDocument` and `ParseFileProgress` run the append loops.

Each decoder also has an encoder to the wire form the server sends. A
round-trip lemma proves that decoding the encoding gives the value back.

`FileContext` is a class with `map` and `seq` fields. Its `Update` is proved
against the function `Merged`.

Modules: `Wrappers` (Option, Result, Outcome), `PyJson` (values and
built-ins), `LspTypes` (the pylspclient records `Position`, `Range`,
`VersionedTextDocumentIdentifier`), `Goals`, `GoalAnswers`, `Repr`, `Fleche`,
`Progress`, `FileContexts`.

## Model

| member | source | states |
|---|---|---|
| PyJson.Traverse | coqlspclient/coq_lsp_structs.py:26 | A comprehension succeeds iff every element succeeds. On success it keeps the length and maps each element in order. Otherwise it raises the exception of the first failing element. |
| PyJson.KwArgs | coqlspclient/coq_lsp_structs.py:26 | `C(**d)` accepts exactly a dictionary whose keys include the required parameters and lie within the parameters; anything else raises TypeError. |
| PyJson.TraverseInverse | coqlspclient/coq_lsp_structs.py:41 | A comprehension of a decoder over encoded values gives back the values, when the decoder inverts the encoder on each. |
| Goals.RenameDef | coqlspclient/coq_lsp_structs.py:23-25 | A hypothesis dictionary with `def` ends up with `definition` holding that value, no `def` key, and the other keys unchanged. Without `def` it is unchanged. |
| Goals.HypOf | coqlspclient/coq_lsp_structs.py:26 | `Hyp(**hyp)` succeeds iff the keys include `names` and `ty` and lie within `names`, `ty`, `definition`. `definition` is `None` when absent. |
| Goals.GoalOf | coqlspclient/coq_lsp_structs.py:19-28 | For a dictionary, `None` iff `hyps` is absent. Otherwise each hypothesis is decoded from its entry, in order, with `def` taken as the definition. `ty` is `None` iff absent. |
| Goals.RenameDefsInPlace | coqlspclient/coq_lsp_structs.py:22-25 | The loop rewrites every entry in place. If an entry raises, the loop stops there: the entries before it are rewritten and the rest are unchanged. |
| Goals.ParseGoal | coqlspclient/coq_lsp_structs.py:19-28 | The imperative `Goal.parse` returns or raises exactly what `GoalOf` states. |
| Goals.GoalAccepted | coqlspclient/coq_lsp_structs.py:20-26 | With `hyps` present, parsing succeeds iff `hyps` is a list whose every entry, once `def` is renamed, is accepted by `Hyp(**hyp)`. |
| Goals.GoalsOf | coqlspclient/coq_lsp_structs.py:41 | `parse_goals` keeps the length and decodes each entry with `Goal.parse`. |
| Goals.StackEntryOf | coqlspclient/coq_lsp_structs.py:43 | A stack entry decodes only when it has at least two components. Each of the first two is decoded as a goal list. |
| Goals.GoalConfigOf | coqlspclient/coq_lsp_structs.py:40-47 | A missing `goals` raises KeyError. On success `goals`, `shelf` and `given_up` are decoded element by element, the stack componentwise with its length kept, and `bullet` is `None` iff absent. |
| Goals.HypRoundTrip | coqlspclient/coq_lsp_structs.py:22-26 | A hypothesis sent with a `def` key is renamed and rebuilt unchanged. |
| Goals.GoalRoundTrip | coqlspclient/coq_lsp_structs.py:19-28 | Decoding the wire form of a goal gives the goal back. |
| Goals.GoalsRoundTrip | coqlspclient/coq_lsp_structs.py:41 | Decoding the wire form of a goal list gives it back, `None` entries included. |
| Goals.StackEntryRoundTrip | coqlspclient/coq_lsp_structs.py:43 | Decoding the wire form of a stack entry gives the pair back. |
| Goals.StackRoundTrip | coqlspclient/coq_lsp_structs.py:43 | Decoding the wire form of a goal stack gives the stack back, entry by entry. |
| Goals.GoalConfigOfParts | coqlspclient/coq_lsp_structs.py:40-47 | A dictionary whose `goals`, `stack`, `shelf` and `given_up` each decode is parsed into the configuration made of those parts, with `bullet` as given or `None`. |
| Goals.GoalConfigRoundTrip | coqlspclient/coq_lsp_structs.py:40-47 | Decoding the wire form of a goal configuration gives it back. |
| LspTypes.RangeRoundTrip | coqlspclient/coq_lsp_structs.py:169 | `Range(**d)` on the wire form of a range gives the range back. This rests on the assumption, stated under Left out, that pylspclient's `Range` converts `start` and `end` with `Position(**...)`. |
| LspTypes.TextDocumentIdRoundTrip | coqlspclient/coq_lsp_structs.py:87-89 | `VersionedTextDocumentIdentifier(**d)` on the wire form of an identifier gives it back. This rests on the assumption, stated under Left out, that the pylspclient record takes exactly `uri` and `version`. |
| GoalAnswers.MessageRangeOf | coqlspclient/coq_lsp_structs.py:99-100 | A truthy `range` is converted with `Range(**range)` and fails iff that fails. A falsy one is kept as it is. |
| GoalAnswers.MessageStep | coqlspclient/coq_lsp_structs.py:97-101 | A string message is left unchanged. Any other entry is turned into a Message. |
| GoalAnswers.MessageOf | coqlspclient/coq_lsp_structs.py:98-101 | A dictionary without `range` raises KeyError. On success the Message has the entry's level and text, and its range is converted iff truthy. |
| GoalAnswers.GoalAnswerOf | coqlspclient/coq_lsp_structs.py:86-103 | On success: the keys are those `GoalAnswer` accepts, the text document and position are converted, and `goals` is `None` iff absent, else decoded by `GoalConfig.parse`. Messages keep count and order, strings untouched. `error` defaults to `None`, `program` to `[]`. |
| GoalAnswers.DecodeMessagesInPlace | coqlspclient/coq_lsp_structs.py:97-101 | The loop replaces `messages[i]` in place by its decoding. If an entry raises, the loop stops there with the entries before it replaced and the rest untouched. |
| GoalAnswers.ParseGoalAnswer | coqlspclient/coq_lsp_structs.py:86-103 | The imperative `GoalAnswer.parse` returns or raises exactly what `GoalAnswerOf` states. |
| GoalAnswers.DecodedAnswerWellFormed | coqlspclient/coq_lsp_structs.py:97-101 | Every decoded answer leaves only strings as raw messages, and keeps a message range unconverted only when it is falsy. |
| GoalAnswers.MessageRoundTrip | coqlspclient/coq_lsp_structs.py:97-101 | A message of that shape, sent and decoded, comes back unchanged. |
| GoalAnswers.MessagesRoundTrip | coqlspclient/coq_lsp_structs.py:97-101 | The message loop over the wire form of such messages gives them back. |
| GoalAnswers.GoalAnswerRoundTrip | coqlspclient/coq_lsp_structs.py:86-103 | Decoding the wire form of a well-formed answer gives the answer back. |
| Repr.RecursiveVars | coqlspclient/coq_lsp_structs.py:69-81 | `recursive_vars` as written: the only exception it raises is TypeError; a list renders as a list of the same length and an object as a dictionary with exactly its attribute names. |
| Repr.Vars | coqlspclient/coq_lsp_structs.py:69-81 | `recursive_vars` as intended: lists and tuples render as lists of the same length, dicts and objects as dictionaries with the same keys. |
| Repr.ReprAsWritten | coqlspclient/coq_lsp_structs.py:66-83 | `__repr__` as written succeeds exactly when the answer's value holds no tuple and no plain dict, and otherwise raises TypeError. |
| Repr.RecursiveVarsSucceedsIff | coqlspclient/coq_lsp_structs.py:67-79 | `recursive_vars` as written succeeds exactly on values that contain no tuple and no plain dict. |
| Repr.VarsExtendsRecursiveVars | coqlspclient/coq_lsp_structs.py:67-79 | Wherever `recursive_vars` as written succeeds, the corrected rendering gives the same result. |
| Repr.VarsOfJsonValue | coqlspclient/coq_lsp_structs.py:67-79 | Rendering a decoded JSON value gives that value back. |
| Repr.ReprFailsOnNonEmptyStack | coqlspclient/coq_lsp_structs.py:43 | `__repr__` as written raises for every answer whose goal stack is non-empty. |
| Repr.FocusedAnswerReprFails | coqlspclient/coq_lsp_structs.py:66-83 | A concrete wire answer decodes successfully, yet its `__repr__` raises. |
| Repr.Repr | coqlspclient/coq_lsp_structs.py:66-83 | The corrected rendering is a dictionary with exactly the six attributes of an answer, one rendered entry per message. It agrees with the as-written rendering whenever that succeeds. |
| Repr.StackRendering | coqlspclient/coq_lsp_structs.py:43 | In the corrected rendering each stack entry is a two-element list of its two rendered goal lists, and the stack keeps its length. |
| Repr.StackEntryRendering | coqlspclient/coq_lsp_structs.py:43 | In the corrected rendering, one stack tuple becomes the two-element list of its two rendered goal lists. |
| Fleche.SpanOf | coqlspclient/coq_lsp_structs.py:168-172 | A span decodes iff it is a dictionary whose `range` converts. Its payload is `None` iff `span` is absent. |
| Fleche.FlecheDocumentOf | coqlspclient/coq_lsp_structs.py:164-177 | For a dictionary, `None` iff `spans` or `completed` is missing. Otherwise the spans keep length and order, and the completion status has the `status` of `completed` and its `range` converted with `Range(**...)`. |
| Fleche.ParseFlecheDocument | coqlspclient/coq_lsp_structs.py:164-177 | The append loop returns or raises exactly what `FlecheDocumentOf` states. |
| Fleche.FlecheDocumentRoundTrip | coqlspclient/coq_lsp_structs.py:164-177 | Decoding the wire form of a document gives it back. |
| Progress.KindOf | coqlspclient/coq_lsp_structs.py:180-182 | `CoqFileProgressKind(v)` is Processing iff `v` is 1 (or `True`) and FatalError iff `v` is 2. Any other value raises ValueError. |
| Progress.ProcessingInfoOf | coqlspclient/coq_lsp_structs.py:213-219 | The range is converted. `kind` is `None` iff absent, and a present invalid kind raises ValueError. |
| Progress.FileProgressOf | coqlspclient/coq_lsp_structs.py:201-221 | For a dictionary, `None` iff `textDocument` or `processing` is missing. Otherwise the identifier is built from the document's `uri` and `version`, and `processing` keeps length and order. |
| Progress.ParseFileProgress | coqlspclient/coq_lsp_structs.py:201-221 | The append loop returns or raises exactly what `FileProgressOf` states. |
| Progress.ProcessingRoundTrip | coqlspclient/coq_lsp_structs.py:211-220 | The append loop over the wire form of a processing list gives the list back. |
| Progress.FileProgressOfParts | coqlspclient/coq_lsp_structs.py:201-221 | A dictionary with an identifier's wire form and a processing list that decodes is parsed into the notification made of those parts. |
| Progress.FileProgressRoundTrip | coqlspclient/coq_lsp_structs.py:201-221 | Decoding the wire form of a notification gives it back. |
| FileContexts.Merged | coqlspclient/coq_lsp_structs.py:146-149 | After an update the terms and aliases hold the old keys and the new ones, each new key with its new value, each other key with its old one. The notations are the old list followed by the new one. |
| FileContexts.MergedNothing | coqlspclient/coq_lsp_structs.py:146 | An update with the default empty arguments changes nothing. |
| FileContexts.MergedTwice | coqlspclient/coq_lsp_structs.py:146-149 | Two updates in a row equal one update with the arguments combined, the later ones winning. |
| FileContexts.FileContext.constructor | coqlspclient/coq_lsp_structs.py:138-141 | The context holds exactly the given terms, aliases and notations. |
| FileContexts.FileContext.Iter | coqlspclient/coq_lsp_structs.py:143-144 | Iteration yields the terms, the aliases and the notations, in that order. |
| FileContexts.FileContext.Update | coqlspclient/coq_lsp_structs.py:146-149 | `update` changes the context to exactly `Merged` of its old parts and the arguments. |

## Left out

- Iterating over a string or a dictionary (`for x in s`) visits characters or keys in Python. The model treats it as a TypeError. Decoders reaching such a loop raise where Python might go on.
- The decoders rewrite the caller's dictionaries in place. They rename `def` in every hyp dictionary and overwrite keys of the answer and of each message. The model works on copies, so it does not show what the caller sees afterwards. In particular, when a later step raises, the caller's message dictionary is left with its `range` already converted.
- Python dictionaries keep insertion order. The model's maps do not, so the key order of rebuilt dictionaries and of `FileContext` maps is not modelled.
- FileContexts.FileContext.Update: when `terms` and `aliases` are the same dictionary object, Python applies both updates to it. The model keeps the fields as separate values, so it does not capture that aliasing.
- Mutable default arguments: the defaults `{}` and `[]` of `FileContext.__init__` and `update` (lines 138 and 146), and `program=[]` of `GoalAnswer.__init__` (line 59), are shared between calls. Cross-instance sharing is not modelled.
- `__repr__` ends with `str(...)` (line 83). The model stops at the nested dictionaries and lists `recursive_vars` builds; the text is not modelled.
- The pylspclient records `Position`, `Range` and `VersionedTextDocumentIdentifier` are plain records here. `Range(**d)` is assumed to convert its `start` and `end` with `Position(**...)`, and `VersionedTextDocumentIdentifier(**d)` to take exactly `uri` and `version`. pylspclient is not part of this model.
- JSON floats are absent from `Json`, so three behaviours on floats are not modelled: `CoqFileProgressKind(1.0)` selects Processing because `1.0 == 1` (line 218); `if message["range"]:` tests a float's truth value (line 99); and `recursive_vars` passes a float to `vars()`, which raises TypeError (lines 70-78), so the as-written rendering also fails on values holding floats, beyond what `Repr.RecursiveVarsSucceedsIff` states.
- `Result`, `Query`, `Step`, `ProofStep`, `CoqErrorCodes` and `CoqError` are data-only classes that none of the modelled operations builds. They are not modelled.
- The proof-editing engine that uses these structures, and the test files, are not part of this model.

## Findings

| source | as written | input that shows it | evidently intended | confidence | as-written member | corrected member |
|---|---|---|---|---|---|---|
| coqlspclient/coq_lsp_structs.py:43, 66-83 | `GoalConfig.parse` stores each stack entry as a tuple. `recursive_vars` passes everything that is not `None`, an int, a string or a list to `vars()`, which raises TypeError on a tuple. It also raises on a plain dict. | Any goal answer whose `goals.stack` is non-empty, e.g. `Repr.FocusedAnswer`: one stack entry `[[], []]` inside a bullet. It decodes, then `repr` raises TypeError. | A rendering of every answer, with tuples shown as lists and dicts rebuilt entry by entry. It agrees with the as-written rendering wherever that succeeds. | high (not executed) | Repr.ReprFailsOnNonEmptyStack | Repr.Repr |
