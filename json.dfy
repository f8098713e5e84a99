/**
 * The content document: a JSON object mapping a language code to that
 * language's content tree, and the truth value Python gives a decoded
 * JSON value.
 */
module Json {

  import opened Optional

  /** A decoded JSON value. Numbers are integers in this model. */
  datatype Json =
    | Null
    | Bool(b: bool)
    | Num(n: int)
    | Str(s: string)
    | Arr(items: seq<Json>)
    | Obj(fields: map<string, Json>)

  /** Python's `bool(v)` for the value `json.load` returns. */
  predicate Truthy(j: Json) {
    match j
    case Null => false
    case Bool(b) => b
    case Num(n) => n != 0
    case Str(s) => s != ""
    case Arr(items) => items != []
    case Obj(fields) => fields != map[]
  }

  /** The content document: language code to content tree. */
  type Document = map<string, Json>

  /** `content_data.get(lang)` is truthy: the key is present and its value is not falsy. */
  predicate HasContent(doc: Document, lang: string) {
    lang in doc && Truthy(doc[lang])
  }

  /** The falsy JSON values are exactly null, false, zero and the empty string, array and object. */
  lemma FalsyValues(j: Json)
    ensures !Truthy(j) <==>
      j == Null || j == Bool(false) || j == Num(0) || j == Str("") || j == Arr([]) || j == Obj(map[])
  {
  }

  /** `content_data.get(lang)`: the value bound to the key, or None when the key is absent. */
  function Get(doc: Document, lang: string): (v: Option<Json>)
    ensures v.Some? <==> lang in doc
    ensures v.Some? ==> v.value == doc[lang]
  {
    if lang in doc then Some(doc[lang]) else None
  }

  /** Python's truth value of what `get` returns; None is falsy. */
  predicate TruthyOrNone(v: Option<Json>)
    ensures TruthyOrNone(v) ==> v.Some? && v.value != Null
  {
    match v
    case None => false
    case Some(j) => Truthy(j)
  }

  /** The build's content test `if not data`, with `data = content_data.get(lang)`, fails exactly when the language has content. */
  lemma HasContentIsTruthyGet(doc: Document, lang: string)
    ensures HasContent(doc, lang) <==> TruthyOrNone(Get(doc, lang))
  {
  }
}
