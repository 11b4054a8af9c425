/** Request bodies as the routes see them, and `normalizeField`
    (backend/routes/productRoutes.js), which turns a list-valued form field into
    a clean list of strings. */
module FormFields {
  import opened JsText

  /** One value of a parsed request body. `Nullish` stands for both `null` and
      `undefined`, which `??` treats alike; `Arr` holds the elements already
      passed through `String(...)`; `Other` is any value that is neither a string
      nor an array (a number, an object, a boolean). */
  datatype Raw = Nullish | Str(s: string) | Arr(items: seq<string>) | Other

  /** A parsed request body; a missing key is `undefined`. */
  type Body = map<string, Raw>

  function Get(body: Body, key: string): Raw {
    if key in body then body[key] else Nullish
  }

  /** `body[field + "[]"] ?? body[field]`. */
  function RawField(body: Body, field: string): (r: Raw)
    ensures !Get(body, field + "[]").Nullish? ==> r == Get(body, field + "[]")
    ensures Get(body, field + "[]").Nullish? ==> r == Get(body, field)
  {
    var bracketed := Get(body, field + "[]");
    if bracketed.Nullish? then Get(body, field) else bracketed
  }

  /** The list a raw value normalises to: an array element-wise, a string split
      on commas, anything else the empty list. */
  function ListOf(raw: Raw): (r: seq<string>)
    ensures forall i :: 0 <= i < |r| ==> r[i] != [] && Trimmed(r[i])
    ensures raw.Arr? ==> r == TrimNonEmpty(raw.items)
    ensures raw.Str? ==> r == CommaList(raw.s)
    ensures !raw.Arr? && !raw.Str? ==> r == []
  {
    match raw
    case Arr(items) => TrimNonEmpty(items)
    case Str(s) => CommaList(s)
    case _ => []
  }

  /** `normalizeField(body, field)`. */
  function NormalizeField(body: Body, field: string): (r: seq<string>)
    ensures forall i :: 0 <= i < |r| ==> r[i] != [] && Trimmed(r[i])
  {
    ListOf(RawField(body, field))
  }

  /** Every array element that is not blank survives, trimmed. */
  lemma ArrayElementsKept(body: Body, field: string, i: nat)
    requires RawField(body, field).Arr?
    requires i < |RawField(body, field).items|
    requires Trim(RawField(body, field).items[i]) != []
    ensures Trim(RawField(body, field).items[i]) in NormalizeField(body, field)
  {
    TrimNonEmptyKeeps(RawField(body, field).items, i);
  }

  /** Normalising the comma-joined result of a string field yields that result again. */
  lemma NormalizeFieldIdempotent(body: Body, field: string, body': Body)
    requires RawField(body, field).Str?
    requires body' == map[field := Str(Join(NormalizeField(body, field), ','))]
    ensures NormalizeField(body', field) == NormalizeField(body, field)
  {
    assert Get(body', field + "[]") == Nullish;
    CommaListRoundTrip(RawField(body, field).s);
  }
}
