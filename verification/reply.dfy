/** What `classify_ticket` makes of the oracle call (lines 110-150 and 171 of
    backend/tickets/llm_service.py): the network call and `json.loads` are
    not modelled, only what they can hand back. */
module Reply {
  import opened Wrappers
  import Text
  import Engine

  /** The value `data.get(name)` yields: absent or JSON null, a string, some
      other falsy JSON value (false, 0, [], {}), or some other truthy one. */
  datatype Field = Missing | Str(s: string) | OtherFalsy | OtherTruthy

  /** The result of `json.loads` on the reply text (after the optional
      fenced-code-block extraction). */
  datatype Decoded = NotJson | NotObject | Object(category: Field, priority: Field)

  /** The oracle as `classify_ticket` sees it: no API key configured, a call
      that raised, or the reply's `response.text` (`None` written as "")
      together with what it decodes to. */
  datatype Oracle = KeyMissing | CallFailed | Answered(text: string, decoded: Decoded)

  /** `(data.get(name) or '').lower()`, `None` where `.lower()` raises. */
  function FieldText(v: Field): (r: Option<string>)
    ensures r.None? <==> v == OtherTruthy
    ensures r.Some? ==> Text.IsLowerCase(r.value)
    ensures v.Str? ==> |r.value| == |v.s|
                       && forall k :: 0 <= k < |v.s| ==> r.value[k] == Text.LowerChar(v.s[k])
    ensures !v.Str? && r.Some? ==> r.value == ""
  {
    match v
    case Missing => Some("")
    case OtherFalsy => Some("")
    case Str(s) => Some(Text.LowerAscii(s))
    case OtherTruthy => None
  }

  /** Both fields of a decoded object can be read without an exception. */
  predicate Readable(d: Decoded)
  {
    d.Object? && d.category != OtherTruthy && d.priority != OtherTruthy
  }

  /** The oracle step up to (not including) validation against the enumerations. */
  function Interpret(o: Oracle): (r: Engine.Outcome)
    ensures r == Engine.NoKey <==> o == KeyMissing
    ensures r == Engine.EmptyText <==> o.Answered? && Text.IsBlank(o.text)
    ensures r == Engine.Raised <==>
              o == CallFailed || (o.Answered? && !Text.IsBlank(o.text) && !Readable(o.decoded))
    ensures r.Parsed? ==> Text.IsLowerCase(r.category) && Text.IsLowerCase(r.priority)
    ensures r.Parsed? ==> r.category == FieldText(o.decoded.category).value
                          && r.priority == FieldText(o.decoded.priority).value
  {
    match o
    case KeyMissing => Engine.NoKey
    case CallFailed => Engine.Raised
    case Answered(text, decoded) =>
      if Text.IsBlank(text) then Engine.EmptyText
      else if !decoded.Object? then Engine.Raised
      else
        var c := FieldText(decoded.category);
        var p := FieldText(decoded.priority);
        if c.None? || p.None? then Engine.Raised else Engine.Parsed(c.value, p.value)
  }
}
