/** The speech-recognition feature test of the new-note card, with the
    JavaScript truthiness and `||` it relies on. */
module Availability {

  /** The browser, as far as the card can tell: whether `window` carries the
      standard `SpeechRecognition` constructor and/or the prefixed
      `webkitSpeechRecognition` one. */
  datatype Platform = Platform(standard: bool, webkit: bool)

  /** The two kinds of JavaScript value the feature test combines. */
  datatype JsValue = JsBool(b: bool) | JsString(s: string)

  /** JavaScript truthiness: `false` and the empty string are falsy. */
  predicate Truthy(v: JsValue)
  {
    match v
    case JsBool(b) => b
    case JsString(s) => s != ""
  }

  /** JavaScript `a || b`: the left operand when it is truthy, else the right one. */
  function Or(a: JsValue, b: JsValue): (r: JsValue)
    ensures Truthy(r) <==> Truthy(a) || Truthy(b)
    ensures r == a || r == b
  {
    if Truthy(a) then a else b
  }

  /** `window.SpeechRecognition || window.webkitSpeechRecognition`: whether the
      card finds a constructor to call with `new`. */
  predicate HasRecognizer(p: Platform)
  {
    p.standard || p.webkit
  }

  /** The test as written: `'SpeechRecognition' in window || 'webspeechRecognition'`.
      Its right operand is a non-empty string literal, not an `in` test. */
  function AvailabilityAsWritten(p: Platform): JsValue
  {
    Or(JsBool(p.standard), JsString("webspeechRecognition"))
  }

  /** The test as written passes on every platform, so the "unsupported"
      alert branch can never be taken. */
  lemma AlertBranchDead(p: Platform)
    ensures Truthy(AvailabilityAsWritten(p))
  {
  }

  /** A browser with neither constructor passes the test as written. */
  lemma UnsupportedPlatformPassesTest()
    ensures var p := Platform(false, false);
      Truthy(AvailabilityAsWritten(p)) && !HasRecognizer(p)
  {
  }

  /** The evidently intended test,
      `'SpeechRecognition' in window || 'webkitSpeechRecognition' in window`. */
  function AvailabilityIntended(p: Platform): JsValue
  {
    Or(JsBool(p.standard), JsBool(p.webkit))
  }

  /** The intended test passes exactly when there is a constructor to call. */
  lemma AvailabilityIntendedExact(p: Platform)
    ensures Truthy(AvailabilityIntended(p)) <==> HasRecognizer(p)
  {
  }
}
