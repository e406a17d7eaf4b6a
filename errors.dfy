/** The two error classes thrown by the binder (src/errors.js): each records the
    message and the numeric code it was given, and prints as "<code> - <message>". */
module Errors {
  import opened Optional

  /** The two JavaScript error classes. */
  datatype ErrorClass = RouterBindingError | ControllerBindingError

  /** A code as the constructor receives it: a number, or `undefined` when the
      caller read a static constant the class does not define. */
  datatype Code = Num(value: nat) | Undefined

  /** An error object: its class, `_message` and `_errorCode` as stored by the constructor. */
  datatype BindingError = BindingError(cls: ErrorClass, message: string, errorCode: Code)

  const INVALID_METHOD: nat := 1
  const CONTROLLER_NOT_FOUND: nat := 2
  const CONTROLLER_ACTION_NOT_FOUND: nat := 3
  const NO_NAME: nat := 0
  const NAME_ALREADY_BOUND: nat := 1

  /** Reading a static property `cls[constant]` for the names the binder reads, and
      `length`: the defined code constants and the constructor's arity 2 are numbers,
      any other of these names is `undefined`. */
  function StaticCode(cls: ErrorClass, constant: string): (c: Code)
    ensures constant == "length" ==> c == Num(2)
    ensures cls == ControllerBindingError ==>
              (c.Num? <==> constant in {"NO_NAME", "NAME_ALREADY_BOUND", "length"})
    ensures cls == RouterBindingError ==>
              (c.Num? <==> constant in {"INVALID_METHOD", "CONTROLLER_NOT_FOUND", "CONTROLLER_ACTION_NOT_FOUND", "length"})
  {
    if constant == "length" then Num(2)
    else
      match cls
      case RouterBindingError =>
        if constant == "INVALID_METHOD" then Num(INVALID_METHOD)
        else if constant == "CONTROLLER_NOT_FOUND" then Num(CONTROLLER_NOT_FOUND)
        else if constant == "CONTROLLER_ACTION_NOT_FOUND" then Num(CONTROLLER_ACTION_NOT_FOUND)
        else Undefined
      case ControllerBindingError =>
        if constant == "NO_NAME" then Num(NO_NAME)
        else if constant == "NAME_ALREADY_BOUND" then Num(NAME_ALREADY_BOUND)
        else Undefined
  }

  /** The router codes are pairwise distinct, so within RouterBindingError a code names one error. */
  lemma RouterCodesDistinct()
    ensures StaticCode(RouterBindingError, "INVALID_METHOD") != StaticCode(RouterBindingError, "CONTROLLER_NOT_FOUND")
    ensures StaticCode(RouterBindingError, "INVALID_METHOD") != StaticCode(RouterBindingError, "CONTROLLER_ACTION_NOT_FOUND")
    ensures StaticCode(RouterBindingError, "CONTROLLER_NOT_FOUND") != StaticCode(RouterBindingError, "CONTROLLER_ACTION_NOT_FOUND")
    ensures StaticCode(ControllerBindingError, "NO_NAME") != StaticCode(ControllerBindingError, "NAME_ALREADY_BOUND")
  {
  }

  /** NAME_ALREADY_BOUND and INVALID_METHOD share the value 1, and two errors that differ only in their
      class print identically: the code (and the printed form) alone does not identify the error. */
  lemma CodesCollideAcrossClasses(message: string)
    ensures StaticCode(ControllerBindingError, "NAME_ALREADY_BOUND") == StaticCode(RouterBindingError, "INVALID_METHOD")
    ensures var a := BindingError(ControllerBindingError, message, StaticCode(ControllerBindingError, "NAME_ALREADY_BOUND"));
            var b := BindingError(RouterBindingError, message, StaticCode(RouterBindingError, "INVALID_METHOD"));
            a != b && ToString(a) == ToString(b)
  {
  }

  /** ControllerBindingError has no NOT_FOUND constant: the not-found errors carry an undefined code
      and print with the prefix "undefined - ". */
  lemma NotFoundCodeIsUndefined(message: string)
    ensures StaticCode(ControllerBindingError, "NOT_FOUND") == Undefined
    ensures ToString(BindingError(ControllerBindingError, message, StaticCode(ControllerBindingError, "NOT_FOUND")))
            == "undefined - " + message
  {
  }

  // ---------------------------------------------------------------------------
  // Printing: `${this._errorCode} - ${this._message}`

  predicate IsDigit(c: char) { '0' <= c <= '9' }

  function DigitChar(d: nat): (c: char)
    requires d < 10
    ensures IsDigit(c) && DigitValue(c) == d
  {
    "0123456789"[d]
  }

  function DigitValue(c: char): (d: nat)
    requires IsDigit(c)
  {
    (c as int - '0' as int) as nat
  }

  /** The decimal text JavaScript prints for a non-negative integer. */
  function Decimal(n: nat): (s: string)
    ensures |s| > 0 && forall i :: 0 <= i < |s| ==> IsDigit(s[i])
  {
    if n < 10 then [DigitChar(n)] else Decimal(n / 10) + [DigitChar(n % 10)]
  }

  /** The value of a string of decimal digits. */
  function DecimalValue(s: string): (n: nat)
    requires forall i :: 0 <= i < |s| ==> IsDigit(s[i])
  {
    if s == [] then 0 else DecimalValue(s[..|s| - 1]) * 10 + DigitValue(s[|s| - 1])
  }

  lemma {:induction false} DecimalRoundTrip(n: nat)
    ensures DecimalValue(Decimal(n)) == n
  {
    if n >= 10 {
      DecimalRoundTrip(n / 10);
      var s := Decimal(n);
      assert s[..|s| - 1] == Decimal(n / 10);
    }
  }

  /** Template-literal text of a code. */
  function CodeText(c: Code): (s: string)
    ensures ' ' !in s && |s| > 0
  {
    match c
    case Num(n) => Decimal(n)
    case Undefined => "undefined"
  }

  /** `toString()`, identical for both classes: the code's text, then " - ", then the message. */
  function ToString(e: BindingError): (s: string)
    ensures |s| == |CodeText(e.errorCode)| + 3 + |e.message|
    ensures s[..|CodeText(e.errorCode)|] == CodeText(e.errorCode)
    ensures s[|CodeText(e.errorCode)|..|CodeText(e.errorCode)| + 3] == " - "
    ensures s[|s| - |e.message|..] == e.message
  {
    CodeText(e.errorCode) + " - " + e.message
  }

  /** Reading a code back from its text. */
  function ParseCode(s: string): (c: Option<Code>)
  {
    if s == "undefined" then Some(Undefined)
    else if |s| > 0 && forall i :: 0 <= i < |s| ==> IsDigit(s[i]) then Some(Num(DecimalValue(s)))
    else None
  }

  /** Index of the first space in s, or |s| when there is none. */
  function FirstSpace(s: string): (i: nat)
    ensures i <= |s| && ' ' !in s[..i] && (i < |s| ==> s[i] == ' ')
  {
    if s == [] || s[0] == ' ' then 0
    else
      var k := FirstSpace(s[1..]);
      assert s[..k + 1] == [s[0]] + s[1..][..k];
      1 + k
  }

  /** Splitting a printed error back into its code and message at the first " - ". */
  function ParseErrorText(s: string): (r: Option<(Code, string)>)
  {
    var i := FirstSpace(s);
    if i + 3 <= |s| && s[i..i + 3] == " - " then
      match ParseCode(s[..i])
      case Some(c) => Some((c, s[i + 3..]))
      case None => None
    else None
  }

  /** Printing loses nothing but the class: the code and the message can be read back. */
  lemma {:induction false} ToStringRoundTrip(e: BindingError)
    ensures ParseErrorText(ToString(e)) == Some((e.errorCode, e.message))
  {
    var t := CodeText(e.errorCode);
    var s := ToString(e);
    assert s == t + (" - " + e.message);
    FirstSpaceAfterWord(t, " - " + e.message);
    assert s[..|t|] == t;
    assert s[|t| + 3..] == e.message;
    assert s[|t|..|t| + 3] == " - ";
    assert ParseCode(t) == Some(e.errorCode) by {
      match e.errorCode
      case Num(n) =>
        DecimalRoundTrip(n);
        assert t != "undefined" by { assert IsDigit(t[0]); }
      case Undefined =>
    }
  }

  lemma {:induction false} FirstSpaceAfterWord(t: string, rest: string)
    requires ' ' !in t && |rest| > 0 && rest[0] == ' '
    ensures FirstSpace(t + rest) == |t|
  {
    var s := t + rest;
    assert s[..|t|] == t;
    assert s[|t|] == ' ';
  }
}
