/**
 * Values shared by the report page and the PDF writer: optional values,
 * results, the identifiers the backend hands out, JavaScript numbers as far
 * as the report needs them, and `String.prototype.trim`.
 */
module Common {

  datatype Option<+T> = None | Some(value: T) {
    function GetOr(default: T): T {
      match this
      case Some(v) => v
      case None => default
    }
  }

  datatype Result<+R, +E> = Success(value: R) | Failure(error: E)

  /** An `ApiKey` is either a string or a number. */
  datatype ApiKey = StrKey(s: string) | NumKey(n: real)

  /** JavaScript truthiness of an identifier: `''` and `0` are falsy. */
  predicate Truthy(k: ApiKey) {
    match k
    case StrKey(s) => s != ""
    case NumKey(n) => n != 0.0
  }

  /** Truthiness of an optional identifier: `undefined` is falsy. */
  predicate TruthyOpt(k: Option<ApiKey>) {
    k.Some? && Truthy(k.value)
  }

  /**
   * A JavaScript number as the report uses it: NaN or some other value.
   * How a non-NaN number is rendered (`String(v)`) is left to a parameter.
   */
  datatype Val = NaN | Num(x: real)

  /** The text a template literal `${k}` gives for an identifier. */
  function KeyText(k: ApiKey, show: real -> string): string {
    match k
    case StrKey(s) => s
    case NumKey(n) => show(n)
  }

  /** ECMAScript WhiteSpace and LineTerminator code points (what `trim` strips). */
  predicate IsSpace(c: char) {
    c in {'\t', '\n', '\U{000B}', '\U{000C}', '\r', ' ', '\U{00A0}', '\U{1680}',
          '\U{2000}', '\U{2001}', '\U{2002}', '\U{2003}', '\U{2004}', '\U{2005}',
          '\U{2006}', '\U{2007}', '\U{2008}', '\U{2009}', '\U{200A}', '\U{2028}',
          '\U{2029}', '\U{202F}', '\U{205F}', '\U{3000}', '\U{FEFF}'}
  }

  predicate AllSpace(s: string) {
    forall i :: 0 <= i < |s| ==> IsSpace(s[i])
  }

  /** Drops leading white space: the result is the suffix starting at the first non-space. */
  function TrimStart(s: string): (r: string)
    ensures |r| <= |s| && r == s[|s| - |r|..]
    ensures AllSpace(s[..|s| - |r|])
    ensures r != [] ==> !IsSpace(r[0])
  {
    if s != [] && IsSpace(s[0]) then TrimStart(s[1..]) else s
  }

  /** Drops trailing white space: the result is the prefix ending at the last non-space. */
  function TrimEnd(s: string): (r: string)
    ensures |r| <= |s| && r == s[..|r|]
    ensures AllSpace(s[|r|..])
    ensures r != [] ==> !IsSpace(r[|r| - 1])
  {
    if s != [] && IsSpace(s[|s| - 1]) then TrimEnd(s[..|s| - 1]) else s
  }

  /**
   * `s.trim()`: the longest infix of `s` that neither starts nor ends with
   * white space; it is empty exactly when `s` is all white space.
   */
  function Trim(s: string): (r: string)
    ensures |r| <= |s|
    ensures r != [] ==> !IsSpace(r[0]) && !IsSpace(r[|r| - 1])
    ensures r == [] <==> AllSpace(s)
  {
    var t := TrimStart(s);
    var r := TrimEnd(t);
    assert r == [] ==> AllSpace(s) by {
      if r == [] {
        assert s == s[..|s| - |t|] + t;
        assert AllSpace(t[|r|..]);
      }
    }
    r
  }

  /** `trim()` only removes white space: the result sits in `s` with nothing but white space around it. */
  lemma TrimIsInfix(s: string)
    ensures exists a :: 0 <= a <= |s| - |Trim(s)| && Trim(s) == s[a..a + |Trim(s)|]
                        && AllSpace(s[..a]) && AllSpace(s[a + |Trim(s)|..])
  {
    var t := TrimStart(s);
    var a := |s| - |t|;
    assert Trim(s) == s[a..a + |Trim(s)|] && AllSpace(s[..a]) && s[a + |Trim(s)|..] == t[|Trim(s)|..];
  }
}
