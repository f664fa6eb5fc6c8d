/** Vocabulary shared by the server and the browser scripts: identifiers,
    timestamps, optional values, HTTP replies, and the two JavaScript string
    operations every form relies on (`\s` and `String.prototype.trim`). */
module Common {

  /** Document and record identifiers (`_id`, `id`) are strings. */
  type Id = string

  /** A point in time in milliseconds since the epoch, as `Date.now()` gives it. */
  type Time = int

  datatype Option<+T> = None | Some(value: T)

  /** The answer of an HTTP handler: a success status with its JSON body, or an
      error status with the `message` field of its JSON body. */
  datatype Reply<+T> = Ok(status: int, value: T) | Fail(status: int, message: string)

  /** A decoded token payload: the claims object `jwt.verify` returns. */
  type Payload = map<string, string>

  /** Reading a property of a payload; `None` is JavaScript's `undefined`. */
  function Claim(p: Payload, name: string): (r: Option<string>)
    ensures r.Some? <==> name in p
    ensures r.Some? ==> r.value == p[name]
  {
    if name in p then Some(p[name]) else None
  }

  /** The characters JavaScript's `\s` matches, which are also the ones `trim`
      strips: the ECMAScript WhiteSpace and LineTerminator code points. */
  predicate IsJsSpace(c: char) {
    || c == '\t' || c == '\n' || c == '\U{B}' || c == '\U{C}' || c == '\r' || c == ' '
    || c == '\U{A0}' || c == '\U{1680}' || ('\U{2000}' <= c <= '\U{200A}')
    || c == '\U{2028}' || c == '\U{2029}' || c == '\U{202F}' || c == '\U{205F}'
    || c == '\U{3000}' || c == '\U{FEFF}'
  }

  /** `\d` without the `u` flag: the ASCII digits only. */
  predicate IsAsciiDigit(c: char) {
    '0' <= c <= '9'
  }

  /** `s.indexOf(c)` as an option: the position of the first `c` in `s`, if any. */
  function IndexOf(s: string, c: char): (r: Option<nat>)
    ensures r.None? <==> c !in s
    ensures r.Some? ==> r.value < |s| && s[r.value] == c && c !in s[..r.value]
  {
    if s == [] then None
    else if s[0] == c then Some(0)
    else match IndexOf(s[1..], c)
      case None => None
      case Some(i) => Some(i + 1)
  }

  /** Where the text of `s` starts when scanning from `from`: the first
      position at or after `from` that is not whitespace, or `|s|`. */
  function TextStart(s: string, from: nat): (i: nat)
    requires from <= |s|
    ensures from <= i <= |s|
    ensures forall k :: from <= k < i ==> IsJsSpace(s[k])
    ensures i == |s| || !IsJsSpace(s[i])
    decreases |s| - from
  {
    if from < |s| && IsJsSpace(s[from]) then TextStart(s, from + 1) else from
  }

  /** Where the text of `s` ends when scanning back from `hi` but not below
      `lo`: just after the last position before `hi` that is not whitespace,
      or `lo`. */
  function TextEnd(s: string, lo: nat, hi: nat): (j: nat)
    requires lo <= hi <= |s|
    ensures lo <= j <= hi
    ensures forall k :: j <= k < hi ==> IsJsSpace(s[k])
    ensures j == lo || !IsJsSpace(s[j - 1])
    decreases hi
  {
    if lo < hi && IsJsSpace(s[hi - 1]) then TextEnd(s, lo, hi - 1) else hi
  }

  /** `s.trim()`: the slice of `s` between the first and the last character
      that are not whitespace; only whitespace is cut off on either side, and
      neither end of the result is whitespace. */
  function Trim(s: string): (r: string)
    ensures var i := TextStart(s, 0);
            && i + |r| <= |s| && r == s[i..i + |r|]
            && (forall k :: 0 <= k < i ==> IsJsSpace(s[k]))
            && (forall k :: i + |r| <= k < |s| ==> IsJsSpace(s[k]))
    ensures r == [] || (!IsJsSpace(r[0]) && !IsJsSpace(r[|r| - 1]))
  {
    var i := TextStart(s, 0);
    s[i..TextEnd(s, i, |s|)]
  }

  /** Trimming is idempotent: a trimmed value entered again is kept as it is. */
  lemma {:induction false} TrimIdempotent(s: string)
    ensures Trim(Trim(s)) == Trim(s)
  {
    var r := Trim(s);
    if r != [] {
      assert TextStart(r, 0) == 0;
      assert TextEnd(r, 0, |r|) == |r|;
    }
  }
}
