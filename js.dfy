/** The slice of JavaScript runtime behaviour the dashboard relies on:
    optional and failing results, JSON values as `JSON.parse` returns them,
    truthiness, and `String.prototype.trim`. */
module Js {

  datatype Option<+T> = None | Some(value: T)

  datatype Result<+T, +E> = Ok(value: T) | Err(error: E)

  /** A value produced by `JSON.parse`. Numbers are restricted to integers. */
  datatype Json =
    | Null
    | Bool(b: bool)
    | Number(n: int)
    | Str(s: string)
    | Array(items: seq<Json>)
    | Object(fields: map<string, Json>)

  /** JavaScript truthiness of a JSON value (`if (v)`, `v || x`). */
  predicate Truthy(j: Json) {
    match j
    case Null => false
    case Bool(b) => b
    case Number(n) => n != 0
    case Str(s) => s != []
    case Array(_) => true
    case Object(_) => true
  }

  /** `typeof j === "object"` for a non-null value: arrays and objects. */
  predicate IsObjectLike(j: Json) {
    j.Array? || j.Object?
  }

  /** `safeJson`: the result of `JSON.parse`, or `null` when parsing throws.
      `parsed` is the abstract outcome of the parse (None when it throws). */
  function SafeJson(parsed: Option<Json>): (r: Json)
    ensures parsed.None? ==> r == Null
    ensures parsed.Some? ==> r == parsed.value
    ensures r != Null ==> parsed == Some(r)
  {
    if parsed.Some? then parsed.value else Null
  }

  /** The characters `String.prototype.trim` removes: the ECMAScript
      WhiteSpace and LineTerminator code points. */
  predicate IsWhitespace(c: char) {
    || c == '\t' || c == '\n' || c == '\U{000B}' || c == '\U{000C}' || c == '\r'
    || c == ' ' || c == '\U{00A0}' || c == '\U{1680}'
    || ('\U{2000}' <= c <= '\U{200A}')
    || c == '\U{2028}' || c == '\U{2029}' || c == '\U{202F}' || c == '\U{205F}'
    || c == '\U{3000}' || c == '\U{FEFF}'
  }

  predicate AllWhitespace(s: string) {
    forall k :: 0 <= k < |s| ==> IsWhitespace(s[k])
  }

  /** Length of the whitespace run at the start of `s`. */
  function LeadingWhitespace(s: string): (n: nat)
    ensures n <= |s|
    ensures AllWhitespace(s[..n])
    ensures n < |s| ==> !IsWhitespace(s[n])
  {
    if s == [] || !IsWhitespace(s[0]) then 0 else 1 + LeadingWhitespace(s[1..])
  }

  /** Length of the whitespace run at the end of `s`. */
  function TrailingWhitespace(s: string): (n: nat)
    ensures n <= |s|
    ensures AllWhitespace(s[|s| - n..])
    ensures n < |s| ==> !IsWhitespace(s[|s| - 1 - n])
  {
    if s == [] || !IsWhitespace(s[|s| - 1]) then 0 else 1 + TrailingWhitespace(s[..|s| - 1])
  }

  /** A character that is not whitespace lies before a whitespace-only
      tail. */
  lemma BeforeBlankTail(s: string, n: nat, i: nat)
    requires n <= |s| && AllWhitespace(s[|s| - n..])
    requires i < |s| && !IsWhitespace(s[i])
    ensures i < |s| - n
  {
    forall k | |s| - n <= k < |s| ensures IsWhitespace(s[k]) {
      assert s[|s| - n..][k - (|s| - n)] == s[k];
    }
  }

  /** Where the leading and trailing whitespace runs of `s` meet: either they
      cover all of `s`, or a non-blank middle lies between them. */
  lemma WhitespaceRunsMeet(s: string)
    ensures var i, j := LeadingWhitespace(s), |s| - TrailingWhitespace(s);
            (i < j || (i == |s| && AllWhitespace(s)))
  {
    var i, n := LeadingWhitespace(s), TrailingWhitespace(s);
    if i == |s| {
      forall k | 0 <= k < |s| ensures IsWhitespace(s[k]) {
        assert s[..i][k] == s[k];
      }
    } else {
      BeforeBlankTail(s, n, i);
    }
  }

  /** `s.trim()`: `s` without its leading and trailing whitespace. The result
      is the slice of `s` between two whitespace-only ends, it neither starts
      nor ends with whitespace, it is empty exactly when `s` is blank, and a
      string with no whitespace at its ends is returned unchanged. */
  function Trim(s: string): (r: string)
    ensures r == [] || (!IsWhitespace(r[0]) && !IsWhitespace(r[|r| - 1]))
    ensures r == [] <==> AllWhitespace(s)
    ensures s != [] && !IsWhitespace(s[0]) && !IsWhitespace(s[|s| - 1]) ==> r == s
  {
    var i, j := LeadingWhitespace(s), |s| - TrailingWhitespace(s);
    WhitespaceRunsMeet(s);
    if i < j then s[i..j] else []
  }

  /** The trimmed text is the slice of `s` between two whitespace-only ends. */
  lemma TrimIsSlice(s: string)
    ensures var r := Trim(s);
            exists i :: 0 <= i <= |s| - |r| && r == s[i..i + |r|]
                        && AllWhitespace(s[..i]) && AllWhitespace(s[i + |r|..])
  {
    var i, j := LeadingWhitespace(s), |s| - TrailingWhitespace(s);
    WhitespaceRunsMeet(s);
    if i < j {
      assert s[j..] == s[|s| - TrailingWhitespace(s)..];
      assert Trim(s) == s[i..i + |Trim(s)|];
    } else {
      assert s[..|s|] == s;
      assert Trim(s) == [] == s[|s|..|s|];
    }
  }

  /** Trimming twice is trimming once. */
  lemma TrimIdempotent(s: string)
    ensures Trim(Trim(s)) == Trim(s)
  {
    var r := Trim(s);
    if r != [] {
      assert !IsWhitespace(r[0]) && !IsWhitespace(r[|r| - 1]);
    }
  }
}
