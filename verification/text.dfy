/**
 * The string primitives the request handler relies on: ECMAScript whitespace
 * (what `String.prototype.trim` strips and what the regular expression class
 * `\s` matches), trimming, stripping every whitespace run, and lower-casing.
 */
module Text {

  /**
   * ECMAScript WhiteSpace and LineTerminator code points: tab, line tabulation,
   * form feed, zero-width no-break space, the space separators of Unicode
   * category Zs, and LF, CR, LS, PS.
   */
  predicate IsWhitespace(c: char) {
    || c == '\t' || c == '\n' || c == '\U{000B}' || c == '\U{000C}' || c == '\r'
    || c == ' ' || c == '\U{00A0}' || c == '\U{1680}'
    || ('\U{2000}' <= c <= '\U{200A}')
    || c == '\U{2028}' || c == '\U{2029}' || c == '\U{202F}' || c == '\U{205F}'
    || c == '\U{3000}' || c == '\U{FEFF}'
  }

  predicate AllWhitespace(s: string) {
    forall i :: 0 <= i < |s| ==> IsWhitespace(s[i])
  }

  predicate NoWhitespace(s: string) {
    forall i :: 0 <= i < |s| ==> !IsWhitespace(s[i])
  }

  /** How many whitespace characters `s` starts with. */
  function LeadingWhitespace(s: string): (n: nat)
    ensures n <= |s|
    ensures forall i :: 0 <= i < n ==> IsWhitespace(s[i])
    ensures n == |s| || !IsWhitespace(s[n])
    decreases |s|
  {
    if s != [] && IsWhitespace(s[0]) then 1 + LeadingWhitespace(s[1..]) else 0
  }

  /** How many whitespace characters `s` ends with. */
  function TrailingWhitespace(s: string): (n: nat)
    ensures n <= |s|
    ensures forall i :: |s| - n <= i < |s| ==> IsWhitespace(s[i])
    ensures n == |s| || !IsWhitespace(s[|s| - n - 1])
    decreases |s|
  {
    if s != [] && IsWhitespace(s[|s| - 1]) then 1 + TrailingWhitespace(s[..|s| - 1]) else 0
  }

  /**
   * `String.prototype.trim`: the infix of `s` left after cutting the leading
   * whitespace and then the trailing whitespace; it is empty exactly when `s`
   * is all whitespace, and otherwise starts and ends with a non-whitespace character.
   */
  function Trim(s: string): (r: string)
    ensures var a := LeadingWhitespace(s);
      var b := |s| - TrailingWhitespace(s[a..]);
      && a <= b <= |s|
      && r == s[a..b]
      && (forall i :: 0 <= i < a ==> IsWhitespace(s[i]))
      && (forall i :: b <= i < |s| ==> IsWhitespace(s[i]))
    ensures r == [] || (!IsWhitespace(r[0]) && !IsWhitespace(r[|r| - 1]))
    ensures r == [] <==> AllWhitespace(s)
  {
    var a := LeadingWhitespace(s);
    var rest := s[a..];
    var b := |s| - TrailingWhitespace(rest);
    assert forall i :: b <= i < |s| ==> s[i] == rest[i - a];
    s[a..b]
  }

  /**
   * `s.replace(/\s+/g, "")`: every maximal run of whitespace is replaced by the
   * empty string, so every whitespace character goes and all others stay, in order.
   */
  function StripWhitespace(s: string): (r: string)
    ensures NoWhitespace(r)
    ensures |r| <= |s|
    ensures forall c :: c in r <==> c in s && !IsWhitespace(c)
    ensures r == [] <==> AllWhitespace(s)
    decreases |s|
  {
    if s == [] then []
    else if IsWhitespace(s[0]) then StripWhitespace(s[1..])
    else [s[0]] + StripWhitespace(s[1..])
  }

  /**
   * Stripping works piece by piece: the stripped concatenation is the
   * concatenation of the stripped parts. With the one-character cases below
   * this pins the result down completely, order and repetitions included.
   */
  lemma {:induction false} StripWhitespaceAppend(a: string, b: string)
    ensures StripWhitespace(a + b) == StripWhitespace(a) + StripWhitespace(b)
    decreases |a|
  {
    if a == [] {
      assert a + b == b;
    } else {
      var ab := a + b;
      assert ab[0] == a[0] && ab[1..] == a[1..] + b;
      StripWhitespaceAppend(a[1..], b);
      StripWhitespaceStep(ab);
      StripWhitespaceStep(a);
    }
  }

  /** One step of stripping: the first character goes or stays, and the rest is stripped. */
  lemma StripWhitespaceStep(s: string)
    requires s != []
    ensures IsWhitespace(s[0]) ==> StripWhitespace(s) == StripWhitespace(s[1..])
    ensures !IsWhitespace(s[0]) ==> StripWhitespace(s) == [s[0]] + StripWhitespace(s[1..])
  {
  }

  /** A single character is dropped exactly when it is whitespace, and kept as it is otherwise. */
  lemma StripWhitespaceSingle(c: char)
    ensures IsWhitespace(c) ==> StripWhitespace([c]) == []
    ensures !IsWhitespace(c) ==> StripWhitespace([c]) == [c]
  {
    assert [c][1..] == [];
  }

  /** Stripping leaves a string without whitespace untouched, so stripping twice is stripping once. */
  lemma {:induction false} StripWhitespaceFixesClean(s: string)
    requires NoWhitespace(s)
    ensures StripWhitespace(s) == s
    decreases |s|
  {
    if s != [] {
      assert !IsWhitespace(s[0]);
      StripWhitespaceFixesClean(s[1..]);
    }
  }

  predicate IsUpperAscii(c: char) {
    'A' <= c <= 'Z'
  }

  function LowerChar(c: char): (l: char)
    ensures !IsUpperAscii(l)
    ensures IsUpperAscii(c) ==> l as int == c as int + 32
    ensures !IsUpperAscii(c) ==> l == c
  {
    if IsUpperAscii(c) then (c as int + 32) as char else c
  }

  /** `String.prototype.toLowerCase`, for the ASCII letters only. */
  function ToLower(s: string): (r: string)
    ensures |r| == |s|
    ensures forall i :: 0 <= i < |s| ==> !IsUpperAscii(r[i])
    ensures forall i :: 0 <= i < |s| && IsUpperAscii(s[i]) ==> r[i] as int == s[i] as int + 32
    ensures forall i :: 0 <= i < |s| && !IsUpperAscii(s[i]) ==> r[i] == s[i]
  {
    seq(|s|, i requires 0 <= i < |s| => LowerChar(s[i]))
  }
}
