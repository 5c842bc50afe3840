/** String helpers shared by the agent and the seeding code: JavaScript's
    whitespace class, ASCII lower-casing, substring search, `Array.join`
    and the decimal rendering of whole numbers. */
module Text {

  /** The characters matched by JavaScript's `\s` class (ECMAScript
      WhiteSpace and LineTerminator). */
  predicate IsWhitespace(c: char) {
    c == ' ' || c == '\t' || c == '\n' || c == '\r' || c == '\U{000B}' || c == '\U{000C}'
    || c == '\U{00A0}' || c == '\U{1680}' || ('\U{2000}' <= c <= '\U{200A}')
    || c == '\U{2028}' || c == '\U{2029}' || c == '\U{202F}' || c == '\U{205F}'
    || c == '\U{3000}' || c == '\U{FEFF}'
  }

  function LowerChar(c: char): char {
    if 'A' <= c <= 'Z' then (c as int + 32) as char else c
  }

  /** `String.prototype.toLowerCase`, restricted to the ASCII letters. */
  function ToLower(s: string): (r: string)
    ensures |r| == |s|
    ensures forall i :: 0 <= i < |s| ==> r[i] == LowerChar(s[i])
  {
    if s == [] then [] else [LowerChar(s[0])] + ToLower(s[1..])
  }

  lemma ToLowerIdempotent(s: string)
    ensures ToLower(ToLower(s)) == ToLower(s)
  {
    var once := ToLower(s);
    var twice := ToLower(once);
    assert forall i :: 0 <= i < |s| ==> twice[i] == once[i];
  }

  /** `sub` stands in `s` starting at position `i`. */
  ghost predicate OccursAt(sub: string, s: string, i: int) {
    0 <= i && i + |sub| <= |s| && s[i..i + |sub|] == sub
  }

  /** `s.includes(sub)`: some window of `s` equals `sub`. */
  ghost predicate Occurs(sub: string, s: string) {
    exists i :: OccursAt(sub, s, i)
  }

  /** The search a JavaScript engine does for `includes`: try every start
      position from the left. */
  function Contains(s: string, sub: string): (r: bool)
    ensures r <==> Occurs(sub, s)
    decreases |s|
  {
    if |sub| <= |s| && s[..|sub|] == sub then
      assert OccursAt(sub, s, 0);
      true
    else if |s| <= |sub| then
      NoRoomNoOccurrence(sub, s);
      false
    else
      OccursShift(sub, s);
      Contains(s[1..], sub)
  }

  lemma NoRoomNoOccurrence(sub: string, s: string)
    requires |s| <= |sub| && !(|sub| <= |s| && s[..|sub|] == sub)
    ensures !Occurs(sub, s)
  {
    forall i | 0 <= i ensures !OccursAt(sub, s, i) {
      if i == 0 && |s| == |sub| {
        assert s[..|sub|] == s[i..i + |sub|];
      }
    }
  }

  /** When `sub` is not at the front of `s`, it occurs in `s` exactly when it
      occurs in the rest of `s`. */
  lemma OccursShift(sub: string, s: string)
    requires s != [] && !(|sub| <= |s| && s[..|sub|] == sub)
    ensures Occurs(sub, s) <==> Occurs(sub, s[1..])
  {
    if Occurs(sub, s) {
      var i :| OccursAt(sub, s, i);
      assert s[0..0 + |sub|] == s[..|sub|];
      assert 1 <= i;
      SliceOfTail(s, i - 1, |sub|);
      assert OccursAt(sub, s[1..], i - 1);
    }
    if Occurs(sub, s[1..]) {
      var j :| OccursAt(sub, s[1..], j);
      SliceOfTail(s, j, |sub|);
      assert OccursAt(sub, s, j + 1);
    }
  }

  lemma SliceOfTail(s: string, j: nat, n: nat)
    requires 1 + j + n <= |s|
    ensures s[1..][j..j + n] == s[j + 1..j + 1 + n]
  {
  }

  /** Case-insensitive substring test, as a regular expression with the
      `i` option matches a literal query. */
  function ContainsIgnoreCase(s: string, query: string): bool {
    Contains(ToLower(s), ToLower(query))
  }

  /** `xs.join(sep)`. */
  function Join(sep: string, xs: seq<string>): (r: string)
    ensures xs == [] ==> r == ""
    ensures |xs| == 1 ==> r == xs[0]
  {
    if xs == [] then "" else if |xs| == 1 then xs[0] else xs[0] + sep + Join(sep, xs[1..])
  }

  /** Joining one more element appends the separator and that element: the
      parts keep their input order. */
  lemma {:induction false} JoinSnoc(sep: string, xs: seq<string>, x: string)
    requires xs != []
    ensures Join(sep, xs + [x]) == Join(sep, xs) + sep + x
  {
    if |xs| == 1 {
      assert xs + [x] == [xs[0], x];
    } else {
      assert (xs + [x])[1..] == xs[1..] + [x];
      JoinSnoc(sep, xs[1..], x);
    }
  }

  predicate IsDigit(c: char) { '0' <= c <= '9' }

  function DigitChar(d: nat): char
    requires d < 10
  {
    ('0' as int + d) as char
  }

  /** Decimal digits of a natural number, most significant first. */
  function NatToString(n: nat): (r: string)
    ensures r != [] && forall i :: 0 <= i < |r| ==> IsDigit(r[i])
  {
    if n < 10 then [DigitChar(n)] else NatToString(n / 10) + [DigitChar(n % 10)]
  }

  /** `String(n)` for a whole number. */
  function IntToString(n: int): (r: string)
    ensures r != [] && forall i :: 0 <= i < |r| ==> !IsWhitespace(r[i])
    ensures r[0] == '-' <==> n < 0
  {
    if n < 0 then "-" + NatToString(-n) else NatToString(n)
  }

  function DigitValue(c: char): nat
    requires IsDigit(c)
  {
    c as int - '0' as int
  }

  /** Reads a string of decimal digits back as a number. */
  function ParseNat(s: string): nat
    requires forall i :: 0 <= i < |s| ==> IsDigit(s[i])
  {
    if s == [] then 0 else 10 * ParseNat(s[..|s| - 1]) + DigitValue(s[|s| - 1])
  }

  /** The decimal rendering loses nothing: reading it back gives the number. */
  lemma {:induction false} NatToStringRoundTrip(n: nat)
    ensures ParseNat(NatToString(n)) == n
  {
    var s := NatToString(n);
    if n >= 10 {
      NatToStringRoundTrip(n / 10);
      assert s[..|s| - 1] == NatToString(n / 10);
    }
  }
}
