/** String primitives with the semantics of the JavaScript built-ins the
    sources use: String.prototype.trim, startsWith, indexOf, split with a
    string separator, Array.prototype.join, and Buffer.byteLength(s, "utf8").
    A Dafny string is a sequence of Unicode scalar values. */
module Strings {

  datatype Option<+T> = None | Some(value: T)

  /** The characters JavaScript's trim() strips (WhiteSpace and LineTerminator);
      the regular-expression class \s matches the same set. */
  predicate IsJsWhitespace(c: char) {
    || c == '\t' || c == '\n' || c == '\U{000B}' || c == '\U{000C}' || c == '\r'
    || c == ' ' || c == '\U{00A0}' || c == '\U{1680}'
    || ('\U{2000}' <= c <= '\U{200A}')
    || c == '\U{2028}' || c == '\U{2029}' || c == '\U{202F}' || c == '\U{205F}'
    || c == '\U{3000}' || c == '\U{FEFF}'
  }

  predicate AllWhitespace(s: string) {
    forall i :: 0 <= i < |s| ==> IsJsWhitespace(s[i])
  }

  predicate IsBlank(s: string) {
    AllWhitespace(s)
  }

  /** Leading whitespace removed. */
  function TrimStart(s: string): (r: string)
    ensures |r| <= |s|
    ensures r == [] || !IsJsWhitespace(r[0])
  {
    if s != [] && IsJsWhitespace(s[0]) then TrimStart(s[1..]) else s
  }

  /** Trailing whitespace removed. */
  function TrimEnd(s: string): (r: string)
    ensures |r| <= |s|
    ensures r == [] || !IsJsWhitespace(r[|r| - 1])
  {
    if s != [] && IsJsWhitespace(s[|s| - 1]) then TrimEnd(s[..|s| - 1]) else s
  }

  /** trimStart() removes a whitespace-only prefix. */
  lemma {:induction false} TrimStartShape(s: string)
    ensures TrimStart(s) == s[|s| - |TrimStart(s)|..]
    ensures AllWhitespace(s[..|s| - |TrimStart(s)|])
  {
    if s != [] && IsJsWhitespace(s[0]) {
      TrimStartShape(s[1..]);
      var r := TrimStart(s);
      assert s[1..][..|s[1..]| - |r|] == s[1..|s| - |r|];
    }
  }

  /** trimEnd() removes a whitespace-only suffix. */
  lemma {:induction false} TrimEndShape(s: string)
    ensures TrimEnd(s) == s[..|TrimEnd(s)|]
    ensures AllWhitespace(s[|TrimEnd(s)|..])
  {
    if s != [] && IsJsWhitespace(s[|s| - 1]) {
      TrimEndShape(s[..|s| - 1]);
      var r := TrimEnd(s);
      assert s[..|s| - 1][|r|..] + [s[|s| - 1]] == s[|r|..];
    }
  }

  /** Neither starts nor ends with whitespace. */
  predicate IsTrimmed(s: string) {
    s == [] || (!IsJsWhitespace(s[0]) && !IsJsWhitespace(s[|s| - 1]))
  }

  /** String.prototype.trim: the longest infix of s that neither starts nor
      ends with whitespace; only whitespace is removed (see TrimShape). */
  function Trim(s: string): (r: string)
    ensures |r| <= |s|
    ensures IsTrimmed(r)
  {
    var t := TrimStart(s);
    TrimEndShape(t);
    TrimEnd(t)
  }

  /** A string without surrounding whitespace is its own trim. */
  lemma TrimOfTrimmed(s: string)
    requires IsTrimmed(s)
    ensures Trim(s) == s
  {
  }

  /** Number of characters trim() drops at the front. */
  function TrimOffset(s: string): nat
  {
    |s| - |TrimStart(s)|
  }

  /** trim() keeps the infix s[o..o + |r|] and drops only whitespace around it. */
  lemma TrimShape(s: string)
    ensures TrimOffset(s) + |Trim(s)| <= |s|
    ensures Trim(s) == s[TrimOffset(s)..TrimOffset(s) + |Trim(s)|]
    ensures AllWhitespace(s[..TrimOffset(s)])
    ensures AllWhitespace(s[TrimOffset(s) + |Trim(s)|..])
  {
    var t := TrimStart(s);
    var r := TrimEnd(t);
    var i := |s| - |t|;
    TrimStartShape(s);
    TrimEndShape(t);
    assert t == s[i..];
    assert r == t[..|r|];
    assert s[i + |r|..] == t[|r|..];
  }

  lemma {:induction false} TrimStartOfBlank(s: string)
    requires AllWhitespace(s)
    ensures TrimStart(s) == []
  {
    if s != [] {
      TrimStartOfBlank(s[1..]);
    }
  }

  /** s.trim() is empty exactly when s consists only of whitespace. */
  lemma TrimEmptyIffBlank(s: string)
    ensures Trim(s) == [] <==> IsBlank(s)
  {
    if IsBlank(s) {
      TrimStartOfBlank(s);
    } else if Trim(s) == [] {
      TrimShape(s);
    }
  }

  /** Trimming twice is trimming once. */
  lemma TrimIdempotent(s: string)
    ensures Trim(Trim(s)) == Trim(s)
  {
    TrimOfTrimmed(Trim(s));
  }

  predicate StartsWith(s: string, prefix: string) {
    |prefix| <= |s| && s[..|prefix|] == prefix
  }

  predicate EndsWith(s: string, suffix: string) {
    |suffix| <= |s| && s[|s| - |suffix|..] == suffix
  }

  predicate OccursAt(s: string, pat: string, i: int) {
    0 <= i && i + |pat| <= |s| && s[i..i + |pat|] == pat
  }

  lemma OccursShift(s: string, pat: string, j: int)
    requires s != [] && 1 <= j
    ensures OccursAt(s, pat, j) <==> OccursAt(s[1..], pat, j - 1)
  {
    if j + |pat| <= |s| {
      var here := s[j..j + |pat|];
      var there := s[1..][j - 1..j - 1 + |pat|];
      forall q | 0 <= q < |pat| ensures here[q] == there[q] {
        assert there[q] == s[j + q];
      }
      assert here == there;
    }
  }

  /** An occurrence inside the infix s[lo..hi] is an occurrence in s. */
  lemma OccursInInfix(s: string, lo: nat, hi: nat, pat: string, j: int)
    requires lo <= hi <= |s| && OccursAt(s[lo..hi], pat, j)
    ensures OccursAt(s, pat, lo + j)
  {
    var inner := s[lo..hi][j..j + |pat|];
    var outer := s[lo + j..lo + j + |pat|];
    forall q | 0 <= q < |pat| ensures inner[q] == outer[q] {
      assert inner[q] == s[lo + j + q];
    }
    assert inner == outer;
  }

  /** String.prototype.indexOf: the first position where pat occurs, if any. */
  function IndexOf(s: string, pat: string): (r: Option<nat>)
    ensures r.Some? ==> OccursAt(s, pat, r.value)
    ensures r.Some? ==> forall j :: 0 <= j < r.value ==> !OccursAt(s, pat, j)
    ensures r.None? ==> forall j :: !OccursAt(s, pat, j)
    decreases |s|
  {
    if |s| < |pat| then None
    else if s[..|pat|] == pat then Some(0)
    else
      var rest := IndexOf(s[1..], pat);
      assert forall j :: 1 <= j ==> (OccursAt(s, pat, j) <==> OccursAt(s[1..], pat, j - 1)) by {
        forall j | 1 <= j { OccursShift(s, pat, j); }
      }
      match rest
      case None => None
      case Some(i) => Some(i + 1)
  }

  /** A piece before the first occurrence of pat does not contain pat. */
  lemma NoOccurrenceBefore(s: string, pat: string, i: nat)
    requires pat != [] && i <= |s|
    requires forall j :: 0 <= j < i ==> !OccursAt(s, pat, j)
    ensures forall j :: !OccursAt(s[..i], pat, j)
  {
    forall j | OccursAt(s[..i], pat, j) ensures false {
      assert s[j..j + |pat|] == s[..i][j..j + |pat|];
      assert OccursAt(s, pat, j);
    }
  }

  predicate Contains(s: string, pat: string) {
    IndexOf(s, pat).Some?
  }

  /** s.split(sep) for a non-empty string separator: the pieces between the
      non-overlapping occurrences of sep, scanning left to right. */
  function Split(s: string, sep: string): (parts: seq<string>)
    requires sep != []
    ensures |parts| >= 1
    ensures forall k :: 0 <= k < |parts| ==> !Contains(parts[k], sep)
    decreases |s|
  {
    match IndexOf(s, sep)
    case None => [s]
    case Some(i) =>
      NoOccurrenceBefore(s, sep, i);
      [s[..i]] + Split(s[i + |sep|..], sep)
  }

  /** Array.prototype.join. */
  function Join(parts: seq<string>, sep: string): string
  {
    if parts == [] then []
    else if |parts| == 1 then parts[0]
    else parts[0] + sep + Join(parts[1..], sep)
  }

  /** Joining the pieces of a split with its separator gives back the text. */
  lemma {:induction false} SplitJoin(s: string, sep: string)
    requires sep != []
    ensures Join(Split(s, sep), sep) == s
    decreases |s|
  {
    match IndexOf(s, sep)
    case None =>
    case Some(i) =>
      var rest := s[i + |sep|..];
      var pieces := Split(rest, sep);
      assert Split(s, sep) == [s[..i]] + pieces;
      SplitJoin(rest, sep);
      assert ([s[..i]] + pieces)[1..] == pieces;
      assert Join([s[..i]] + pieces, sep) == s[..i] + sep + Join(pieces, sep);
      assert s[i..i + |sep|] == sep;
      assert s == s[..i] + sep + rest;
  }

  /** Join of a non-empty list, split before its last piece. */
  lemma {:induction false} JoinSnoc(parts: seq<string>, last: string, sep: string)
    requires parts != []
    ensures Join(parts + [last], sep) == Join(parts, sep) + sep + last
    decreases |parts|
  {
    if |parts| == 1 {
      assert parts + [last] == [parts[0], last];
    } else {
      assert (parts + [last])[1..] == parts[1..] + [last];
      JoinSnoc(parts[1..], last, sep);
    }
  }

  /** Width in UTF-8 of one Unicode scalar value. */
  function Utf8Width(c: char): (n: nat)
    ensures 1 <= n <= 4
  {
    if c as int < 0x80 then 1
    else if c as int < 0x800 then 2
    else if c as int < 0x10000 then 3
    else 4
  }

  /** Buffer.byteLength(s, "utf8"). */
  function Utf8Length(s: string): nat
  {
    if s == [] then 0 else Utf8Width(s[0]) + Utf8Length(s[1..])
  }

  /** Every character takes between one and four bytes. */
  lemma {:induction false} Utf8LengthBounds(s: string)
    ensures |s| <= Utf8Length(s) <= 4 * |s|
  {
    if s != [] {
      Utf8LengthBounds(s[1..]);
    }
  }

  /** A string of ASCII characters takes one byte per character. */
  lemma {:induction false} Utf8LengthAscii(s: string)
    requires forall i :: 0 <= i < |s| ==> s[i] as int < 0x80
    ensures Utf8Length(s) == |s|
  {
    if s != [] {
      Utf8LengthAscii(s[1..]);
    }
  }

  /** Decimal digits of a natural number, as Number.prototype.toString gives them. */
  function NatToString(n: nat): (r: string)
    ensures r != []
    ensures forall i :: 0 <= i < |r| ==> '0' <= r[i] <= '9'
  {
    var d := ['0' + (n % 10) as char];
    if n < 10 then d else NatToString(n / 10) + d
  }
}
