/** The string operations the screens and handlers use: `toLowerCase`,
    `toUpperCase`, `includes`, `startsWith`, `trim`, `split(' ')`/`join(' ')` and the decimal
    rendering of a number inside a template string. Case mapping and
    white space are restricted to ASCII. */
module Text {
  import opened Seqs


  function LowerChar(c: char): char {
    if 'A' <= c <= 'Z' then (c as int + 32) as char else c
  }

  function UpperChar(c: char): char {
    if 'a' <= c <= 'z' then (c as int - 32) as char else c
  }

  /** `s.toLowerCase()` restricted to ASCII letters. */
  function Lower(s: string): (r: string)
    ensures |r| == |s|
    ensures forall i :: 0 <= i < |s| ==> r[i] == LowerChar(s[i])
  {
    seq(|s|, i requires 0 <= i < |s| => LowerChar(s[i]))
  }

  /** `s.toUpperCase()` restricted to ASCII letters. */
  function Upper(s: string): (r: string)
    ensures |r| == |s|
    ensures forall i :: 0 <= i < |s| ==> r[i] == UpperChar(s[i])
  {
    seq(|s|, i requires 0 <= i < |s| => UpperChar(s[i]))
  }

  predicate StartsWith(s: string, prefix: string) {
    |prefix| <= |s| && s[..|prefix|] == prefix
  }

  /** `t` occurs in `s` starting at offset `i`. */
  predicate OccursAt(s: string, t: string, i: int) {
    0 <= i && i + |t| <= |s| && s[i..i + |t|] == t
  }

  /** `s.includes(t)`: `t` occurs in `s` at some offset. */
  function Includes(s: string, t: string): (r: bool)
    ensures r <==> exists i :: OccursAt(s, t, i)
    ensures t == [] ==> r
    decreases |s|
  {
    if StartsWith(s, t) then
      assert OccursAt(s, t, 0);
      true
    else if s == [] then
      assert forall i :: !OccursAt(s, t, i);
      false
    else
      var r := Includes(s[1..], t);
      if r then
        var i :| OccursAt(s[1..], t, i);
        assert OccursAt(s, t, i + 1);
        r
      else
        forall i ensures !OccursAt(s, t, i) {
          if 0 <= i && i + |t| <= |s| {
            if i == 0 {
              assert s[0..|t|] == s[..|t|];
            } else {
              SliceOfTail(s, i, |t|);
              assert !OccursAt(s[1..], t, i - 1);
            }
          }
        }
        r
  }

  lemma SliceOfTail(s: string, i: int, n: nat)
    requires 1 <= i && i + n <= |s|
    ensures s[i..i + n] == s[1..][i - 1..i - 1 + n]
  {
    var a, b := s[i..i + n], s[1..][i - 1..i - 1 + n];
    forall k | 0 <= k < n ensures a[k] == b[k] {
      assert a[k] == s[i + k] && b[k] == s[1..][i - 1 + k];
    }
  }

  /** The case-insensitive search both list screens apply to a person:
      the lowered name or the lowered e-mail contains the lowered term. */
  predicate SearchMatches(name: string, email: string, term: string) {
    Includes(Lower(name), Lower(term)) || Includes(Lower(email), Lower(term))
  }

  lemma EmptyTermMatches(name: string, email: string)
    ensures SearchMatches(name, email, "")
  {
    assert Lower("") == "";
  }

  /** White space as `String.prototype.trim` removes it, restricted to ASCII. */
  predicate IsSpace(c: char) {
    c == ' ' || c == '\t' || c == '\n' || c == '\r' || c == '\U{000B}' || c == '\U{000C}'
  }

  function TrimStart(s: string): (r: string)
    ensures |r| <= |s| && r == s[|s| - |r|..]
    ensures forall i :: 0 <= i < |s| - |r| ==> IsSpace(s[i])
    ensures r != [] ==> !IsSpace(r[0])
    decreases |s|
  {
    if s != [] && IsSpace(s[0]) then TrimStart(s[1..]) else s
  }

  function TrimEnd(s: string): (r: string)
    ensures |r| <= |s| && r == s[..|r|]
    ensures forall i :: |r| <= i < |s| ==> IsSpace(s[i])
    ensures r != [] ==> !IsSpace(r[|r| - 1])
    decreases |s|
  {
    if s != [] && IsSpace(s[|s| - 1]) then TrimEnd(s[..|s| - 1]) else s
  }

  /** `s.trim()`: a contiguous piece of `s` that neither starts nor ends with
      white space, and is empty exactly when `s` is blank. */
  function Trim(s: string): (r: string)
    ensures exists i :: (OccursAt(s, r, i) && (forall k :: 0 <= k < i ==> IsSpace(s[k])) &&
      forall k :: i + |r| <= k < |s| ==> IsSpace(s[k]))
    ensures r != [] ==> !IsSpace(r[0]) && !IsSpace(r[|r| - 1])
    ensures r == [] <==> forall i :: 0 <= i < |s| ==> IsSpace(s[i])
  {
    var a := TrimStart(s);
    var r := TrimEnd(a);
    var i := |s| - |a|;
    assert OccursAt(s, r, i) by {
      assert s[i..i + |r|] == a[..|r|];
    }
    assert forall k :: i + |r| <= k < |s| ==> IsSpace(s[k]) by {
      forall k | i + |r| <= k < |s| ensures IsSpace(s[k]) {
        assert s[k] == a[k - i];
      }
    }
    if r == [] then
      r
    else
      assert r[0] == a[0];
      r
  }

  // ---------------------------------------------------------------------
  // Splitting on a single space, as `s.split(' ')` does.

  predicate IsSeparator(c: char) {
    c == ' '
  }

  /** `s.split(' ')`: the pieces between single spaces, empty pieces
      included; there is always at least one. */
  function Split(s: string): (r: seq<string>)
    ensures |r| >= 1
    ensures forall w :: w in r ==> ' ' !in w
    decreases |s|
  {
    match FirstIndex(s, IsSeparator)
    case None =>
      assert forall w :: w in [s] ==> ' ' !in w by {
        forall k | 0 <= k < |s| ensures s[k] != ' ' { assert !IsSeparator(s[k]); }
      }
      [s]
    case Some(i) =>
      var rest := Split(s[i + 1..]);
      assert ' ' !in s[..i] by {
        forall k | 0 <= k < i ensures s[..i][k] != ' ' { assert !IsSeparator(s[k]); }
      }
      [s[..i]] + rest
  }

  /** One step of `Split`: the piece before the first space, then the
      pieces of the rest. */
  lemma SplitStep(s: string, i: nat)
    requires FirstIndex(s, IsSeparator) == Some(i)
    ensures i < |s| && s[i] == ' ' && (i > 0 ==> s[0] != ' ')
    ensures Split(s) == [s[..i]] + Split(s[i + 1..])
  {
  }

  /** `words.join(' ')`. */
  function Join(words: seq<string>): string
    requires |words| >= 1
    decreases |words|
  {
    if |words| == 1 then words[0] else words[0] + " " + Join(words[1..])
  }

  /** Splitting on spaces loses nothing: joining the pieces back gives the text. */
  lemma {:induction false} SplitJoin(s: string)
    ensures Join(Split(s)) == s
    decreases |s|
  {
    match FirstIndex(s, IsSeparator)
    case None =>
    case Some(i) =>
      SplitJoin(s[i + 1..]);
      var r := Split(s);
      assert r[0] == s[..i] && r[1..] == Split(s[i + 1..]);
      assert s == s[..i] + " " + s[i + 1..];
  }

  // ---------------------------------------------------------------------
  // Decimal text, as `${n}` renders an integer.

  function DigitChar(d: nat): (c: char)
    requires d < 10
    ensures '0' <= c <= '9' && c as int - '0' as int == d
  {
    ('0' as int + d) as char
  }

  function NatToText(n: nat): (r: string)
    ensures |r| >= 1
    ensures forall i :: 0 <= i < |r| ==> '0' <= r[i] <= '9'
    decreases n
  {
    if n < 10 then [DigitChar(n)] else NatToText(n / 10) + [DigitChar(n % 10)]
  }

  function ParseDecimal(s: string): nat
    requires forall i :: 0 <= i < |s| ==> '0' <= s[i] <= '9'
    decreases |s|
  {
    if s == [] then 0
    else ParseDecimal(s[..|s| - 1]) * 10 + (s[|s| - 1] as int - '0' as int)
  }

  /** Reading the decimal text back gives the number. */
  lemma {:induction false} DecimalRoundTrip(n: nat)
    ensures ParseDecimal(NatToText(n)) == n
    decreases n
  {
    var r := NatToText(n);
    if n >= 10 {
      DecimalRoundTrip(n / 10);
      assert r[..|r| - 1] == NatToText(n / 10);
    }
  }

  /** Distinct numbers render as distinct text, so ids built from distinct
      clock readings never collide. */
  lemma NatToTextInjective(a: nat, b: nat)
    requires a != b
    ensures NatToText(a) != NatToText(b)
  {
    DecimalRoundTrip(a);
    DecimalRoundTrip(b);
  }

  /** `${n}` for any integer. */
  function IntToText(n: int): (r: string)
    ensures n >= 0 ==> r == NatToText(n)
    ensures n < 0 ==> r == "-" + NatToText(-n)
  {
    if n >= 0 then NatToText(n) else "-" + NatToText(-n)
  }

  /** Two strings made of the same prefix and different decimal numbers differ. */
  lemma PrefixedNumbersDiffer(prefix: string, a: nat, b: nat)
    requires a != b
    ensures prefix + NatToText(a) != prefix + NatToText(b)
  {
    NatToTextInjective(a, b);
    assert (prefix + NatToText(a))[|prefix|..] == NatToText(a);
    assert (prefix + NatToText(b))[|prefix|..] == NatToText(b);
  }

  /** Two strings whose first characters differ are different, whatever follows. */
  lemma DistinctHeads(p: string, q: string, x: string, y: string)
    requires p != [] && q != [] && p[0] != q[0]
    ensures p + x != q + y
  {
    assert (p + x)[0] == p[0];
    assert (q + y)[0] == q[0];
  }
}
