// The string operations the source leans on, over ASCII.
module Text {
  predicate IsSpace(c: char) {
    c == ' ' || '\t' <= c <= '\r' || 28 <= c as int <= 31
  }

  predicate IsDigit(c: char) {
    '0' <= c <= '9'
  }

  function StripLeft(s: string): string {
    if s != "" && IsSpace(s[0]) then StripLeft(s[1..]) else s
  }

  function StripRight(s: string): string {
    if s != "" && IsSpace(s[|s| - 1]) then StripRight(s[..|s| - 1]) else s
  }

  function Strip(s: string): string {
    StripRight(StripLeft(s))
  }

  /** Blanks, tabs and line ends are space; letters, digits and marks are not. */
  lemma SpaceIs(c: char)
    ensures c == ' ' || c == '\t' || c == '\n' || c == '\r' ==> IsSpace(c)
    ensures '!' <= c <= '~' ==> !IsSpace(c)
  {
  }

  lemma {:induction false} StripLeftSplits(s: string)
    ensures var t := StripLeft(s);
            && |t| <= |s| && t == s[|s| - |t|..] && (t == "" || !IsSpace(t[0]))
            && forall i | 0 <= i < |s| - |t| :: IsSpace(s[i])
  {
    if s != "" && IsSpace(s[0]) {
      StripLeftSplits(s[1..]);
      forall i | 0 <= i < |s| - |StripLeft(s)| ensures IsSpace(s[i]) {
        assert i > 0 ==> s[i] == s[1..][i - 1];
      }
    }
  }

  lemma {:induction false} StripRightSplits(s: string)
    ensures var t := StripRight(s);
            && |t| <= |s| && t == s[..|t|] && (t == "" || !IsSpace(t[|t| - 1]))
            && forall i | |t| <= i < |s| :: IsSpace(s[i])
  {
    if s != "" && IsSpace(s[|s| - 1]) {
      StripRightSplits(s[..|s| - 1]);
    }
  }

  /** Stripping takes the space off both ends and nothing else. */
  lemma StripSplits(s: string) returns (before: string, after: string)
    ensures s == before + Strip(s) + after && forall c | c in before + after :: IsSpace(c)
    ensures Strip(s) == "" || (!IsSpace(Strip(s)[0]) && !IsSpace(Strip(s)[|Strip(s)| - 1]))
  {
    var left := StripLeft(s);
    StripLeftSplits(s);
    StripRightSplits(left);
    var n := |s| - |left|;
    before, after := s[..n], left[|Strip(s)|..];
    CutInTwo(s, n);
    CutInTwo(left, |Strip(s)|);
    forall i | 0 <= i < |before| ensures IsSpace(before[i]) {
      assert before[i] == s[i];
    }
    forall i | 0 <= i < |after| ensures IsSpace(after[i]) {
      assert after[i] == left[|Strip(s)| + i];
    }
    assert Strip(s) != "" ==> Strip(s)[0] == left[0];
    Associate(before, Strip(s), after);
  }

  lemma CutInTwo(s: string, n: nat)
    requires n <= |s|
    ensures s == s[..n] + s[n..]
  {
  }

  lemma Associate(a: string, b: string, c: string)
    ensures a + (b + c) == (a + b) + c
  {
  }

  /** Space around a text that neither starts nor ends with any is all that is taken off. */
  lemma StripsSpace(before: string, s: string, after: string)
    requires forall c | c in before + after :: IsSpace(c)
    requires s != "" && !IsSpace(s[0]) && !IsSpace(s[|s| - 1])
    ensures Strip(before + s + after) == s
  {
    forall c | c in before ensures IsSpace(c) {
      assert c in before + after;
    }
    forall c | c in after ensures IsSpace(c) {
      assert c in before + after;
    }
    StripsLeft(before, s + after);
    assert before + s + after == before + (s + after);
    StripsRight(s, after);
  }

  lemma {:induction false} StripsLeft(before: string, s: string)
    requires (forall c | c in before :: IsSpace(c)) && s != "" && !IsSpace(s[0])
    ensures StripLeft(before + s) == s
  {
    if before == "" {
      assert before + s == s;
    } else {
      assert (before + s)[0] == before[0] && before[0] in before && (before + s)[1..] == before[1..] + s;
      StripsLeft(before[1..], s);
    }
  }

  lemma {:induction false} StripsRight(s: string, after: string)
    requires (forall c | c in after :: IsSpace(c)) && s != "" && !IsSpace(s[|s| - 1])
    ensures StripRight(s + after) == s
  {
    if after == "" {
      assert s + after == s;
    } else {
      var n := |after| - 1;
      assert (s + after)[|s + after| - 1] == after[n] && after[n] in after && (s + after)[..|s + after| - 1] == s + after[..n];
      StripsRight(s, after[..n]);
    }
  }

  lemma StripKeepsWords(s: string)
    ensures forall c | c in s && !IsSpace(c) :: c in Strip(s)
  {
    var before, after := StripSplits(s);
    forall c | c in s && !IsSpace(c) ensures c in Strip(s) {
      assert c in before || c in Strip(s) || c in after;
      assert c in before || c in after ==> c in before + after;
    }
  }

  lemma {:induction false} BlankStripsToNothing(s: string)
    requires forall c | c in s :: IsSpace(c)
    ensures StripLeft(s) == "" && Strip(s) == ""
  {
    if s != "" {
      assert s[0] in s;
      BlankStripsToNothing(s[1..]);
    }
  }

  function LowerChar(c: char): char {
    if 'A' <= c <= 'Z' then (c as int + 32) as char else c
  }

  function Lower(s: string): string {
    seq(|s|, i requires 0 <= i < |s| => LowerChar(s[i]))
  }

  lemma CapitalsAreLowered(c: char)
    ensures 'A' <= c <= 'Z' ==> LowerChar(c) as int - 'a' as int == c as int - 'A' as int
    ensures !('A' <= LowerChar(c) <= 'Z') && (!('A' <= c <= 'Z') ==> LowerChar(c) == c)
  {
  }

  /** Lower case keeps lengths and small letters and leaves no capitals. */
  lemma LowerIs(s: string)
    ensures |Lower(s)| == |s| && Lower(Lower(s)) == Lower(s)
    ensures (forall i | 0 <= i < |s| :: !('A' <= s[i] <= 'Z')) ==> Lower(s) == s
  {
    forall i | 0 <= i < |s| ensures LowerChar(Lower(s)[i]) == Lower(s)[i] {
      CapitalsAreLowered(s[i]);
      CapitalsAreLowered(Lower(s)[i]);
    }
    forall i | 0 <= i < |s| && !('A' <= s[i] <= 'Z') ensures Lower(s)[i] == s[i] {
      CapitalsAreLowered(s[i]);
    }
  }

  predicate StartsWith(s: string, prefix: string) {
    |prefix| <= |s| && s[..|prefix|] == prefix
  }

  predicate EndsWith(s: string, suffix: string) {
    |suffix| <= |s| && s[|s| - |suffix|..] == suffix
  }

  predicate OccursAt(s: string, sub: string, i: int) {
    0 <= i <= |s| - |sub| && s[i..i + |sub|] == sub
  }

  predicate Contains(s: string, sub: string) {
    exists i | 0 <= i <= |s| - |sub| :: OccursAt(s, sub, i)
  }

  lemma ContainsMiddle(a: string, word: string, b: string)
    ensures Contains(a + word + b, word)
  {
    assert (a + word + b)[|a|..|a| + |word|] == word;
    assert OccursAt(a + word + b, word, |a|);
  }

  function TrimLeft(s: string, c: char): string {
    if s != "" && s[0] == c then TrimLeft(s[1..], c) else s
  }

  function TrimRight(s: string, c: char): string {
    if s != "" && s[|s| - 1] == c then TrimRight(s[..|s| - 1], c) else s
  }

  /** The pieces of `s` between occurrences of `sep`; always at least one. */
  function Split(s: string, sep: char): seq<string>
  {
    SplitFrom(s, sep, "")
  }

  function SplitFrom(s: string, sep: char, piece: string): seq<string>
    decreases |s|
  {
    if s == "" then [piece]
    else if s[0] == sep then [piece] + SplitFrom(s[1..], sep, "")
    else SplitFrom(s[1..], sep, piece + [s[0]])
  }

  function Concat(parts: seq<string>): string {
    if parts == [] then "" else Concat(parts[..|parts| - 1]) + parts[|parts| - 1]
  }

  lemma ConcatSnoc(front: seq<string>, part: string)
    ensures Concat(front + [part]) == Concat(front) + part
  {
    var parts := front + [part];
    assert parts[..|parts| - 1] == front && parts[|parts| - 1] == part;
  }

  lemma {:induction false} ConcatAppend(a: seq<string>, b: seq<string>)
    ensures Concat(a + b) == Concat(a) + Concat(b)
  {
    if b == [] {
      assert a + b == a;
    } else {
      var front, part := b[..|b| - 1], b[|b| - 1];
      assert b == front + [part] && a + b == (a + front) + [part];
      ConcatAppend(a, front);
      ConcatSnoc(front, part);
      ConcatSnoc(a + front, part);
    }
  }

  function DigitOf(c: char): nat {
    if IsDigit(c) then c as int - '0' as int else 0
  }

  function DigitsValue(s: string): nat
    requires forall i | 0 <= i < |s| :: IsDigit(s[i])
  {
    if s == "" then 0
    else DigitsValue(s[..|s| - 1]) * 10 + DigitOf(s[|s| - 1])
  }

  /** A natural number in decimal. */
  function Decimal(n: nat): (s: string)
    ensures s != "" && forall i | 0 <= i < |s| :: IsDigit(s[i])
  {
    var digit := [(n % 10 + '0' as int) as char];
    if n < 10 then digit else Decimal(n / 10) + digit
  }

  lemma {:induction false} DecimalReadsBack(n: nat)
    ensures DigitsValue(Decimal(n)) == n
  {
    var s := Decimal(n);
    var digit := [(n % 10 + '0' as int) as char];
    if n < 10 {
      assert s == digit;
      assert s[..|s| - 1] == "";
    } else {
      DecimalReadsBack(n / 10);
      assert s == Decimal(n / 10) + digit;
      assert s[..|s| - 1] == Decimal(n / 10);
    }
  }
}
