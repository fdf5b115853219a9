/** The string operations the collector uses, over ASCII text: Go's `strings.ToLower`,
    `strings.TrimSpace`, `strings.Contains`, `strings.HasPrefix`, `strings.EqualFold` and the order
    of `<` on strings. */
module Text {

  predicate IsSpace(c: char) {
    c == ' ' || '\t' <= c <= '\r'
  }

  function LowerChar(c: char): char {
    if 'A' <= c <= 'Z' then (c as int + 32) as char else c
  }

  function ToLower(s: string): (r: string)
    ensures |r| == |s|
    ensures forall i :: 0 <= i < |s| ==> r[i] == LowerChar(s[i])
  {
    seq(|s|, i requires 0 <= i < |s| => LowerChar(s[i]))
  }

  function TrimLeft(s: string): string {
    if s != "" && IsSpace(s[0]) then TrimLeft(s[1..]) else s
  }

  function TrimRight(s: string): string {
    if s != "" && IsSpace(s[|s| - 1]) then TrimRight(s[..|s| - 1]) else s
  }

  function Trim(s: string): string {
    TrimRight(TrimLeft(s))
  }

  predicate EqualFold(a: string, b: string) {
    ToLower(a) == ToLower(b)
  }

  /** `strings.Join`. */
  function Join(parts: seq<string>, sep: string): string {
    if parts == [] then "" else if |parts| == 1 then parts[0] else parts[0] + sep + Join(parts[1..], sep)
  }

  predicate OccursAt(s: string, word: string, i: int) {
    0 <= i <= |s| - |word| && s[i..i + |word|] == word
  }

  predicate Contains(s: string, word: string) {
    exists i | 0 <= i <= |s| :: OccursAt(s, word, i)
  }

  predicate HasPrefix(s: string, p: string) {
    p <= s
  }

  /** Byte-wise lexicographic order, as Go's `<` on strings. */
  predicate Less(a: string, b: string) {
    b != "" && (a == "" || a[0] < b[0] || (a[0] == b[0] && Less(a[1..], b[1..])))
  }

  /** What `Trim` leaves: nothing, or text that neither starts nor ends with white space. */
  predicate Trimmed(s: string) {
    s == "" || (!IsSpace(s[0]) && !IsSpace(s[|s| - 1]))
  }

  lemma TrimRightKeepsHead(s: string)
    requires s != "" && !IsSpace(s[0])
    ensures TrimRight(s) != "" && TrimRight(s)[0] == s[0]
    ensures !IsSpace(TrimRight(s)[|TrimRight(s)| - 1])
  {
    if IsSpace(s[|s| - 1]) { TrimRightKeepsHead(s[..|s| - 1]); }
  }

  lemma TrimLeftHead(s: string)
    ensures TrimLeft(s) == "" || !IsSpace(TrimLeft(s)[0])
  {
    if s != "" && IsSpace(s[0]) { TrimLeftHead(s[1..]); }
  }

  lemma TrimIsTrimmed(s: string)
    ensures Trimmed(Trim(s))
  {
    TrimLeftHead(s);
    if TrimLeft(s) != "" { TrimRightKeepsHead(TrimLeft(s)); }
  }

  lemma TrimmedIsFixed(s: string)
    requires Trimmed(s)
    ensures Trim(s) == s
  {
  }

  lemma TrimIdempotent(s: string)
    ensures Trim(Trim(s)) == Trim(s)
  {
    TrimIsTrimmed(s);
  }

  lemma LowerIdempotent(s: string)
    ensures ToLower(ToLower(s)) == ToLower(s)
  {
  }

  /** `ToLower(TrimSpace(s))`, the collector's usual clean-up, is a projection. */
  function Clean(s: string): string {
    ToLower(Trim(s))
  }

  lemma CleanIsFixed(s: string)
    ensures Trimmed(Clean(s)) && ToLower(Clean(s)) == Clean(s)
    ensures Clean(Clean(s)) == Clean(s)
  {
    TrimIsTrimmed(s);
    LowerIdempotent(Trim(s));
  }

  lemma LowerOfConcat(a: string, b: string)
    ensures ToLower(a + b) == ToLower(a) + ToLower(b)
  {
  }

  lemma OccursCharacter(s: string, word: string, i: int, k: nat)
    requires OccursAt(s, word, i) && k < |word|
    ensures s[i + k] == word[k]
  {
    assert s[i..i + |word|][k] == s[i + k];
  }

  /** A word without blanks cannot straddle the blank that joins two pieces of text. */
  lemma ContainsAcrossBlank(a: string, b: string, word: string)
    requires word != "" && ' ' !in word
    ensures Contains(a + " " + b, word) <==> Contains(a, word) || Contains(b, word)
  {
    var s, n := a + " " + b, |word|;
    forall i | OccursAt(a, word, i) ensures OccursAt(s, word, i) {
      assert s[i..i + n] == a[i..i + n];
    }
    forall i | OccursAt(b, word, i) ensures OccursAt(s, word, i + |a| + 1) {
      assert s[i + |a| + 1..i + |a| + 1 + n] == b[i..i + n];
    }
    forall i | OccursAt(s, word, i) ensures OccursAt(a, word, i) || OccursAt(b, word, i - |a| - 1) {
      if i + n <= |a| {
        assert s[i..i + n] == a[i..i + n];
      } else if i > |a| {
        assert s[i..i + n] == b[i - |a| - 1..i - |a| - 1 + n];
      } else {
        OccursCharacter(s, word, i, |a| - i);
      }
    }
  }

  lemma LessIrreflexive(a: string)
    ensures !Less(a, a)
  {
  }

  lemma LessTransitive(a: string, b: string, c: string)
    requires Less(a, b) && Less(b, c)
    ensures Less(a, c)
  {
  }

  lemma LessTotal(a: string, b: string)
    ensures a == b || Less(a, b) || Less(b, a)
  {
    if a != "" && b != "" && a[0] == b[0] {
      LessTotal(a[1..], b[1..]);
      assert a == [a[0]] + a[1..] && b == [b[0]] + b[1..];
    }
  }

  // ----- what the operations mean -----

  /** `Trim` takes white space off both ends, and all of it. */
  lemma TrimTakesTheEnds(s: string) returns (before: string, after: string)
    ensures s == before + Trim(s) + after && Trimmed(Trim(s))
    ensures forall c :: c in before + after ==> IsSpace(c)
  {
    var mid;
    before, mid := TrimLeftSplits(s);
    after := TrimRightSplits(TrimLeft(s));
    TrimIsTrimmed(s);
  }

  lemma {:induction false} TrimLeftSplits(s: string) returns (before: string, rest: string)
    ensures s == before + TrimLeft(s) && rest == TrimLeft(s) && forall c :: c in before ==> IsSpace(c)
  {
    rest := TrimLeft(s);
    if s != "" && IsSpace(s[0]) {
      before, rest := TrimLeftSplits(s[1..]);
      before := [s[0]] + before;
      assert s == [s[0]] + s[1..];
    } else {
      before := "";
    }
  }

  lemma {:induction false} TrimRightSplits(s: string) returns (after: string)
    ensures s == TrimRight(s) + after && forall c :: c in after ==> IsSpace(c)
  {
    if s != "" && IsSpace(s[|s| - 1]) {
      after := TrimRightSplits(s[..|s| - 1]);
      after := after + [s[|s| - 1]];
      assert s == s[..|s| - 1] + [s[|s| - 1]];
    } else {
      after := "";
    }
  }

  /** A text contains a word exactly when it is the word with something before and something after. */
  lemma ContainsIff(s: string, word: string)
    ensures Contains(s, word) <==> exists before, after :: s == before + word + after
  {
    if i :| 0 <= i <= |s| && OccursAt(s, word, i) {
      assert s == s[..i] + word + s[i + |word|..];
    }
    if before, after :| s == before + word + after {
      assert OccursAt(s, word, |before|);
    }
  }

  /** The texts agree up to there. */
  predicate AgreeUpTo(a: string, b: string, n: nat) {
    n <= |a| && n <= |b| && a[..n] == b[..n]
  }

  lemma HeadsAgree(a: string, b: string)
    ensures forall n: nat :: AgreeUpTo(a, b, n) && n > 0 ==> a[0] == b[0]
  {
    forall n: nat | AgreeUpTo(a, b, n) && n > 0 ensures a[0] == b[0] {
      assert a[..n][0] == b[..n][0];
    }
  }

  /** One text comes before another exactly when it is a proper prefix, or smaller at the first character
      in which they differ. */
  lemma {:induction false} LessIff(a: string, b: string)
    ensures Less(a, b) <==>
      exists n: nat :: AgreeUpTo(a, b, n) && n < |b| && (n == |a| || a[n] < b[n])
  {
    if a != "" && b != "" && a[0] == b[0] {
      LessIff(a[1..], b[1..]);
      forall n: nat ensures AgreeUpTo(a, b, n + 1) <==> AgreeUpTo(a[1..], b[1..], n) {
        if n < |a| && n < |b| {
          assert a[..n + 1] == [a[0]] + a[1..][..n] && b[..n + 1] == [b[0]] + b[1..][..n];
        }
      }
      if n: nat :| AgreeUpTo(a, b, n) && n < |b| && (n == |a| || a[n] < b[n]) {
        assert n > 0;
        assert AgreeUpTo(a[1..], b[1..], n - 1);
      }
      if n: nat :| AgreeUpTo(a[1..], b[1..], n) && n < |b[1..]| && (n == |a[1..]| || a[1..][n] < b[1..][n]) {
        assert AgreeUpTo(a, b, n + 1);
      }
    } else {
      assert AgreeUpTo(a, b, 0);
      HeadsAgree(a, b);
    }
  }
}
