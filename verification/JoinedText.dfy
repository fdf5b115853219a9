/** What is found in texts joined by blanks, as a search over several fields at once does. */
module JoinedText {
  import opened Text

  lemma {:induction false} JoinSplits(parts: seq<string>, sep: string, i: nat)
    requires 0 < i < |parts|
    ensures Join(parts, sep) == Join(parts[..i], sep) + sep + Join(parts[i..], sep)
  {
    if i > 1 {
      var rest := parts[1..];
      JoinSplits(rest, sep, i - 1);
      assert rest[..i - 1] == parts[..i][1..] && rest[i - 1..] == parts[i..];
      assert parts[0] + sep + (Join(rest[..i - 1], sep) + sep + Join(rest[i - 1..], sep)) ==
        parts[0] + sep + Join(rest[..i - 1], sep) + sep + Join(rest[i - 1..], sep);
    } else {
      assert parts[..1] == [parts[0]];
    }
  }

  lemma ContainsPart(before: string, text: string, after: string, word: string)
    requires Contains(text, word)
    ensures Contains(before + text + after, word)
  {
    ContainsIff(text, word);
    var b, a :| text == b + word + a;
    assert before + text + after == (before + b) + word + (a + after);
    ContainsIff(before + text + after, word);
  }

  /** The word lies across the separator between two texts. */
  predicate Straddles(before: string, after: string, word: string, k: nat) {
    && k < |word| && k <= |before| && word[k] == ' '
    && before[|before| - k..] == word[..k] && word[k + 1..] <= after
  }

  lemma StraddlingIsContained(before: string, after: string, word: string, k: nat)
    requires Straddles(before, after, word, k)
    ensures Contains(before + " " + after, word)
  {
    var n := |before| - k;
    var end := after[|word| - k - 1..];
    assert word == word[..k] + " " + word[k + 1..];
    assert before + " " + after == before[..n] + word + end;
    ContainsIff(before + " " + after, word);
  }

  lemma SliceOfSlice(s: string, i: nat, j: nat, k: nat)
    requires i <= j <= |s| && k < j - i
    ensures s[i..j][..k] == s[i..i + k] && s[i..j][k] == s[i + k] && s[i..j][k + 1..] == s[i + k + 1..j]
  {
  }

  /** A word in two texts joined by a blank is in one of them or lies across the blank. */
  lemma ContainedOrStraddling(a: string, b: string, word: string)
    requires Contains(a + " " + b, word)
    ensures Contains(a, word) || Contains(b, word) || exists k: nat :: Straddles(a, b, word, k)
  {
    var s, n := a + " " + b, |word|;
    var i :| 0 <= i <= |s| && OccursAt(s, word, i);
    if i + n <= |a| {
      assert s[i..i + n] == a[i..i + n];
      assert OccursAt(a, word, i);
    } else if i > |a| {
      assert s[i..i + n] == b[i - |a| - 1..i - |a| - 1 + n];
      assert OccursAt(b, word, i - |a| - 1);
    } else {
      var k := |a| - i;
      SliceOfSlice(s, i, i + n, k);
      assert s[i..|a|] == a[i..] && s[|a| + 1..i + n] == b[..n - k - 1];
      assert Straddles(a, b, word, k);
    }
  }

  predicate StraddlesAt(parts: seq<string>, word: string, i: nat, k: nat) {
    0 < i < |parts| && Straddles(Join(parts[..i], " "), Join(parts[i..], " "), word, k)
  }

  predicate InSome(parts: seq<string>, word: string) {
    exists i :: 0 <= i < |parts| && Contains(parts[i], word)
  }

  ghost predicate AcrossSome(parts: seq<string>, word: string) {
    exists i: nat, k: nat :: StraddlesAt(parts, word, i, k)
  }

  /** A word in texts joined by blanks is in one of them, or lies across a place where two are joined. */
  lemma JoinContainsIff(parts: seq<string>, word: string)
    requires parts != []
    ensures Contains(Join(parts, " "), word) <==> InSome(parts, word) || AcrossSome(parts, word)
  {
    if i :| 0 <= i < |parts| && Contains(parts[i], word) { PartIsContained(parts, word, i); }
    if i: nat, k: nat :| StraddlesAt(parts, word, i, k) {
      JoinSplits(parts, " ", i);
      StraddlingIsContained(Join(parts[..i], " "), Join(parts[i..], " "), word, k);
    }
    if Contains(Join(parts, " "), word) { InJoined(parts, word); }
  }

  lemma {:induction false} PartIsContained(parts: seq<string>, word: string, i: nat)
    requires i < |parts| && Contains(parts[i], word)
    ensures Contains(Join(parts, " "), word)
  {
    if |parts| == 1 {
    } else if i == 0 {
      ContainsPart("", parts[0], " " + Join(parts[1..], " "), word);
      assert "" + parts[0] + (" " + Join(parts[1..], " ")) == Join(parts, " ");
    } else {
      PartIsContained(parts[1..], word, i - 1);
      ContainsPart(parts[0] + " ", Join(parts[1..], " "), "", word);
      assert parts[0] + " " + Join(parts[1..], " ") + "" == Join(parts, " ");
    }
  }

  lemma {:induction false} InJoined(parts: seq<string>, word: string)
    requires parts != [] && Contains(Join(parts, " "), word)
    ensures InSome(parts, word) || AcrossSome(parts, word)
  {
    if |parts| > 1 {
      var head, rest := parts[0], parts[1..];
      ContainedOrStraddling(head, Join(rest, " "), word);
      if k: nat :| Straddles(head, Join(rest, " "), word, k) {
        assert parts[..1] == [head];
        assert StraddlesAt(parts, word, 1, k);
      } else if Contains(Join(rest, " "), word) {
        InJoined(rest, word);
        if i :| 0 <= i < |rest| && Contains(rest[i], word) {
          assert parts[i + 1] == rest[i];
        } else {
          var i: nat, k: nat :| StraddlesAt(rest, word, i, k);
          StraddlesFurtherOn(parts, word, i, k);
        }
      }
    }
  }

  lemma StraddlesFurtherOn(parts: seq<string>, word: string, i: nat, k: nat)
    requires parts != [] && StraddlesAt(parts[1..], word, i, k)
    ensures StraddlesAt(parts, word, i + 1, k)
  {
    var rest := parts[1..];
    assert parts[..i + 1][1..] == rest[..i] && parts[i + 1..] == rest[i..];
    var end := Join(rest[..i], " ");
    assert Join(parts[..i + 1], " ") == parts[0] + " " + end;
    assert (parts[0] + " " + end)[|parts[0] + " " + end| - k..] == end[|end| - k..];
  }

  function Lowered(parts: seq<string>): (r: seq<string>)
    ensures |r| == |parts|
  {
    seq(|parts|, i requires 0 <= i < |parts| => ToLower(parts[i]))
  }

  lemma {:induction false} LowerOfJoin(parts: seq<string>, sep: string)
    requires ToLower(sep) == sep
    ensures ToLower(Join(parts, sep)) == Join(Lowered(parts), sep)
  {
    if |parts| > 1 {
      LowerOfJoin(parts[1..], sep);
      assert Lowered(parts)[1..] == Lowered(parts[1..]);
      LowerOfConcat(parts[0] + sep, Join(parts[1..], sep));
      LowerOfConcat(parts[0], sep);
    }
  }
}
