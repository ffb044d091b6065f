/**
 * The functions of Go's `strings` and `strconv` packages that the crawler's
 * decisions depend on, over `seq<char>`.
 */
module Text {
  import opened Wrappers

  /** strings.HasPrefix */
  predicate HasPrefix(s: string, prefix: string)
  {
    |prefix| <= |s| && s[..|prefix|] == prefix
  }

  /** strings.HasSuffix */
  predicate HasSuffix(s: string, suffix: string)
  {
    |suffix| <= |s| && s[|s| - |suffix|..] == suffix
  }

  /**
   * strings.Count for a non-empty separator: the number of non-overlapping
   * occurrences of `sub`, found scanning left to right.
   */
  function Count(s: string, sub: string): (n: nat)
    requires sub != []
    ensures n * |sub| <= |s|
    decreases |s|
  {
    if |s| < |sub| then 0
    else if s[..|sub|] == sub then
      var rest := Count(s[|sub|..], sub);
      assert (1 + rest) * |sub| == |sub| + rest * |sub|;
      1 + rest
    else Count(s[1..], sub)
  }

  /** `sub` occurs in `s` starting at index `i`. */
  predicate OccursAt(s: string, sub: string, i: int)
  {
    0 <= i && i + |sub| <= |s| && s[i..i + |sub|] == sub
  }

  /** An occurrence one place further into `s` is an occurrence in `s` without its first character. */
  lemma OccursShift(s: string, sub: string, i: int)
    requires s != [] && 0 <= i
    ensures OccursAt(s[1..], sub, i) <==> OccursAt(s, sub, i + 1)
  {
    if i + |sub| <= |s| - 1 {
      assert s[1..][i..i + |sub|] == s[i + 1..i + 1 + |sub|];
    }
  }

  /** An occurrence past the first `k` characters is an occurrence in what follows them. */
  lemma OccursDrop(s: string, sub: string, k: nat, j: int)
    requires k <= |s| && OccursAt(s, sub, j) && k <= j
    ensures OccursAt(s[k..], sub, j - k)
  {
    assert s[k..][j - k..j - k + |sub|] == s[j..j + |sub|];
  }

  /** Any occurrence is counted. */
  lemma {:induction false} OccurrenceCounted(s: string, sub: string, i: int)
    requires sub != [] && OccursAt(s, sub, i)
    ensures Count(s, sub) >= 1
    decreases |s|
  {
    if s[..|sub|] != sub {
      assert s[0..|sub|] == s[..|sub|];
      assert i != 0;
      OccursShift(s, sub, i - 1);
      OccurrenceCounted(s[1..], sub, i - 1);
    }
  }

  /** A positive count comes from an occurrence. */
  lemma {:induction false} CountFindsOccurrence(s: string, sub: string) returns (i: int)
    requires sub != [] && Count(s, sub) >= 1
    ensures OccursAt(s, sub, i)
    decreases |s|
  {
    if s[..|sub|] == sub {
      i := 0;
      assert s[0..|sub|] == s[..|sub|];
    } else {
      var k := CountFindsOccurrence(s[1..], sub);
      OccursShift(s, sub, k);
      i := k + 1;
    }
  }

  /** Two occurrences that do not overlap are both counted. */
  lemma {:induction false} TwoOccurrencesCounted(s: string, sub: string, i: int, j: int)
    requires sub != [] && OccursAt(s, sub, i) && OccursAt(s, sub, j) && i + |sub| <= j
    ensures Count(s, sub) >= 2
    decreases |s|
  {
    if s[..|sub|] == sub {
      OccursDrop(s, sub, |sub|, j);
      OccurrenceCounted(s[|sub|..], sub, j - |sub|);
    } else {
      assert s[0..|sub|] == s[..|sub|];
      assert i != 0;
      OccursShift(s, sub, i - 1);
      OccursShift(s, sub, j - 1);
      TwoOccurrencesCounted(s[1..], sub, i - 1, j - 1);
    }
  }

  /** A count of two or more comes from two occurrences that do not overlap. */
  lemma {:induction false} CountFindsTwo(s: string, sub: string) returns (i: int, j: int)
    requires sub != [] && Count(s, sub) >= 2
    ensures OccursAt(s, sub, i) && OccursAt(s, sub, j) && i + |sub| <= j
    decreases |s|
  {
    if s[..|sub|] == sub {
      var rest := s[|sub|..];
      var k := CountFindsOccurrence(rest, sub);
      i, j := 0, |sub| + k;
      assert s[0..|sub|] == s[..|sub|];
      assert s[j..j + |sub|] == rest[k..k + |sub|];
    } else {
      var i', j' := CountFindsTwo(s[1..], sub);
      OccursShift(s, sub, i');
      OccursShift(s, sub, j');
      i, j := i' + 1, j' + 1;
    }
  }

  /** strings.Count is positive exactly when the separator occurs. */
  lemma CountPositive(s: string, sub: string)
    requires sub != []
    ensures Count(s, sub) >= 1 <==> exists i :: OccursAt(s, sub, i)
  {
    if Count(s, sub) >= 1 {
      var i := CountFindsOccurrence(s, sub);
    } else if i :| OccursAt(s, sub, i) {
      OccurrenceCounted(s, sub, i);
    }
  }

  /** strings.Count exceeds one exactly when the separator occurs twice without overlapping. */
  lemma CountMoreThanOnce(s: string, sub: string)
    requires sub != []
    ensures Count(s, sub) > 1 <==> exists i, j :: OccursAt(s, sub, i) && OccursAt(s, sub, j) && i + |sub| <= j
  {
    if Count(s, sub) > 1 {
      var i, j := CountFindsTwo(s, sub);
    } else if i, j :| OccursAt(s, sub, i) && OccursAt(s, sub, j) && i + |sub| <= j {
      TwoOccurrencesCounted(s, sub, i, j);
    }
  }

  /**
   * strings.Split with a one-character separator: the pieces between the
   * separators, the separators themselves dropped.
   */
  function Split(s: string, sep: char): (parts: seq<string>)
    ensures |parts| >= 1
    ensures sep in s ==> |parts| >= 2
    ensures forall p <- parts :: sep !in p
    decreases |s|
  {
    if s == [] then [[]]
    else
      var rest := Split(s[1..], sep);
      if s[0] == sep then [[]] + rest
      else [[s[0]] + rest[0]] + rest[1..]
  }

  /** The text after the last `sep` in `s`, or all of `s` when it holds none; found scanning from the right. */
  function AfterLast(s: string, sep: char): (tail: string)
    ensures sep !in tail
    decreases |s|
  {
    if s == [] then []
    else if s[|s| - 1] == sep then []
    else AfterLast(s[..|s| - 1], sep) + [s[|s| - 1]]
  }

  /** A suffix stays a suffix when the same character is appended to both. */
  lemma SuffixSnoc(s: string, suffix: string, c: char)
    requires HasSuffix(s, suffix)
    ensures HasSuffix(s + [c], suffix + [c])
  {
    assert (s + [c])[|s| - |suffix|..] == s[|s| - |suffix|..] + [c];
  }

  /** The label after the last separator ends the string and, when there is a separator, follows one. */
  lemma {:induction false} AfterLastIsSuffix(s: string, sep: char)
    ensures HasSuffix(s, AfterLast(s, sep))
    ensures sep in s ==> |AfterLast(s, sep)| < |s| && s[|s| - |AfterLast(s, sep)| - 1] == sep
    ensures sep !in s ==> AfterLast(s, sep) == s
    decreases |s|
  {
    if s != [] && s[|s| - 1] != sep {
      var init, c := s[..|s| - 1], s[|s| - 1];
      AfterLastIsSuffix(init, sep);
      assert s == init + [c];
      assert AfterLast(s, sep) == AfterLast(init, sep) + [c];
      SuffixSnoc(init, AfterLast(init, sep), c);
    }
  }

  /** strings.Join with a one-character separator. */
  function Join(parts: seq<string>, sep: char): string
    decreases |parts|
  {
    if parts == [] then []
    else if |parts| == 1 then parts[0]
    else parts[0] + [sep] + Join(parts[1..], sep)
  }

  /** Splitting loses nothing: joining the pieces back gives the original string. */
  lemma {:induction false} JoinSplit(s: string, sep: char)
    ensures Join(Split(s, sep), sep) == s
    decreases |s|
  {
    if s != [] {
      JoinSplit(s[1..], sep);
      var rest := Split(s[1..], sep);
      if s[0] != sep && |rest| > 1 {
        assert Join(rest, sep) == rest[0] + [sep] + Join(rest[1..], sep);
      }
    }
  }

  /** Two separator-free labels that each end `s` right after a separator are the same. */
  lemma SuffixLabelUnique(s: string, sep: char, a: string, b: string)
    requires HasSuffix(s, a) && |a| < |s| && s[|s| - |a| - 1] == sep && sep !in a
    requires HasSuffix(s, b) && |b| < |s| && s[|s| - |b| - 1] == sep && sep !in b
    ensures a == b
  {
  }

  /** Without a separator, Split returns the string whole. */
  lemma {:induction false} SplitWithoutSep(s: string, sep: char)
    requires sep !in s
    ensures Split(s, sep) == [s]
    decreases |s|
  {
    if s != [] {
      SplitWithoutSep(s[1..], sep);
      assert [s[0]] + s[1..] == s;
    }
  }

  /** When `s` holds a separator, the last piece of the split ends `s` right after one. */
  lemma {:induction false} LastPieceAfterSep(s: string, sep: char)
    requires sep in s
    ensures var last := Split(s, sep)[|Split(s, sep)| - 1];
      HasSuffix(s, last) && |last| < |s| && s[|s| - |last| - 1] == sep
    decreases |s|
  {
    var rest := Split(s[1..], sep);
    if sep in s[1..] {
      LastPieceAfterSep(s[1..], sep);
      assert Split(s, sep)[|Split(s, sep)| - 1] == rest[|rest| - 1];
    } else {
      assert s[0] == sep;
      SplitWithoutSep(s[1..], sep);
    }
  }

  /** The last piece of strings.Split is the text after the last separator. */
  lemma SplitLastIsAfterLast(s: string, sep: char)
    requires sep in s
    ensures Split(s, sep)[|Split(s, sep)| - 1] == AfterLast(s, sep)
  {
    var parts := Split(s, sep);
    assert parts[|parts| - 1] in parts;
    LastPieceAfterSep(s, sep);
    AfterLastIsSuffix(s, sep);
    SuffixLabelUnique(s, sep, parts[|parts| - 1], AfterLast(s, sep));
  }

  /** Appending text without a separator extends the label after the last separator. */
  lemma {:induction false} AfterLastAppend(s: string, t: string, sep: char)
    requires sep !in t
    ensures AfterLast(s + t, sep) == AfterLast(s, sep) + t
    decreases |t|
  {
    if t == [] {
      assert s + t == s;
    } else {
      var init, c := t[..|t| - 1], t[|t| - 1];
      var u := s + t;
      assert u[..|u| - 1] == s + init;
      assert u[|u| - 1] == c && c != sep;
      assert AfterLast(u, sep) == AfterLast(s + init, sep) + [c];
      AfterLastAppend(s, init, sep);
      assert init + [c] == t;
    }
  }

  predicate IsDigit(c: char)
  {
    '0' <= c <= '9'
  }

  predicate AllDigits(s: string)
  {
    forall c <- s :: IsDigit(c)
  }

  /** The value of a string of decimal digits. */
  function DecimalValue(s: string): (v: nat)
    requires AllDigits(s)
    decreases |s|
  {
    if s == [] then 0
    else
      assert IsDigit(s[|s| - 1]);
      DecimalValue(s[..|s| - 1]) * 10 + (s[|s| - 1] as int - '0' as int)
  }

  const MaxInt64: int := 0x7fff_ffff_ffff_ffff
  const MinInt64: int := -0x8000_0000_0000_0000

  /** The digits of an integer literal after its optional leading sign. */
  function Unsigned(s: string): string
  {
    if |s| > 0 && (s[0] == '-' || s[0] == '+') then s[1..] else s
  }

  /**
   * strconv.Atoi on a 64-bit platform: an optional '+' or '-' followed by at
   * least one ASCII digit, whose value fits in an int64. Anything else
   * (empty, stray characters, overflow) is an error.
   */
  function Atoi(s: string): (r: Option<int>)
    ensures r.Some? ==> Unsigned(s) != [] && AllDigits(Unsigned(s))
    ensures r.Some? ==> MinInt64 <= r.value <= MaxInt64
    ensures Unsigned(s) != [] && AllDigits(Unsigned(s)) && |Unsigned(s)| <= 18 ==> r.Some?
  {
    var digits := Unsigned(s);
    if digits == [] || !AllDigits(digits) then None
    else
      var magnitude: int := DecimalValue(digits);
      var v: int := if s[0] == '-' then -magnitude else magnitude;
      DecimalBound(digits);
      if v < MinInt64 || v > MaxInt64 then None else Some(v)
  }

  lemma {:induction false} DecimalBound(s: string)
    requires AllDigits(s)
    ensures DecimalValue(s) < Pow10(|s|)
    ensures |s| <= 18 ==> DecimalValue(s) < 1_000_000_000_000_000_000
    decreases |s|
  {
    if s != [] {
      var init := s[..|s| - 1];
      DecimalBound(init);
      assert IsDigit(s[|s| - 1]);
      assert DecimalValue(s) <= DecimalValue(init) * 10 + 9;
      assert DecimalValue(init) + 1 <= Pow10(|init|);
      assert (DecimalValue(init) + 1) * 10 <= Pow10(|init|) * 10;
    }
    if |s| <= 18 {
      Pow10Monotone(|s|, 18);
      assert Pow10(18) == 1_000_000_000_000_000_000 by {
        assert Pow10(1) == 10;
        assert Pow10(2) == 100;
        assert Pow10(6) == 1_000_000;
        assert Pow10(12) == 1_000_000_000_000;
      }
    }
  }

  function Pow10(n: nat): (p: nat)
    ensures p >= 1
  {
    if n == 0 then 1 else 10 * Pow10(n - 1)
  }

  lemma {:induction false} Pow10Monotone(m: nat, n: nat)
    requires m <= n
    ensures Pow10(m) <= Pow10(n)
    decreases n - m
  {
    if m < n {
      Pow10Monotone(m + 1, n);
    }
  }
}
