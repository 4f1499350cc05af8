/**
 * The two functions of Go's `strings` package that the service relies on:
 * `Split` with a one-character separator (used on the Authorization header,
 * on the trusted-proxy list and, by the router, on request paths) and
 * `LastIndex` (used by `SplitAtLast`). Strings are sequences of characters.
 */
module GoStrings {

  /** `strings.Join(parts, string(sep))`. */
  function Join(parts: seq<string>, sep: char): string
  {
    if |parts| == 0 then ""
    else if |parts| == 1 then parts[0]
    else parts[0] + [sep] + Join(parts[1..], sep)
  }

  /** Joining two non-empty lists of pieces puts one separator between their joins. */
  lemma {:induction false} JoinAppend(a: seq<string>, b: seq<string>, sep: char)
    requires |a| >= 1 && |b| >= 1
    ensures Join(a + b, sep) == Join(a, sep) + [sep] + Join(b, sep)
    decreases |a|
  {
    if |a| == 1 {
      assert (a + b)[1..] == b;
    } else {
      JoinAppend(a[1..], b, sep);
      assert (a + b)[1..] == a[1..] + b;
    }
  }

  /**
   * `strings.Split(s, string(sep))`: the pieces of `s` between occurrences of
   * `sep`. n occurrences give n + 1 pieces, and empty pieces are kept
   * (`SplitCount`, `SplitPieces`, `JoinSplit`).
   */
  function Split(s: string, sep: char): (parts: seq<string>)
    ensures |parts| >= 1
    decreases |s|
  {
    if |s| == 0 then [""]
    else
      var rest := Split(s[1..], sep);
      if s[0] == sep then [""] + rest
      else [[s[0]] + rest[0]] + rest[1..]
  }

  /** One more piece than there are separators. */
  lemma {:induction false} SplitCount(s: string, sep: char)
    ensures |Split(s, sep)| == multiset(s)[sep] + 1
    decreases |s|
  {
    if |s| > 0 {
      SplitCount(s[1..], sep);
      assert s == [s[0]] + s[1..];
    }
  }

  /** No piece holds the separator. */
  lemma {:induction false} SplitPieces(s: string, sep: char)
    ensures forall i :: 0 <= i < |Split(s, sep)| ==> sep !in Split(s, sep)[i]
    decreases |s|
  {
    if |s| > 0 {
      SplitPieces(s[1..], sep);
      var rest := Split(s[1..], sep);
      if s[0] != sep {
        assert forall i :: 1 <= i < |Split(s, sep)| ==> Split(s, sep)[i] == rest[i];
      }
    }
  }

  /** Joining the pieces with the separator gives the string back. */
  lemma {:induction false} JoinSplit(s: string, sep: char)
    ensures Join(Split(s, sep), sep) == s
    decreases |s|
  {
    if |s| > 0 {
      JoinSplit(s[1..], sep);
      var rest := Split(s[1..], sep);
      var parts := Split(s, sep);
      assert s == [s[0]] + s[1..];
      if s[0] == sep {
        assert parts[1..] == rest;
      } else if |rest| > 1 {
        assert parts[1..] == rest[1..];
        assert Join(rest, sep) == rest[0] + [sep] + Join(rest[1..], sep);
      }
    }
  }

  /** A string without the separator is a single piece. */
  lemma SplitWithout(s: string, sep: char)
    requires sep !in s
    ensures Split(s, sep) == [s]
  {
    SplitCount(s, sep);
    JoinSplit(s, sep);
    assert multiset(s)[sep] == 0;
  }

  /** How `Split` treats the first character. */
  lemma SplitCons(c: char, r: string, sep: char)
    ensures Split([c] + r, sep) ==
              if c == sep then [""] + Split(r, sep) else [[c] + Split(r, sep)[0]] + Split(r, sep)[1..]
  {
    assert ([c] + r)[1..] == r;
  }

  /** The sequence algebra behind `SplitConcat`: extending the first piece commutes with appending pieces. */
  lemma ExtendFirst(head: string, left: seq<string>, right: seq<string>)
    requires |left| >= 1
    ensures [head + (left + right)[0]] + (left + right)[1..] == ([head + left[0]] + left[1..]) + right
  {
    var l := [head + left[0]] + left[1..];
    assert (left + right)[0] == left[0];
    assert (left + right)[1..] == left[1..] + right;
    assert [head + left[0]] + (left[1..] + right) == l + right;
  }

  /** The inductive step of `SplitConcat`: one more character in front. */
  lemma ConcatStep(c: char, r: string, t: string, sep: char)
    requires Split(r + [sep] + t, sep) == Split(r, sep) + Split(t, sep)
    ensures Split([c] + (r + [sep] + t), sep) == Split([c] + r, sep) + Split(t, sep)
  {
    SplitCons(c, r + [sep] + t, sep);
    SplitCons(c, r, sep);
    ConsPieces(c, sep, Split(r, sep), Split(t, sep));
  }

  /** The sequence algebra of `ConcatStep`, with the pieces left abstract. */
  lemma ConsPieces(c: char, sep: char, left: seq<string>, right: seq<string>)
    requires |left| >= 1
    ensures (if c == sep then [""] + (left + right) else [[c] + (left + right)[0]] + (left + right)[1..])
            == (if c == sep then [""] + left else [[c] + left[0]] + left[1..]) + right
  {
    if c == sep {
      assert [""] + (left + right) == ([""] + left) + right;
    } else {
      ExtendFirst([c], left, right);
    }
  }

  /** Cutting at one occurrence of the separator splits the pieces in two. */
  lemma {:induction false} SplitConcat(s: string, t: string, sep: char)
    ensures Split(s + [sep] + t, sep) == Split(s, sep) + Split(t, sep)
    decreases |s|
  {
    if |s| == 0 {
      assert s + [sep] + t == [sep] + t;
      SplitCons(sep, t, sep);
    } else {
      SplitConcat(s[1..], t, sep);
      ConcatStep(s[0], s[1..], t, sep);
      assert s == [s[0]] + s[1..];
      assert s + [sep] + t == [s[0]] + (s[1..] + [sep] + t);
    }
  }

  /** A leading piece without the separator splits off as one piece. */
  lemma SplitLeading(x: string, t: string, sep: char)
    requires sep !in x
    ensures Split(x + [sep] + t, sep) == [x] + Split(t, sep)
  {
    SplitConcat(x, t, sep);
    SplitWithout(x, sep);
  }

  /** `Split` undoes `Join` when no piece holds the separator. */
  lemma {:induction false} SplitJoin(parts: seq<string>, sep: char)
    requires |parts| >= 1
    requires forall i :: 0 <= i < |parts| ==> sep !in parts[i]
    ensures Split(Join(parts, sep), sep) == parts
  {
    SplitWithout(parts[0], sep);
    if |parts| > 1 {
      assert forall i :: 0 <= i < |parts[1..]| ==> parts[1..][i] == parts[i + 1];
      SplitJoin(parts[1..], sep);
      SplitConcat(parts[0], Join(parts[1..], sep), sep);
      assert parts == [parts[0]] + parts[1..];
    }
  }

  /** `sub` occurs in `s` starting at index `i`. */
  predicate OccursAt(s: string, sub: string, i: int)
  {
    0 <= i && i + |sub| <= |s| && s[i..i + |sub|] == sub
  }

  /** The last occurrence of `sub` at an index no greater than `k`, or -1. */
  function LastIndexFrom(s: string, sub: string, k: int): (i: int)
    requires k <= |s| - |sub|
    ensures i == -1 || (i <= k && OccursAt(s, sub, i))
    ensures forall j :: i < j <= k ==> !OccursAt(s, sub, j)
    decreases k + 1
  {
    if k < 0 then -1
    else if OccursAt(s, sub, k) then k
    else LastIndexFrom(s, sub, k - 1)
  }

  /**
   * `strings.LastIndex(s, sub)`: the index where the last occurrence of `sub`
   * starts, or -1 when there is none; `len(s)` for an empty `sub`.
   */
  function LastIndex(s: string, sub: string): (i: int)
    ensures i == -1 || OccursAt(s, sub, i)
    ensures forall j :: i < j ==> !OccursAt(s, sub, j)
  {
    LastIndexFrom(s, sub, |s| - |sub|)
  }
}
