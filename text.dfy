/**
 * The string helpers the core borrows from Go's `strings` and `fmt`
 * packages: `Split` and `Join` on a one-character separator, `Contains`,
 * `LastIndex`, ASCII `ToUpper` and `%d` formatting. Go strings are byte
 * strings; here one `char` stands for one character. That is one byte
 * for ASCII text, but several bytes for other characters.
 */
module Text {

  /** `strings.Split(s, string(sep))`: the pieces between separators, always at least one. */
  function Split(s: string, sep: char): (r: seq<string>)
    ensures |r| >= 1
    decreases |s|
  {
    if s == [] then [[]]
    else
      var rest := Split(s[1..], sep);
      if s[0] == sep then [[]] + rest
      else [[s[0]] + rest[0]] + rest[1..]
  }

  /** No piece of a split contains the separator. */
  lemma {:induction false} SplitPieces(s: string, sep: char)
    ensures forall k :: 0 <= k < |Split(s, sep)| ==> sep !in Split(s, sep)[k]
    decreases |s|
  {
    if s != [] {
      SplitPieces(s[1..], sep);
      var rest := Split(s[1..], sep);
      if s[0] != sep {
        assert sep !in [s[0]] + rest[0];
      }
    }
  }

  /** `strings.Join(xs, string(sep))`. */
  function Join(xs: seq<string>, sep: char): (r: string)
    decreases |xs|
  {
    if |xs| == 0 then []
    else if |xs| == 1 then xs[0]
    else xs[0] + [sep] + Join(xs[1..], sep)
  }

  /** The pieces that are not empty, in their original order. */
  function NonEmpty(xs: seq<string>): (r: seq<string>)
    ensures |r| <= |xs|
    ensures forall k :: 0 <= k < |r| ==> r[k] != [] && r[k] in xs
    decreases |xs|
  {
    if xs == [] then []
    else NonEmpty(xs[..|xs| - 1]) + (if xs[|xs| - 1] == [] then [] else [xs[|xs| - 1]])
  }

  lemma {:induction false} JoinCons(a: string, xs: seq<string>, sep: char)
    ensures Join([a] + xs, sep) == if xs == [] then a else a + [sep] + Join(xs, sep)
  {
    assert ([a] + xs)[1..] == xs;
  }

  /** Joining the pieces of a split gives the original string back. */
  lemma {:induction false} JoinSplit(s: string, sep: char)
    ensures Join(Split(s, sep), sep) == s
    decreases |s|
  {
    if sep !in s {
      SplitWhole(s, sep);
    } else {
      var i := FirstOccurrence(s, sep);
      var a, b := s[..i], s[i + 1..];
      assert s == a + [sep] + b;
      SplitAtSeparator(a, b, sep);
      JoinSplit(b, sep);
      JoinCons(a, Split(b, sep), sep);
    }
  }

  /** A separator-free prefix is glued onto the first piece of what follows it. */
  lemma {:induction false} SplitPrefix(a: string, t: string, sep: char)
    requires sep !in a
    ensures Split(a + t, sep) == [a + Split(t, sep)[0]] + Split(t, sep)[1..]
    decreases |a|
  {
    var st := Split(t, sep);
    if a == [] {
      assert a + t == t;
      assert a + st[0] == st[0];
      assert st == [st[0]] + st[1..];
    } else {
      assert (a + t)[1..] == a[1..] + t;
      SplitPrefix(a[1..], t, sep);
      var rest := Split(a[1..] + t, sep);
      assert rest[0] == a[1..] + st[0] && rest[1..] == st[1..];
      assert (a + t)[0] == a[0] && a[0] != sep;
      assert Split(a + t, sep) == [[a[0]] + rest[0]] + rest[1..];
      assert [a[0]] + (a[1..] + st[0]) == a + st[0];
    }
  }

  /** Splitting at the first separator. */
  lemma SplitAtSeparator(a: string, t: string, sep: char)
    requires sep !in a
    ensures Split(a + [sep] + t, sep) == [a] + Split(t, sep)
  {
    SplitPrefix(a, [sep] + t, sep);
    assert a + [sep] + t == a + ([sep] + t);
    assert ([sep] + t)[1..] == t;
    assert Split([sep] + t, sep) == [[]] + Split(t, sep);
    assert a + [] == a;
  }

  /** Splitting a join of separator-free pieces gives the pieces back. */
  lemma {:induction false} SplitJoin(xs: seq<string>, sep: char)
    requires |xs| >= 1
    requires forall k :: 0 <= k < |xs| ==> sep !in xs[k]
    ensures Split(Join(xs, sep), sep) == xs
    decreases |xs|
  {
    if |xs| == 1 {
      SplitPrefix(xs[0], [], sep);
      assert xs[0] + [] == xs[0];
    } else {
      SplitJoin(xs[1..], sep);
      SplitAtSeparator(xs[0], Join(xs[1..], sep), sep);
      assert xs == [xs[0]] + xs[1..];
    }
  }

  /** The first occurrence of a character that occurs. */
  lemma {:induction false} FirstOccurrence(x: string, c: char) returns (i: nat)
    requires c in x
    ensures i < |x| && x[i] == c && c !in x[..i]
    decreases |x|
  {
    if x[0] == c {
      i := 0;
    } else {
      assert c in x[1..];
      var j := FirstOccurrence(x[1..], c);
      i := j + 1;
      assert x[..i] == [x[0]] + x[1..][..j];
    }
  }

  /** Splitting at any separator splits the two sides independently. */
  lemma {:induction false} SplitSeparated(x: string, y: string, sep: char)
    ensures Split(x + [sep] + y, sep) == Split(x, sep) + Split(y, sep)
    decreases |x|
  {
    if sep !in x {
      SplitAtSeparator(x, y, sep);
      SplitWhole(x, sep);
    } else {
      var i := FirstOccurrence(x, sep);
      var a, b := x[..i], x[i + 1..];
      assert x == a + [sep] + b;
      var t := b + [sep] + y;
      assert Split(x + [sep] + y, sep) == [a] + Split(t, sep) by {
        Regroup(x, a, b, y, sep);
        SplitAtSeparator(a, t, sep);
      }
      assert Split(x, sep) == [a] + Split(b, sep) by {
        SplitAtSeparator(a, b, sep);
      }
      SplitSeparated(b, y, sep);
    }
  }

  /** Cutting `x` at a separator it holds, as `SplitSeparated` does. */
  lemma Regroup(x: string, a: string, b: string, y: string, sep: char)
    requires x == a + [sep] + b
    ensures x + [sep] + y == a + [sep] + (b + [sep] + y)
  {
  }

  /** A string without the separator is a single piece. */
  lemma SplitWhole(a: string, sep: char)
    requires sep !in a
    ensures Split(a, sep) == [a]
  {
    SplitPrefix(a, [], sep);
    assert a + [] == a;
  }

  lemma {:induction false} NonEmptyAppend(xs: seq<string>, ys: seq<string>)
    ensures NonEmpty(xs + ys) == NonEmpty(xs) + NonEmpty(ys)
    decreases |ys|
  {
    if ys != [] {
      var zs := ys[..|ys| - 1];
      assert (xs + ys)[..|xs + ys| - 1] == xs + zs;
      NonEmptyAppend(xs, zs);
    } else {
      assert xs + ys == xs;
    }
  }

  /** Dropping empty pieces keeps a sequence that has none. */
  lemma {:induction false} NonEmptyKeeps(xs: seq<string>)
    requires forall k :: 0 <= k < |xs| ==> xs[k] != []
    ensures NonEmpty(xs) == xs
    decreases |xs|
  {
    if xs != [] {
      NonEmptyKeeps(xs[..|xs| - 1]);
    }
  }

  /** `t` occurs in `s` starting at index `i`. */
  predicate OccursAt(s: string, t: string, i: nat)
  {
    i + |t| <= |s| && s[i..i + |t|] == t
  }

  /** `strings.Contains(s, t)`, scanning from index `from`. */
  function ContainsFrom(s: string, t: string, from: nat): (r: bool)
    ensures r <==> exists i: nat :: from <= i && OccursAt(s, t, i)
    decreases |s| - from
  {
    if from + |t| > |s| then false
    else OccursAt(s, t, from) || ContainsFrom(s, t, from + 1)
  }

  function Contains(s: string, t: string): (r: bool)
    ensures r <==> exists i: nat :: OccursAt(s, t, i)
  {
    ContainsFrom(s, t, 0)
  }

  /** `strings.LastIndex(s, string(c))`: the index of the last `c`, or -1. */
  function LastIndex(s: string, c: char): (r: int)
    ensures -1 <= r < |s|
    ensures r == -1 <==> c !in s
    ensures r >= 0 ==> s[r] == c && forall k :: r < k < |s| ==> s[k] != c
    decreases |s|
  {
    if s == [] then -1
    else if s[|s| - 1] == c then |s| - 1
    else
      assert s == s[..|s| - 1] + [s[|s| - 1]];
      LastIndex(s[..|s| - 1], c)
  }

  /** The ASCII part of Go's `unicode.ToUpper`. */
  function UpperChar(c: char): (r: char)
  {
    if 'a' <= c <= 'z' then (c as int - 32) as char else c
  }

  /** `strings.ToUpper`, restricted to ASCII letters. */
  function Upper(s: string): (r: string)
    ensures |r| == |s|
    ensures forall k :: 0 <= k < |s| ==> r[k] == UpperChar(s[k])
  {
    seq(|s|, k requires 0 <= k < |s| => UpperChar(s[k]))
  }

  predicate IsDigit(c: char)
  {
    '0' <= c <= '9'
  }

  function DigitChar(d: nat): (r: char)
    requires d < 10
  {
    ('0' as int + d) as char
  }

  /** The decimal digits of `n`, without leading zeros. */
  function NatToDecimal(n: nat): (r: string)
    decreases n
  {
    if n < 10 then [DigitChar(n)] else NatToDecimal(n / 10) + [DigitChar(n % 10)]
  }

  /** `fmt.Sprintf("%d", n)`. */
  function IntToDecimal(n: int): (r: string)
  {
    if n < 0 then "-" + NatToDecimal(-n) else NatToDecimal(n)
  }

  /** The value of a string of decimal digits. */
  function DecimalValue(s: string): (r: nat)
    decreases |s|
  {
    if s == [] then 0
    else DecimalValue(s[..|s| - 1]) * 10 + (if IsDigit(s[|s| - 1]) then s[|s| - 1] as int - '0' as int else 0)
  }

  /** `%d` writes a non-empty run of digits with no leading zero, and reading it back gives `n`. */
  lemma {:induction false} NatToDecimalRoundTrip(n: nat)
    ensures var r := NatToDecimal(n);
      && |r| >= 1
      && (forall k :: 0 <= k < |r| ==> IsDigit(r[k]))
      && (|r| > 1 ==> r[0] != '0')
      && DecimalValue(r) == n
    decreases n
  {
    if n >= 10 {
      NatToDecimalRoundTrip(n / 10);
      var r := NatToDecimal(n);
      assert r[..|r| - 1] == NatToDecimal(n / 10);
    }
  }
}
