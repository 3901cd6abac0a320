/**
 * Hand-written scanners for the IHuan executor's two fixed regular
 * expressions: `keyPattern` (`[a-z\d]{32}`, first match) and `ipPattern`
 * (`\d{1,3}\.\d{1,3}\.\d{1,3}\.\d{1,3}:\d{1,5}`, all non-overlapping
 * matches). Each scanner is proved against a declarative description of
 * what the pattern matches.
 */
module Patterns {
  import opened Wrappers
  import opened Text

  // ---------------------------------------------------------------------
  // keyPattern
  // ---------------------------------------------------------------------

  /** The character class `[a-z\d]`. */
  predicate KeyChar(c: char)
  {
    'a' <= c <= 'z' || '0' <= c <= '9'
  }

  /** `[a-z\d]{32}` matches at index `i`. */
  predicate KeyAt(s: string, i: nat)
  {
    i + 32 <= |s| && forall k :: i <= k < i + 32 ==> KeyChar(s[k])
  }

  /**
   * One left-to-right pass that counts the run of class characters ending
   * just before `i`; it stops the first time the run reaches 32, which is
   * the leftmost match.
   */
  function KeyScan(s: string, i: nat, run: nat): (r: Option<nat>)
    requires i <= |s| && run <= i && run < 32
    requires forall k :: i - run <= k < i ==> KeyChar(s[k])
    requires run < i ==> !KeyChar(s[i - run - 1])
    requires forall j: nat :: j + 32 <= i ==> !KeyAt(s, j)
    ensures r.Some? ==> KeyAt(s, r.value) && forall j: nat :: j < r.value ==> !KeyAt(s, j)
    ensures r.None? ==> forall j: nat :: !KeyAt(s, j)
    decreases |s| - i
  {
    if i == |s| then None
    else if KeyChar(s[i]) then
      if run + 1 == 32 then Some(i - 31)
      else
        assert forall j: nat :: j + 32 <= i + 1 ==> !KeyAt(s, j) by {
          forall j: nat | j + 32 == i + 1 ensures !KeyAt(s, j) {
            assert j <= i - run - 1 < j + 32;
          }
        }
        KeyScan(s, i + 1, run + 1)
    else
      assert forall j: nat :: j + 32 <= i + 1 ==> !KeyAt(s, j) by {
        forall j: nat | j + 32 == i + 1 ensures !KeyAt(s, j) {
          assert j <= i < j + 32;
        }
      }
      KeyScan(s, i + 1, 0)
  }

  /**
   * `keyPattern.Find`: the leftmost 32-character run of `[a-z0-9]`, or
   * `None` when there is no such run anywhere.
   */
  function FindKey(s: string): (r: Option<string>)
    ensures r.None? <==> forall j: nat :: !KeyAt(s, j)
    ensures r.Some? ==> exists i: nat :: KeyAt(s, i) && r.value == s[i..i + 32] && forall j: nat :: j < i ==> !KeyAt(s, j)
  {
    match KeyScan(s, 0, 0)
    case None => None
    case Some(i) => Some(s[i..i + 32])
  }

  /** Every key the scanner returns is 32 class characters. */
  lemma FindKeyShape(s: string)
    requires FindKey(s).Some?
    ensures |FindKey(s).value| == 32
    ensures forall k :: 0 <= k < 32 ==> KeyChar(FindKey(s).value[k])
  {
    var i: nat :| KeyAt(s, i) && FindKey(s).value == s[i..i + 32];
    assert forall k :: 0 <= k < 32 ==> FindKey(s).value[k] == s[i + k];
  }

  // ---------------------------------------------------------------------
  // ipPattern: a declarative description
  // ---------------------------------------------------------------------

  /** One element of a concatenation pattern: `\d{lo,hi}` or a literal character. */
  datatype Piece = Digits(lo: nat, hi: nat) | Lit(c: char)

  /** `\d{1,3}\.\d{1,3}\.\d{1,3}\.\d{1,3}:\d{1,5}` */
  const IpPattern: seq<Piece> := [Digits(1, 3), Lit('.'), Digits(1, 3), Lit('.'), Digits(1, 3), Lit('.'),
                                  Digits(1, 3), Lit(':'), Digits(1, 5)]

  /** `s[i..k]` is all decimal digits. */
  predicate AllDigits(s: string, i: nat, k: nat)
  {
    i <= k <= |s| && forall m :: i <= m < k ==> IsDigit(s[m])
  }

  /** `s[i..j]` is matched, as a whole, by the pattern `p`. */
  predicate MatchesAt(p: seq<Piece>, s: string, i: nat, j: nat)
    decreases |p|
  {
    if p == [] then i == j
    else match p[0]
      case Lit(c) => i < |s| && s[i] == c && MatchesAt(p[1..], s, i + 1, j)
      case Digits(lo, hi) =>
        exists k: nat :: i + lo <= k <= i + hi && AllDigits(s, i, k) && MatchesAt(p[1..], s, k, j)
  }

  // ---------------------------------------------------------------------
  // ipPattern: the scanner
  // ---------------------------------------------------------------------

  /** The length of the run of digits starting at `p`. */
  function DigitRun(s: string, p: nat): (n: nat)
    ensures p <= |s| ==> p + n <= |s|
    ensures AllDigits(s, p, p + n) || n == 0
    ensures p + n < |s| ==> !IsDigit(s[p + n])
    decreases |s| - p
  {
    if p < |s| && IsDigit(s[p]) then 1 + DigitRun(s, p + 1) else 0
  }

  /** A run of digits is never longer than the maximal run. */
  lemma {:induction false} DigitRunMax(s: string, p: nat, k: nat)
    requires AllDigits(s, p, k)
    ensures k - p <= DigitRun(s, p)
    decreases k - p
  {
    if p < k {
      DigitRunMax(s, p + 1, k);
    }
  }

  /** `\d{1,3}` followed by `sep`, from `p`: the index just after `sep`. */
  function Group(s: string, p: nat, sep: char): (r: Option<nat>)
    ensures r.Some? ==> p + 2 <= r.value <= |s|
  {
    var d := DigitRun(s, p);
    if 1 <= d <= 3 && p + d < |s| && s[p + d] == sep then Some(p + d + 1) else None
  }

  /** The groups `\d{1,3}` followed by `seps[0]`, then by `seps[1]`, ...: the index after the last separator. */
  function Chain(s: string, p: nat, seps: string): (r: Option<nat>)
    ensures r.Some? ==> p + 2 * |seps| <= r.value && (seps != [] ==> r.value <= |s|)
    decreases |seps|
  {
    if seps == [] then Some(p)
    else match Group(s, p, seps[0])
      case None => None
      case Some(q) => Chain(s, q, seps[1..])
  }

  /** The separators of `ipPattern`'s four leading groups. */
  const IpSeparators: string := "...:"

  /**
   * The end of the match of `ipPattern` that starts at `i`, if any. The
   * four leading digit groups must each be the whole digit run (at most 3
   * digits) before their separator; the last group takes up to 5 digits.
   */
  function IpMatchAt(s: string, i: nat): (r: Option<nat>)
    ensures r.Some? ==> i + 9 <= r.value <= |s|
  {
    match Chain(s, i, IpSeparators)
    case None => None
    case Some(p4) =>
      var d := DigitRun(s, p4);
      if d == 0 then None else Some(p4 + (if d < 5 then d else 5))
  }

  /** One `\d{1,3}` group and its separator, described and scanned. */
  lemma GroupSpec(rest: seq<Piece>, s: string, p: nat, j: nat, sep: char)
    requires !IsDigit(sep)
    ensures MatchesAt([Digits(1, 3), Lit(sep)] + rest, s, p, j)
      <==> Group(s, p, sep).Some? && MatchesAt(rest, s, Group(s, p, sep).value, j)
  {
    var pat := [Digits(1, 3), Lit(sep)] + rest;
    assert pat[1..] == [Lit(sep)] + rest;
    assert pat[1..][1..] == rest;
    var d := DigitRun(s, p);
    if MatchesAt(pat, s, p, j) {
      var k: nat :| p + 1 <= k <= p + 3 && AllDigits(s, p, k) && MatchesAt(pat[1..], s, k, j);
      DigitRunMax(s, p, k);
      assert k == p + d;
    }
    if Group(s, p, sep).Some? && MatchesAt(rest, s, Group(s, p, sep).value, j) {
      assert MatchesAt(pat[1..], s, p + d, j);
    }
  }

  /** The final `\d{1,5}` group. */
  lemma LastGroupSpec(s: string, p: nat, j: nat)
    ensures MatchesAt([Digits(1, 5)], s, p, j) <==> p + 1 <= j <= p + 5 && AllDigits(s, p, j)
  {
    assert [Digits(1, 5)][1..] == [];
    if p + 1 <= j <= p + 5 && AllDigits(s, p, j) {
      assert MatchesAt([Digits(1, 5)][1..], s, j, j);
    }
  }

  /** The pattern of `Chain(s, p, seps)`. */
  function Groups(seps: string): (r: seq<Piece>)
    decreases |seps|
  {
    if seps == [] then [] else [Digits(1, 3), Lit(seps[0])] + Groups(seps[1..])
  }

  lemma IpPatternParts()
    ensures IpPattern == Groups(IpSeparators) + [Digits(1, 5)]
  {
    assert Groups(":") == [Digits(1, 3), Lit(':')];
    assert Groups(".:") == [Digits(1, 3), Lit('.'), Digits(1, 3), Lit(':')];
  }

  /** The scanned groups agree with the described ones. */
  lemma {:induction false} ChainSpec(seps: string, rest: seq<Piece>, s: string, p: nat, j: nat)
    requires forall k :: 0 <= k < |seps| ==> !IsDigit(seps[k])
    ensures MatchesAt(Groups(seps) + rest, s, p, j) <==> Chain(s, p, seps).Some? && MatchesAt(rest, s, Chain(s, p, seps).value, j)
    decreases |seps|
  {
    if seps == [] {
      assert Groups(seps) + rest == rest;
    } else {
      var tail := Groups(seps[1..]) + rest;
      assert Groups(seps) + rest == [Digits(1, 3), Lit(seps[0])] + tail;
      GroupSpec(tail, s, p, j, seps[0]);
      var g := Group(s, p, seps[0]);
      if g.Some? {
        ChainSpec(seps[1..], rest, s, g.value, j);
      }
    }
  }

  /**
   * The scanner agrees with the pattern: what it returns is a match, and
   * no match starting at `i` is longer. In particular a match starting at
   * `i` exists exactly when it returns one.
   */
  lemma IpMatchAtCorrect(s: string, i: nat, j: nat)
    ensures IpMatchAt(s, i) == Some(j) ==> MatchesAt(IpPattern, s, i, j)
    ensures MatchesAt(IpPattern, s, i, j) ==> IpMatchAt(s, i).Some? && j <= IpMatchAt(s, i).value
  {
    IpPatternParts();
    ChainSpec(IpSeparators, [Digits(1, 5)], s, i, j);
    var c := Chain(s, i, IpSeparators);
    if c.Some? {
      LastGroupSpec(s, c.value, j);
      if AllDigits(s, c.value, j) {
        DigitRunMax(s, c.value, j);
      }
    }
  }

  // ---------------------------------------------------------------------
  // FindAll: successive leftmost matches
  // ---------------------------------------------------------------------

  /** A matcher over positions `0..n`: a match starting at `p` ends after `p`, within `n`. */
  ghost predicate Matcher(n: nat, m: nat -> Option<nat>)
  {
    forall p: nat :: m(p).Some? ==> p < m(p).value <= n
  }

  /**
   * `FindAll` with matcher `m`, from index `from`: the spans of the
   * successive leftmost matches, each search resuming where the previous
   * match ended. Every span is a match of `m`, and the spans come in
   * increasing, non-overlapping order.
   */
  function Spans(n: nat, m: nat -> Option<nat>, from: nat): (r: seq<(nat, nat)>)
    requires Matcher(n, m)
    ensures forall k :: 0 <= k < |r| ==> from <= r[k].0 < r[k].1 <= n && m(r[k].0) == Some(r[k].1)
    ensures forall k :: 0 <= k < |r| - 1 ==> r[k].1 <= r[k + 1].0
    decreases n + 1 - from
  {
    if from > n then []
    else match m(from)
      case Some(j) => [(from, j)] + Spans(n, m, j)
      case None => Spans(n, m, from + 1)
  }

  /**
   * No match is skipped: wherever `m` matches (from `from` on), that start
   * lies inside one of the reported spans. With the ordering and soundness
   * of `Spans` this pins the result down to the successive leftmost matches.
   */
  lemma {:induction false} SpansLeftmost(n: nat, m: nat -> Option<nat>, from: nat, p: nat) returns (k: nat)
    requires Matcher(n, m)
    requires from <= p && m(p).Some?
    ensures k < |Spans(n, m, from)| && Spans(n, m, from)[k].0 <= p < Spans(n, m, from)[k].1
    decreases n + 1 - from
  {
    var r := Spans(n, m, from);
    assert from <= n;
    match m(from)
    case Some(e) =>
      assert r == [(from, e)] + Spans(n, m, e);
      if e <= p {
        var k' := SpansLeftmost(n, m, e, p);
        k := k' + 1;
      } else {
        k := 0;
      }
    case None =>
      assert r == Spans(n, m, from + 1);
      assert from != p;
      k := SpansLeftmost(n, m, from + 1, p);
  }

  /** The spans `ipPattern.FindAll` reports. */
  function IpSpans(s: string): (r: seq<(nat, nat)>)
    ensures forall k :: 0 <= k < |r| ==> r[k].0 < r[k].1 <= |s| && IpMatchAt(s, r[k].0) == Some(r[k].1)
    ensures forall k :: 0 <= k < |r| - 1 ==> r[k].1 <= r[k + 1].0
  {
    var m := (p: nat) => IpMatchAt(s, p);
    assert Matcher(|s|, m);
    Spans(|s|, m, 0)
  }

  /** `ipPattern.FindAll(body, -1)`: the matched substrings, in order of appearance, duplicates kept. */
  function FindAllIps(s: string): (r: seq<string>)
    ensures |r| == |IpSpans(s)|
    ensures forall k :: 0 <= k < |r| ==> r[k] == s[IpSpans(s)[k].0..IpSpans(s)[k].1]
  {
    var spans := IpSpans(s);
    seq(|spans|, k requires 0 <= k < |spans| => s[spans[k].0..spans[k].1])
  }

  /**
   * Every extracted substring is matched, as a whole, by `ipPattern`, is
   * the longest such match at its start, and is at least 9 characters.
   */
  lemma FindAllIpsSound(s: string)
    ensures forall k :: 0 <= k < |FindAllIps(s)| ==>
      var sp := IpSpans(s)[k];
      && MatchesAt(IpPattern, s, sp.0, sp.1)
      && (forall j: nat :: MatchesAt(IpPattern, s, sp.0, j) ==> j <= sp.1)
      && |FindAllIps(s)[k]| >= 9
  {
    var spans := IpSpans(s);
    forall k | 0 <= k < |spans|
      ensures MatchesAt(IpPattern, s, spans[k].0, spans[k].1)
      ensures forall j: nat :: MatchesAt(IpPattern, s, spans[k].0, j) ==> j <= spans[k].1
    {
      IpMatchAtCorrect(s, spans[k].0, spans[k].1);
      forall j: nat | MatchesAt(IpPattern, s, spans[k].0, j) ensures j <= spans[k].1 {
        IpMatchAtCorrect(s, spans[k].0, j);
      }
    }
  }

  /** `FindAll` skips no match: wherever the pattern matches, its start lies inside a reported match. */
  lemma FindAllIpsLeftmost(s: string, p: nat, j: nat)
    requires MatchesAt(IpPattern, s, p, j)
    ensures exists k :: 0 <= k < |IpSpans(s)| && IpSpans(s)[k].0 <= p < IpSpans(s)[k].1
  {
    IpMatchAtCorrect(s, p, j);
    var m := (q: nat) => IpMatchAt(s, q);
    assert Matcher(|s|, m);
    var k := SpansLeftmost(|s|, m, 0, p);
    assert IpSpans(s) == Spans(|s|, m, 0);
  }

  /** `FindAll` reports nothing exactly when the pattern matches nowhere in the text. */
  lemma FindAllIpsEmpty(s: string)
    ensures |FindAllIps(s)| == 0 <==> forall p: nat, j: nat :: !MatchesAt(IpPattern, s, p, j)
  {
    if |IpSpans(s)| > 0 {
      FirstSpanMatches(s);
      var p: nat, j: nat := IpSpans(s)[0].0, IpSpans(s)[0].1;
      assert MatchesAt(IpPattern, s, p, j);
    } else {
      NoSpanNoMatch(s);
    }
  }

  /** The first span found is a match of the pattern. */
  lemma FirstSpanMatches(s: string)
    requires |IpSpans(s)| > 0
    ensures MatchesAt(IpPattern, s, IpSpans(s)[0].0, IpSpans(s)[0].1)
  {
    IpMatchAtCorrect(s, IpSpans(s)[0].0, IpSpans(s)[0].1);
  }

  /** With no span found, the pattern matches nowhere. */
  lemma NoSpanNoMatch(s: string)
    requires |IpSpans(s)| == 0
    ensures forall p: nat, j: nat :: !MatchesAt(IpPattern, s, p, j)
  {
    forall p: nat, j: nat | MatchesAt(IpPattern, s, p, j) ensures false {
      FindAllIpsLeftmost(s, p, j);
    }
  }
}
