/**
 * `re.findall(r"[-+]?\d*\.\d+|\d+", q)` as used by the planner node, with
 * `\d` and `isdigit()` read as the ASCII digits.
 *
 * The optional sign belongs only to the decimal alternative: "-3" yields
 * "3", while "-.5" and "+1.5" keep their sign.
 */
module NumberPattern {
  import opened Wrappers
  import opened Text

  predicate IsDigit(c: char) {
    '0' <= c <= '9'
  }

  predicate IsSign(c: char) {
    c == '-' || c == '+'
  }

  /** `any(char.isdigit() for char in s)`. */
  function HasDigit(s: string): bool
    decreases |s|
  {
    s != [] && (IsDigit(s[0]) || HasDigit(s[1..]))
  }

  /** Some digit sits at index `i` or later. */
  ghost predicate DigitFrom(s: string, i: int) {
    exists k :: i <= k < |s| && 0 <= k && IsDigit(s[k])
  }

  lemma {:induction false} HasDigitIff(s: string)
    ensures HasDigit(s) <==> DigitFrom(s, 0)
    decreases |s|
  {
    if s != [] {
      HasDigitIff(s[1..]);
      if DigitFrom(s[1..], 0) {
        var k :| 0 <= k < |s[1..]| && IsDigit(s[1..][k]);
        assert IsDigit(s[k + 1]);
      }
      if DigitFrom(s, 0) && !IsDigit(s[0]) {
        var k :| 0 <= k < |s| && IsDigit(s[k]);
        assert IsDigit(s[1..][k - 1]);
      }
    }
  }

  ghost predicate AllDigits(t: string) {
    forall k :: 0 <= k < |t| ==> IsDigit(t[k])
  }

  /** `u` is `\d*\.\d+` with its dot at index `p`. */
  ghost predicate DotAt(u: string, p: int) {
    0 <= p < |u| - 1 && u[p] == '.' && AllDigits(u[..p]) && AllDigits(u[p + 1..])
  }

  /** `t` without its leading sign, if it has one. */
  function Unsigned(t: string): string {
    if t != [] && IsSign(t[0]) then t[1..] else t
  }

  /** The text of one match: `\d+`, or `[-+]?\d*\.\d+`. */
  ghost predicate IsNumberToken(t: string) {
    (t != [] && AllDigits(t)) || exists p :: DotAt(Unsigned(t), p)
  }

  /** The end of the run of digits that starts at `i`. */
  function DigitRunEnd(s: string, i: nat): (j: nat)
    requires i <= |s|
    ensures i <= j <= |s|
    ensures j == |s| || !IsDigit(s[j])
    decreases |s| - i
  {
    if i < |s| && IsDigit(s[i]) then DigitRunEnd(s, i + 1) else i
  }

  /** Everything the run covers is a digit. */
  lemma {:induction false} DigitRunIsDigits(s: string, i: nat)
    requires i <= |s|
    ensures AllDigits(s[i..DigitRunEnd(s, i)])
    decreases |s| - i
  {
    if i < |s| && IsDigit(s[i]) {
      DigitRunIsDigits(s, i + 1);
      var e := DigitRunEnd(s, i);
      forall m | 0 <= m < e - i ensures IsDigit(s[i..e][m]) {
        if m > 0 { assert s[i..e][m] == s[i + 1..e][m - 1]; }
      }
    }
  }

  /**
   * Where the match starting at index `i` ends, if the pattern matches there.
   * The first alternative is tried first; `\d*` has to stop at the dot, so
   * backtracking never finds a second way for it to match.
   */
  function MatchEnd(s: string, i: nat): (e: Option<nat>)
    requires i < |s|
    ensures e.Some? ==> i < e.value <= |s|
    ensures IsDigit(s[i]) ==> e.Some?
  {
    var k := DigitRunEnd(s, if IsSign(s[i]) then i + 1 else i);
    if k + 1 < |s| && s[k] == '.' && IsDigit(s[k + 1]) then Some(DigitRunEnd(s, k + 1))
    else if IsDigit(s[i]) then Some(DigitRunEnd(s, i))
    else None
  }

  /** What `MatchEnd` delimits is the text of a match of the pattern. */
  lemma MatchIsNumber(s: string, i: nat)
    requires i < |s| && MatchEnd(s, i).Some?
    ensures IsNumberToken(s[i..MatchEnd(s, i).value])
  {
    var j := if IsSign(s[i]) then i + 1 else i;
    var k := DigitRunEnd(s, j);
    if k + 1 < |s| && s[k] == '.' && IsDigit(s[k + 1]) {
      var e := DigitRunEnd(s, k + 1);
      DigitRunIsDigits(s, j);
      DigitRunIsDigits(s, k + 1);
      DotAtSlice(s, j, k, e);
      assert Unsigned(s[i..e]) == s[j..e];
    } else {
      DigitRunIsDigits(s, i);
    }
  }

  /** Digits, a dot and at least one digit, cut out of a text, read as `\d*\.\d+`. */
  lemma DotAtSlice(s: string, j: nat, k: nat, e: nat)
    requires j <= k < e - 1 && e <= |s| && s[k] == '.'
    requires AllDigits(s[j..k]) && AllDigits(s[k + 1..e])
    ensures DotAt(s[j..e], k - j)
  {
    var u := s[j..e];
    assert u[..k - j] == s[j..k];
    assert u[k - j + 1..] == s[k + 1..e];
  }

  /** A run of digits reaches at least as far as any stretch of digits from the same start. */
  lemma {:induction false} DigitRunGe(s: string, j: nat, m: nat)
    requires j <= m <= |s| && AllDigits(s[j..m])
    ensures m <= DigitRunEnd(s, j)
    decreases m - j
  {
    if j < m {
      var run, rest := s[j..m], s[j + 1..m];
      assert IsDigit(run[0]);
      forall q | 0 <= q < |rest| ensures IsDigit(rest[q]) {
        assert rest[q] == run[q + 1];
      }
      DigitRunGe(s, j + 1, m);
    }
  }

  /** A stretch of digits followed by a non-digit is exactly the run. */
  lemma DigitRunStops(s: string, j: nat, m: nat)
    requires j <= m < |s| && AllDigits(s[j..m]) && !IsDigit(s[m])
    ensures DigitRunEnd(s, j) == m
  {
    DigitRunGe(s, j, m);
    DigitRunIsDigits(s, j);
  }

  /**
   * The match at `i` is the longest number token starting there, and when
   * no match starts at `i` no token does.
   */
  lemma MatchMaximal(s: string, i: nat, e': nat)
    requires i < e' <= |s| && IsNumberToken(s[i..e'])
    ensures MatchEnd(s, i).Some? && e' <= MatchEnd(s, i).value
  {
    var t := s[i..e'];
    if p :| DotAt(Unsigned(t), p) {
      DecimalMaximal(s, i, e', p);
    } else {
      IntegerMaximal(s, i, e');
    }
  }

  /** A decimal token `[-+]?\d*\.\d+` at `i` ends no later than the match there. */
  lemma DecimalMaximal(s: string, i: nat, e': nat, p: nat)
    requires i < e' <= |s| && DotAt(Unsigned(s[i..e']), p)
    ensures MatchEnd(s, i).Some? && e' <= MatchEnd(s, i).value
  {
    var t := s[i..e'];
    var u := Unsigned(t);
    var j := if IsSign(s[i]) then i + 1 else i;
    assert u == s[j..e'];
    assert s[j..j + p] == u[..p];
    assert s[j + p + 1..e'] == u[p + 1..];
    var k := j + p;
    DigitRunStops(s, j, k);
    assert s[k] == '.' && s[k + 1] == u[p + 1];
    DigitRunGe(s, k + 1, e');
    assert MatchEnd(s, i) == Some(DigitRunEnd(s, k + 1));
  }

  /** An integer token `\d+` at `i` ends no later than the match there. */
  lemma IntegerMaximal(s: string, i: nat, e': nat)
    requires i < e' <= |s| && s[i..e'] != [] && AllDigits(s[i..e'])
    ensures MatchEnd(s, i).Some? && e' <= MatchEnd(s, i).value
  {
    assert IsDigit(s[i..e'][0]);
    DigitRunGe(s, i, e');
    var k := DigitRunEnd(s, i);
    if k + 1 < |s| && s[k] == '.' && IsDigit(s[k + 1]) {
      assert k + 1 <= DigitRunEnd(s, k + 1);
    }
  }

  /** Where a match starts and where it ends. */
  datatype Span = Span(lo: nat, hi: nat)

  /** Where the scan from `i` finds its matches, in the same order as `FindFrom`. */
  ghost function MatchSpans(s: string, i: nat): seq<Span>
    requires i <= |s|
    decreases |s| - i
  {
    if i == |s| then []
    else
      match MatchEnd(s, i)
      case Some(e) => [Span(i, e)] + MatchSpans(s, e)
      case None => MatchSpans(s, i + 1)
  }

  /** Position `p` lies inside one of the spans. */
  ghost predicate Covered(spans: seq<Span>, p: int) {
    exists k :: 0 <= k < |spans| && spans[k].lo <= p < spans[k].hi
  }

  /** Each span is the match at its start. */
  lemma {:induction false} SpansAreMatches(s: string, i: nat)
    requires i <= |s|
    ensures forall k :: 0 <= k < |MatchSpans(s, i)| ==>
              && i <= MatchSpans(s, i)[k].lo < |s|
              && MatchEnd(s, MatchSpans(s, i)[k].lo) == Some(MatchSpans(s, i)[k].hi)
    decreases |s| - i
  {
    if i < |s| {
      match MatchEnd(s, i)
      case Some(e) =>
        SpansAreMatches(s, e);
        var rest := MatchSpans(s, e);
        var spans := [Span(i, e)] + rest;
        assert MatchSpans(s, i) == spans;
        assert forall k :: 1 <= k < |spans| ==> spans[k] == rest[k - 1];
      case None =>
        SpansAreMatches(s, i + 1);
    }
  }

  /** The scan's results are the texts of its spans. */
  lemma {:induction false} FindFromSpans(s: string, i: nat)
    requires i <= |s|
    ensures |MatchSpans(s, i)| == |FindFrom(s, i)|
    ensures forall k :: 0 <= k < |MatchSpans(s, i)| ==>
              && MatchSpans(s, i)[k].lo <= MatchSpans(s, i)[k].hi <= |s|
              && FindFrom(s, i)[k] == s[MatchSpans(s, i)[k].lo..MatchSpans(s, i)[k].hi]
    decreases |s| - i
  {
    if i < |s| {
      match MatchEnd(s, i)
      case Some(e) =>
        FindFromSpans(s, e);
        var rest, nums := MatchSpans(s, e), FindFrom(s, e);
        var spans, all := [Span(i, e)] + rest, [s[i..e]] + nums;
        assert MatchSpans(s, i) == spans;
        assert FindFrom(s, i) == all;
        forall k | 1 <= k < |spans|
          ensures spans[k].lo <= spans[k].hi <= |s| && all[k] == s[spans[k].lo..spans[k].hi]
        {
          assert spans[k] == rest[k - 1] && all[k] == nums[k - 1];
        }
      case None =>
        FindFromSpans(s, i + 1);
    }
  }

  /** The spans lie left to right without overlapping. */
  lemma {:induction false} SpansOrdered(s: string, i: nat)
    requires i <= |s|
    ensures forall k :: 0 <= k < |MatchSpans(s, i)| ==> i <= MatchSpans(s, i)[k].lo < MatchSpans(s, i)[k].hi
    ensures forall k :: 0 <= k < |MatchSpans(s, i)| - 1 ==> MatchSpans(s, i)[k].hi <= MatchSpans(s, i)[k + 1].lo
    decreases |s| - i
  {
    if i < |s| {
      match MatchEnd(s, i)
      case Some(e) =>
        SpansOrdered(s, e);
        var rest := MatchSpans(s, e);
        var spans := [Span(i, e)] + rest;
        assert MatchSpans(s, i) == spans;
        assert forall k :: 1 <= k < |spans| ==> spans[k] == rest[k - 1];
      case None =>
        SpansOrdered(s, i + 1);
    }
  }

  /** The scan passes over only positions where no match starts. */
  lemma {:induction false} SpansGaps(s: string, i: nat)
    requires i <= |s|
    ensures forall p :: i <= p < |s| && !Covered(MatchSpans(s, i), p) ==> MatchEnd(s, p).None?
    decreases |s| - i
  {
    if i < |s| {
      match MatchEnd(s, i)
      case Some(e) =>
        SpansGaps(s, e);
        var rest := MatchSpans(s, e);
        var spans := [Span(i, e)] + rest;
        assert MatchSpans(s, i) == spans;
        forall p | i <= p < |s| && !Covered(spans, p) ensures MatchEnd(s, p).None? {
          assert !(spans[0].lo <= p < spans[0].hi);
          assert !Covered(rest, p) by {
            forall k | 0 <= k < |rest| ensures !(rest[k].lo <= p < rest[k].hi) {
              assert spans[k + 1] == rest[k];
            }
          }
        }
      case None =>
        SpansGaps(s, i + 1);
    }
  }

  /**
   * `re.findall` scans leftmost-longest: each result is the text of a span
   * of `s`, the spans come left to right without overlapping, no longer
   * number token starts where a span starts, and no number token starts at
   * any position outside the spans.
   */
  lemma FindAllLeftmostLongest(s: string)
    ensures |MatchSpans(s, 0)| == |FindAll(s)|
    ensures forall k :: 0 <= k < |MatchSpans(s, 0)| ==>
              && MatchSpans(s, 0)[k].lo < MatchSpans(s, 0)[k].hi <= |s|
              && FindAll(s)[k] == s[MatchSpans(s, 0)[k].lo..MatchSpans(s, 0)[k].hi]
    ensures forall k :: 0 <= k < |MatchSpans(s, 0)| - 1 ==> MatchSpans(s, 0)[k].hi <= MatchSpans(s, 0)[k + 1].lo
    ensures forall k, e' ::
              (0 <= k < |MatchSpans(s, 0)| && MatchSpans(s, 0)[k].lo < e' <= |s| && IsNumberToken(s[MatchSpans(s, 0)[k].lo..e']))
              ==> e' <= MatchSpans(s, 0)[k].hi
    ensures forall p, e' :: 0 <= p < e' <= |s| && !Covered(MatchSpans(s, 0), p) ==> !IsNumberToken(s[p..e'])
  {
    FindFromSpans(s, 0);
    SpansOrdered(s, 0);
    SpansLongest(s);
    GapsHoldNoToken(s);
  }

  /** No number token starting where a span starts reaches past the span. */
  lemma SpansLongest(s: string)
    ensures forall k, e' ::
              (0 <= k < |MatchSpans(s, 0)| && MatchSpans(s, 0)[k].lo < e' <= |s| && IsNumberToken(s[MatchSpans(s, 0)[k].lo..e']))
              ==> e' <= MatchSpans(s, 0)[k].hi
  {
    var spans := MatchSpans(s, 0);
    SpansAreMatches(s, 0);
    forall k, e' | 0 <= k < |spans| && spans[k].lo < e' <= |s| && IsNumberToken(s[spans[k].lo..e'])
      ensures e' <= spans[k].hi
    {
      MatchMaximal(s, spans[k].lo, e');
    }
  }

  /** No number token starts outside the spans. */
  lemma GapsHoldNoToken(s: string)
    ensures forall p, e' :: 0 <= p < e' <= |s| && !Covered(MatchSpans(s, 0), p) ==> !IsNumberToken(s[p..e'])
  {
    SpansGaps(s, 0);
    forall p, e' | 0 <= p < e' <= |s| && !Covered(MatchSpans(s, 0), p) ensures !IsNumberToken(s[p..e']) {
      if IsNumberToken(s[p..e']) {
        MatchMaximal(s, p, e');
      }
    }
  }

  /** The matches of the scan that starts at index `i`, left to right. */
  function FindFrom(s: string, i: nat): (nums: seq<string>)
    requires i <= |s|
    ensures forall k :: 0 <= k < |nums| ==> IsNumberToken(nums[k])
    decreases |s| - i
  {
    if i == |s| then []
    else
      match MatchEnd(s, i)
      case Some(e) => MatchIsNumber(s, i); [s[i..e]] + FindFrom(s, e)
      case None => FindFrom(s, i + 1)
  }

  /** `re.findall(r"[-+]?\d*\.\d+|\d+", s)`. */
  function FindAll(s: string): (nums: seq<string>)
    ensures forall k :: 0 <= k < |nums| ==> IsNumberToken(nums[k])
  {
    FindFrom(s, 0)
  }

  /** Every character of a match is a digit, a dot or a sign. */
  lemma TokenChars(t: string)
    requires IsNumberToken(t)
    ensures forall k :: 0 <= k < |t| ==> IsDigit(t[k]) || t[k] == '.' || IsSign(t[k])
  {
    if !AllDigits(t) {
      var u := Unsigned(t);
      var p :| DotAt(u, p);
      forall k | 0 <= k < |t| ensures IsDigit(t[k]) || t[k] == '.' || IsSign(t[k]) {
        var d := |t| - |u|;
        if k >= d {
          var m := k - d;
          assert t[k] == u[m];
          if m < p { assert u[..p][m] == u[m]; }
          else if m > p { assert u[p + 1..][m - p - 1] == u[m]; }
        }
      }
    }
  }

  /** So a match holds neither of the separators the tool log uses. */
  lemma TokenHasNoSeparator(t: string)
    requires IsNumberToken(t)
    ensures ':' !in t && ',' !in t
  {
    TokenChars(t);
  }

  /** Every match holds a digit. */
  lemma TokenHasDigit(t: string)
    requires IsNumberToken(t)
    ensures DigitFrom(t, 0)
  {
    if !AllDigits(t) {
      var u := Unsigned(t);
      var p :| DotAt(u, p);
      assert u[p + 1..][0] == u[p + 1];
      assert IsDigit(t[|t| - |u| + p + 1]);
    } else {
      assert IsDigit(t[0]);
    }
  }

  /** The scan from `i` finds a number exactly when a digit sits at `i` or later. */
  lemma {:induction false} FindFromNonEmptyIff(s: string, i: nat)
    requires i <= |s|
    ensures FindFrom(s, i) != [] <==> DigitFrom(s, i)
    decreases |s| - i
  {
    if i < |s| {
      match MatchEnd(s, i)
      case Some(e) =>
        var t := s[i..e];
        MatchIsNumber(s, i);
        TokenHasDigit(t);
        var k :| 0 <= k < |t| && IsDigit(t[k]);
        assert IsDigit(s[i + k]);
      case None =>
        FindFromNonEmptyIff(s, i + 1);
        assert !IsDigit(s[i]);
        if DigitFrom(s, i) {
          var k :| i <= k < |s| && IsDigit(s[k]);
          assert k != i;
        }
    }
  }

  /** `re.findall` finds a number exactly when the text has a digit. */
  lemma NumbersIffDigit(s: string)
    ensures FindAll(s) != [] <==> HasDigit(s)
  {
    FindFromNonEmptyIff(s, 0);
    HasDigitIff(s);
  }

  lemma LowerCharKeepsNumberChars(c: char)
    ensures IsDigit(LowerChar(c)) == IsDigit(c)
    ensures (LowerChar(c) == '.') == (c == '.')
    ensures IsSign(LowerChar(c)) == IsSign(c)
    ensures IsDigit(c) || c == '.' || IsSign(c) ==> LowerChar(c) == c
  {
  }

  /** What the pattern can tell apart about a character. */
  datatype CharKind = Digit | Dot | Sign | Other

  function KindOf(c: char): CharKind {
    if IsDigit(c) then Digit else if c == '.' then Dot else if IsSign(c) then Sign else Other
  }

  /** Two texts the pattern cannot tell apart. */
  ghost predicate SameKinds(s: string, s': string) {
    |s| == |s'| && forall k :: 0 <= k < |s| ==> KindOf(s[k]) == KindOf(s'[k])
  }

  lemma {:induction false} DigitRunEndKinds(s: string, s': string, i: nat)
    requires SameKinds(s, s') && i <= |s|
    ensures DigitRunEnd(s', i) == DigitRunEnd(s, i)
    decreases |s| - i
  {
    if i < |s| {
      assert KindOf(s[i]) == KindOf(s'[i]);
      DigitRunEndKinds(s, s', i + 1);
    }
  }

  lemma SameKindFacts(a: char, b: char)
    requires KindOf(a) == KindOf(b)
    ensures IsDigit(a) == IsDigit(b) && (a == '.') == (b == '.') && IsSign(a) == IsSign(b)
  {
  }

  lemma MatchEndKinds(s: string, s': string, i: nat)
    requires SameKinds(s, s') && i < |s|
    ensures MatchEnd(s', i) == MatchEnd(s, i)
  {
    SameKindFacts(s[i], s'[i]);
    var j := if IsSign(s[i]) then i + 1 else i;
    DigitRunEndKinds(s, s', j);
    var k := DigitRunEnd(s, j);
    DotThenDigitKinds(s, s', k);
    DigitRunEndKinds(s, s', i);
    if k + 1 < |s| {
      DigitRunEndKinds(s, s', k + 1);
    }
  }

  lemma DotThenDigitKinds(s: string, s': string, k: nat)
    requires SameKinds(s, s') && k <= |s|
    ensures (k + 1 < |s| && s[k] == '.' && IsDigit(s[k + 1])) == (k + 1 < |s'| && s'[k] == '.' && IsDigit(s'[k + 1]))
  {
    if k + 1 < |s| {
      SameKindFacts(s[k], s'[k]);
      SameKindFacts(s[k + 1], s'[k + 1]);
    }
  }

  lemma LowerSameKinds(s: string)
    ensures SameKinds(s, Lower(s))
  {
    forall k | 0 <= k < |s| ensures KindOf(s[k]) == KindOf(Lower(s)[k]) {
      LowerCharKeepsNumberChars(s[k]);
    }
  }

  lemma MatchLower(s: string, i: nat, e: nat)
    requires i < e <= |s| && IsNumberToken(s[i..e])
    ensures Lower(s)[i..e] == s[i..e]
  {
    TokenChars(s[i..e]);
    forall m | i <= m < e ensures Lower(s)[m] == s[m] {
      assert s[i..e][m - i] == s[m];
      LowerCharKeepsNumberChars(s[m]);
    }
  }

  lemma {:induction false} FindFromLower(s: string, i: nat)
    requires i <= |s|
    ensures FindFrom(Lower(s), i) == FindFrom(s, i)
    decreases |s| - i
  {
    if i < |s| {
      LowerSameKinds(s);
      MatchEndKinds(s, Lower(s), i);
      match MatchEnd(s, i)
      case Some(e) =>
        MatchIsNumber(s, i);
        MatchLower(s, i, e);
        FindFromLower(s, e);
      case None =>
        FindFromLower(s, i + 1);
    }
  }

  /** Lower-casing the question first changes none of the numbers found in it. */
  lemma FindAllLower(s: string)
    ensures FindAll(Lower(s)) == FindAll(s)
  {
    FindFromLower(s, 0);
  }

  /** A character that can neither start nor continue a match. */
  predicate PlainChar(c: char) {
    !IsDigit(c) && !IsSign(c) && c != '.'
  }

  /** A stretch without digits, signs or dots holds no match. */
  lemma {:induction false} FindFromSkip(s: string, i: nat, j: nat)
    requires i <= j <= |s|
    requires forall k :: i <= k < j ==> PlainChar(s[k])
    ensures FindFrom(s, i) == FindFrom(s, j)
    decreases j - i
  {
    if i < j {
      assert DigitRunEnd(s, i) == i;
      assert MatchEnd(s, i) == None;
      FindFromSkip(s, i + 1, j);
    }
  }

  /** A lone digit not followed by a digit or a dot is a match of its own. */
  lemma FindFromDigit(s: string, k: nat)
    requires k < |s| && IsDigit(s[k])
    requires k + 1 == |s| || (!IsDigit(s[k + 1]) && s[k + 1] != '.')
    ensures FindFrom(s, k) == [[s[k]]] + FindFrom(s, k + 1)
  {
    assert DigitRunEnd(s, k + 1) == k + 1;
    assert DigitRunEnd(s, k) == k + 1;
    assert MatchEnd(s, k) == Some(k + 1);
    assert s[k..k + 1] == [s[k]];
  }

  /** No character of `s` can start or continue a match. */
  predicate NoNumberChars(s: string) {
    forall c :: c in s ==> PlainChar(c)
  }

  lemma NoNumberCharsAt(s: string)
    requires NoNumberChars(s)
    ensures forall k :: 0 <= k < |s| ==> PlainChar(s[k])
  {
    forall k | 0 <= k < |s| ensures PlainChar(s[k]) {
      assert s[k] in s;
    }
  }

  /** Text without number characters yields no match. */
  lemma FindAllNone(a: string)
    requires NoNumberChars(a)
    ensures FindAll(a) == []
  {
    NoNumberCharsAt(a);
    FindFromSkip(a, 0, |a|);
  }

  /** One lone digit amid plain text yields exactly that digit. */
  lemma FindAllOneDigit(a: string, d: char, c: string)
    requires NoNumberChars(a) && IsDigit(d) && NoNumberChars(c)
    ensures FindAll(a + [d] + c) == [[d]]
  {
    var s := a + [d] + c;
    NoNumberCharsAt(a);
    NoNumberCharsAt(c);
    assert forall k :: 0 <= k < |a| ==> s[k] == a[k];
    assert forall k :: |a| < k < |s| ==> s[k] == c[k - |a| - 1];
    FindFromSkip(s, 0, |a|);
    FindFromDigit(s, |a|);
    FindFromSkip(s, |a| + 1, |s|);
  }

  /** From a lone digit followed only by plain text, the scan yields just that digit. */
  lemma FindFromLastDigit(s: string, i: nat)
    requires i < |s| && IsDigit(s[i])
    requires forall k :: i < k < |s| ==> PlainChar(s[k])
    ensures FindFrom(s, i) == [[s[i]]]
  {
    FindFromSkip(s, i + 1, |s|);
    FindFromDigit(s, i);
  }

  /** A slice without number characters makes each of its positions plain. */
  lemma PlainSlice(s: string, lo: nat, hi: nat)
    requires lo <= hi <= |s| && NoNumberChars(s[lo..hi])
    ensures forall k :: lo <= k < hi ==> PlainChar(s[k])
  {
    NoNumberCharsAt(s[lo..hi]);
    assert forall k :: lo <= k < hi ==> s[k] == s[lo..hi][k - lo];
  }

  /** Plain text, then a lone digit, then plain text: the scan yields just that digit. */
  lemma FindFromOneDigit(s: string, lo: nat, b: string, d: char, c: string)
    requires lo <= |s| && s[lo..] == b + [d] + c
    requires NoNumberChars(b) && IsDigit(d) && NoNumberChars(c)
    ensures FindFrom(s, lo) == [[d]]
  {
    var i := lo + |b|;
    assert s[lo..i] == b && s[i] == d;
    assert s[i + 1..|s|] == c;
    PlainSlice(s, lo, i);
    PlainSlice(s, i + 1, |s|);
    FindFromLastDigit(s, i);
    FindFromSkip(s, lo, i);
  }

  /** Plain text, then a lone digit not followed by a digit or a dot: the scan yields that digit first. */
  lemma FindFromPlainDigit(s: string, a: string)
    requires |a| < |s| && s[0..|a|] == a && NoNumberChars(a) && IsDigit(s[|a|])
    requires |a| + 1 == |s| || PlainChar(s[|a| + 1])
    ensures FindAll(s) == [[s[|a|]]] + FindFrom(s, |a| + 1)
  {
    PlainSlice(s, 0, |a|);
    FindFromSkip(s, 0, |a|);
    FindFromDigit(s, |a|);
  }

  lemma TwoDigitsLayout(a: string, d1: char, b: string, d2: char, c: string)
    ensures var s := a + [d1] + b + [d2] + c;
            s[0..|a|] == a && s[|a|] == d1 && s[|a| + 1..] == b + [d2] + c
  {
    var s := a + [d1] + b + [d2] + c;
    assert s == (a + [d1]) + (b + [d2] + c);
  }

  /** Two lone digits amid plain text yield exactly those two digits, in order. */
  lemma FindAllTwoDigits(a: string, d1: char, b: string, d2: char, c: string)
    requires NoNumberChars(a) && IsDigit(d1) && NoNumberChars(b) && b != [] && IsDigit(d2) && NoNumberChars(c)
    ensures FindAll(a + [d1] + b + [d2] + c) == [[d1], [d2]]
  {
    var s := a + [d1] + b + [d2] + c;
    TwoDigitsLayout(a, d1, b, d2, c);
    FindFromOneDigit(s, |a| + 1, b, d2, c);
    assert s[|a| + 1] == (b + [d2] + c)[0] == b[0];
    FindFromPlainDigit(s, a);
  }

  /** The sign is not part of an integer match: "-3" yields "3". */
  lemma SignedIntegerLosesSign()
    ensures FindAll("-3") == ["3"]
  {
    assert MatchEnd("-3", 0) == None;
    assert MatchEnd("-3", 1) == Some(2);
    assert FindFrom("-3", 2) == [];
    assert "-3"[1..2] == "3";
  }

  /** Each match takes all of its digits, and a decimal its fraction: "12 and 3.5" yields "12" and "3.5". */
  lemma MultiDigitAndDecimal()
    ensures FindAll("12 and 3.5") == ["12", "3.5"]
  {
    var s := "12 and 3.5";
    assert DigitRunEnd(s, 0) == 2;
    assert MatchEnd(s, 0) == Some(2);
    FindFromSkip(s, 2, 7);
    assert DigitRunEnd(s, 7) == 8;
    assert DigitRunEnd(s, 9) == 10;
    assert MatchEnd(s, 7) == Some(10);
    assert FindFrom(s, 10) == [];
    assert s[0..2] == "12" && s[7..10] == "3.5";
  }

  /** A signed decimal keeps its sign: "-.5" yields "-.5". */
  lemma SignedDecimalKeepsSign()
    ensures FindAll("-.5") == ["-.5"]
  {
    assert DigitRunEnd("-.5", 1) == 1;
    assert DigitRunEnd("-.5", 2) == 3;
    assert MatchEnd("-.5", 0) == Some(3);
    assert FindFrom("-.5", 3) == [];
    assert "-.5"[0..3] == "-.5";
  }
}
