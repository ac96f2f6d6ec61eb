/**
 Resolution of overlapping matches by precedence, and the Luhn check that admits payment
 cards.  The matches of each rule's pattern are an input.
 */
module PiiDetection {
  import opened Prelude
  import opened PiiMasking

  // ---------------------------------------------------------------------
  // Luhn
  // ---------------------------------------------------------------------

  predicate IsDigit(c: char) { '0' <= c <= '9' }
  predicate AllDigits(s: string) { forall i :: 0 <= i < |s| ==> IsDigit(s[i]) }

  function Value(c: char): (v: int)
    requires IsDigit(c)
    ensures 0 <= v <= 9
  {
    c as int - '0' as int
  }

  /** What a digit adds at a position counted from the right: every second one is doubled and its digits are added. */
  function Weight(c: char, position: int): int
    requires IsDigit(c)
  {
    if position % 2 == 0 then Value(c) else 2 * Value(c) / 10 + 2 * Value(c) % 10
  }

  /** The positional sum of section B of ISO/IEC 7812-1; the first digit is |s| - 1 places from the right. */
  function LuhnSum(s: string): int
    requires AllDigits(s)
  {
    if s == [] then 0 else Weight(s[0], |s| - 1) + LuhnSum(s[1..])
  }

  predicate PassesLuhn(s: string)
    requires AllDigits(s)
  {
    LuhnSum(s) > 0 && LuhnSum(s) % 10 == 0
  }

  /** The loop runs from the right, doubling every second digit and taking nine from what exceeds nine. */
  method LuhnCheck(digits: string) returns (ok: bool)
    requires AllDigits(digits)
    ensures ok == PassesLuhn(digits)
  {
    var sum, shouldDouble := 0, false;
    var index := |digits| - 1;
    while index >= 0
      invariant -1 <= index < |digits|
      invariant sum == LuhnSum(digits[index + 1..])
      invariant shouldDouble == ((|digits| - 1 - index) % 2 == 1)
    {
      var digit := Value(digits[index]);
      if shouldDouble {
        digit := digit * 2;
        if digit > 9 { digit := digit - 9; }
      }
      assert digits[index..][1..] == digits[index + 1..];
      sum := sum + digit;
      shouldDouble := !shouldDouble;
      index := index - 1;
    }
    assert digits[0..] == digits;
    ok := sum > 0 && sum % 10 == 0;
  }

  /** The sum vanishes only for zeros, so the extra test excludes exactly the all-zero numbers. */
  lemma {:induction false} OnlyZerosSumToZero(s: string)
    requires AllDigits(s)
    ensures LuhnSum(s) >= 0
    ensures LuhnSum(s) == 0 <==> forall i :: 0 <= i < |s| ==> s[i] == '0'
  {
    if s != [] {
      OnlyZerosSumToZero(s[1..]);
      assert forall i :: 1 <= i < |s| ==> s[i] == s[1..][i - 1];
      assert (forall i :: 0 <= i < |s| ==> s[i] == '0') ==>
               (forall i :: 0 <= i < |s[1..]| ==> s[1..][i] == s[i + 1] == '0');
    }
  }

  lemma {:induction false} ReplaceDigit(s: string, i: nat, c: char)
    requires AllDigits(s) && i < |s| && IsDigit(c)
    ensures LuhnSum(s[i := c]) == LuhnSum(s) - Weight(s[i], |s| - 1 - i) + Weight(c, |s| - 1 - i)
  {
    if i == 0 {
      assert s[i := c][1..] == s[1..];
    } else {
      ReplaceDigit(s[1..], i - 1, c);
      assert s[i := c][1..] == s[1..][i - 1 := c];
    }
  }

  lemma WeightsDiffer(c: char, d: char, position: int)
    requires IsDigit(c) && IsDigit(d)
    ensures 0 <= Weight(c, position) <= 9
    ensures Weight(c, position) == Weight(d, position) ==> c == d
  {
  }

  lemma ShiftBreaksTens(sum: int, change: int)
    requires sum % 10 == 0 && -10 < change < 10
    ensures (sum + change) % 10 == 0 <==> change == 0
  {
  }

  /** Any one wrong digit is noticed. */
  lemma {:induction false} SingleDigitErrorsFail(s: string, i: nat, c: char)
    requires AllDigits(s) && PassesLuhn(s) && i < |s| && IsDigit(c) && c != s[i]
    ensures !PassesLuhn(s[i := c])
  {
    ReplaceDigit(s, i, c);
    WeightsDiffer(s[i], c, |s| - 1 - i);
    WeightsDiffer(c, s[i], |s| - 1 - i);
    ShiftBreaksTens(LuhnSum(s), Weight(c, |s| - 1 - i) - Weight(s[i], |s| - 1 - i));
  }

  function Swapped(s: string, i: nat): string
    requires i + 1 < |s|
  {
    s[i := s[i + 1]][i + 1 := s[i]]
  }

  /** Two neighbouring digits in the wrong order are noticed, except for 0 and 9. */
  lemma {:induction false} SwapsFailUnlessZeroNine(s: string, i: nat)
    requires AllDigits(s) && PassesLuhn(s) && i + 1 < |s|
    ensures PassesLuhn(Swapped(s, i)) <==> s[i] == s[i + 1] || {s[i], s[i + 1]} == {'0', '9'}
  {
    var a, b, p := s[i], s[i + 1], |s| - 1 - i;
    ReplaceDigit(s, i, b);
    ReplaceDigit(s[i := b], i + 1, a);
    var change := Weight(b, p) - Weight(a, p) + Weight(a, p - 1) - Weight(b, p - 1);
    assert LuhnSum(Swapped(s, i)) == LuhnSum(s) + change;
    SwapChange(a, b, p);
    ShiftBreaksTens(LuhnSum(s), change);
    SameSet(a, b);
  }

  lemma SameSet(a: char, b: char)
    ensures {a, b} == {'0', '9'} <==> (a == '0' && b == '9') || (a == '9' && b == '0')
  {
    assert a in {a, b} && b in {a, b};
    assert '0' in {'0', '9'} && '9' in {'0', '9'};
  }

  /** Doubling changes a digit by its own value, or by nine less when it is above four. */
  lemma Growth(c: char, p: int)
    requires IsDigit(c)
    ensures var grown := if Value(c) > 4 then Value(c) - 9 else Value(c);
            Weight(c, p) - Weight(c, p - 1) == if p % 2 == 0 then -grown else grown
  {
    assert p % 2 == 0 <==> (p - 1) % 2 != 0;
  }

  lemma SwapChange(a: char, b: char, p: int)
    requires IsDigit(a) && IsDigit(b)
    ensures var change := Weight(b, p) - Weight(a, p) + Weight(a, p - 1) - Weight(b, p - 1);
            && -10 < change < 10
            && (change == 0 <==> a == b || (a == '0' && b == '9') || (a == '9' && b == '0'))
  {
    Growth(a, p);
    Growth(b, p);
    var ga, gb := if Value(a) > 4 then Value(a) - 9 else Value(a), if Value(b) > 4 then Value(b) - 9 else Value(b);
    assert -4 <= ga <= 4 && -4 <= gb <= 4;
    assert ga == gb <==> a == b || (Value(a) == 0 && Value(b) == 9) || (Value(a) == 9 && Value(b) == 0);
  }

  // ---------------------------------------------------------------------
  // Candidates
  // ---------------------------------------------------------------------

  datatype Rule = Rule(detector: Detector, category: Category, priority: int)

  const RULES: seq<Rule> :=
    [ Rule(ConnectionString, INTERNAL_SECRET, 100), Rule(ApiKey, CREDENTIAL, 90), Rule(PaymentCardLuhn, FINANCIAL, 80),
      Rule(GovernmentId, GOVERNMENT_ID, 70), Rule(Email, CONTACT_INFO, 60), Rule(Phone, CONTACT_INFO, 50) ]

  function PriorityOf(d: Detector): int {
    match d
    case ConnectionString => 100 case ApiKey => 90 case PaymentCardLuhn => 80
    case GovernmentId => 70 case Email => 60 case Phone => 50
  }

  lemma RuleRanks(r: nat)
    requires r < |RULES|
    ensures RULES[r].priority == PriorityOf(RULES[r].detector) == 100 - 10 * r
  {
  }

  datatype Match = Match(start: int, value: string)
  datatype Candidate = Candidate(span: Span, priority: int)

  function DigitsOnly(s: string): (r: string)
    ensures AllDigits(r)
  {
    if s == [] then [] else (if IsDigit(s[0]) then [s[0]] else []) + DigitsOnly(s[1..])
  }

  /** The digits of a value, in order: digits are kept and everything else is passed over. */
  lemma {:induction false} DigitsOnlyAdds(a: string, b: string)
    ensures DigitsOnly(a + b) == DigitsOnly(a) + DigitsOnly(b)
    ensures |a| == 1 ==> DigitsOnly(a) == if '0' <= a[0] <= '9' then a else ""
  {
    if a == "" {
      assert a + b == b;
    } else {
      assert (a + b)[1..] == a[1..] + b;
      DigitsOnlyAdds(a[1..], b);
      Associative(if IsDigit(a[0]) then [a[0]] else [], DigitsOnly(a[1..]), DigitsOnly(b));
    }
  }

  lemma Associative(a: string, b: string, c: string)
    ensures a + b + c == a + (b + c)
  {
  }

  predicate Accepts(d: Detector, value: string) {
    var digits := DigitsOnly(value);
    match d
    case PaymentCardLuhn => 13 <= |digits| <= 19 && PassesLuhn(digits)
    case Phone => 10 <= |digits| <= 15
    case _ => true
  }

  method Validate(d: Detector, value: string) returns (ok: bool)
    ensures ok == Accepts(d, value)
    ensures d.PaymentCardLuhn? ==>
              (ok <==> 13 <= |DigitsOnly(value)| <= 19 && LuhnSum(DigitsOnly(value)) % 10 == 0
                       && exists i :: 0 <= i < |DigitsOnly(value)| && DigitsOnly(value)[i] != '0')
    ensures d.Phone? ==> (ok <==> 10 <= |DigitsOnly(value)| <= 15)
    ensures !d.PaymentCardLuhn? && !d.Phone? ==> ok
  {
    var digits := DigitsOnly(value);
    OnlyZerosSumToZero(digits);
    match d
    case PaymentCardLuhn =>
      if 13 <= |digits| <= 19 { ok := LuhnCheck(digits); } else { ok := false; }
    case Phone => ok := 10 <= |digits| <= 15;
    case _ => ok := true;
  }

  function CandidateOf(rule: Rule, m: Match): Candidate {
    Candidate(Span(m.start, m.start + |m.value|, rule.category, rule.detector), rule.priority)
  }

  predicate Yields(rule: Rule, m: Match) { m.value != "" && Accepts(rule.detector, m.value) }

  /** A candidate is an accepted, non-empty match of some rule. */
  ghost predicate IsCandidate(matches: seq<seq<Match>>, c: Candidate)
    requires |matches| == |RULES|
  {
    exists r, k :: 0 <= r < |RULES| && 0 <= k < |matches[r]| && Yields(RULES[r], matches[r][k])
      && c == CandidateOf(RULES[r], matches[r][k])
  }

  ghost predicate FromRule(rule: Rule, ms: seq<Match>, c: Candidate) {
    exists k :: 0 <= k < |ms| && Yields(rule, ms[k]) && c == CandidateOf(rule, ms[k])
  }

  lemma FromRuleGrows(rule: Rule, ms: seq<Match>, n: nat, c: Candidate)
    requires n < |ms|
    ensures FromRule(rule, ms[..n + 1], c)
            <==> FromRule(rule, ms[..n], c) || (Yields(rule, ms[n]) && c == CandidateOf(rule, ms[n]))
  {
    if FromRule(rule, ms[..n], c) {
      var k :| 0 <= k < n && Yields(rule, ms[..n][k]) && c == CandidateOf(rule, ms[..n][k]);
      assert ms[..n + 1][k] == ms[k];
    }
    if FromRule(rule, ms[..n + 1], c) {
      var k :| 0 <= k < n + 1 && Yields(rule, ms[..n + 1][k]) && c == CandidateOf(rule, ms[..n + 1][k]);
      assert k < n ==> ms[..n][k] == ms[k];
    }
    if Yields(rule, ms[n]) && c == CandidateOf(rule, ms[n]) { assert ms[..n + 1][n] == ms[n]; }
  }

  method CollectFromRule(rule: Rule, ms: seq<Match>) returns (found: seq<Candidate>)
    ensures forall c :: c in found <==> FromRule(rule, ms, c)
  {
    found := [];
    for k := 0 to |ms|
      invariant forall c :: c in found <==> FromRule(rule, ms[..k], c)
    {
      forall c
        ensures FromRule(rule, ms[..k + 1], c)
                <==> FromRule(rule, ms[..k], c) || (Yields(rule, ms[k]) && c == CandidateOf(rule, ms[k]))
      {
        FromRuleGrows(rule, ms, k, c);
      }
      if ms[k].value == "" { continue; }
      var ok := Validate(rule.detector, ms[k].value);
      if !ok { continue; }
      found := found + [CandidateOf(rule, ms[k])];
    }
    assert ms[..|ms|] == ms;
  }

  method CollectCandidates(matches: seq<seq<Match>>) returns (candidates: seq<Candidate>)
    requires |matches| == |RULES|
    ensures forall c :: c in candidates <==> IsCandidate(matches, c)
  {
    candidates := [];
    for r := 0 to |RULES|
      invariant forall c :: c in candidates <==> exists q :: 0 <= q < r && FromRule(RULES[q], matches[q], c)
    {
      var found := CollectFromRule(RULES[r], matches[r]);
      candidates := candidates + found;
    }
    forall c ensures c in candidates <==> IsCandidate(matches, c) { CandidatesByRule(matches, c); }
  }

  lemma CandidatesByRule(matches: seq<seq<Match>>, c: Candidate)
    requires |matches| == |RULES|
    ensures IsCandidate(matches, c) <==> exists q :: 0 <= q < |RULES| && FromRule(RULES[q], matches[q], c)
  {
    if q :| 0 <= q < |RULES| && FromRule(RULES[q], matches[q], c) {
      var k :| 0 <= k < |matches[q]| && Yields(RULES[q], matches[q][k]) && c == CandidateOf(RULES[q], matches[q][k]);
    }
    if IsCandidate(matches, c) {
      var r, k :| 0 <= r < |RULES| && 0 <= k < |matches[r]| && Yields(RULES[r], matches[r][k])
        && c == CandidateOf(RULES[r], matches[r][k]);
      assert FromRule(RULES[r], matches[r], c);
    }
  }

  // ---------------------------------------------------------------------
  // Overlap resolution
  // ---------------------------------------------------------------------

  /** By priority, highest first; then by start; then longest first. */
  predicate Precedes(a: Candidate, b: Candidate) {
    || a.priority > b.priority
    || (a.priority == b.priority && a.span.start < b.span.start)
    || (a.priority == b.priority && a.span.start == b.span.start
         && a.span.end - a.span.start > b.span.end - b.span.start)
  }

  predicate Overlap(a: Span, b: Span) { a.start < b.end && b.start < a.end }

  predicate Clashes(c: Candidate, selected: seq<Candidate>) {
    exists i :: 0 <= i < |selected| && Overlap(c.span, selected[i].span)
  }

  /** The candidates kept, taking them in the given order. */
  function Greedy(s: seq<Candidate>): seq<Candidate> {
    if s == [] then []
    else
      var kept := Greedy(s[..|s| - 1]);
      if Clashes(s[|s| - 1], kept) then kept else kept + [s[|s| - 1]]
  }

  method RemoveOverlaps(candidates: seq<Candidate>) returns (selected: seq<Candidate>)
    ensures selected == Greedy(Sort(candidates, Precedes))
  {
    selected := [];
    var sorted := Sort(candidates, Precedes);
    for i := 0 to |sorted|
      invariant selected == Greedy(sorted[..i])
    {
      assert sorted[..i + 1][..i] == sorted[..i];
      if Clashes(sorted[i], selected) { continue; }
      selected := selected + [sorted[i]];
    }
    assert sorted[..|sorted|] == sorted;
  }

  predicate NoOverlaps(s: seq<Candidate>) {
    forall i, j :: 0 <= i < j < |s| ==> !Overlap(s[i].span, s[j].span)
  }

  lemma {:induction false} GreedyDisjoint(s: seq<Candidate>)
    ensures NoOverlaps(Greedy(s)) && forall c :: c in Greedy(s) ==> c in s
  {
    if s != [] { GreedyDisjoint(s[..|s| - 1]); }
  }

  lemma {:induction false} KeptUnlessClash(s: seq<Candidate>)
    requires s != []
    ensures s[|s| - 1] in Greedy(s) || Clashes(s[|s| - 1], Greedy(s[..|s| - 1]))
  {
    if !Clashes(s[|s| - 1], Greedy(s[..|s| - 1])) {
      assert Greedy(s)[|Greedy(s)| - 1] == s[|s| - 1];
    }
  }

  /** What is left out clashes with something kept that came no later. */
  lemma {:induction false} GreedyMaximal(s: seq<Candidate>, k: nat) returns (e: nat)
    requires k < |s| && s[k] !in Greedy(s)
    ensures e < k && s[e] in Greedy(s) && Overlap(s[k].span, s[e].span)
  {
    var n := |s| - 1;
    var kept := Greedy(s[..n]);
    assert forall c :: c in kept ==> c in Greedy(s);
    if k < n {
      e := GreedyMaximal(s[..n], k);
    } else {
      KeptUnlessClash(s);
      var i :| 0 <= i < |kept| && Overlap(s[n].span, kept[i].span);
      GreedyDisjoint(s[..n]);
      assert kept[i] in s[..n];
      e :| 0 <= e < n && s[..n][e] == kept[i];
    }
  }

  /** Two different candidates of one priority do not overlap: the matches of one pattern never do. */
  ghost predicate Separate(cs: seq<Candidate>) {
    forall a, b :: a in cs && b in cs && a != b && a.priority == b.priority ==> !Overlap(a.span, b.span)
  }

  /** The rule the selection obeys: a candidate is kept exactly when nothing kept of higher priority overlaps it. */
  ghost predicate IsSelection(cs: seq<Candidate>, kept: seq<Candidate>) {
    && (forall c :: c in kept ==> c in cs)
    && (forall c :: c in cs ==> (c in kept <==> Unbeaten(c, kept)))
  }

  predicate Unbeaten(c: Candidate, kept: seq<Candidate>) {
    forall d :: d in kept ==> d.priority > c.priority ==> !Overlap(c.span, d.span)
  }

  lemma {:induction false} SortElements(cs: seq<Candidate>, c: Candidate)
    ensures c in Sort(cs, Precedes) <==> c in cs
  {
    SortPermutes(cs, Precedes);
    assert c in Sort(cs, Precedes) <==> c in multiset(Sort(cs, Precedes));
    assert c in cs <==> c in multiset(cs);
  }

  /** A candidate is dropped only because it overlaps a kept one of strictly higher priority. */
  lemma {:induction false} DroppedForHigherPriority(cs: seq<Candidate>, c: Candidate) returns (d: Candidate)
    requires Separate(cs) && c in cs && c !in Greedy(Sort(cs, Precedes))
    ensures d in Greedy(Sort(cs, Precedes)) && d.priority > c.priority && Overlap(c.span, d.span)
  {
    var s := Sort(cs, Precedes);
    SortElements(cs, c);
    var k :| 0 <= k < |s| && s[k] == c;
    var e := GreedyMaximal(s, k);
    d := s[e];
    assert StrictWeakOrder(Precedes);
    SortOrders(cs, Precedes);
    assert !Precedes(s[k], s[e]);
    SortElements(cs, d);
  }

  /** The kept candidates overlap nowhere, and they obey the selection rule. */
  lemma {:induction false} GreedyIsSelection(cs: seq<Candidate>)
    requires Separate(cs) && forall c :: c in cs ==> c.span.start < c.span.end
    ensures NoOverlaps(Greedy(Sort(cs, Precedes))) && IsSelection(cs, Greedy(Sort(cs, Precedes)))
  {
    var kept := Greedy(Sort(cs, Precedes));
    GreedyDisjoint(Sort(cs, Precedes));
    forall c | c in kept ensures c in cs { SortElements(cs, c); }
    forall c | c in cs ensures c in kept <==> Unbeaten(c, kept) {
      if c in kept {
        forall d | d in kept && d.priority > c.priority ensures !Overlap(c.span, d.span) {
          var i :| 0 <= i < |kept| && kept[i] == c;
          var j :| 0 <= j < |kept| && kept[j] == d;
        }
      } else {
        var d := DroppedForHigherPriority(cs, c);
      }
    }
  }

  /** The rule leaves no choice: any two selections keep the same candidates. */
  lemma {:induction false} SelectionIsUnique(cs: seq<Candidate>, s: seq<Candidate>, t: seq<Candidate>, c: Candidate,
                                             top: int)
    requires IsSelection(cs, s) && IsSelection(cs, t) && c in cs
    requires forall d :: d in cs ==> d.priority <= top
    ensures c in s <==> c in t
    decreases top - c.priority
  {
    forall d | d in cs && d.priority > c.priority ensures d in s <==> d in t { SelectionIsUnique(cs, s, t, d, top); }
    assert Unbeaten(c, s) <==> Unbeaten(c, t);
  }

  // ---------------------------------------------------------------------
  // The whole detector
  // ---------------------------------------------------------------------

  /** What matching a pattern globally over a text yields: stretches of the text, left to right, not overlapping. */
  ghost predicate PatternMatches(text: string, ms: seq<Match>) {
    && (forall i :: 0 <= i < |ms| ==> 0 <= ms[i].start && ms[i].start + |ms[i].value| <= |text|)
    && (forall i, j :: 0 <= i < j < |ms| ==> ms[i].start + |ms[i].value| <= ms[j].start)
  }

  ghost predicate AllPatternMatches(text: string, matches: seq<seq<Match>>) {
    |matches| == |RULES| && forall r :: 0 <= r < |matches| ==> PatternMatches(text, matches[r])
  }

  lemma Origin(matches: seq<seq<Match>>, c: Candidate) returns (r: nat, k: nat)
    requires |matches| == |RULES| && IsCandidate(matches, c)
    ensures r < |matches| && k < |matches[r]| && matches[r][k].value != ""
    ensures c.span.start == matches[r][k].start && c.span.end == matches[r][k].start + |matches[r][k].value|
    ensures c == CandidateOf(RULES[r], matches[r][k])
    ensures c.priority == PriorityOf(c.span.detector) == 100 - 10 * r
  {
    r, k :| 0 <= r < |RULES| && 0 <= k < |matches[r]| && Yields(RULES[r], matches[r][k])
      && c == CandidateOf(RULES[r], matches[r][k]);
    RuleRanks(r);
  }

  lemma CandidateFacts(text: string, matches: seq<seq<Match>>, c: Candidate)
    requires AllPatternMatches(text, matches) && IsCandidate(matches, c)
    ensures c.span.Valid(|text|) && c.priority == PriorityOf(c.span.detector)
  {
    var r, k := Origin(matches, c);
    assert PatternMatches(text, matches[r]);
  }

  /** Candidates of one priority come from one rule, whose matches do not overlap. */
  lemma CandidatesAreSeparate(text: string, matches: seq<seq<Match>>, a: Candidate, b: Candidate)
    requires AllPatternMatches(text, matches) && IsCandidate(matches, a) && IsCandidate(matches, b)
    requires a != b && a.priority == b.priority
    ensures !Overlap(a.span, b.span)
  {
    var r, k := Origin(matches, a);
    var q, l := Origin(matches, b);
    assert r == q && PatternMatches(text, matches[r]);
    if k < l { MatchesApart(text, RULES[r], matches[r], k, l); }
    else { MatchesApart(text, RULES[r], matches[r], l, k); }
  }

  lemma MatchesApart(text: string, rule: Rule, ms: seq<Match>, k: nat, l: nat)
    requires PatternMatches(text, ms) && k < l < |ms|
    ensures !Overlap(CandidateOf(rule, ms[k]).span, CandidateOf(rule, ms[l]).span)
    ensures !Overlap(CandidateOf(rule, ms[l]).span, CandidateOf(rule, ms[k]).span)
  {
  }

  predicate PositionBefore(a: Span, b: Span) {
    || a.start < b.start
    || (a.start == b.start && a.end < b.end)
    || (a.start == b.start && a.end == b.end && DetectorRank(a.detector) < DetectorRank(b.detector))
  }

  function SpansOf(cs: seq<Candidate>): (r: seq<Span>)
    ensures |r| == |cs| && forall i :: 0 <= i < |cs| ==> r[i] == cs[i].span
  {
    seq(|cs|, i requires 0 <= i < |cs| => cs[i].span)
  }

  ghost predicate Found(matches: seq<seq<Match>>, x: Span)
    requires |matches| == |RULES|
  {
    IsCandidate(matches, Candidate(x, PriorityOf(x.detector)))
  }

  /** What a detection result is: the spans lie in the text from left to right without overlap, and a match is
      reported exactly when no reported span of a higher-ranked detector overlaps it. */
  ghost predicate IsDetection(text: string, matches: seq<seq<Match>>, spans: seq<Span>)
    requires |matches| == |RULES|
  {
    && AllValid(spans, |text|)
    && (forall i, j :: 0 <= i < j < |spans| ==> spans[i].end <= spans[j].start)
    && (forall x :: x in spans ==> Found(matches, x))
    && (forall x :: Found(matches, x) ==>
          (x in spans <==> forall y :: y in spans && PriorityOf(y.detector) > PriorityOf(x.detector) ==>
              !Overlap(x, y)))
  }

  method DetectPii(text: string, matches: seq<seq<Match>>) returns (spans: seq<Span>)
    requires AllPatternMatches(text, matches)
    ensures IsDetection(text, matches, spans)
  {
    var candidates := CollectCandidates(matches);
    forall c | c in candidates ensures c.span.Valid(|text|) && c.priority == PriorityOf(c.span.detector) {
      CandidateFacts(text, matches, c);
    }
    assert Separate(candidates) by {
      forall a, b | a in candidates && b in candidates && a != b && a.priority == b.priority
        ensures !Overlap(a.span, b.span)
      {
        CandidatesAreSeparate(text, matches, a, b);
      }
    }
    var selected := RemoveOverlaps(candidates);
    GreedyIsSelection(candidates);
    spans := Sort(SpansOf(selected), PositionBefore);
    SelectionMakesDetection(text, matches, candidates, selected);
  }

  lemma SpansElements(cs: seq<Candidate>, x: Span)
    ensures x in Sort(SpansOf(cs), PositionBefore) <==> x in SpansOf(cs)
  {
    SortPermutes(SpansOf(cs), PositionBefore);
    assert x in Sort(SpansOf(cs), PositionBefore) <==> x in multiset(Sort(SpansOf(cs), PositionBefore));
    assert x in SpansOf(cs) <==> x in multiset(SpansOf(cs));
  }

  /** Sorting spans that share no character leaves them one after another. */
  lemma {:induction false} SortedSpansFollow(s: seq<Span>)
    requires forall i, j :: 0 <= i < j < |s| ==> !Overlap(s[i], s[j])
    requires forall i :: 0 <= i < |s| ==> s[i].start < s[i].end
    ensures var t := Sort(s, PositionBefore); forall i, j :: 0 <= i < j < |t| ==> t[i].end <= t[j].start
  {
    var t := Sort(s, PositionBefore);
    SortPermutes(s, PositionBefore);
    assert StrictWeakOrder(PositionBefore);
    SortOrders(s, PositionBefore);
    forall i, j | 0 <= i < j < |t| ensures t[i].end <= t[j].start {
      PairComesFrom(s, t, i, j);
      assert !PositionBefore(t[j], t[i]);
    }
  }

  lemma CountsTwice(t: seq<Span>, i: nat, j: nat)
    requires i < j < |t| && t[i] == t[j]
    ensures multiset(t)[t[i]] >= 2
  {
    assert t == t[..j] + [t[j]] + t[j + 1..];
    assert t[i] in multiset(t[..j]) by { assert t[..j][i] == t[i]; }
  }

  lemma {:induction false} TwoPlaces(s: seq<Span>, x: Span) returns (k: nat, l: nat)
    requires multiset(s)[x] >= 2
    ensures k < l < |s| && s[k] == s[l] == x
  {
    assert s == [s[0]] + s[1..];
    if s[0] == x {
      assert x in multiset(s[1..]);
      var m :| 0 <= m < |s[1..]| && s[1..][m] == x;
      k, l := 0, m + 1;
    } else {
      k, l := TwoPlaces(s[1..], x);
      k, l := k + 1, l + 1;
    }
  }

  /** Two positions of a permutation hold values from two positions of the original. */
  lemma PairComesFrom(s: seq<Span>, t: seq<Span>, i: nat, j: nat)
    requires multiset(s) == multiset(t) && i < j < |t|
    ensures exists k, l :: 0 <= k < |s| && 0 <= l < |s| && k != l && s[k] == t[i] && s[l] == t[j]
  {
    if t[i] == t[j] {
      CountsTwice(t, i, j);
      var k, l := TwoPlaces(s, t[i]);
    } else {
      assert t[i] in multiset(t) && t[j] in multiset(t);
      assert t[i] in s && t[j] in s;
    }
  }

  lemma {:induction false} SelectionMakesDetection(text: string, matches: seq<seq<Match>>, cs: seq<Candidate>,
                                                   kept: seq<Candidate>)
    requires AllPatternMatches(text, matches) && forall c :: c in cs <==> IsCandidate(matches, c)
    requires IsSelection(cs, kept) && NoOverlaps(kept)
    ensures IsDetection(text, matches, Sort(SpansOf(kept), PositionBefore))
  {
    var spans := Sort(SpansOf(kept), PositionBefore);
    forall x ensures x in spans <==> Candidate(x, PriorityOf(x.detector)) in kept {
      KeptSpans(text, matches, cs, kept, x);
    }
    forall x | x in spans ensures x.Valid(|text|) && Found(matches, x) {
      CandidateFacts(text, matches, Candidate(x, PriorityOf(x.detector)));
    }
    forall i | 0 <= i < |kept| ensures kept[i].span.start < kept[i].span.end {
      assert kept[i] in cs;
      CandidateFacts(text, matches, kept[i]);
    }
    SortedSpansFollow(SpansOf(kept));
    forall x | Found(matches, x)
      ensures x in spans <==> forall y :: y in spans && PriorityOf(y.detector) > PriorityOf(x.detector) ==>
                !Overlap(x, y)
    {
      UnbeatenBySpans(text, matches, cs, kept, x);
    }
  }

  lemma KeptSpans(text: string, matches: seq<seq<Match>>, cs: seq<Candidate>, kept: seq<Candidate>, x: Span)
    requires AllPatternMatches(text, matches) && forall c :: c in cs <==> IsCandidate(matches, c)
    requires forall c :: c in kept ==> c in cs
    ensures x in Sort(SpansOf(kept), PositionBefore) <==> Candidate(x, PriorityOf(x.detector)) in kept
  {
    SpansElements(kept, x);
    if x in SpansOf(kept) {
      var i :| 0 <= i < |kept| && SpansOf(kept)[i] == x;
      assert kept[i] in cs;
      CandidateFacts(text, matches, kept[i]);
    }
    if c :| c in kept && c == Candidate(x, PriorityOf(x.detector)) {
      var i :| 0 <= i < |kept| && kept[i] == c;
      assert SpansOf(kept)[i] == x;
    }
  }

  lemma UnbeatenBySpans(text: string, matches: seq<seq<Match>>, cs: seq<Candidate>, kept: seq<Candidate>, x: Span)
    requires AllPatternMatches(text, matches) && forall c :: c in cs <==> IsCandidate(matches, c)
    requires IsSelection(cs, kept) && Found(matches, x)
    ensures var spans := Sort(SpansOf(kept), PositionBefore);
            x in spans <==> forall y :: y in spans && PriorityOf(y.detector) > PriorityOf(x.detector) ==> !Overlap(x, y)
  {
    var spans, c := Sort(SpansOf(kept), PositionBefore), Candidate(x, PriorityOf(x.detector));
    KeptSpans(text, matches, cs, kept, x);
    assert c in cs;
    if x in spans {
      forall y | y in spans && PriorityOf(y.detector) > PriorityOf(x.detector) ensures !Overlap(x, y) {
        KeptSpans(text, matches, cs, kept, y);
        assert Unbeaten(c, kept);
      }
    } else {
      assert !Unbeaten(c, kept);
      var d :| d in kept && d.priority > c.priority && Overlap(c.span, d.span);
      CandidateFacts(text, matches, d);
      KeptSpans(text, matches, cs, kept, d.span);
      assert d == Candidate(d.span, PriorityOf(d.span.detector));
    }
  }

  /** Masking what was detected merges nothing: the i-th span becomes the i-th mask, with its detector's placeholder. */
  lemma DetectedSpansKeepTheirMasks(text: string, matches: seq<seq<Match>>, spans: seq<Span>)
    requires |matches| == |RULES| && IsDetection(text, matches, spans)
    ensures var rs := RangesOf(spans, |text|);
            && |rs| == |spans|
            && forall i :: 0 <= i < |spans| ==>
                 rs[i].start == spans[i].start && rs[i].end == spans[i].end
                   && rs[i].placeholder == PlaceholderFor(spans[i].detector)
  {
    assert Sorted(spans);
    SortedIsUnique(spans, Canonical(spans));
    DetectedAreDisjoint(text, matches, spans);
    DisjointSpansKeepTheirMasks(spans, |text|);
  }

  lemma DetectedAreDisjoint(text: string, matches: seq<seq<Match>>, spans: seq<Span>)
    requires |matches| == |RULES| && IsDetection(text, matches, spans)
    ensures PairwiseDisjoint(spans)
  {
    forall a, b | a in Elements(spans) && b in Elements(spans) && a != b ensures Disjoint(a, b) {
      var i :| 0 <= i < |spans| && spans[i] == a;
      var j :| 0 <= j < |spans| && spans[j] == b;
    }
  }
}
