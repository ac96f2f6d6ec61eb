/**
 Masking of classified spans: duplicates are dropped, overlapping spans merge into one
 range, and each range is replaced by a placeholder, working from the right so that the
 source offsets stay valid.
 */
module PiiMasking {
  import opened Prelude

  datatype Category = CONTACT_INFO | FINANCIAL | GOVERNMENT_ID | CREDENTIAL | INTERNAL_SECRET | BUSINESS_CONFIDENTIAL
  datatype Detector = Email | Phone | PaymentCardLuhn | GovernmentId | ApiKey | ConnectionString

  datatype Span = Span(start: int, end: int, category: Category, detector: Detector)
  {
    predicate Valid(length: nat) { 0 <= start < end <= length }
  }

  // Positions of the names in alphabetical order, which is how ties are broken.
  function CategoryRank(c: Category): nat {
    match c
    case BUSINESS_CONFIDENTIAL => 0 case CONTACT_INFO => 1 case CREDENTIAL => 2
    case FINANCIAL => 3 case GOVERNMENT_ID => 4 case INTERNAL_SECRET => 5
  }

  function DetectorRank(d: Detector): nat {
    match d
    case ApiKey => 0 case ConnectionString => 1 case Email => 2
    case GovernmentId => 3 case PaymentCardLuhn => 4 case Phone => 5
  }

  /** By start, then longest first, then category name, then detector name. */
  predicate Before(a: Span, b: Span) {
    || a.start < b.start
    || (a.start == b.start && a.end > b.end)
    || (a.start == b.start && a.end == b.end && CategoryRank(a.category) < CategoryRank(b.category))
    || (a.start == b.start && a.end == b.end && a.category == b.category
         && DetectorRank(a.detector) < DetectorRank(b.detector))
  }

  lemma BeforeIsTotal(a: Span, b: Span)
    ensures a == b || Before(a, b) || Before(b, a)
    ensures !(Before(a, b) && Before(b, a)) && !Before(a, a)
  {
  }

  predicate Sorted(s: seq<Span>) {
    forall i, j :: 0 <= i < j < |s| ==> Before(s[i], s[j])
  }

  function Elements(s: seq<Span>): set<Span> { set x | x in s }

  // ---------------------------------------------------------------------
  // Duplicates and order
  // ---------------------------------------------------------------------

  method RemoveExactDuplicates(spans: seq<Span>) returns (unique: seq<Span>)
    ensures Elements(unique) == Elements(spans)
    ensures forall i, j :: 0 <= i < j < |unique| ==> unique[i] != unique[j]
  {
    unique := [];
    var seen: set<Span> := {};
    for i := 0 to |spans|
      invariant Elements(unique) == seen == Elements(spans[..i])
      invariant forall a, b :: 0 <= a < b < |unique| ==> unique[a] != unique[b]
    {
      assert Elements(spans[..i + 1]) == Elements(spans[..i]) + {spans[i]} by {
        assert spans[..i + 1] == spans[..i] + [spans[i]];
      }
      if spans[i] !in seen {
        seen := seen + {spans[i]};
        forall a | 0 <= a < |unique| ensures unique[a] != spans[i] { assert unique[a] in Elements(unique); }
        assert Elements(unique + [spans[i]]) == Elements(unique) + {spans[i]};
        unique := unique + [spans[i]];
      } else {
        assert Elements(spans[..i]) + {spans[i]} == Elements(spans[..i]);
      }
    }
    assert spans[..|spans|] == spans;
  }

  lemma {:induction false} SortOk(s: seq<Span>)
    requires forall i, j :: 0 <= i < j < |s| ==> s[i] != s[j]
    ensures Sorted(Sort(s, Before)) && Elements(Sort(s, Before)) == Elements(s)
  {
    assert StrictWeakOrder(Before);
    forall i, j | 0 <= i < j < |s| ensures Before(s[i], s[j]) || Before(s[j], s[i]) { BeforeIsTotal(s[i], s[j]); }
    SortStrictly(s, Before);
    SortPermutes(s, Before);
    assert forall x :: x in Sort(s, Before) <==> x in multiset(Sort(s, Before));
    assert forall x :: x in s <==> x in multiset(s);
  }

  /** A strictly sorted list is determined by its elements. */
  lemma SortedIsUnique(a: seq<Span>, b: seq<Span>)
    requires Sorted(a) && Sorted(b) && Elements(a) == Elements(b)
    ensures a == b
  {
    assert StrictWeakOrder(Before);
    forall x ensures x in a <==> x in b { assert x in Elements(a) <==> x in Elements(b); }
    StrictlySortedIsUnique(a, b, Before);
  }

  // ---------------------------------------------------------------------
  // Merging
  // ---------------------------------------------------------------------

  datatype Draft = Draft(start: int, end: int, spans: seq<Span>)

  function Max(a: int, b: int): int { if a >= b then a else b }

  /** Takes one more span: it opens a range of its own, or widens the last one. */
  function Extend(ds: seq<Draft>, span: Span): seq<Draft> {
    if ds == [] || ds[|ds| - 1].end <= span.start then ds + [Draft(span.start, span.end, [span])]
    else
      var d := ds[|ds| - 1];
      ds[..|ds| - 1] + [Draft(d.start, Max(d.end, span.end), d.spans + [span])]
  }

  function Merged(sorted: seq<Span>): seq<Draft> {
    if sorted == [] then [] else Extend(Merged(sorted[..|sorted| - 1]), sorted[|sorted| - 1])
  }

  predicate Apart(ds: seq<Draft>) {
    && (forall i :: 0 <= i < |ds| ==> ds[i].start < ds[i].end && ds[i].spans != [])
    && (forall i, j :: 0 <= i < j < |ds| ==> ds[i].end <= ds[j].start)
  }

  predicate Covers(ds: seq<Draft>, k: int) { exists i :: 0 <= i < |ds| && ds[i].start <= k < ds[i].end }
  predicate Hits(spans: seq<Span>, k: int) { exists i :: 0 <= i < |spans| && spans[i].start <= k < spans[i].end }

  predicate Within(ds: seq<Draft>, length: nat) {
    forall i :: 0 <= i < |ds| ==> 0 <= ds[i].start && ds[i].end <= length
  }

  lemma ExtendOk(ds: seq<Draft>, span: Span, length: nat)
    requires Apart(ds) && Within(ds, length) && span.Valid(length) && (ds != [] ==> ds[|ds| - 1].start <= span.start)
    ensures Apart(Extend(ds, span)) && Within(Extend(ds, span), length)
    ensures Extend(ds, span) != [] && Extend(ds, span)[|Extend(ds, span)| - 1].start <= span.start
    ensures |Extend(ds, span)| <= |ds| + 1
  {
    var r := Extend(ds, span);
    assert forall i :: 0 <= i < |r| - 1 ==> r[i] == ds[i];
  }

  /** The merged ranges are in order, share no character, and cover exactly the characters some span covers. */
  lemma {:induction false} MergedOk(sorted: seq<Span>, length: nat)
    requires Sorted(sorted) && forall i :: 0 <= i < |sorted| ==> sorted[i].Valid(length)
    ensures Apart(Merged(sorted)) && Within(Merged(sorted), length) && |Merged(sorted)| <= |sorted|
    ensures forall k :: Covers(Merged(sorted), k) <==> Hits(sorted, k)
    ensures sorted != [] ==>
              Merged(sorted) != [] && Merged(sorted)[|Merged(sorted)| - 1].start <= sorted[|sorted| - 1].start
  {
    if sorted != [] {
      var n := |sorted| - 1;
      MergedOk(sorted[..n], length);
      var ds := Merged(sorted[..n]);
      assert n > 0 ==> Before(sorted[n - 1], sorted[n]) && sorted[..n][n - 1] == sorted[n - 1];
      ExtendOk(ds, sorted[n], length);
      forall k ensures Covers(Merged(sorted), k) <==> Hits(sorted, k) {
        ExtendCovers(ds, sorted[n], k);
        HitsSplit(sorted, k);
      }
    }
  }

  lemma HitsSplit(s: seq<Span>, k: int)
    requires s != []
    ensures Hits(s, k) <==> Hits(s[..|s| - 1], k) || s[|s| - 1].start <= k < s[|s| - 1].end
  {
    var front := s[..|s| - 1];
    if Hits(front, k) {
      var i :| 0 <= i < |front| && front[i].start <= k < front[i].end;
      assert s[i] == front[i];
    }
    if Hits(s, k) {
      var i :| 0 <= i < |s| && s[i].start <= k < s[i].end;
      assert i < |s| - 1 ==> front[i] == s[i];
    }
  }

  lemma ExtendCovers(ds: seq<Draft>, span: Span, k: int)
    requires Apart(ds) && span.start < span.end && (ds != [] ==> ds[|ds| - 1].start <= span.start)
    ensures Covers(Extend(ds, span), k) <==> Covers(ds, k) || span.start <= k < span.end
  {
    var r := Extend(ds, span);
    assert forall i :: 0 <= i < |r| - 1 ==> r[i] == ds[i];
    if Covers(ds, k) {
      var i :| 0 <= i < |ds| && ds[i].start <= k < ds[i].end;
      assert r[i].start <= k < r[i].end;
    }
    if span.start <= k < span.end {
      assert r[|r| - 1].start <= k < r[|r| - 1].end;
    }
    if Covers(r, k) {
      var i :| 0 <= i < |r| && r[i].start <= k < r[i].end;
      assert i < |ds| ==> ds[i].start <= k < ds[i].end || span.start <= k < span.end;
    }
  }

  // ---------------------------------------------------------------------
  // Ranges
  // ---------------------------------------------------------------------

  datatype Range = Range(start: int, end: int, placeholder: string, categories: seq<Category>)

  const GENERIC_PLACEHOLDER := "[PII_REDACTED]"

  function PlaceholderFor(d: Detector): string {
    match d
    case Email => "[EMAIL_REDACTED]"
    case Phone => "[PHONE_REDACTED]"
    case ApiKey => "[CREDENTIAL_REDACTED]"
    case _ => GENERIC_PLACEHOLDER
  }

  const ALL_CATEGORIES: seq<Category> :=
    [CONTACT_INFO, FINANCIAL, GOVERNMENT_ID, CREDENTIAL, INTERNAL_SECRET, BUSINESS_CONFIDENTIAL]

  function Present(from: seq<Category>, spans: seq<Span>): seq<Category> {
    if from == [] then []
    else if exists i :: 0 <= i < |spans| && spans[i].category == from[0] then [from[0]] + Present(from[1..], spans)
    else Present(from[1..], spans)
  }

  lemma {:induction false} PresentOk(from: seq<Category>, spans: seq<Span>, c: Category)
    ensures c in Present(from, spans) <==> c in from && exists i :: 0 <= i < |spans| && spans[i].category == c
  {
    if from != [] { PresentOk(from[1..], spans, c); assert from == [from[0]] + from[1..]; }
  }

  function Finalized(d: Draft): Range
    requires d.spans != []
  {
    Range(d.start, d.end, if |d.spans| == 1 then PlaceholderFor(d.spans[0].detector) else GENERIC_PLACEHOLDER,
          Present(ALL_CATEGORIES, d.spans))
  }

  function Ranges(ds: seq<Draft>): (rs: seq<Range>)
    requires forall i :: 0 <= i < |ds| ==> ds[i].spans != []
    ensures |rs| == |ds| && forall i :: 0 <= i < |ds| ==> rs[i] == Finalized(ds[i])
  {
    if ds == [] then [] else Ranges(ds[..|ds| - 1]) + [Finalized(ds[|ds| - 1])]
  }

  /** Each draft holds exactly the spans that lie in it. */
  ghost predicate HoldsItsSpans(sorted: seq<Span>, d: Draft) {
    forall x :: x in d.spans <==> x in sorted && d.start <= x.start && x.end <= d.end
  }

  predicate Held(ds: seq<Draft>, x: Span) { exists i :: 0 <= i < |ds| && x in ds[i].spans }

  /** All spans are held, each draft holding exactly those that lie in it. */
  ghost predicate HoldsAll(sorted: seq<Span>, ds: seq<Draft>) {
    && (forall i :: 0 <= i < |ds| ==> HoldsItsSpans(sorted, ds[i]))
    && (forall x :: x in sorted ==> Held(ds, x))
  }

  ghost predicate NoneLater(sorted: seq<Span>, span: Span) {
    forall x :: x in sorted ==> x.start < x.end && x.start <= span.start
  }

  lemma ExtendHolds(sorted: seq<Span>, ds: seq<Draft>, span: Span, length: nat)
    requires Apart(ds) && Within(ds, length) && span.Valid(length) && (ds != [] ==> ds[|ds| - 1].start <= span.start)
    requires HoldsAll(sorted, ds) && NoneLater(sorted, span)
    ensures HoldsAll(sorted + [span], Extend(ds, span))
  {
    var r := Extend(ds, span);
    var last := |r| - 1;
    assert forall i :: 0 <= i < last ==> r[i] == ds[i];
    forall i | 0 <= i < |r| ensures HoldsItsSpans(sorted + [span], r[i]) { ExtendHoldsAt(sorted, ds, span, length, i); }
    forall x | x in sorted + [span] ensures Held(r, x) {
      if x in sorted {
        var i :| 0 <= i < |ds| && x in ds[i].spans;
        assert x in r[i].spans;
      } else {
        assert span in r[last].spans;
      }
    }
  }

  lemma ExtendHoldsAt(sorted: seq<Span>, ds: seq<Draft>, span: Span, length: nat, i: nat)
    requires Apart(ds) && span.Valid(length) && (ds != [] ==> ds[|ds| - 1].start <= span.start)
    requires HoldsAll(sorted, ds) && NoneLater(sorted, span)
    requires i < |Extend(ds, span)|
    ensures HoldsItsSpans(sorted + [span], Extend(ds, span)[i])
  {
    var d := Extend(ds, span)[i];
    forall x ensures x in d.spans <==> x in sorted + [span] && d.start <= x.start && x.end <= d.end {
      assert x in sorted + [span] <==> x in sorted || x == span;
      if i < |ds| { assert HoldsItsSpans(sorted, ds[i]); }
      if x in sorted {
        var j :| 0 <= j < |ds| && x in ds[j].spans;
        assert HoldsItsSpans(sorted, ds[j]);
      }
    }
  }

  lemma FrontPrecedes(sorted: seq<Span>, length: nat)
    requires Sorted(sorted) && sorted != [] && forall i :: 0 <= i < |sorted| ==> sorted[i].Valid(length)
    ensures NoneLater(sorted[..|sorted| - 1], sorted[|sorted| - 1])
  {
    var n := |sorted| - 1;
    forall x | x in sorted[..n] ensures x.start < x.end && x.start <= sorted[n].start {
      var i :| 0 <= i < n && sorted[..n][i] == x;
      assert sorted[i].Valid(length) && Before(sorted[i], sorted[n]);
    }
  }

  lemma LastStartsLast(sorted: seq<Span>, length: nat)
    requires Sorted(sorted) && |sorted| > 1 && forall i :: 0 <= i < |sorted| ==> sorted[i].Valid(length)
    ensures var front := sorted[..|sorted| - 1];
            Merged(front) != [] && Merged(front)[|Merged(front)| - 1].start <= sorted[|sorted| - 1].start
  {
    var n := |sorted| - 1;
    MergedOk(sorted[..n], length);
    assert Before(sorted[n - 1], sorted[n]) && sorted[..n][n - 1] == sorted[n - 1];
  }

  lemma {:induction false} MergedLast(sorted: seq<Span>)
    requires sorted != []
    ensures var n := |sorted| - 1;
            Merged(sorted) == Extend(Merged(sorted[..n]), sorted[n]) && sorted == sorted[..n] + [sorted[n]]
  {
  }

  lemma {:induction false} MergedHoldsNext(sorted: seq<Span>, length: nat, front: seq<Span>, last: Span, ds: seq<Draft>)
    requires HoldsAll(front, ds) && NoneLater(front, last) && Apart(ds) && Within(ds, length) && last.Valid(length)
    requires ds != [] ==> ds[|ds| - 1].start <= last.start
    requires sorted == front + [last] && Merged(sorted) == Extend(ds, last)
    ensures HoldsAll(sorted, Merged(sorted))
  {
    ExtendHolds(front, ds, last, length);
  }

  lemma {:induction false} MergedHolds(sorted: seq<Span>, length: nat)
    requires Sorted(sorted) && forall i :: 0 <= i < |sorted| ==> sorted[i].Valid(length)
    ensures HoldsAll(sorted, Merged(sorted))
  {
    if sorted != [] {
      var n := |sorted| - 1;
      MergedHolds(sorted[..n], length);
      MergedOk(sorted[..n], length);
      if n > 0 { LastStartsLast(sorted, length); }
      FrontPrecedes(sorted, length);
      MergedLast(sorted);
      MergedHoldsNext(sorted, length, sorted[..n], sorted[n], Merged(sorted[..n]));
    }
  }

  /** The sorted list of distinct spans that a span list stands for. */
  ghost function Canonical(spans: seq<Span>): (r: seq<Span>)
    ensures Sorted(r) && Elements(r) == Elements(spans)
  {
    CanonicalExists(Elements(spans));
    var r :| Sorted(r) && Elements(r) == Elements(spans);
    r
  }

  lemma {:induction false} CanonicalExists(spans: set<Span>)
    ensures exists r :: Sorted(r) && Elements(r) == spans
    decreases |spans|
  {
    if spans == {} {
      assert Sorted([]) && Elements([]) == spans;
    } else {
      var x :| x in spans;
      CanonicalExists(spans - {x});
      var r :| Sorted(r) && Elements(r) == spans - {x};
      var t := Insert(x, r, Before);
      forall y | y in r ensures Before(x, y) || Before(y, x) { assert y in Elements(r); BeforeIsTotal(x, y); }
      assert StrictWeakOrder(Before);
      InsertStrictly(x, r, Before);
      InsertPermutes(x, r, Before);
      forall y ensures y in t <==> y in spans {
        assert y in t <==> y in multiset(t);
        assert y in r <==> y in Elements(r);
      }
      assert Sorted(t) && Elements(t) == spans;
    }
  }

  ghost predicate AllValid(spans: seq<Span>, length: nat) {
    forall i :: 0 <= i < |spans| ==> spans[i].Valid(length)
  }

  lemma CanonicalValid(spans: seq<Span>, length: nat)
    ensures AllValid(Canonical(spans), length) <==> AllValid(spans, length)
  {
    var c := Canonical(spans);
    assert forall i :: 0 <= i < |c| ==> c[i] in Elements(spans);
    assert forall i :: 0 <= i < |spans| ==> spans[i] in Elements(c);
  }

  /** The ranges of a list of valid spans: a function of the set of spans alone. */
  ghost function RangesOf(spans: seq<Span>, length: nat): seq<Range>
    requires AllValid(spans, length)
  {
    CanonicalValid(spans, length);
    MergedOk(Canonical(spans), length);
    Ranges(Merged(Canonical(spans)))
  }

  /** The merging loop, over spans already in order; the first invalid span ends it. */
  method MergeSpans(length: nat, sorted: seq<Span>) returns (drafts: Option<seq<Draft>>)
    ensures drafts == if AllValid(sorted, length) then Some(Merged(sorted)) else None
  {
    var ds: seq<Draft> := [];
    for i := 0 to |sorted|
      invariant ds == Merged(sorted[..i])
      invariant AllValid(sorted[..i], length)
    {
      var span := sorted[i];
      if !(span.start >= 0 && span.end > span.start && span.end <= length) {
        assert !sorted[i].Valid(length);
        return None;
      }
      assert sorted[..i + 1][..i] == sorted[..i];
      if ds == [] || ds[|ds| - 1].end <= span.start {
        ds := ds + [Draft(span.start, span.end, [span])];
      } else {
        var current := ds[|ds| - 1];
        current := current.(end := Max(current.end, span.end));
        current := current.(spans := current.spans + [span]);
        ds := ds[..|ds| - 1] + [current];
      }
    }
    assert sorted[..|sorted|] == sorted;
    drafts := Some(ds);
  }

  method NormalizeMaskRanges(length: nat, spans: seq<Span>) returns (ranges: Option<seq<Range>>)
    ensures ranges.Some? <==> AllValid(spans, length)
    ensures ranges.Some? <==> forall x :: x in spans ==> 0 <= x.start && x.start < x.end && x.end <= length
    ensures AllValid(spans, length) ==> ranges == Some(RangesOf(spans, length))
  {
    var unique := RemoveExactDuplicates(spans);
    SortOk(unique);
    var sorted := Sort(unique, Before);
    SortedIsUnique(sorted, Canonical(spans));
    CanonicalValid(spans, length);
    var drafts := MergeSpans(length, sorted);
    if drafts.None? { return None; }
    MergedOk(sorted, length);
    ranges := Some(Ranges(drafts.value));
  }

  predicate Masked(rs: seq<Range>, k: int) { exists i :: 0 <= i < |rs| && rs[i].start <= k < rs[i].end }

  lemma {:induction false} RangesCover(ds: seq<Draft>, k: int)
    requires forall i :: 0 <= i < |ds| ==> ds[i].spans != []
    ensures Masked(Ranges(ds), k) <==> Covers(ds, k)
  {
    var rs := Ranges(ds);
    if i :| 0 <= i < |rs| && rs[i].start <= k < rs[i].end { assert ds[i].start <= k < ds[i].end; }
    if i :| 0 <= i < |ds| && ds[i].start <= k < ds[i].end { assert rs[i].start <= k < rs[i].end; }
  }

  /** What the ranges are, said without the merge: in order, disjoint, inside the text, and covering exactly
      the characters that some span covers. */
  lemma RangesCoverExactly(spans: seq<Span>, length: nat, k: int)
    requires AllValid(spans, length)
    ensures InPlace(RangesOf(spans, length), 0, length)
    ensures Masked(RangesOf(spans, length), k) <==> Hits(spans, k)
  {
    var c := Canonical(spans);
    CanonicalValid(spans, length);
    MergedOk(c, length);
    RangesCover(Merged(c), k);
    HitsByElements(c, spans, k);
  }

  lemma HitsByElements(a: seq<Span>, b: seq<Span>, k: int)
    requires Elements(a) == Elements(b)
    ensures Hits(a, k) <==> Hits(b, k)
  {
    if i :| 0 <= i < |a| && a[i].start <= k < a[i].end { assert a[i] in Elements(b); }
    if i :| 0 <= i < |b| && b[i].start <= k < b[i].end { assert b[i] in Elements(a); }
  }

  // ---------------------------------------------------------------------
  // Replacing
  // ---------------------------------------------------------------------

  predicate InPlace(rs: seq<Range>, from: int, length: nat) {
    && (forall i :: 0 <= i < |rs| ==> from <= rs[i].start < rs[i].end <= length)
    && (forall i, j :: 0 <= i < j < |rs| ==> rs[i].end <= rs[j].start)
  }

  /** From left to right: the text between the ranges, with each range's placeholder in its place. */
  function Interleaved(text: string, rs: seq<Range>, from: nat): string
    requires from <= |text| && InPlace(rs, from, |text|)
  {
    if rs == [] then text[from..]
    else text[from..rs[0].start] + rs[0].placeholder + Interleaved(text, rs[1..], rs[0].end)
  }

  /** Up to the first range the interleaving is the text itself. */
  lemma {:induction false} InterleavedFrom(text: string, rs: seq<Range>, from: nat, at: nat)
    requires from <= at <= |text| && InPlace(rs, at, |text|)
    ensures var all := Interleaved(text, rs, from);
            at - from <= |all| && all[..at - from] == text[from..at] && all[at - from..] == Interleaved(text, rs, at)
  {
    if rs != [] {
      assert text[from..rs[0].start] == text[from..at] + text[at..rs[0].start];
    } else {
      assert text[from..] == text[from..at] + text[at..];
    }
  }

  lemma SuffixInPlace(rs: seq<Range>, i: nat, length: nat)
    requires InPlace(rs, 0, length) && i < |rs|
    ensures rs[i..] == [rs[i]] + rs[i + 1..] && InPlace(rs[i..], 0, length) && InPlace(rs[i + 1..], rs[i].end, length)
    ensures InPlace(rs[i + 1..], 0, length) && 0 <= rs[i].start <= rs[i].end <= length
  {
  }

  /** Replacing one range to the left of those already replaced. */
  lemma {:induction false} ReplaceOne(text: string, range: Range, rest: seq<Range>)
    requires InPlace([range] + rest, 0, |text|) && InPlace(rest, range.end, |text|) && InPlace(rest, 0, |text|)
    requires 0 <= range.start <= range.end <= |text|
    ensures var masked := Interleaved(text, rest, 0);
            && range.end <= |masked|
            && masked[..range.start] + range.placeholder + masked[range.end..] == Interleaved(text, [range] + rest, 0)
  {
    assert InPlace(rest, range.start, |text|);
    InterleavedFrom(text, rest, 0, range.end);
    InterleavedFrom(text, rest, 0, range.start);
    assert ([range] + rest)[1..] == rest;
  }

  /** Replacing the ranges from the right, in place, gives the same text as reading from the left. */
  method ReplaceFromRight(text: string, rs: seq<Range>) returns (masked: string)
    requires InPlace(rs, 0, |text|)
    ensures masked == Interleaved(text, rs, 0)
  {
    masked := text;
    var i := |rs|;
    while i > 0
      invariant 0 <= i <= |rs|
      invariant InPlace(rs[i..], 0, |text|) && masked == Interleaved(text, rs[i..], 0)
    {
      i := i - 1;
      var range := rs[i];
      SuffixInPlace(rs, i, |text|);
      ReplaceOne(text, range, rs[i + 1..]);
      masked := masked[..range.start] + range.placeholder + masked[range.end..];
    }
    assert rs[0..] == rs;
  }

  datatype Mask = Mask(sourceStart: int, sourceEnd: int, maskedStart: int, maskedEnd: int, placeholder: string,
      categories: seq<Category>)

  function MaskOf(r: Range, delta: int): Mask {
    Mask(r.start, r.end, r.start + delta, r.start + delta + |r.placeholder|, r.placeholder, r.categories)
  }

  /** Total growth of the text over the ranges. */
  function Delta(rs: seq<Range>): int {
    if rs == [] then 0
    else Delta(rs[..|rs| - 1]) + |rs[|rs| - 1].placeholder| - (rs[|rs| - 1].end - rs[|rs| - 1].start)
  }

  method LocateMasks(rs: seq<Range>) returns (masks: seq<Mask>)
    ensures |masks| == |rs| && forall i :: 0 <= i < |rs| ==> masks[i] == MaskOf(rs[i], Delta(rs[..i]))
  {
    masks := [];
    var offsetDelta := 0;
    for i := 0 to |rs|
      invariant |masks| == i && offsetDelta == Delta(rs[..i])
      invariant forall k :: 0 <= k < i ==> masks[k] == MaskOf(rs[k], Delta(rs[..k]))
    {
      var maskedStart := rs[i].start + offsetDelta;
      masks := masks + [Mask(rs[i].start, rs[i].end, maskedStart, maskedStart + |rs[i].placeholder|,
          rs[i].placeholder, rs[i].categories)];
      assert rs[..i + 1][..i] == rs[..i];
      offsetDelta := offsetDelta + |rs[i].placeholder| - (rs[i].end - rs[i].start);
    }
  }

  /** Everything outside the given stretches, in order. */
  function Outside(text: string, cuts: seq<(int, int)>, from: nat): string
    requires from <= |text| && CutsInPlace(cuts, from, |text|)
  {
    if cuts == [] then text[from..] else text[from..cuts[0].0] + Outside(text, cuts[1..], cuts[0].1)
  }

  predicate CutsInPlace(cuts: seq<(int, int)>, from: int, length: nat) {
    && (forall i :: 0 <= i < |cuts| ==> from <= cuts[i].0 <= cuts[i].1 <= length)
    && (forall i, j :: 0 <= i < j < |cuts| ==> cuts[i].1 <= cuts[j].0)
  }

  function SourceCuts(rs: seq<Range>): (cuts: seq<(int, int)>)
    ensures |cuts| == |rs| && forall i :: 0 <= i < |rs| ==> cuts[i] == (rs[i].start, rs[i].end)
  {
    seq(|rs|, i requires 0 <= i < |rs| => (rs[i].start, rs[i].end))
  }

  /** Where the placeholders sit when the output position of `from` is `at`. */
  function MaskedCuts(rs: seq<Range>, from: int, at: int): (cuts: seq<(int, int)>)
    ensures |cuts| == |rs|
  {
    if rs == [] then []
    else
      var start := at + rs[0].start - from;
      [(start, start + |rs[0].placeholder|)] + MaskedCuts(rs[1..], rs[0].end, start + |rs[0].placeholder|)
  }

  lemma {:induction false} MaskedCutsAt(rs: seq<Range>, from: int, at: int, i: nat)
    requires i < |rs|
    ensures MaskedCuts(rs, from, at)[i].0 == rs[i].start + Delta(rs[..i]) + at - from
    ensures MaskedCuts(rs, from, at)[i].1 == MaskedCuts(rs, from, at)[i].0 + |rs[i].placeholder|
  {
    if i > 0 {
      var start := at + rs[0].start - from;
      MaskedCutsAt(rs[1..], rs[0].end, start + |rs[0].placeholder|, i - 1);
      assert rs[1..][..i - 1] == rs[1..i];
      DeltaHead(rs[..i]);
      assert rs[..i][1..] == rs[1..i];
    }
  }

  lemma {:induction false} DeltaHead(rs: seq<Range>)
    requires rs != []
    ensures Delta(rs) == |rs[0].placeholder| - (rs[0].end - rs[0].start) + Delta(rs[1..])
  {
    if |rs| > 1 {
      var n := |rs| - 1;
      DeltaHead(rs[..n]);
      assert rs[..n][1..] == rs[1..][..n - 1];
    }
  }

  lemma {:induction false} MaskedCutsInPlace(text: string, rs: seq<Range>, from: nat, at: nat)
    requires from <= |text| && InPlace(rs, from, |text|)
    ensures CutsInPlace(MaskedCuts(rs, from, at), at, at + |Interleaved(text, rs, from)|)
  {
    if rs != [] {
      var start := at + rs[0].start - from;
      MaskedCutsInPlace(text, rs[1..], rs[0].end, start + |rs[0].placeholder|);
      var cuts, rest := MaskedCuts(rs, from, at), MaskedCuts(rs[1..], rs[0].end, start + |rs[0].placeholder|);
      assert forall i :: 1 <= i < |cuts| ==> cuts[i] == rest[i - 1];
    }
  }

  /** The text up to and including the first placeholder. */
  function Head(text: string, rs: seq<Range>, from: nat, before: string): string
    requires rs != [] && from <= |text| && InPlace(rs, from, |text|)
  {
    before + text[from..rs[0].start] + rs[0].placeholder
  }

  lemma {:induction false} HeadFirst(text: string, rs: seq<Range>, from: nat, before: string)
    requires rs != [] && from <= |text| && InPlace(rs, from, |text|)
    ensures before + Interleaved(text, rs, from) == Head(text, rs, from, before) + Interleaved(text, rs[1..], rs[0].end)
    ensures MaskedCuts(rs, from, |before|)[0]
            == (|Head(text, rs, from, before)| - |rs[0].placeholder|, |Head(text, rs, from, before)|)
    ensures MaskedCuts(rs, from, |before|)[1..] == MaskedCuts(rs[1..], rs[0].end, |Head(text, rs, from, before)|)
  {
  }

  /** Each placeholder is what the masked text holds at its mask's offsets. */
  lemma {:induction false} PlaceholdersInPlace(text: string, rs: seq<Range>, from: nat, before: string, i: nat)
    requires from <= |text| && InPlace(rs, from, |text|) && i < |rs|
    ensures var all, cut := before + Interleaved(text, rs, from), MaskedCuts(rs, from, |before|)[i];
            0 <= cut.0 <= cut.1 <= |all| && all[cut.0..cut.1] == rs[i].placeholder
  {
    HeadFirst(text, rs, from, before);
    if i > 0 {
      PlaceholdersInPlace(text, rs[1..], rs[0].end, Head(text, rs, from, before), i - 1);
    }
  }

  lemma {:induction false} SourceRest(text: string, rs: seq<Range>, from: nat)
    requires rs != [] && from <= |text| && InPlace(rs, from, |text|)
    ensures CutsInPlace(SourceCuts(rs), from, |text|) && CutsInPlace(SourceCuts(rs[1..]), rs[0].end, |text|)
    ensures Outside(text, SourceCuts(rs), from)
            == text[from..rs[0].start] + Outside(text, SourceCuts(rs[1..]), rs[0].end)
  {
    assert SourceCuts(rs)[1..] == SourceCuts(rs[1..]);
  }

  lemma {:induction false} OutsideHead(text: string, cuts: seq<(int, int)>, from: nat, gap: string,
                                       rest: seq<(int, int)>, end: nat)
    requires from <= |text| && CutsInPlace(cuts, from, |text|) && cuts != []
    requires cuts[1..] == rest && cuts[0].1 == end && text[from..cuts[0].0] == gap
    ensures CutsInPlace(rest, end, |text|) && end <= |text|
    ensures Outside(text, cuts, from) == gap + Outside(text, rest, end)
  {
  }

  /** Between the text before and the first placeholder stands the text up to the first range. */
  lemma HeadGap(text: string, rs: seq<Range>, from: nat, before: string, rest: string)
    requires rs != [] && from <= |text| && InPlace(rs, from, |text|)
    ensures var head := Head(text, rs, from, before);
            && |before| <= |head| - |rs[0].placeholder|
            && (head + rest)[|before|..|head| - |rs[0].placeholder|] == text[from..rs[0].start]
  {
  }

  lemma {:induction false} MaskedRest(text: string, rs: seq<Range>, from: nat, before: string)
    requires rs != [] && from <= |text| && InPlace(rs, from, |text|)
    ensures var all, head := before + Interleaved(text, rs, from), Head(text, rs, from, before);
            && CutsInPlace(MaskedCuts(rs, from, |before|), |before|, |all|)
            && all == head + Interleaved(text, rs[1..], rs[0].end)
            && CutsInPlace(MaskedCuts(rs[1..], rs[0].end, |head|), |head|, |all|)
            && Outside(all, MaskedCuts(rs, from, |before|), |before|)
               == text[from..rs[0].start] + Outside(all, MaskedCuts(rs[1..], rs[0].end, |head|), |head|)
  {
    var all, head := before + Interleaved(text, rs, from), Head(text, rs, from, before);
    MaskedCutsInPlace(text, rs, from, |before|);
    HeadFirst(text, rs, from, before);
    HeadGap(text, rs, from, before, Interleaved(text, rs[1..], rs[0].end));
    OutsideHead(all, MaskedCuts(rs, from, |before|), |before|, text[from..rs[0].start],
        MaskedCuts(rs[1..], rs[0].end, |head|), |head|);
  }

  /** What lies outside the placeholders is what lay outside the ranges, in the same order. */
  lemma {:induction false} RestSurvives(text: string, rs: seq<Range>, from: nat, before: string)
    requires from <= |text| && InPlace(rs, from, |text|)
    ensures var all := before + Interleaved(text, rs, from);
            && CutsInPlace(MaskedCuts(rs, from, |before|), |before|, |all|)
            && CutsInPlace(SourceCuts(rs), from, |text|)
            && Outside(all, MaskedCuts(rs, from, |before|), |before|) == Outside(text, SourceCuts(rs), from)
  {
    if rs == [] {
      assert (before + Interleaved(text, rs, from))[|before|..] == text[from..];
    } else {
      SourceRest(text, rs, from);
      MaskedRest(text, rs, from, before);
      RestSurvives(text, rs[1..], rs[0].end, Head(text, rs, from, before));
    }
  }

  // ---------------------------------------------------------------------
  // The whole masking
  // ---------------------------------------------------------------------

  datatype MaskResult = MaskResult(maskedText: string, masks: seq<Mask>)

  function CutsOf(masks: seq<Mask>): (cuts: seq<(int, int)>)
    ensures |cuts| == |masks| && forall i :: 0 <= i < |masks| ==> cuts[i] == (masks[i].maskedStart, masks[i].maskedEnd)
  {
    seq(|masks|, i requires 0 <= i < |masks| => (masks[i].maskedStart, masks[i].maskedEnd))
  }

  /** Masks the text, or fails when a span does not fit it.  The masks name the ranges of the spans in order,
      their masked offsets cut out exactly the placeholders, and what the cuts leave is the unmasked text. */
  method MaskClassifiedPii(text: string, spans: seq<Span>) returns (result: Option<MaskResult>)
    ensures result.Some? <==> AllValid(spans, |text|)
    ensures result.Some? <==> forall x :: x in spans ==> 0 <= x.start && x.start < x.end && x.end <= |text|
    ensures result.Some? ==>
              var rs, r := RangesOf(spans, |text|), result.value;
              && InPlace(rs, 0, |text|) && r.maskedText == Interleaved(text, rs, 0)
              && |r.masks| == |rs|
              && (forall i :: 0 <= i < |rs| ==> r.masks[i] == MaskOf(rs[i], Delta(rs[..i])))
  {
    var ranges := NormalizeMaskRanges(|text|, spans);
    if ranges.None? { return None; }
    RangesCoverExactly(spans, |text|, 0);
    var maskedText := ReplaceFromRight(text, ranges.value);
    var masks := LocateMasks(ranges.value);
    result := Some(MaskResult(maskedText, masks));
  }

  /** The offsets reported in the masks are right, and no unmasked character is lost, moved or changed. */
  lemma {:induction false} MasksDescribeTheText(text: string, rs: seq<Range>, masks: seq<Mask>)
    requires InPlace(rs, 0, |text|) && |masks| == |rs|
    requires forall i :: 0 <= i < |rs| ==> masks[i] == MaskOf(rs[i], Delta(rs[..i]))
    ensures var masked := Interleaved(text, rs, 0);
            && CutsInPlace(CutsOf(masks), 0, |masked|)
            && (forall i :: 0 <= i < |rs| ==>
                  0 <= masks[i].maskedStart <= masks[i].maskedEnd <= |masked|
                  && masked[masks[i].maskedStart..masks[i].maskedEnd] == rs[i].placeholder)
            && CutsInPlace(SourceCuts(rs), 0, |text|)
            && Outside(masked, CutsOf(masks), 0) == Outside(text, SourceCuts(rs), 0)
  {
    var masked, cuts := Interleaved(text, rs, 0), MaskedCuts(rs, 0, 0);
    MasksAreCuts(rs, masks);
    assert "" + masked == masked;
    forall i | 0 <= i < |rs|
      ensures 0 <= masks[i].maskedStart <= masks[i].maskedEnd <= |masked|
      ensures masked[masks[i].maskedStart..masks[i].maskedEnd] == rs[i].placeholder
    {
      PlaceholdersInPlace(text, rs, 0, "", i);
      assert cuts[i] == CutsOf(masks)[i];
    }
    RestSurvives(text, rs, 0, "");
  }

  lemma {:induction false} MaskIsCut(rs: seq<Range>, masks: seq<Mask>, i: nat)
    requires i < |rs| == |masks| && masks[i] == MaskOf(rs[i], Delta(rs[..i]))
    ensures CutsOf(masks)[i] == MaskedCuts(rs, 0, 0)[i]
  {
    MaskedCutsAt(rs, 0, 0, i);
  }

  lemma {:induction false} MasksAreCuts(rs: seq<Range>, masks: seq<Mask>)
    requires |masks| == |rs| && forall i :: 0 <= i < |rs| ==> masks[i] == MaskOf(rs[i], Delta(rs[..i]))
    ensures CutsOf(masks) == MaskedCuts(rs, 0, 0)
  {
    var cuts := CutsOf(masks);
    forall i | 0 <= i < |rs| ensures cuts[i] == MaskedCuts(rs, 0, 0)[i] { MaskIsCut(rs, masks, i); }
  }

  /** Only the set of spans matters: reordering or repeating them changes nothing. */
  lemma OrderAndDuplicatesDoNotMatter(a: seq<Span>, b: seq<Span>, length: nat)
    requires Elements(a) == Elements(b)
    ensures AllValid(a, length) <==> AllValid(b, length)
    ensures AllValid(a, length) ==> RangesOf(a, length) == RangesOf(b, length)
  {
    CanonicalValid(a, length);
    CanonicalValid(b, length);
    SortedIsUnique(Canonical(a), Canonical(b));
  }

  /** A range's mask names exactly the categories of the spans inside it. */
  lemma {:induction false} CategoriesAreExact(spans: seq<Span>, length: nat, i: nat, c: Category)
    requires AllValid(spans, length) && i < |RangesOf(spans, length)|
    ensures var r := RangesOf(spans, length)[i];
            c in r.categories
            <==> exists x :: x in Elements(spans) && x.category == c && r.start <= x.start && x.end <= r.end
  {
    var sorted := Canonical(spans);
    CanonicalValid(spans, length);
    MergedOk(sorted, length);
    MergedHolds(sorted, length);
    var d := Merged(sorted)[i];
    assert HoldsItsSpans(sorted, d) && RangesOf(spans, length)[i] == Finalized(d);
    PresentOk(ALL_CATEGORIES, d.spans, c);
    assert c in ALL_CATEGORIES;
    CategoryInSpans(sorted, spans, d, c);
  }

  lemma CategoryInSpans(sorted: seq<Span>, spans: seq<Span>, d: Draft, c: Category)
    requires Elements(sorted) == Elements(spans) && HoldsItsSpans(sorted, d)
    ensures (exists i :: 0 <= i < |d.spans| && d.spans[i].category == c)
            <==> exists x :: x in Elements(spans) && x.category == c && d.start <= x.start && x.end <= d.end
  {
    if i :| 0 <= i < |d.spans| && d.spans[i].category == c {
      assert d.spans[i] in d.spans;
      assert d.spans[i] in Elements(sorted);
    }
    if x :| x in Elements(spans) && x.category == c && d.start <= x.start && x.end <= d.end {
      assert x in Elements(sorted) && x in d.spans;
      var i :| 0 <= i < |d.spans| && d.spans[i] == x;
    }
  }

  // ---------------------------------------------------------------------
  // Disjoint spans
  // ---------------------------------------------------------------------

  predicate Disjoint(a: Span, b: Span) { a.end <= b.start || b.end <= a.start }

  predicate DisjointInOrder(s: seq<Span>) {
    forall i, j :: 0 <= i < j < |s| ==> Disjoint(s[i], s[j])
  }

  lemma {:induction false} DisjointNeverMerge(sorted: seq<Span>, length: nat)
    requires Sorted(sorted) && DisjointInOrder(sorted) && AllValid(sorted, length)
    ensures |Merged(sorted)| == |sorted|
    ensures forall i :: 0 <= i < |sorted| ==> Merged(sorted)[i] == Draft(sorted[i].start, sorted[i].end, [sorted[i]])
  {
    if sorted != [] {
      var n := |sorted| - 1;
      var front := sorted[..n];
      DisjointNeverMerge(front, length);
      if n > 0 {
        assert Before(sorted[n - 1], sorted[n]) && Disjoint(sorted[n - 1], sorted[n]);
        assert Merged(front)[n - 1].end == sorted[n - 1].end <= sorted[n].start;
      }
      assert Merged(sorted) == Merged(front) + [Draft(sorted[n].start, sorted[n].end, [sorted[n]])];
    }
  }

  ghost predicate PairwiseDisjoint(s: seq<Span>) {
    forall a, b :: a in Elements(s) && b in Elements(s) && a != b ==> Disjoint(a, b)
  }

  /** Spans that do not overlap keep one mask each, with their own detector's placeholder. */
  lemma {:induction false} DisjointSpansKeepTheirMasks(spans: seq<Span>, length: nat)
    requires AllValid(spans, length) && PairwiseDisjoint(spans)
    ensures var rs, c := RangesOf(spans, length), Canonical(spans);
            && |rs| == |c|
            && forall i :: 0 <= i < |c| ==>
                 rs[i].start == c[i].start && rs[i].end == c[i].end
                   && rs[i].placeholder == PlaceholderFor(c[i].detector)
  {
    var c := Canonical(spans);
    CanonicalValid(spans, length);
    forall i, j | 0 <= i < j < |c| ensures Disjoint(c[i], c[j]) {
      assert c[i] in Elements(c) && c[j] in Elements(c) && Before(c[i], c[j]);
      BeforeIsTotal(c[i], c[j]);
    }
    MergedOk(c, length);
    DisjointNeverMerge(c, length);
  }

  // ---------------------------------------------------------------------
  // Which placeholder a range gets
  // ---------------------------------------------------------------------

  lemma SortedSnoc(s: seq<Span>, x: Span)
    requires Sorted(s) && forall y :: y in s ==> Before(y, x)
    ensures Sorted(s + [x])
  {
    forall i, j | 0 <= i < j < |s + [x]| ensures Before((s + [x])[i], (s + [x])[j]) { assert s[i] in s; }
  }

  /** A draft keeps its spans in order, so it holds none twice. */
  lemma {:induction false} DraftsAreSorted(sorted: seq<Span>, length: nat, i: nat)
    requires Sorted(sorted) && (forall k :: 0 <= k < |sorted| ==> sorted[k].Valid(length)) && i < |Merged(sorted)|
    ensures Sorted(Merged(sorted)[i].spans)
  {
    if sorted != [] {
      var n := |sorted| - 1;
      MergedHolds(sorted[..n], length);
      MergedLast(sorted);
      if i < |Merged(sorted[..n])| {
        DraftsAreSorted(sorted[..n], length, i);
        LastComesAfter(sorted, Merged(sorted[..n])[i]);
        SortedSnoc(Merged(sorted[..n])[i].spans, sorted[n]);
      }
    }
  }

  lemma LastComesAfter(sorted: seq<Span>, d: Draft)
    requires sorted != [] && Sorted(sorted) && HoldsItsSpans(sorted[..|sorted| - 1], d)
    ensures forall y :: y in d.spans ==> Before(y, sorted[|sorted| - 1])
  {
    var n := |sorted| - 1;
    forall y | y in d.spans ensures Before(y, sorted[n]) {
      var k :| 0 <= k < n && sorted[..n][k] == y;
      assert Before(sorted[k], sorted[n]);
    }
  }

  /** The span lies in the range. */
  predicate Inside(x: Span, r: Range) { r.start <= x.start && x.end <= r.end }

  /** A range that stands for one span shows what was there, as far as that is approved; one that stands for several
      shows nothing of the kind. */
  lemma {:induction false} PlaceholdersAreExact(spans: seq<Span>, length: nat, i: nat)
    requires AllValid(spans, length) && i < |RangesOf(spans, length)|
    ensures var r := RangesOf(spans, length)[i];
            && (exists x :: x in spans && Inside(x, r))
            && (forall x, y :: x in spans && y in spans && Inside(x, r) && Inside(y, r) && x != y ==>
                  r.placeholder == "[PII_REDACTED]")
            && (forall x :: x in spans && Inside(x, r) && (forall y :: y in spans && Inside(y, r) ==> y == x) ==>
                  r.placeholder == if x.detector == Email then "[EMAIL_REDACTED]"
                                   else if x.detector == Phone then "[PHONE_REDACTED]"
                                   else if x.detector == ApiKey then "[CREDENTIAL_REDACTED]" else "[PII_REDACTED]")
  {
    var d := RangeDraft(spans, length, i);
    assert d.spans[0] in d.spans;
    if |d.spans| > 1 {
      assert d.spans[1] in d.spans && Before(d.spans[0], d.spans[1]);
      BeforeIsTotal(d.spans[0], d.spans[1]);
    }
  }

  /** The draft behind a range. */
  lemma {:induction false} RangeDraft(spans: seq<Span>, length: nat, i: nat) returns (d: Draft)
    requires AllValid(spans, length) && i < |RangesOf(spans, length)|
    ensures d.spans != [] && Sorted(d.spans) && RangesOf(spans, length)[i] == Finalized(d)
    ensures forall x :: x in d.spans <==> x in spans && Inside(x, RangesOf(spans, length)[i])
  {
    var sorted := Canonical(spans);
    CanonicalValid(spans, length);
    MergedOk(sorted, length);
    MergedHolds(sorted, length);
    DraftsAreSorted(sorted, length, i);
    d := Merged(sorted)[i];
    assert HoldsItsSpans(sorted, d);
    forall x ensures x in sorted <==> x in spans {
      assert x in sorted <==> x in Elements(sorted);
      assert x in spans <==> x in Elements(spans);
    }
  }
}
