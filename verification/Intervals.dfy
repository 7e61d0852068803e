/** Silence and speech (src/fast_sub/media/service.py): clipping and merging of silent intervals, and
    the speech between them, as sets of points in time. */
module Intervals {
  import opened Extrema
  import opened Wrappers

  datatype Interval = Interval(start: real, end: real)

  function Length(iv: Interval): real {
    Max(0.0, iv.end - iv.start)
  }

  function Total(ivs: seq<Interval>): real {
    if ivs == [] then 0.0 else Length(ivs[0]) + Total(ivs[1..])
  }

  /** `x` lies in the half-open interval. */
  predicate At(iv: Interval, x: real) {
    iv.start <= x < iv.end
  }

  ghost predicate In(ivs: seq<Interval>, x: real) {
    exists iv <- ivs :: At(iv, x)
  }

  /** Non-empty intervals in order, with a gap between any two. */
  ghost predicate Separated(ivs: seq<Interval>) {
    && (forall iv <- ivs :: iv.start < iv.end)
    && (forall i, j | 0 <= i < j < |ivs| :: ivs[i].end < ivs[j].start)
  }

  // ---------------------------------------------------------------- sorting by start

  ghost predicate SortedByStart(ivs: seq<Interval>) {
    forall i, j | 0 <= i < j < |ivs| :: ivs[i].start <= ivs[j].start
  }

  function InsertByStart(iv: Interval, ivs: seq<Interval>): seq<Interval> {
    if ivs == [] || iv.start <= ivs[0].start then [iv] + ivs else [ivs[0]] + InsertByStart(iv, ivs[1..])
  }

  /** sorted(intervals, key=start): equal starts stay in order. */
  function SortByStart(ivs: seq<Interval>): seq<Interval> {
    if ivs == [] then [] else InsertByStart(ivs[0], SortByStart(ivs[1..]))
  }

  lemma {:induction false} InsertMembers(iv: Interval, ivs: seq<Interval>)
    ensures forall x :: x in InsertByStart(iv, ivs) <==> x in ivs || x == iv
  {
    if ivs != [] && iv.start > ivs[0].start {
      InsertMembers(iv, ivs[1..]);
    }
  }

  lemma {:induction false} InsertSorts(iv: Interval, ivs: seq<Interval>)
    requires SortedByStart(ivs)
    ensures SortedByStart(InsertByStart(iv, ivs))
  {
    if ivs != [] && iv.start > ivs[0].start {
      InsertSorts(iv, ivs[1..]);
      InsertMembers(iv, ivs[1..]);
      var rest := InsertByStart(iv, ivs[1..]);
      forall k | 0 <= k < |rest| ensures ivs[0].start <= rest[k].start { assert rest[k] in rest; }
    }
  }

  lemma {:induction false} SortSorts(ivs: seq<Interval>)
    ensures SortedByStart(SortByStart(ivs))
    ensures forall x :: x in SortByStart(ivs) <==> x in ivs
  {
    if ivs != [] {
      SortSorts(ivs[1..]);
      InsertSorts(ivs[0], SortByStart(ivs[1..]));
      InsertMembers(ivs[0], SortByStart(ivs[1..]));
    }
  }

  // ---------------------------------------------------------------- clipping and merging

  /** The part of an interval inside the media; empty when its end is not after its start. */
  function Clip(iv: Interval, duration: Option<real>): Interval {
    var start := Max(0.0, iv.start);
    var end := Max(start, iv.end);
    match duration
    case None => Interval(start, end)
    case Some(d) => Interval(Min(start, d), Min(end, d))
  }

  function Merge(bounded: seq<Interval>, c: Interval): seq<Interval> {
    if c.end <= c.start then bounded
    else if bounded != [] && c.start <= bounded[|bounded| - 1].end then
      var previous := bounded[|bounded| - 1];
      bounded[..|bounded| - 1] + [Interval(previous.start, Max(previous.end, c.end))]
    else bounded + [c]
  }

  function Bound(sorted: seq<Interval>, duration: Option<real>): seq<Interval> {
    if sorted == [] then []
    else Merge(Bound(sorted[..|sorted| - 1], duration), Clip(sorted[|sorted| - 1], duration))
  }

  /** _bound_intervals */
  method BoundIntervals(intervals: seq<Interval>, duration: Option<real>) returns (bounded: seq<Interval>)
    ensures bounded == Bound(SortByStart(intervals), duration)
  {
    bounded := [];
    var ordered := SortByStart(intervals);
    var i := 0;
    while i < |ordered|
      invariant 0 <= i <= |ordered|
      invariant bounded == Bound(ordered[..i], duration)
    {
      assert ordered[..i + 1][..i] == ordered[..i];
      var start := Max(0.0, ordered[i].start);
      var end := Max(start, ordered[i].end);
      if duration.Some? {
        start := Min(start, duration.value);
        end := Min(end, duration.value);
      }
      i := i + 1;
      if end <= start {
        continue;
      }
      if |bounded| > 0 && start <= bounded[|bounded| - 1].end {
        var previous := bounded[|bounded| - 1];
        bounded := bounded[..|bounded| - 1] + [Interval(previous.start, Max(previous.end, end))];
      } else {
        bounded := bounded + [Interval(start, end)];
      }
    }
    assert ordered[..i] == ordered;
  }

  ghost predicate Positive(duration: Option<real>) {
    duration.Some? ==> duration.value > 0.0
  }

  /** Inside the media. */
  ghost predicate Inside(ivs: seq<Interval>, duration: Option<real>) {
    forall iv <- ivs :: 0.0 <= iv.start && (duration.Some? ==> iv.end <= duration.value)
  }

  lemma InMerge(bounded: seq<Interval>, c: Interval, x: real)
    requires forall iv <- bounded :: iv.start <= c.start
    ensures In(Merge(bounded, c), x) <==> In(bounded, x) || At(c, x)
  {
    var merged := Merge(bounded, c);
    if c.end <= c.start {
    } else if bounded != [] && c.start <= bounded[|bounded| - 1].end {
      var k := |bounded| - 1;
      assert bounded[k] in bounded && merged[k] in merged;
      assert bounded == bounded[..k] + [bounded[k]];
      assert merged == bounded[..k] + [merged[k]];
      assert At(merged[k], x) <==> At(bounded[k], x) || At(c, x);
    } else {
      assert merged == bounded + [c];
      assert c in merged;
    }
  }

  /** What the merged list keeps while further intervals with later starts are added. */
  lemma {:induction false} BoundShape(sorted: seq<Interval>, duration: Option<real>, next: real)
    requires SortedByStart(sorted) && Positive(duration)
    requires forall iv <- sorted :: iv.start <= next
    ensures var r := Bound(sorted, duration);
            && Separated(r) && Inside(r, duration)
            && forall iv <- r :: iv.start <= Clip(Interval(next, next), duration).start
  {
    if sorted != [] {
      var last := sorted[|sorted| - 1];
      var rest := sorted[..|sorted| - 1];
      assert last in sorted;
      assert forall iv <- rest :: iv in sorted;
      BoundShape(rest, duration, last.start);
      MergeShape(Bound(rest, duration), Clip(last, duration), duration);
    }
  }

  lemma MergeShape(bounded: seq<Interval>, c: Interval, duration: Option<real>)
    requires Separated(bounded) && Inside(bounded, duration) && Inside([c], duration)
    requires forall iv <- bounded :: iv.start <= c.start
    ensures Separated(Merge(bounded, c)) && Inside(Merge(bounded, c), duration)
    ensures forall iv <- Merge(bounded, c) :: iv.start <= c.start
  {
    assert c in [c];
    if c.end > c.start {
      if bounded != [] && c.start <= bounded[|bounded| - 1].end {
        var k := |bounded| - 1;
        var wider := Interval(bounded[k].start, Max(bounded[k].end, c.end));
        ShapePrefix(bounded, duration, k);
        assert bounded[k] in bounded;
        AppendShape(bounded[..k], wider, duration);
      } else {
        AppendShape(bounded, c, duration);
      }
    }
  }

  lemma ShapePrefix(bounded: seq<Interval>, duration: Option<real>, k: nat)
    requires Separated(bounded) && Inside(bounded, duration) && k < |bounded|
    ensures Separated(bounded[..k]) && Inside(bounded[..k], duration)
    ensures k > 0 ==> bounded[..k][k - 1].end < bounded[k].start
  {
  }

  lemma AppendShape(bounded: seq<Interval>, c: Interval, duration: Option<real>)
    requires Separated(bounded) && Inside(bounded, duration) && Inside([c], duration) && c.start < c.end
    requires bounded != [] ==> bounded[|bounded| - 1].end < c.start
    ensures Separated(bounded + [c]) && Inside(bounded + [c], duration)
  {
    assert c in [c];
    var all := bounded + [c];
    forall i, j | 0 <= i < j < |all| ensures all[i].end < all[j].start {
      if j == |bounded| && i < j - 1 { assert bounded[j - 1] in bounded; }
    }
  }

  lemma {:induction false} BoundCovers(sorted: seq<Interval>, duration: Option<real>, x: real)
    requires SortedByStart(sorted) && Positive(duration)
    ensures In(Bound(sorted, duration), x) <==> exists iv <- sorted :: At(Clip(iv, duration), x)
  {
    if sorted != [] {
      var last := sorted[|sorted| - 1];
      var rest := sorted[..|sorted| - 1];
      assert sorted == rest + [last];
      BoundCovers(rest, duration, x);
      BoundShape(rest, duration, last.start);
      InMerge(Bound(rest, duration), Clip(last, duration), x);
    }
  }

  /** A point of the media that one of the intervals covers. */
  ghost predicate Covered(intervals: seq<Interval>, duration: Option<real>, x: real) {
    0.0 <= x && (duration.Some? ==> x < duration.value) && exists iv <- intervals :: At(iv, x)
  }

  /** Clipping keeps exactly the points inside the media. */
  lemma ClipKeeps(iv: Interval, duration: Option<real>, x: real)
    requires Positive(duration)
    ensures At(Clip(iv, duration), x) <==> 0.0 <= x && (duration.Some? ==> x < duration.value) && At(iv, x)
  {
  }

  /** The bounded silences are separated, lie inside the media, and cover exactly those points of the
      media that the intervals they were made from cover. */
  lemma BoundedSilence(intervals: seq<Interval>, duration: Option<real>)
    requires Positive(duration)
    ensures var r := Bound(SortByStart(intervals), duration);
            && Separated(r) && Inside(r, duration)
            && forall x: real :: In(r, x) <==> Covered(intervals, duration, x)
  {
    var sorted := SortByStart(intervals);
    SortSorts(intervals);
    if sorted != [] {
      BoundShape(sorted, duration, sorted[|sorted| - 1].start);
    }
    forall x: real
      ensures In(Bound(sorted, duration), x) <==> Covered(intervals, duration, x)
    {
      BoundCovers(sorted, duration, x);
      forall iv | iv in intervals { ClipKeeps(iv, duration, x); }
    }
  }

  // ---------------------------------------------------------------- speech

  /** The speech from `cursor` on. */
  function SpeechFrom(cursor: real, silence: seq<Interval>, duration: real): seq<Interval>
    decreases silence
  {
    if silence == [] then (if cursor < duration then [Interval(cursor, duration)] else [])
    else
      (if silence[0].start > cursor then [Interval(cursor, silence[0].start)] else [])
      + SpeechFrom(Max(cursor, silence[0].end), silence[1..], duration)
  }

  function Speech(duration: Option<real>, silence: seq<Interval>): seq<Interval> {
    if duration == None then [] else SpeechFrom(0.0, silence, duration.value)
  }

  lemma SpeechStep(before: seq<Interval>, cursor: real, silence: seq<Interval>, duration: real)
    requires silence != []
    ensures before + SpeechFrom(cursor, silence, duration)
         == (if silence[0].start > cursor then before + [Interval(cursor, silence[0].start)] else before)
            + SpeechFrom(Max(cursor, silence[0].end), silence[1..], duration)
  {
    var rest := SpeechFrom(Max(cursor, silence[0].end), silence[1..], duration);
    var first := if silence[0].start > cursor then [Interval(cursor, silence[0].start)] else [];
    assert SpeechFrom(cursor, silence, duration) == first + rest;
    hide SpeechFrom;
    assert before + (first + rest) == before + first + rest && before + [] == before;
  }

  lemma SpeechEnd(cursor: real, duration: real)
    ensures SpeechFrom(cursor, [], duration) == if cursor < duration then [Interval(cursor, duration)] else []
  {
  }

  /** _speech_segments */
  method SpeechSegments(duration: Option<real>, silence: seq<Interval>) returns (speech: seq<Interval>)
    ensures speech == Speech(duration, silence)
  {
    if duration == None {
      return [];
    }
    hide SpeechFrom;
    var cursor := 0.0;
    speech := [];
    ghost var all := Speech(duration, silence);
    assert silence[0..] == silence && [] + all == all;
    for i := 0 to |silence|
      invariant speech + SpeechFrom(cursor, silence[i..], duration.value) == all
    {
      assert silence[i..][1..] == silence[i + 1..];
      SpeechStep(speech, cursor, silence[i..], duration.value);
      if silence[i].start > cursor {
        speech := speech + [Interval(cursor, silence[i].start)];
      }
      cursor := Max(cursor, silence[i].end);
    }
    SpeechEnd(cursor, duration.value);
    assert silence[|silence|..] == [] && speech + [] == speech;
    if cursor < duration.value {
      speech := speech + [Interval(cursor, duration.value)];
    }
  }

  lemma InCons(iv: Interval, rest: seq<Interval>, x: real)
    ensures In([iv] + rest, x) <==> At(iv, x) || In(rest, x)
  {
    assert iv in [iv] + rest;
  }

  lemma {:induction false} SpeechIsComplement(cursor: real, silence: seq<Interval>, duration: real, x: real)
    requires Separated(silence) && cursor <= duration
    requires forall iv <- silence :: cursor <= iv.start && iv.end <= duration
    ensures In(SpeechFrom(cursor, silence, duration), x) <==> cursor <= x < duration && !In(silence, x)
    decreases silence
  {
    if silence == [] {
      InOne(Interval(cursor, duration), x);
    } else {
      var first, rest := silence[0], silence[1..];
      Tail(silence);
      assert first in silence && silence == [first] + rest;
      SpeechIsComplement(first.end, rest, duration, x);
      var later := SpeechFrom(first.end, rest, duration);
      InCons(first, rest, x);
      InCons(Interval(cursor, first.start), later, x);
      assert [] + later == later;
      AfterFirst(silence, x);
    }
  }

  lemma InOne(iv: Interval, x: real)
    ensures In([iv], x) <==> At(iv, x)
  {
    assert iv in [iv];
  }

  lemma Tail(silence: seq<Interval>)
    requires Separated(silence) && silence != []
    ensures Separated(silence[1..])
    ensures forall iv <- silence[1..] :: iv in silence && silence[0].end < iv.start
  {
    var rest := silence[1..];
    assert forall i | 0 <= i < |rest| :: rest[i] == silence[i + 1];
  }

  lemma AfterFirst(silence: seq<Interval>, x: real)
    requires Separated(silence) && silence != []
    ensures In(silence[1..], x) ==> silence[0].end < x
  {
    Tail(silence);
    if In(silence[1..], x) {
      var iv :| iv in silence[1..] && At(iv, x);
    }
  }

  lemma {:induction false} TotalsAddUp(cursor: real, silence: seq<Interval>, duration: real)
    requires Separated(silence) && cursor <= duration
    requires forall iv <- silence :: cursor <= iv.start && iv.end <= duration
    ensures Total(SpeechFrom(cursor, silence, duration)) + Total(silence) == duration - cursor
    decreases silence
  {
    if silence == [] {
      if cursor < duration { assert [Interval(cursor, duration)][1..] == []; }
    } else {
      hide Separated;
      var first, rest := silence[0], silence[1..];
      Tail(silence);
      assert first in silence;
      TotalsAddUp(first.end, rest, duration);
      var later := SpeechFrom(first.end, rest, duration);
      if first.start > cursor {
        assert ([Interval(cursor, first.start)] + later)[1..] == later;
      } else {
        assert [] + later == later;
      }
    }
  }

  /** No two speech intervals touch: between any two there is a silence that lasts. */
  lemma {:induction false} SpeechSeparated(cursor: real, silence: seq<Interval>, duration: real)
    requires Separated(silence) && cursor <= duration
    requires forall iv <- silence :: cursor <= iv.start && iv.end <= duration
    ensures Separated(SpeechFrom(cursor, silence, duration))
    ensures forall iv <- SpeechFrom(cursor, silence, duration) :: cursor <= iv.start
    decreases silence
  {
    if silence != [] {
      var first, rest := silence[0], silence[1..];
      Tail(silence);
      assert first in silence;
      SpeechSeparated(first.end, rest, duration);
      var later := SpeechFrom(first.end, rest, duration);
      if first.start > cursor {
        SeparatedCons(Interval(cursor, first.start), later);
      } else {
        assert [] + later == later;
      }
    }
  }

  lemma SeparatedCons(iv: Interval, later: seq<Interval>)
    requires Separated(later) && iv.start < iv.end && forall x <- later :: iv.end < x.start
    ensures Separated([iv] + later)
  {
    var all := [iv] + later;
    forall i, j | 0 <= i < j < |all| ensures all[i].end < all[j].start {
      assert all[j] == later[j - 1] && later[j - 1] in later;
      if i > 0 { assert all[i] == later[i - 1]; }
    }
  }

  /** build_analysis_result up to its ratios: silence and speech partition the media. */
  method BuildAnalysis(duration: Option<real>, intervals: seq<Interval>)
    returns (silence: seq<Interval>, speech: seq<Interval>, silenceSec: real, speechSec: real)
    requires Positive(duration)
    ensures Separated(silence) && Inside(silence, duration)
    ensures forall x: real :: In(silence, x) <==> Covered(intervals, duration, x)
    ensures duration.Some? ==>
              Separated(speech) && forall x: real :: In(speech, x) <==> 0.0 <= x < duration.value && !In(silence, x)
    ensures duration.Some? ==> silenceSec + speechSec == duration.value
    ensures duration == None ==> speech == [] && speechSec == 0.0
    ensures silenceSec == Total(silence) && speechSec == Total(speech)
  {
    silence := BoundIntervals(intervals, duration);
    speech := SpeechSegments(duration, silence);
    silenceSec, speechSec := Total(silence), Total(speech);
    BoundedSilence(intervals, duration);
    if duration.Some? {
      TotalsAddUp(0.0, silence, duration.value);
      SpeechSeparated(0.0, silence, duration.value);
      forall x: real ensures In(speech, x) <==> 0.0 <= x < duration.value && !In(silence, x) {
        SpeechIsComplement(0.0, silence, duration.value, x);
      }
    }
  }
}
