/** The pacing chart: turning a timed transcript into time-ordered chart points.

    Every transcript entry gives two points carrying the entry's speaking speed (at
    its start and at its end, `end` being a duration), and an entry tagged as a
    pause adds zero-speed points that make the speed line dip between words. The
    points are then sorted by time. Times and speeds are real numbers. */
module PacingChart {
  import opened Text

  /** One transcribed word: its text, its start time, its duration (stored under
      the name `end`) and its tags. */
  datatype Entry = Entry(text: string, start: real, end: real, tags: seq<string>)

  /** One point of the chart. `kind` is the source's `type` field. */
  datatype Point = Point(time: real, speed: real, kind: string, text: string)

  const MaxWpm: real := 300.0
  const PauseText := "[Pause]"
  const PauseEndText := "[Pause End]"

  /** `calculateWPM`: one word per `duration` seconds, in words per minute, capped
      at 300; 0 for a non-positive duration. */
  function CalculateWpm(duration: real): (wpm: real)
    ensures 0.0 <= wpm <= MaxWpm
    ensures duration <= 0.0 ==> wpm == 0.0
    ensures duration > 0.0 ==>
      wpm <= 60.0 / duration && (wpm == 60.0 / duration || wpm == MaxWpm)
  {
    if duration <= 0.0 then 0.0
    else
      var raw := 60.0 / duration;
      if raw < MaxWpm then raw else MaxWpm
  }

  /** A short duration is capped; a long one gives exactly 60 / duration. */
  lemma CalculateWpmCap(duration: real)
    requires duration > 0.0
    ensures duration <= 0.2 ==> CalculateWpm(duration) == MaxWpm
    ensures duration >= 0.2 ==> CalculateWpm(duration) == 60.0 / duration
  {
    if duration <= 0.2 {
      assert 60.0 / duration >= 300.0 by {
        assert 60.0 == (60.0 / duration) * duration;
      }
    } else {
      assert 60.0 / duration < 300.0 by {
        assert 60.0 == (60.0 / duration) * duration;
      }
    }
  }

  predicate IsPause(e: Entry)
  {
    "long_pause" in e.tags || "strategic_pause" in e.tags
  }

  /** The `type` of the two word points of an entry. */
  function WordKind(e: Entry): (kind: string)
    ensures kind == "Filler" <==> "filler_word" in e.tags
    ensures kind == "Word (followed by pause)" <==> "filler_word" !in e.tags && IsPause(e)
    ensures kind == "Word" <==> "filler_word" !in e.tags && !IsPause(e)
  {
    if "filler_word" in e.tags then "Filler"
    else if IsPause(e) then "Word (followed by pause)"
    else "Word"
  }

  /** The `type` of the zero-speed points of a pause-tagged entry. */
  function PauseKind(e: Entry): (kind: string)
    ensures kind == "Long Pause" <==> "long_pause" in e.tags
    ensures kind == "Strategic Pause" <==> "long_pause" !in e.tags
  {
    if "long_pause" in e.tags then "Long Pause" else "Strategic Pause"
  }

  predicate IsPauseKind(kind: string)
  {
    kind == "Long Pause" || kind == "Strategic Pause"
  }

  function EndTime(e: Entry): real
  {
    e.start + e.end
  }

  /** The "[Pause End]" point of pause-tagged entry `i`, if any: just before the
      next word when that word has a truthy start beyond the pause point, else half
      a second after the last word, else none. */
  function PauseEnd(t: seq<Entry>, i: nat): seq<Point>
    requires i < |t|
  {
    var endTime := EndTime(t[i]);
    if i + 1 < |t| && t[i + 1].start != 0.0 && t[i + 1].start > endTime + 0.01 then
      [Point(t[i + 1].start - 0.01, 0.0, PauseKind(t[i]), PauseEndText)]
    else if i == |t| - 1 then
      [Point(endTime + 0.5, 0.0, PauseKind(t[i]), PauseEndText)]
    else
      []
  }

  /** The points the loop pushes for entry `i`, in push order. */
  function EntryPoints(t: seq<Entry>, i: nat): seq<Point>
    requires i < |t|
  {
    var e := t[i];
    var speed := CalculateWpm(e.end);
    var word := [Point(e.start, speed, WordKind(e), e.text), Point(EndTime(e), speed, WordKind(e), e.text)];
    if IsPause(e) then word + [Point(EndTime(e) + 0.01, 0.0, PauseKind(e), PauseText)] + PauseEnd(t, i)
    else word
  }

  /** The points pushed for the first `k` entries, in push order. */
  function Emit(t: seq<Entry>, k: nat): seq<Point>
    requires k <= |t|
  {
    if k == 0 then [] else Emit(t, k - 1) + EntryPoints(t, k - 1)
  }

  /** Everything the loop pushes, before sorting. */
  function Emitted(t: seq<Entry>): seq<Point>
  {
    Emit(t, |t|)
  }

  predicate SortedByTime(s: seq<Point>)
  {
    forall p, q :: 0 <= p < q < |s| ==> s[p].time <= s[q].time
  }

  // ---------------------------------------------------------------------------
  // What the emitted points are

  /** Each entry gives two, three or four points, and exactly two without a pause tag. */
  lemma EntryPointsCount(t: seq<Entry>, i: nat)
    requires i < |t|
    ensures 2 <= |EntryPoints(t, i)| <= 4
    ensures !IsPause(t[i]) ==> |EntryPoints(t, i)| == 2
  {
  }

  /** Between 2n and 4n points for n entries; exactly 2n when no entry is
      pause-tagged, and none for an empty transcript. */
  lemma {:induction false} EmitLength(t: seq<Entry>, k: nat)
    requires k <= |t|
    ensures 2 * k <= |Emit(t, k)| <= 4 * k
    ensures (forall i :: 0 <= i < k ==> !IsPause(t[i])) ==> |Emit(t, k)| == 2 * k
  {
    if k > 0 {
      EmitLength(t, k - 1);
      EntryPointsCount(t, k - 1);
    }
  }

  lemma EmittedLength(t: seq<Entry>)
    ensures 2 * |t| <= |Emitted(t)| <= 4 * |t|
    ensures (forall i :: 0 <= i < |t| ==> !IsPause(t[i])) ==> |Emitted(t)| == 2 * |t|
    ensures t == [] ==> Emitted(t) == []
  {
    EmitLength(t, |t|);
  }

  /** Word points carry the entry's capped speed; pause points have speed 0 and
      are labelled "[Pause]" or "[Pause End]". */
  predicate WellFormedPoint(p: Point)
  {
    && 0.0 <= p.speed <= MaxWpm
    && (IsPauseKind(p.kind) ==> p.speed == 0.0 && (p.text == PauseText || p.text == PauseEndText))
  }

  lemma EntryPointsWellFormed(t: seq<Entry>, i: nat)
    requires i < |t|
    ensures forall p :: p in EntryPoints(t, i) ==> WellFormedPoint(p)
  {
  }

  lemma {:induction false} EmitWellFormed(t: seq<Entry>, k: nat)
    requires k <= |t|
    ensures forall p :: p in Emit(t, k) ==> WellFormedPoint(p)
  {
    if k > 0 {
      EmitWellFormed(t, k - 1);
      EntryPointsWellFormed(t, k - 1);
    }
  }

  /** Every speed lies in [0, 300], and every pause point is at speed 0 with a
      pause label. */
  lemma EmittedWellFormed(t: seq<Entry>)
    ensures forall p :: p in Emitted(t) ==> WellFormedPoint(p)
  {
    EmitWellFormed(t, |t|);
  }

  lemma {:induction false} EmitIncludes(t: seq<Entry>, k: nat, i: nat)
    requires i < k <= |t|
    ensures forall p :: p in EntryPoints(t, i) ==> p in Emit(t, k)
  {
    if i < k - 1 {
      EmitIncludes(t, k - 1, i);
    }
  }

  /** Every entry contributes a point at its start and one at its end (start plus
      duration), both with its speed, word type and text. */
  lemma EmittedWordPoints(t: seq<Entry>, i: nat)
    requires i < |t|
    ensures Point(t[i].start, CalculateWpm(t[i].end), WordKind(t[i]), t[i].text) in Emitted(t)
    ensures Point(t[i].start + t[i].end, CalculateWpm(t[i].end), WordKind(t[i]), t[i].text) in Emitted(t)
  {
    EmitIncludes(t, |t|, i);
  }

  /** A pause-tagged entry contributes a zero-speed "[Pause]" point 0.01 after it ends. */
  lemma EmittedPausePoint(t: seq<Entry>, i: nat)
    requires i < |t| && IsPause(t[i])
    ensures Point(t[i].start + t[i].end + 0.01, 0.0, PauseKind(t[i]), PauseText) in Emitted(t)
  {
    EmitIncludes(t, |t|, i);
  }

  /** When the next word starts (at a non-zero time) after the pause point, the
      pause ends 0.01 before it, strictly after the paused word ends. */
  lemma EmittedPauseEndBeforeNext(t: seq<Entry>, i: nat)
    requires i + 1 < |t| && IsPause(t[i])
    requires t[i + 1].start != 0.0 && t[i + 1].start > t[i].start + t[i].end + 0.01
    ensures Point(t[i + 1].start - 0.01, 0.0, PauseKind(t[i]), PauseEndText) in Emitted(t)
    ensures t[i].start + t[i].end < t[i + 1].start - 0.01
  {
    EmitIncludes(t, |t|, i);
    assert EntryPoints(t, i)[3] == Point(t[i + 1].start - 0.01, 0.0, PauseKind(t[i]), PauseEndText);
  }

  /** A pause on the last word ends half a second after it. */
  lemma EmittedPauseEndLast(t: seq<Entry>)
    requires t != [] && IsPause(t[|t| - 1])
    ensures var e := t[|t| - 1];
      Point(e.start + e.end + 0.5, 0.0, PauseKind(e), PauseEndText) in Emitted(t)
  {
    var i := |t| - 1;
    EmitIncludes(t, |t|, i);
    assert EntryPoints(t, i)[3] == Point(EndTime(t[i]) + 0.5, 0.0, PauseKind(t[i]), PauseEndText);
  }

  /** A pause on a word that is not last, followed by a word starting at 0 or not
      after the pause point, has no "[Pause End]" point. */
  lemma NoPauseEnd(t: seq<Entry>, i: nat)
    requires i + 1 < |t| && IsPause(t[i])
    requires t[i + 1].start == 0.0 || t[i + 1].start <= t[i].start + t[i].end + 0.01
    ensures |EntryPoints(t, i)| == 3
    ensures forall p :: p in EntryPoints(t, i) ==> p.text != PauseEndText || p.kind == WordKind(t[i])
  {
    assert PauseEnd(t, i) == [];
  }

  // ---------------------------------------------------------------------------
  // The loop and the sort

  /** The `forEach` callback for entry `index`: pushes its points onto `chartData`. */
  method PushEntryPoints(transcript: seq<Entry>, index: nat, chartData: seq<Point>) returns (pushed: seq<Point>)
    requires index < |transcript|
    ensures pushed == chartData + EntryPoints(transcript, index)
  {
    var entry := transcript[index];
    var startTime := entry.start;
    var duration := entry.end;
    var endTime := startTime + duration;
    var isPause := "long_pause" in entry.tags || "strategic_pause" in entry.tags;
    var isFiller := "filler_word" in entry.tags;
    var speed := CalculateWpm(duration);
    var kind := if isFiller then "Filler" else if isPause then "Word (followed by pause)" else "Word";
    assert isPause == IsPause(entry) && kind == WordKind(entry);
    pushed := chartData + [Point(startTime, speed, kind, entry.text)];
    pushed := pushed + [Point(endTime, speed, kind, entry.text)];
    if isPause {
      pushed := PushPausePoints(transcript, index, pushed);
    }
  }

  /** The `if (isPause)` block of the callback: the "[Pause]" point, then the
      "[Pause End]" point when there is one. */
  method PushPausePoints(transcript: seq<Entry>, index: nat, chartData: seq<Point>) returns (pushed: seq<Point>)
    requires index < |transcript|
    ensures pushed == chartData + [Point(EndTime(transcript[index]) + 0.01, 0.0, PauseKind(transcript[index]), PauseText)]
                      + PauseEnd(transcript, index)
  {
    var entry := transcript[index];
    var endTime := entry.start + entry.end;
    var pauseKind := if "long_pause" in entry.tags then "Long Pause" else "Strategic Pause";
    pushed := chartData + [Point(endTime + 0.01, 0.0, pauseKind, PauseText)];
    var nextWordStartTime: Option<real> :=
      if index + 1 < |transcript| then Some(transcript[index + 1].start) else None;
    if nextWordStartTime.Some? && nextWordStartTime.value != 0.0
       && nextWordStartTime.value > endTime + 0.01 {
      pushed := pushed + [Point(nextWordStartTime.value - 0.01, 0.0, pauseKind, PauseEndText)];
    } else if index == |transcript| - 1 {
      pushed := pushed + [Point(endTime + 0.5, 0.0, pauseKind, PauseEndText)];
    }
  }

  /** The `transcript.forEach` loop: pushes the points of each entry in turn. */
  method CollectPoints(transcript: seq<Entry>) returns (chartData: seq<Point>)
    ensures chartData == Emitted(transcript)
  {
    chartData := [];
    var index := 0;
    while index < |transcript|
      invariant 0 <= index <= |transcript|
      invariant chartData == Emit(transcript, index)
    {
      chartData := PushEntryPoints(transcript, index, chartData);
      index := index + 1;
    }
  }

  /** `chartData.sort((a, b) => a.time - b.time)`, as an insertion sort by
      adjacent swaps: the array ends ordered by time and holds the same points. */
  method SortByTime(a: array<Point>)
    modifies a
    ensures SortedByTime(a[..])
    ensures multiset(a[..]) == multiset(old(a[..]))
  {
    var i := 0;
    while i < a.Length
      invariant 0 <= i <= a.Length
      invariant SortedByTime(a[..i])
      invariant multiset(a[..]) == multiset(old(a[..]))
    {
      InsertLast(a, i);
      i := i + 1;
    }
    assert a[..] == a[..a.Length];
  }

  /** One pass of the insertion sort: moves `a[i]` left past every later point
      of `a[..i]`, leaving `a[..i + 1]` ordered. */
  method InsertLast(a: array<Point>, i: nat)
    requires i < a.Length && SortedByTime(a[..i])
    modifies a
    ensures SortedByTime(a[..i + 1])
    ensures multiset(a[..]) == multiset(old(a[..]))
  {
    var j := i;
    while j > 0 && a[j - 1].time > a[j].time
      invariant 0 <= j <= i
      invariant forall p, q :: 0 <= p < q <= i && q != j ==> a[p].time <= a[q].time
      invariant multiset(a[..]) == multiset(old(a[..]))
    {
      a[j - 1], a[j] := a[j], a[j - 1];
      j := j - 1;
    }
  }

  /** The chart data of `PacingChart`: the emitted points, sorted by time. */
  method ChartData(transcript: seq<Entry>) returns (chartData: seq<Point>)
    ensures SortedByTime(chartData)
    ensures multiset(chartData) == multiset(Emitted(transcript))
    ensures |chartData| == |Emitted(transcript)|
  {
    var points := CollectPoints(transcript);
    var a := new Point[|points|](k requires 0 <= k < |points| => points[k]);
    assert a[..] == points;
    SortByTime(a);
    chartData := a[..];
    assert |chartData| == |multiset(chartData)| == |multiset(points)| == |points|;
  }
}
