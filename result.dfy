/** The results page: the saved raw score becomes a percentage of a fixed
    maximum, which selects one of three messages and the angle of the dial's
    pointer; the dial behind the pointer is painted in three colour segments. */
module Result {
  import opened Wrappers

  /** `Math.min` on integers. */
  function Min(x: int, y: int): int { if x < y then x else y }

  /** The maximum the page divides by. */
  const MaxScore := 198

  /** `saved.score || 0`: the score field of the parsed record, where `None`
      stands for an empty slot or a record without a score field. */
  function ScoreRaw(score: Option<int>): (raw: int)
    ensures score == None ==> raw == 0
    ensures score.Some? ==> raw == score.value
  {
    match score
    case None => 0
    case Some(s) => s
  }

  /** `Math.round`: the nearest integer, halves rounded up. */
  function Round(x: real): (n: int)
    ensures n as real - 0.5 <= x < n as real + 0.5
  {
    (x + 0.5).Floor
  }

  /** `Math.min(100, Math.round((raw / 198) * 100))`. */
  function ScorePct(raw: int): int {
    Min(100, Round(raw as real / MaxScore as real * 100.0))
  }

  /** The percentage needs no real arithmetic: it is an integer quotient. */
  lemma ScorePctExact(raw: int)
    ensures ScorePct(raw) == Min(100, (200 * raw + 198) / 396)
  {
    var n := 100 * raw + 99;
    var q := n / 198;
    var r := n % 198;
    assert n == q * 198 + r && 0 <= r < 198;
    var x := raw as real / 198.0 * 100.0 + 0.5;
    assert x == n as real / 198.0;
    assert x == q as real + r as real / 198.0;
    assert q as real <= x < q as real + 1.0;
    assert Round(raw as real / 198.0 * 100.0) == q;
    assert (200 * raw + 198) / 396 == q;
  }

  /** Every non-negative raw score gives a percentage in [0, 100]. */
  lemma ScorePctRange(raw: int)
    requires raw >= 0
    ensures 0 <= ScorePct(raw) <= 100
  {
    ScorePctExact(raw);
  }

  /** A larger raw score never gives a smaller percentage. */
  lemma ScorePctMonotone(raw1: int, raw2: int)
    requires raw1 <= raw2
    ensures ScorePct(raw1) <= ScorePct(raw2)
  {
    ScorePctExact(raw1);
    ScorePctExact(raw2);
    var x, y := 200 * raw1 + 198, 200 * raw2 + 198;
    assert x / 396 <= y / 396 by {
      assert x == (x / 396) * 396 + x % 396 && y == (y / 396) * 396 + y % 396;
    }
  }

  /** The percentage reaches 100 exactly from raw 198 upwards. */
  lemma ScorePctFull(raw: int)
    ensures ScorePct(raw) == 100 <==> raw >= MaxScore
  {
    ScorePctExact(raw);
    if raw >= 198 {
      assert 200 * raw + 198 >= 396 * 100;
    } else {
      assert 200 * raw + 198 < 396 * 100;
    }
  }

  /** The three messages of the page, from the most to the least severe. */
  datatype Message = HighStress | Moderate | DoingWell

  /** messageForScore: the message for a percentage, thresholds 67 and 34. */
  function MessageForScore(pct: int): Message {
    if pct >= 67 then HighStress
    else if pct >= 34 then Moderate
    else DoingWell
  }

  /** 2 for the most severe message, 0 for the least. */
  function Severity(m: Message): nat {
    match m
    case HighStress => 2
    case Moderate => 1
    case DoingWell => 0
  }

  /** Every percentage falls in exactly one band. */
  lemma MessageBands(pct: int)
    ensures MessageForScore(pct) == HighStress <==> pct >= 67
    ensures MessageForScore(pct) == Moderate <==> 34 <= pct <= 66
    ensures MessageForScore(pct) == DoingWell <==> pct <= 33
  {
  }

  /** A higher percentage never gives a less severe message. */
  lemma MessageMonotone(pct1: int, pct2: int)
    requires pct1 <= pct2
    ensures Severity(MessageForScore(pct1)) <= Severity(MessageForScore(pct2))
  {
  }

  /** The message for a raw score: high stress from 132 points, moderate from
      67 to 131, doing well up to 66. */
  lemma MessageForRaw(raw: int)
    requires raw >= 0
    ensures MessageForScore(ScorePct(raw)) == HighStress <==> raw >= 132
    ensures MessageForScore(ScorePct(raw)) == Moderate <==> 67 <= raw <= 131
    ensures MessageForScore(ScorePct(raw)) == DoingWell <==> raw <= 66
  {
    ScorePctExact(raw);
    var n := 200 * raw + 198;
    if raw >= 132 {
      assert n >= 67 * 396;
    } else if raw >= 67 {
      assert 34 * 396 <= n < 67 * 396;
    } else {
      assert n < 34 * 396;
    }
  }

  /** The pointer's rotation in degrees: -90 at 0 % through 90 at 100 %. */
  function PointerAngle(pct: int): real {
    -90.0 + (pct as real / 100.0) * 180.0
  }

  lemma PointerAngleRange(pct: int)
    requires 0 <= pct <= 100
    ensures -90.0 <= PointerAngle(pct) <= 90.0
  {
  }

  lemma PointerAngleIncreasing(pct1: int, pct2: int)
    requires pct1 < pct2
    ensures PointerAngle(pct1) < PointerAngle(pct2)
  {
  }

  lemma PointerAngleMarks()
    ensures PointerAngle(0) == -90.0
    ensures PointerAngle(50) == 0.0
    ensures PointerAngle(100) == 90.0
  {
  }

  /** One coloured arc of the dial, over percentages start to end. */
  datatype Segment = Segment(start: int, end: int, color: string)

  const Segments: seq<Segment> := [
    Segment(0, 40, "#22c55e"),
    Segment(40, 70, "#eab308"),
    Segment(70, 100, "#ef4444")
  ]

  predicate OnSegment(s: Segment, pct: int) {
    s.start <= pct <= s.end
  }

  /** The segments cover [lo, hi] one after the other: the first starts at lo,
      each ends where the next starts, the last ends at hi, none is empty. */
  predicate Tiles(segs: seq<Segment>, lo: int, hi: int) {
    && |segs| > 0
    && segs[0].start == lo
    && segs[|segs| - 1].end == hi
    && (forall i :: 0 <= i < |segs| ==> segs[i].start < segs[i].end)
    && (forall i :: 0 <= i < |segs| - 1 ==> segs[i].end == segs[i + 1].start)
  }

  lemma SegmentsTileDial()
    ensures Tiles(Segments, 0, 100)
  {
  }

  /** Along a tiling, every segment ends no later than any later one starts. */
  lemma {:induction false} TilesOrdered(segs: seq<Segment>, lo: int, hi: int, i: nat, j: nat)
    requires Tiles(segs, lo, hi) && i < j < |segs|
    ensures segs[i].end <= segs[j].start
    decreases j - i
  {
    if j > i + 1 {
      TilesOrdered(segs, lo, hi, i, j - 1);
      assert segs[j - 1].end == segs[j].start;
    }
  }

  /** The first segment of a tiling whose end is not below pct. */
  function SegmentIndex(segs: seq<Segment>, lo: int, hi: int, from: nat, pct: int): (i: nat)
    requires Tiles(segs, lo, hi) && from < |segs| && segs[from].start <= pct <= hi
    ensures from <= i < |segs| && OnSegment(segs[i], pct)
    decreases |segs| - from
  {
    if pct <= segs[from].end then from
    else SegmentIndex(segs, lo, hi, from + 1, pct)
  }

  /** Every point of [lo, hi] lies on some segment of a tiling. */
  lemma TilesCover(segs: seq<Segment>, lo: int, hi: int, pct: int)
    requires Tiles(segs, lo, hi) && lo <= pct <= hi
    ensures exists i :: 0 <= i < |segs| && OnSegment(segs[i], pct)
  {
    var i := SegmentIndex(segs, lo, hi, 0, pct);
  }

  /** Two segments of a tiling share only the end point of the earlier one,
      and only when they are neighbours. */
  lemma TilesMeetAtEnds(segs: seq<Segment>, lo: int, hi: int, i: nat, j: nat, pct: int)
    requires Tiles(segs, lo, hi) && i < j < |segs|
    requires OnSegment(segs[i], pct) && OnSegment(segs[j], pct)
    ensures j == i + 1 && pct == segs[i].end
  {
    if j > i + 1 {
      TilesOrdered(segs, lo, hi, i, j - 1);
    }
  }

  /** The dial's colours cover 0 to 100, and two colours meet only at 40 and 70. */
  lemma DialSegments(pct: int)
    ensures 0 <= pct <= 100 ==> exists i :: 0 <= i < |Segments| && OnSegment(Segments[i], pct)
    ensures forall i, j :: 0 <= i < j < |Segments| && OnSegment(Segments[i], pct) && OnSegment(Segments[j], pct)
              ==> j == i + 1 && pct == Segments[i].end
  {
    SegmentsTileDial();
    if 0 <= pct <= 100 {
      TilesCover(Segments, 0, 100, pct);
    }
    forall i: nat, j: nat | i < j < |Segments| && OnSegment(Segments[i], pct) && OnSegment(Segments[j], pct)
      ensures j == i + 1 && pct == Segments[i].end
    {
      TilesMeetAtEnds(Segments, 0, 100, i, j, pct);
    }
  }

  /** The message bands do not follow the colours: 34 to 39 reads "moderate"
      on green only, and 67 to 69 reads "high stress" on yellow only. */
  lemma BandsDisagreeWithColours(pct: int)
    ensures 34 <= pct < 40 ==>
      MessageForScore(pct) == Moderate &&
      forall i :: 0 <= i < |Segments| && OnSegment(Segments[i], pct) ==> Segments[i].color == "#22c55e"
    ensures 67 <= pct < 70 ==>
      MessageForScore(pct) == HighStress &&
      forall i :: 0 <= i < |Segments| && OnSegment(Segments[i], pct) ==> Segments[i].color == "#eab308"
  {
  }

  /** What the page shows for a saved score: the badge percentage, the message
      and the pointer angle. */
  datatype View = View(pct: int, message: Message, angle: real)

  function ShowResult(score: Option<int>): View {
    var pct := ScorePct(ScoreRaw(score));
    View(pct, MessageForScore(pct), PointerAngle(pct))
  }

  /** For a non-negative score the badge stays in [0, 100] and the pointer on
      the dial. */
  lemma ShowResultBounds(score: Option<int>)
    requires ScoreRaw(score) >= 0
    ensures 0 <= ShowResult(score).pct <= 100
    ensures -90.0 <= ShowResult(score).angle <= 90.0
  {
    ScorePctRange(ScoreRaw(score));
    PointerAngleRange(ShowResult(score).pct);
  }

  /** With no saved score the page shows 0 % and "doing well". */
  lemma NoSavedScore()
    ensures ShowResult(None) == View(0, DoingWell, -90.0)
  {
    ScorePctExact(0);
  }
}
