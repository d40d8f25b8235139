/**
 * The synthetic chart engine: a clamped random walk, the seeding of a series,
 * the mapping of a series to plot coordinates, and the ranking of modules by
 * percentage change over the retained window.
 */
module ChartHelpers {
  import opened Common

  /** The walk never leaves [Bottom, Top]. */
  const Bottom: real := 40.0
  const Top: real := 200.0
  /** Vertical padding of a plot, in pixels. */
  const Pad: real := 12.0

  datatype Point = Point(x: int, y: real)

  /** The two `Math.random()` draws one step of the walk consumes, in call order. */
  datatype Draw = Draw(drift: real, noise: real)

  predicate ValidDraw(d: Draw)
  {
    0.0 <= d.drift < 1.0 && 0.0 <= d.noise < 1.0
  }

  // ---------------------------------------------------------------------------
  // nextVal

  /** `Math.max(40, Math.min(200, v))` */
  function Clamp(v: real): (r: real)
    ensures Bottom <= r <= Top
    ensures Bottom <= v <= Top ==> r == v
    ensures v < Bottom ==> r == Bottom
    ensures v > Top ==> r == Top
  {
    MaxReal(Bottom, MinReal(Top, v))
  }

  /** `Math.round(y * 100) / 100`: rounding to two decimals moves y by at most 0.005. */
  function RoundCents(y: real): (r: real)
    ensures y - 0.005 < r <= y + 0.005
  {
    Round(y * 100.0) as real / 100.0
  }

  /** Rounding a value of the walk's range to cents keeps it in range. */
  lemma RoundCentsInRange(y: real)
    requires Bottom <= y <= Top
    ensures Bottom <= RoundCents(y) <= Top
  {
    var n := Round(y * 100.0);
    assert 3999.5 < n as real <= 20000.5;
    assert 4000 <= n <= 20000;
  }

  /** The drift term: `(Math.random() * 2 - 1) * 2.2` */
  function Step(d: Draw): real
  {
    (d.drift * 2.0 - 1.0) * 2.2
  }

  /** The noise term: `(Math.random() - 0.5) * 1.3` */
  function Noise(d: Draw): real
  {
    (d.noise - 0.5) * 1.3
  }

  /** One step of the random walk from `prev`; always lands in [40, 200]. */
  function NextVal(prev: real, d: Draw): (r: real)
    ensures Bottom <= r <= Top
  {
    var y := Clamp(prev + Step(d) + Noise(d));
    RoundCentsInRange(y);
    RoundCents(y)
  }

  /** From a value in range, one step moves by at most 2.2 + 0.65 + 0.005. */
  lemma NextValStep(prev: real, d: Draw)
    requires ValidDraw(d)
    requires Bottom <= prev <= Top
    ensures -2.855 <= NextVal(prev, d) - prev <= 2.855
  {
    assert -2.2 <= Step(d) < 2.2;
    assert -0.65 <= Noise(d) < 0.65;
    var v := prev + Step(d) + Noise(d);
    var c := Clamp(v);
    assert -2.85 <= c - prev <= 2.85;
    assert NextVal(prev, d) == RoundCents(c);
  }

  // ---------------------------------------------------------------------------
  // makeInitialSeries and the sliding window

  /** x-coordinates that go up by exactly one from each point to the next. */
  predicate Consecutive(s: seq<Point>)
  {
    forall i :: 0 <= i < |s| - 1 ==> s[i + 1].x == s[i].x + 1
  }

  predicate InRange(s: seq<Point>)
  {
    forall i :: 0 <= i < |s| ==> Bottom <= s[i].y <= Top
  }

  /**
   * `makeInitialSeries(n, seed)`: n points with x = 0 .. n-1, each y one walk
   * step from the previous y, the first from `seed`. `draws[i]` are the random
   * draws of step i.
   */
  method MakeInitialSeries(n: nat, seed: real, draws: seq<Draw>) returns (s: seq<Point>)
    requires |draws| >= n
    ensures |s| == n
    ensures forall i :: 0 <= i < n ==> s[i].x == i
    ensures n > 0 ==> s[0].y == NextVal(seed, draws[0])
    ensures forall i :: 0 < i < n ==> s[i].y == NextVal(s[i - 1].y, draws[i])
    ensures Consecutive(s) && InRange(s)
  {
    var val := seed;
    s := [];
    var i := 0;
    while i < n
      invariant 0 <= i <= n
      invariant |s| == i
      invariant forall k :: 0 <= k < i ==> s[k].x == k
      invariant i > 0 ==> s[0].y == NextVal(seed, draws[0])
      invariant forall k :: 0 < k < i ==> s[k].y == NextVal(s[k - 1].y, draws[k])
      invariant i > 0 ==> val == s[i - 1].y
      invariant i == 0 ==> val == seed
      invariant Consecutive(s) && InRange(s)
    {
      val := NextVal(val, draws[i]);
      s := s + [Point(i, val)];
      i := i + 1;
    }
  }

  /**
   * One tick of one series: drop the oldest point and append
   * `{x: last.x + 1, y: nextVal(last.y)}`.
   */
  function Advance(s: seq<Point>, d: Draw): (r: seq<Point>)
    requires |s| > 0
    ensures |r| == |s| && r[..|s| - 1] == s[1..]
    ensures r[|s| - 1].x == s[|s| - 1].x + 1 && r[|s| - 1].y == NextVal(s[|s| - 1].y, d)
    ensures Bottom <= r[|s| - 1].y <= Top
  {
    s[1..] + [Point(s[|s| - 1].x + 1, NextVal(s[|s| - 1].y, d))]
  }

  /** Dropping the oldest point and appending the next x keeps a window consecutive and in range. */
  lemma ShiftKeepsWindow(s: seq<Point>, p: Point)
    requires |s| > 0 && Consecutive(s) && InRange(s)
    requires p.x == s[|s| - 1].x + 1 && Bottom <= p.y <= Top
    ensures Consecutive(s[1..] + [p]) && InRange(s[1..] + [p])
  {
    var t := s[1..] + [p];
    forall i | 0 <= i < |t| - 1
      ensures t[i + 1].x == t[i].x + 1
    {
      if i < |t| - 2 {
        assert t[i] == s[i + 1] && t[i + 1] == s[i + 2];
      } else {
        assert t[i] == s[|s| - 1] && t[i + 1] == p;
      }
    }
  }

  /** A tick keeps a window's consecutive x values and its range. */
  lemma AdvanceKeepsWindow(s: seq<Point>, d: Draw)
    requires |s| > 0 && Consecutive(s) && InRange(s)
    ensures Consecutive(Advance(s, d)) && InRange(Advance(s, d))
  {
    var p := Point(s[|s| - 1].x + 1, NextVal(s[|s| - 1].y, d));
    assert Advance(s, d) == s[1..] + [p];
    ShiftKeepsWindow(s, p);
  }

  // ---------------------------------------------------------------------------
  // buildPath

  /** One SVG path command: `M x y` or `L x y`. */
  datatype Cmd = MoveTo(x: real, y: real) | LineTo(x: real, y: real)

  datatype PathResult = PathResult(path: seq<Cmd>, minY: real, maxY: real)

  /** `Math.min(...points.map(p => p.y))` */
  function MinY(ps: seq<Point>): (m: real)
    requires ps != []
    ensures exists i :: 0 <= i < |ps| && ps[i].y == m
    ensures forall i :: 0 <= i < |ps| ==> m <= ps[i].y
  {
    if |ps| == 1 then ps[0].y
    else
      var rest := MinY(ps[1..]);
      assert forall i :: 1 <= i < |ps| ==> ps[i] == ps[1..][i - 1];
      if ps[0].y <= rest then ps[0].y else rest
  }

  /** `Math.max(...points.map(p => p.y))` */
  function MaxY(ps: seq<Point>): (m: real)
    requires ps != []
    ensures exists i :: 0 <= i < |ps| && ps[i].y == m
    ensures forall i :: 0 <= i < |ps| ==> ps[i].y <= m
  {
    if |ps| == 1 then ps[0].y
    else
      var rest := MaxY(ps[1..]);
      assert forall i :: 1 <= i < |ps| ==> ps[i] == ps[1..][i - 1];
      if ps[0].y >= rest then ps[0].y else rest
  }

  /** `yScale`: [minY, maxY] onto [height - pad, pad]; a flat series maps to height / 2. */
  function YScale(v: real, minY: real, maxY: real, height: real): real
  {
    if maxY == minY then height / 2.0
    else
      var t := (v - minY) / (maxY - minY);
      height - (Pad + t * (height - Pad * 2.0))
  }

  /** `xScale`: point i of `count` onto [0, width]; a single point maps to 0. */
  function XScale(i: nat, count: nat, width: real): real
  {
    var n := count - 1;
    if n == 0 then 0.0 else (i as real / n as real) * width
  }

  /** The lowest value is drawn at the bottom of the padded area, the highest at its top. */
  lemma YScaleEnds(minY: real, maxY: real, height: real)
    requires minY < maxY
    ensures YScale(minY, minY, maxY, height) == height - Pad
    ensures YScale(maxY, minY, maxY, height) == Pad
  {
    assert (maxY - minY) / (maxY - minY) == 1.0;
  }

  /** Every value in [minY, maxY] is drawn inside the padded area. */
  lemma YScaleBounds(v: real, minY: real, maxY: real, height: real)
    requires minY < maxY && minY <= v <= maxY
    requires height >= 2.0 * Pad
    ensures Pad <= YScale(v, minY, maxY, height) <= height - Pad
  {
    var t := (v - minY) / (maxY - minY);
    UnitFraction(v - minY, maxY - minY);
    var span := height - Pad * 2.0;
    assert 0.0 <= t * span <= span by {
      assert t * span <= 1.0 * span;
    }
  }

  /** A flat series is drawn as a horizontal line through the middle. */
  lemma YScaleFlat(v: real, level: real, height: real)
    ensures YScale(v, level, level, height) == height / 2.0
  {
  }

  /** The first point is drawn at x = 0 and the last at x = width. */
  lemma XScaleEnds(count: nat, width: real)
    requires count >= 2
    ensures XScale(0, count, width) == 0.0
    ensures XScale(count - 1, count, width) == width
  {
    var n := (count - 1) as real;
    assert n > 0.0;
    assert n / n == 1.0;
    assert XScale(count - 1, count, width) == (n / n) * width;
  }

  /** For a positive width the x-coordinates strictly increase with the index. */
  lemma XScaleIncreasing(i: nat, j: nat, count: nat, width: real)
    requires i < j < count
    requires width > 0.0
    ensures XScale(i, count, width) < XScale(j, count, width)
  {
    var n := (count - 1) as real;
    assert i as real / n < j as real / n by {
      assert (j as real / n - i as real / n) * n == j as real - i as real;
    }
    var a, b := i as real / n, j as real / n;
    assert a * width < b * width by {
      assert (b - a) * width > 0.0;
    }
  }

  /** The command drawing point i: `M` for the first point, `L` for every other. */
  function PathCmd(i: nat, x: real, y: real): Cmd
  {
    if i == 0 then MoveTo(x, y) else LineTo(x, y)
  }

  /**
   * `buildPath(points, width, height)`: an empty series gives an empty path and
   * minY = maxY = 0; otherwise minY/maxY are the exact extremes of the values
   * and the path holds one `M` followed by one `L` per further point, in point
   * order, at the scaled coordinates.
   */
  method BuildPath(points: seq<Point>, width: real, height: real) returns (r: PathResult)
    ensures points == [] ==> r == PathResult([], 0.0, 0.0)
    ensures points != [] ==> r.minY == MinY(points) && r.maxY == MaxY(points)
    ensures |r.path| == |points|
    ensures |points| > 0 ==> r.path[0].MoveTo?
    ensures forall i :: 0 < i < |points| ==> r.path[i].LineTo?
    ensures forall i :: 0 <= i < |points| ==>
      r.path[i].x == XScale(i, |points|, width) &&
      r.path[i].y == YScale(points[i].y, r.minY, r.maxY, height)
  {
    if |points| == 0 {
      return PathResult([], 0.0, 0.0);
    }
    var minY := MinY(points);
    var maxY := MaxY(points);
    var d: seq<Cmd> := [];
    var i := 0;
    while i < |points|
      invariant 0 <= i <= |points|
      invariant |d| == i
      invariant forall k :: 0 <= k < i ==>
        d[k] == PathCmd(k, XScale(k, |points|, width), YScale(points[k].y, minY, maxY, height))
    {
      var x := XScale(i, |points|, width);
      var y := YScale(points[i].y, minY, maxY, height);
      d := d + [PathCmd(i, x, y)];
      i := i + 1;
    }
    r := PathResult(d, minY, maxY);
  }

  // ---------------------------------------------------------------------------
  // pickWinners

  /** One `[key, series]` pair of `Object.entries(map)`, in the object's key order. */
  datatype Entry = Entry(key: string, series: seq<Point>)

  /** `-Infinity`, a finite number, or `Infinity`. */
  datatype Extended = NegInf | Finite(v: real) | PosInf

  datatype Ranking = Ranking(winnerKey: Option<string>, loserKey: Option<string>, winnerPct: Extended, loserPct: Extended)

  /** A series takes part in the ranking only with at least two points. */
  predicate Qualifies(s: seq<Point>)
  {
    |s| >= 2
  }

  /** Percentage change from first to last point; 0 when the first value is 0. */
  function Pct(s: seq<Point>): real
    requires Qualifies(s)
  {
    var first := s[0].y;
    var last := s[|s| - 1].y;
    if first == 0.0 then 0.0 else (last - first) / first * 100.0
  }

  predicate AnyQualifies(es: seq<Entry>)
  {
    exists i :: 0 <= i < |es| && Qualifies(es[i].series)
  }

  /** `Object.keys(map)[i]` */
  function KeyAt(es: seq<Entry>, i: nat): (r: Option<string>)
    ensures r.Some? <==> i < |es|
  {
    if i < |es| then Some(es[i].key) else None
  }

  /** Entry w has the largest change among the first `upTo` entries, and no earlier entry ties it. */
  ghost predicate FirstMaxUpTo(es: seq<Entry>, upTo: nat, w: nat)
    requires upTo <= |es|
  {
    w < upTo && Qualifies(es[w].series) &&
    (forall j :: 0 <= j < upTo && Qualifies(es[j].series) ==> Pct(es[j].series) <= Pct(es[w].series)) &&
    (forall j :: 0 <= j < w && Qualifies(es[j].series) ==> Pct(es[j].series) < Pct(es[w].series))
  }

  /** Entry l has the smallest change among the first `upTo` entries, and no earlier entry ties it. */
  ghost predicate FirstMinUpTo(es: seq<Entry>, upTo: nat, l: nat)
    requires upTo <= |es|
  {
    l < upTo && Qualifies(es[l].series) &&
    (forall j :: 0 <= j < upTo && Qualifies(es[j].series) ==> Pct(es[l].series) <= Pct(es[j].series)) &&
    (forall j :: 0 <= j < l && Qualifies(es[j].series) ==> Pct(es[l].series) < Pct(es[j].series))
  }

  ghost predicate IsFirstMax(es: seq<Entry>, w: nat)
  {
    FirstMaxUpTo(es, |es|, w)
  }

  ghost predicate IsFirstMin(es: seq<Entry>, l: nat)
  {
    FirstMinUpTo(es, |es|, l)
  }

  /** The ranking determines its winner: ties go to the earliest entry. */
  lemma FirstMaxUnique(es: seq<Entry>, w1: nat, w2: nat)
    requires IsFirstMax(es, w1) && IsFirstMax(es, w2)
    ensures w1 == w2
  {
    assert Pct(es[w1].series) == Pct(es[w2].series);
  }

  /** The ranking determines its loser: ties go to the earliest entry. */
  lemma FirstMinUnique(es: seq<Entry>, l1: nat, l2: nat)
    requires IsFirstMin(es, l1) && IsFirstMin(es, l2)
    ensures l1 == l2
  {
    assert Pct(es[l1].series) == Pct(es[l2].series);
  }

  /** The keys `pickWinners` reports once the scan found winner w and loser l (or none). */
  function FinalKeys(es: seq<Entry>, w: Option<nat>, l: Option<nat>): (Option<string>, Option<string>)
    requires w.Some? ==> w.value < |es|
    requires l.Some? ==> l.value < |es|
  {
    var found := if w.Some? then Some(es[w.value].key) else None;
    var winnerKey := OrString(found, KeyAt(es, 0));
    var lost := if l.Some? then Some(es[l.value].key) else None;
    (winnerKey, OrString(lost, OrString(KeyAt(es, 1), winnerKey)))
  }

  /**
   * `pickWinners(map)`. With no qualifying series: the first key (or, for the
   * loser, the second key or else the winner), with -Infinity and +Infinity.
   * Otherwise the first entry with the largest change and the first with the
   * smallest; a falsy ("") key falls back as in the source's `!winnerKey`.
   */
  method PickWinners(es: seq<Entry>) returns (r: Ranking)
    ensures !AnyQualifies(es) ==>
      r == Ranking(KeyAt(es, 0), OrString(KeyAt(es, 1), KeyAt(es, 0)), NegInf, PosInf)
    ensures AnyQualifies(es) ==> exists w: nat, l: nat ::
      IsFirstMax(es, w) && IsFirstMin(es, l) &&
      (r.winnerKey, r.loserKey) == FinalKeys(es, Some(w), Some(l)) &&
      r.winnerPct == Finite(Pct(es[w].series)) && r.loserPct == Finite(Pct(es[l].series))
    ensures AnyQualifies(es) ==> r.winnerPct.Finite? && r.loserPct.Finite? && r.loserPct.v <= r.winnerPct.v
  {
    var w: Option<nat> := None;
    var l: Option<nat> := None;
    var max: Extended := NegInf;
    var min: Extended := PosInf;
    var i := 0;
    while i < |es|
      invariant 0 <= i <= |es|
      invariant w.Some? <==> exists j :: 0 <= j < i && Qualifies(es[j].series)
      invariant l.Some? <==> w.Some?
      invariant w.Some? ==> FirstMaxUpTo(es, i, w.value) && max == Finite(Pct(es[w.value].series))
      invariant l.Some? ==> FirstMinUpTo(es, i, l.value) && min == Finite(Pct(es[l.value].series))
      invariant w.None? ==> max == NegInf && min == PosInf
    {
      var series := es[i].series;
      if |series| >= 2 {
        var pct := Pct(series);
        if max.NegInf? || (max.Finite? && pct > max.v) {
          max := Finite(pct);
          w := Some(i);
        }
        if min.PosInf? || (min.Finite? && pct < min.v) {
          min := Finite(pct);
          l := Some(i);
        }
      }
      i := i + 1;
    }
    var (winnerKey, loserKey) := FinalKeys(es, w, l);
    r := Ranking(winnerKey, loserKey, max, min);
    if w.Some? {
      assert IsFirstMax(es, w.value) && IsFirstMin(es, l.value);
      assert Pct(es[l.value].series) <= Pct(es[w.value].series);
    }
  }

  /** The two-module example: +10% wins, -10% loses. */
  lemma RankingExample()
    ensures var es := [Entry("a", [Point(0, 100.0), Point(1, 110.0)]), Entry("b", [Point(0, 100.0), Point(1, 90.0)])];
      IsFirstMax(es, 0) && IsFirstMin(es, 1) &&
      Pct(es[0].series) == 10.0 && Pct(es[1].series) == -10.0 &&
      FinalKeys(es, Some(0), Some(1)) == (Some("a"), Some("b"))
  {
  }

  /** A series starting at 0 has change 0, never a division by zero. */
  lemma PctZeroStart(s: seq<Point>)
    requires Qualifies(s) && s[0].y == 0.0
    ensures Pct(s) == 0.0
  {
  }
}
