/**
 * The top-level application state: the XP counter with its goal, the module
 * currently open, and the map of live chart series that a timer advances.
 * The 900 ms `setInterval` is replaced by an explicit `Tick` event.
 */
module Dashboard {
  import opened Common
  import opened ChartHelpers

  const XpGoal: int := 1000
  const InitialXp: int := 420
  /** Number of points every chart series keeps (`POINTS`). */
  const WindowSize: nat := 160

  /** The keys of `modulesData`, in declaration order, and their seeds. */
  const ModuleKeys: seq<string> := ["rbc", "cohere", "options"]
  const Seeds: map<string, real> := map["rbc" := 100.0, "cohere" := 120.0, "options" := 80.0]

  /** A live chart series: full window, consecutive x values, values in [40, 200]. */
  predicate IsWindow(s: seq<Point>)
  {
    |s| == WindowSize && Consecutive(s) && InRange(s)
  }

  function Keys(es: seq<Entry>): (ks: seq<string>)
    ensures |ks| == |es| && forall i :: 0 <= i < |es| ==> ks[i] == es[i].key
  {
    if es == [] then [] else [es[0].key] + Keys(es[1..])
  }

  /** Width of the XP bar: `Math.min(100, Math.round(xp / xpGoal * 100))`. */
  function XpPct(xp: int): (r: int)
    ensures r <= 100
    ensures 0 <= xp ==> 0 <= r
    ensures xp >= XpGoal ==> r == 100
  {
    var p := xp as real / XpGoal as real * 100.0;
    RoundMonotone(0.0, p); RoundWhole(0);
    RoundMonotone(100.0, p); RoundWhole(100);
    MinInt(100, Round(p))
  }

  /** The idle gain `Math.floor(Math.random() * 4)`, from one draw in [0, 1). */
  function IdleGain(draw: real): (g: int)
    requires 0.0 <= draw < 1.0
    ensures 0 <= g <= 3
  {
    (draw * 4.0).Floor
  }

  /** The idle update `v < xpGoal ? Math.min(xpGoal, v + gain) : v`. */
  function IdleXp(v: int, gain: int): (r: int)
    requires gain >= 0
    ensures v <= XpGoal ==> v <= r <= XpGoal
    ensures v >= XpGoal ==> r == v
    ensures v < XpGoal && v + gain <= XpGoal ==> r == v + gain
  {
    if v < XpGoal then MinInt(XpGoal, v + gain) else v
  }

  class App {
    var xp: int
    var activeModule: Option<string>
    var seriesMap: seq<Entry>

    /** XP never exceeds the goal, and every module keeps one full, well-formed window. */
    ghost predicate Valid()
      reads this
    {
      xp <= XpGoal &&
      Keys(seriesMap) == ModuleKeys &&
      forall i :: 0 <= i < |seriesMap| ==> IsWindow(seriesMap[i].series)
    }

    /** Mount: XP 420, no module open, one seeded walk of 160 points per module. */
    constructor(draws: seq<seq<Draw>>)
      requires |draws| == |ModuleKeys|
      requires forall i :: 0 <= i < |draws| ==> |draws[i]| >= WindowSize
      ensures Valid()
      ensures xp == InitialXp && activeModule == None
      ensures |seriesMap| == |ModuleKeys|
      ensures forall i :: 0 <= i < |seriesMap| ==> seriesMap[i].key == ModuleKeys[i]
      ensures forall i, k :: 0 <= i < |seriesMap| && 0 <= k < WindowSize ==> seriesMap[i].series[k].x == k
      ensures forall i :: 0 <= i < |seriesMap| ==>
        seriesMap[i].series[0].y == NextVal(Seeds[ModuleKeys[i]], draws[i][0])
      ensures forall i, k :: 0 <= i < |seriesMap| && 0 < k < WindowSize ==>
        seriesMap[i].series[k].y == NextVal(seriesMap[i].series[k - 1].y, draws[i][k])
    {
      xp := InitialXp;
      activeModule := None;
      var init: seq<Entry> := [];
      var k := 0;
      while k < |ModuleKeys|
        invariant 0 <= k <= |ModuleKeys|
        invariant |init| == k
        invariant forall i :: 0 <= i < k ==> init[i].key == ModuleKeys[i] && IsWindow(init[i].series)
        invariant forall i :: 0 <= i < k ==>
          init[i].series[0].y == NextVal(Seeds[ModuleKeys[i]], draws[i][0])
        invariant forall i, j :: 0 <= i < k && 0 <= j < WindowSize ==> init[i].series[j].x == j
        invariant forall i, j :: 0 <= i < k && 0 < j < WindowSize ==>
          init[i].series[j].y == NextVal(init[i].series[j - 1].y, draws[i][j])
      {
        var key := ModuleKeys[k];
        var s := MakeInitialSeries(WindowSize, Seeds[key], draws[k]);
        init := init + [Entry(key, s)];
        k := k + 1;
      }
      assert Keys(init) == ModuleKeys;
      seriesMap := init;
    }

    /**
     * One timer tick: every series drops its oldest point and gains a new one;
     * while no module is open, XP grows by 0..3 without passing the goal.
     */
    method Tick(draws: seq<Draw>, xpDraw: real)
      requires Valid()
      requires |draws| == |seriesMap|
      requires 0.0 <= xpDraw < 1.0
      modifies this
      ensures Valid()
      ensures |seriesMap| == |old(seriesMap)|
      ensures forall i :: 0 <= i < |seriesMap| ==>
        seriesMap[i] == Entry(old(seriesMap)[i].key, Advance(old(seriesMap)[i].series, draws[i]))
      ensures activeModule == old(activeModule)
      ensures xp == if old(activeModule).None? then IdleXp(old(xp), IdleGain(xpDraw)) else old(xp)
    {
      var prev := seriesMap;
      var next: seq<Entry> := [];
      var i := 0;
      while i < |prev|
        invariant 0 <= i <= |prev|
        invariant |next| == i
        invariant forall k :: 0 <= k < i ==>
          next[k] == Entry(prev[k].key, Advance(prev[k].series, draws[k]))
        invariant forall k :: 0 <= k < i ==> IsWindow(next[k].series)
        invariant unchanged(this)
      {
        var prevSeries := prev[i].series;
        AdvanceKeepsWindow(prevSeries, draws[i]);
        next := next + [Entry(prev[i].key, Advance(prevSeries, draws[i]))];
        i := i + 1;
      }
      assert Keys(next) == Keys(prev);
      seriesMap := next;
      if activeModule.None? {
        xp := IdleXp(xp, IdleGain(xpDraw));
      }
    }

    /** A tile click opens its module. */
    method OpenModule(key: string)
      requires Valid()
      modifies this
      ensures Valid()
      ensures activeModule == Some(key)
      ensures xp == old(xp) && seriesMap == old(seriesMap)
    {
      activeModule := Some(key);
    }

    /** Closing the modal without finishing. */
    method CloseModule()
      requires Valid()
      modifies this
      ensures Valid()
      ensures activeModule == None
      ensures xp == old(xp) && seriesMap == old(seriesMap)
    {
      activeModule := None;
    }

    /** `handleModuleComplete`: add the session's award, capped at the goal, and close the module. */
    method ModuleComplete(award: int)
      requires Valid()
      modifies this
      ensures Valid()
      ensures xp == MinInt(XpGoal, old(xp) + award)
      ensures activeModule == None
      ensures seriesMap == old(seriesMap)
    {
      xp := MinInt(XpGoal, xp + award);
      activeModule := None;
    }
  }
}
