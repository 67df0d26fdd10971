/**
 * The radar chart of cluster scores: which keys of the score record become
 * axes, the short label and colour of each axis, and the radii of data
 * points, grid rings and the scale label. Point coordinates (cosine and
 * sine of the spoke angles) are not part of this model.
 */
module SpiderChart {
  import opened Wrappers
  import Arith
  import Seqs

  /** A value of the score record: a JavaScript number, or anything else. */
  datatype Value = Number(n: real) | NotNumber

  /** The score record: its keys in `Object.keys` order and the value under each. */
  datatype Record = Record(keys: seq<string>, values: map<string, Value>)
  {
    /** Object keys are unique and are exactly the keys with a value. */
    ghost predicate Valid()
    {
      Distinct(keys) && forall k :: k in values <==> k in keys
    }
  }

  predicate Distinct(s: seq<string>)
  {
    forall i, j :: 0 <= i < j < |s| ==> s[i] != s[j]
  }

  /** `labelMap`: the seven cluster names and their short labels. */
  const LabelMap: seq<(string, string)> := [
    ("Core Idea", "CI & I"),
    ("Market Opportunity", "M & CO"),
    ("Execution", "E & O"),
    ("Business Model", "BM & S"),
    ("Team", "T & OH"),
    ("Compliance", "EE & C"),
    ("Risk & Strategy", "R & FO")
  ]

  /** `Object.keys(labelMap)`. */
  const LabelNames: seq<string> := [
    "Core Idea", "Market Opportunity", "Execution", "Business Model", "Team", "Compliance", "Risk & Strategy"
  ]

  /** `clusterColors`: seven palette entries. */
  const ClusterColors: seq<string> := [
    "hsl(var(--chart-1))",
    "hsl(var(--chart-2))",
    "hsl(var(--chart-3))",
    "hsl(var(--chart-4))",
    "hsl(var(--chart-5))",
    "hsl(var(--chart-1) / 0.7)",
    "hsl(var(--chart-2) / 0.7)"
  ]

  const Padding: real := 80.0
  const GridLevels: nat := 4

  /** `labelMap[key]`, when the key is one of the seven names. */
  function LabelOf(key: string): (r: Option<string>)
    ensures r.Some? <==> key in LabelNames
    ensures r.Some? ==> r.value != []
  {
    if key == "Core Idea" then Some("CI & I")
    else if key == "Market Opportunity" then Some("M & CO")
    else if key == "Execution" then Some("E & O")
    else if key == "Business Model" then Some("BM & S")
    else if key == "Team" then Some("T & OH")
    else if key == "Compliance" then Some("EE & C")
    else if key == "Risk & Strategy" then Some("R & FO")
    else None
  }

  /** The two tables agree: `LabelOf` reads `LabelMap`. */
  lemma LabelOfReadsLabelMap(k: nat)
    requires k < |LabelMap|
    ensures LabelNames[k] == LabelMap[k].0
    ensures LabelOf(LabelMap[k].0) == Some(LabelMap[k].1)
  {
  }

  /** A key is kept when its value is a number and it is a label name. */
  predicate Kept(data: Record, key: string)
  {
    key in data.values && data.values[key].Number? && key in LabelNames
  }

  /** `validDataKeys`: the kept keys, in record order. */
  function ValidDataKeys(data: Record): (r: seq<string>)
    ensures |r| <= |data.keys|
    ensures forall i :: 0 <= i < |r| ==> r[i] in data.keys && Kept(data, r[i])
    ensures forall j :: 0 <= j < |data.keys| && Kept(data, data.keys[j]) ==> data.keys[j] in r
    ensures r == Seqs.Filter(data.keys, k => Kept(data, k))
  {
    KeptKeysInOrder(data, data.keys);
    KeptKeys(data, data.keys)
  }

  /** The kept keys among `keys`, in order. */
  function KeptKeys(data: Record, keys: seq<string>): (r: seq<string>)
    ensures |r| <= |keys|
    ensures forall i :: 0 <= i < |r| ==> r[i] in keys && Kept(data, r[i])
    ensures forall j :: 0 <= j < |keys| && Kept(data, keys[j]) ==> keys[j] in r
  {
    if |keys| == 0 then []
    else
      var rest := KeptKeys(data, keys[1..]);
      assert forall j :: 1 <= j < |keys| ==> keys[j] == keys[1..][j - 1];
      if Kept(data, keys[0]) then [keys[0]] + rest else rest
  }

  /** The kept keys are exactly `keys.filter(kept)`: same keys, same relative order. */
  lemma {:induction false} KeptKeysInOrder(data: Record, keys: seq<string>)
    ensures KeptKeys(data, keys) == Seqs.Filter(keys, k => Kept(data, k))
  {
    if |keys| > 0 {
      KeptKeysInOrder(data, keys[1..]);
      assert KeptKeys(data, keys) == (if Kept(data, keys[0]) then [keys[0]] else []) + KeptKeys(data, keys[1..]);
      assert keys == [keys[0]] + keys[1..];
      Seqs.FilterCons(keys[0], keys[1..], k => Kept(data, k));
    }
  }

  /** Record keys are unique, so the kept keys are too. */
  lemma {:induction false} KeptKeysDistinct(data: Record, keys: seq<string>)
    requires Distinct(keys)
    ensures Distinct(KeptKeys(data, keys))
  {
    if |keys| > 0 {
      var rest := KeptKeys(data, keys[1..]);
      DistinctTail(keys);
      KeptKeysDistinct(data, keys[1..]);
      if Kept(data, keys[0]) {
        assert keys[0] !in rest;
        DistinctCons(keys[0], rest);
      }
    }
  }

  /** Dropping the head of a list without repeats leaves one without repeats, and the head is not in it. */
  lemma DistinctTail(s: seq<string>)
    requires Distinct(s) && |s| > 0
    ensures Distinct(s[1..]) && s[0] !in s[1..]
  {
    forall i, j | 0 <= i < j < |s[1..]| ensures s[1..][i] != s[1..][j] {
      assert s[1..][i] == s[i + 1] && s[1..][j] == s[j + 1];
    }
    forall j | 0 <= j < |s[1..]| ensures s[1..][j] != s[0] {
      assert s[1..][j] == s[j + 1];
    }
  }

  /** A new head absent from a list without repeats keeps it without repeats. */
  lemma DistinctCons(x: string, t: seq<string>)
    requires Distinct(t) && x !in t
    ensures Distinct([x] + t)
  {
    var r := [x] + t;
    forall i, j | 0 <= i < j < |r| ensures r[i] != r[j] {
      assert r[j] == t[j - 1];
      if i > 0 {
        assert r[i] == t[i - 1];
      }
    }
  }

  /** A sequence without repeats has as many elements as its set. */
  lemma {:induction false} DistinctCard(s: seq<string>)
    requires Distinct(s)
    ensures |set x | x in s| == |s|
  {
    if |s| > 0 {
      var t := s[..|s| - 1];
      assert Distinct(t);
      DistinctCard(t);
      assert (set x | x in s) == (set x | x in t) + {s[|s| - 1]};
      assert s[|s| - 1] !in t by {
        forall i | 0 <= i < |t| ensures t[i] != s[|s| - 1] {
          assert t[i] == s[i];
        }
      }
    }
  }

  /** The seven label names are pairwise distinct. */
  lemma LabelNamesDistinct()
    ensures Distinct(LabelNames)
  {
    forall i, j | 0 <= i < j < |LabelNames| ensures LabelNames[i] != LabelNames[j] {
      assert |LabelNames[i]| != |LabelNames[j]| || LabelNames[i][0] != LabelNames[j][0];
    }
  }

  /** There are at most seven axes, one per label name. */
  lemma AtMostSevenAxes(data: Record)
    requires data.Valid()
    ensures |ValidDataKeys(data)| <= 7
  {
    var r := ValidDataKeys(data);
    KeptKeysDistinct(data, data.keys);
    DistinctCard(r);
    LabelNamesDistinct();
    DistinctCard(LabelNames);
    SubsetCard(set x | x in r, set x | x in LabelNames);
  }

  lemma {:induction false} SubsetCard(a: set<string>, b: set<string>)
    requires a <= b
    ensures |a| <= |b|
    decreases |a|
  {
    if a != {} {
      var x :| x in a;
      SubsetCard(a - {x}, b - {x});
    }
  }

  /** One spoke: its key, short label, value, data-point radius, palette index and the rounded value printed beside it. */
  datatype Axis = Axis(key: string, shortLabel: string, value: real, pointRadius: real, colorIndex: nat, percent: int)

  /** A printed scale value and the radius on the spoke where it sits. */
  datatype ScaleLabel = ScaleLabel(spoke: nat, level: nat, value: real, radius: real)

  datatype Chart = Chart(radius: real, rings: seq<real>, axes: seq<Axis>, scaleLabels: seq<ScaleLabel>)

  /** The chart radius: half of the size less the padding on both sides. */
  function ChartRadius(size: real): real
  {
    (size - 2.0 * Padding) / 2.0
  }

  /** `getPoint`'s distance from the centre for a value. */
  function PointRadius(value: real, maxScore: real, radius: real): real
    requires maxScore != 0.0
  {
    (value / maxScore) * radius
  }

  /** The grid rings, at 1/4, 2/4, 3/4 and 4/4 of the radius. */
  function Rings(radius: real): (r: seq<real>)
    ensures |r| == GridLevels
    ensures forall k :: 0 <= k < |r| ==> r[k] == radius * ((k + 1) as real / GridLevels as real)
  {
    seq(GridLevels, k requires 0 <= k < GridLevels => radius * ((k + 1) as real / GridLevels as real))
  }

  /** The scale label of grid level `level` on spoke `i`, drawn only on the first spoke at the outermost level. */
  function ScaleLabelAt(i: nat, level: nat, maxScore: real, radius: real): Option<ScaleLabel>
    requires maxScore != 0.0
  {
    if i != 0 || level < GridLevels - 1 then None
    else
      var value := (maxScore / GridLevels as real) * ((level + 1) as real);
      Some(ScaleLabel(i, level, value, PointRadius(value, maxScore, radius)))
  }

  /** The scale labels of spoke `i` over levels `level`, `level + 1`, ... */
  function LevelLabels(i: nat, level: nat, maxScore: real, radius: real): seq<ScaleLabel>
    requires maxScore != 0.0
    decreases GridLevels - level
  {
    if level >= GridLevels then []
    else
      var l := ScaleLabelAt(i, level, maxScore, radius);
      (if l.Some? then [l.value] else []) + LevelLabels(i, level + 1, maxScore, radius)
  }

  /** The scale labels of spokes `i` to `n - 1`. */
  function SpokeLabels(i: nat, n: nat, maxScore: real, radius: real): seq<ScaleLabel>
    requires maxScore != 0.0
    decreases n - i
  {
    if i >= n then [] else LevelLabels(i, 0, maxScore, radius) + SpokeLabels(i + 1, n, maxScore, radius)
  }

  /** Only the first spoke carries labels. */
  lemma {:induction false} LaterSpokesUnlabelled(i: nat, n: nat, maxScore: real, radius: real)
    requires maxScore != 0.0 && i >= 1
    ensures SpokeLabels(i, n, maxScore, radius) == []
    decreases n - i
  {
    if i < n {
      assert LevelLabels(i, 3, maxScore, radius) == [];
      assert LevelLabels(i, 2, maxScore, radius) == [];
      assert LevelLabels(i, 1, maxScore, radius) == [];
      assert LevelLabels(i, 0, maxScore, radius) == [];
      LaterSpokesUnlabelled(i + 1, n, maxScore, radius);
    }
  }

  /** Exactly one scale label is drawn: on the first spoke, at the outermost level, reading maxScore on the outer ring. */
  lemma {:induction false} OneScaleLabel(n: nat, maxScore: real, radius: real)
    requires maxScore != 0.0 && n >= 1
    ensures SpokeLabels(0, n, maxScore, radius) == [ScaleLabel(0, GridLevels - 1, maxScore, Rings(radius)[GridLevels - 1])]
  {
    LaterSpokesUnlabelled(1, n, maxScore, radius);
    assert LevelLabels(0, 4, maxScore, radius) == [];
    assert (maxScore / 4.0) * 4.0 == maxScore;
    assert PointRadius(maxScore, maxScore, radius) == radius by {
      assert maxScore / maxScore == 1.0;
    }
    assert LevelLabels(0, 3, maxScore, radius) == [ScaleLabel(0, 3, maxScore, radius)];
    assert LevelLabels(0, 2, maxScore, radius) == LevelLabels(0, 3, maxScore, radius);
    assert LevelLabels(0, 1, maxScore, radius) == LevelLabels(0, 2, maxScore, radius);
    assert LevelLabels(0, 0, maxScore, radius) == LevelLabels(0, 1, maxScore, radius);
  }

  /** The short label shown under an axis: its `labelMap` entry, or the key itself when that is missing or empty. */
  function ShortLabel(key: string): string
  {
    var l := LabelOf(key);
    if l.Some? && l.value != [] then l.value else key
  }

  /** The axis of the kept key at position `i`. */
  function AxisAt(data: Record, key: string, i: nat, maxScore: real, radius: real): (a: Axis)
    requires Kept(data, key) && maxScore != 0.0
    ensures a.key == key && a.colorIndex < |ClusterColors|
    ensures i < |ClusterColors| ==> a.colorIndex == i
    ensures data.values[key] == Number(a.value) && a.pointRadius == PointRadius(a.value, maxScore, radius)
    ensures a.percent == Arith.RoundHalfUp(a.value)
  {
    var v := data.values[key].n;
    Axis(key, ShortLabel(key), v, PointRadius(v, maxScore, radius), i % |ClusterColors|, Arith.RoundHalfUp(v))
  }

  /**
   * `SpiderChart`: nothing when no key is kept; otherwise one axis per kept
   * key, four grid rings and the scale labels. A positive `maxScore` is
   * assumed (the default is 100).
   */
  function Render(data: Record, maxScore: real, size: real): (c: Option<Chart>)
    requires maxScore > 0.0
    ensures c.None? <==> ValidDataKeys(data) == []
    ensures c.Some? ==> |c.value.axes| == |ValidDataKeys(data)| && |c.value.rings| == GridLevels
  {
    var keys := ValidDataKeys(data);
    if |keys| == 0 then None
    else
      var radius := ChartRadius(size);
      var axes := seq(|keys|, i requires 0 <= i < |keys| => AxisAt(data, keys[i], i, maxScore, radius));
      Some(Chart(radius, Rings(radius), axes, SpokeLabels(0, |keys|, maxScore, radius)))
  }

  /** The k-th axis of a rendered chart is `AxisAt` of the k-th kept key. */
  lemma AxisOfRender(data: Record, maxScore: real, size: real, k: nat)
    requires maxScore > 0.0
    requires Render(data, maxScore, size).Some?
    requires k < |Render(data, maxScore, size).value.axes|
    ensures k < |ValidDataKeys(data)| && Kept(data, ValidDataKeys(data)[k])
    ensures Render(data, maxScore, size).value.axes[k]
            == AxisAt(data, ValidDataKeys(data)[k], k, maxScore, ChartRadius(size))
  {
  }

  /** Every axis uses its `labelMap` entry as short label: the fallback to the full key is never taken. */
  lemma ShortLabelsFromMap(data: Record, maxScore: real, size: real, k: nat)
    requires maxScore > 0.0
    requires Render(data, maxScore, size).Some?
    requires k < |Render(data, maxScore, size).value.axes|
    ensures var a := Render(data, maxScore, size).value.axes[k];
            LabelOf(a.key) == Some(a.shortLabel) && a.shortLabel != a.key
  {
    AxisOfRender(data, maxScore, size, k);
  }

  /** Colour indices stay within the seven-entry palette. */
  lemma ColorIndexInPalette(data: Record, maxScore: real, size: real, k: nat)
    requires maxScore > 0.0
    requires Render(data, maxScore, size).Some?
    requires k < |Render(data, maxScore, size).value.axes|
    ensures Render(data, maxScore, size).value.axes[k].colorIndex < |ClusterColors|
    ensures k < |ClusterColors| ==> Render(data, maxScore, size).value.axes[k].colorIndex == k
  {
    AxisOfRender(data, maxScore, size, k);
  }

  /** The axes are the kept keys in order, each at its value's distance from the centre. */
  lemma AxesFollowKeys(data: Record, maxScore: real, size: real, k: nat)
    requires maxScore > 0.0
    requires Render(data, maxScore, size).Some?
    requires k < |Render(data, maxScore, size).value.axes|
    ensures var a := Render(data, maxScore, size).value.axes[k];
            a.key == ValidDataKeys(data)[k] && data.values[a.key] == Number(a.value)
            && a.pointRadius == (a.value / maxScore) * ChartRadius(size)
            && a.percent == Arith.RoundHalfUp(a.value)
  {
    AxisOfRender(data, maxScore, size, k);
    var a := Render(data, maxScore, size).value.axes[k];
    var radius := ChartRadius(size);
    assert a == AxisAt(data, ValidDataKeys(data)[k], k, maxScore, radius);
    assert a.pointRadius == PointRadius(a.value, maxScore, radius);
  }

  /** A value equal to maxScore lands on the outer ring, and half of it on the second ring. */
  lemma MaxScoreOnOuterRing(maxScore: real, size: real)
    requires maxScore > 0.0
    ensures PointRadius(maxScore, maxScore, ChartRadius(size)) == Rings(ChartRadius(size))[GridLevels - 1]
    ensures PointRadius(maxScore / 2.0, maxScore, ChartRadius(size)) == Rings(ChartRadius(size))[1]
  {
  }

  /** An empty record, or one with only unknown keys or non-numbers, renders nothing. */
  lemma NothingKeptRendersNothing(data: Record, maxScore: real, size: real)
    requires maxScore > 0.0
    requires forall k :: k in data.keys ==> !Kept(data, k)
    ensures Render(data, maxScore, size).None?
  {
    NoneKeptNoKeys(data, data.keys);
  }

  lemma {:induction false} NoneKeptNoKeys(data: Record, keys: seq<string>)
    requires forall k :: k in keys ==> !Kept(data, k)
    ensures KeptKeys(data, keys) == []
  {
    if |keys| > 0 {
      assert keys[0] in keys;
      assert forall k :: k in keys[1..] ==> k in keys;
      NoneKeptNoKeys(data, keys[1..]);
    }
  }
}
