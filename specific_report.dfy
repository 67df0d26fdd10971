/**
 * The report page of one idea: the top and bottom performers drawn from the
 * viability assessment, the parameter averages and their badges, the
 * sub-parameter element ids, the accordion and highlight state, the back
 * link, the score colours and the comment and vote handlers.
 */
module SpecificReport {
  import opened Wrappers
  import opened Text
  import opened Seqs
  import Arith
  import Constants
  import ScoreDisplay
  import SpiderChart

  // ---------------------------------------------------------------------
  // The viability assessment: clusters of parameters of sub-parameters
  // ---------------------------------------------------------------------

  /**
   * A sub-parameter value: an object carrying an `assignedScore` (with its two
   * feedback texts, empty when absent), any other non-null value, or `null`.
   */
  datatype SubParam = Finding(assignedScore: int, whatWentWell: string, whatCanBeImproved: string) | Other | Null

  datatype SubParamEntry = SubParamEntry(name: string, value: SubParam)
  datatype ParamEntry = ParamEntry(name: string, subParams: seq<SubParamEntry>)
  datatype ClusterEntry = ClusterEntry(name: string, params: seq<ParamEntry>)

  /** An entry of the top or bottom performer list. */
  datatype Performer = Performer(clusterName: string, paramName: string, name: string, score: int)

  function Score(p: Performer): int
  {
    p.score
  }

  predicate IsTop(p: Performer)
  {
    p.score >= 85
  }

  predicate IsBottom(p: Performer)
  {
    p.score < 70
  }

  /** The performer an entry contributes: one for a finding, none otherwise. */
  function FindingOf(clusterName: string, paramName: string, e: SubParamEntry): seq<Performer>
  {
    if e.value.Finding? then [Performer(clusterName, paramName, e.name, e.value.assignedScore)] else []
  }

  /** The findings of one parameter, in entry order. */
  function SubFindings(clusterName: string, paramName: string, subs: seq<SubParamEntry>): seq<Performer>
  {
    if subs == [] then []
    else SubFindings(clusterName, paramName, subs[..|subs| - 1]) + FindingOf(clusterName, paramName, subs[|subs| - 1])
  }

  /** The findings of one cluster, parameter by parameter. */
  function ParamFindings(clusterName: string, params: seq<ParamEntry>): seq<Performer>
  {
    if params == [] then []
    else
      var last := params[|params| - 1];
      ParamFindings(clusterName, params[..|params| - 1]) + SubFindings(clusterName, last.name, last.subParams)
  }

  /** Every finding of the document, in cluster, parameter, sub-parameter order. */
  function DocFindings(clusters: seq<ClusterEntry>): seq<Performer>
  {
    if clusters == [] then []
    else
      var last := clusters[|clusters| - 1];
      DocFindings(clusters[..|clusters| - 1]) + ParamFindings(last.name, last.params)
  }

  /** Some entry of `subs` is `null`. */
  predicate HasNull(subs: seq<SubParamEntry>)
  {
    subs != [] && (HasNull(subs[..|subs| - 1]) || subs[|subs| - 1].value.Null?)
  }

  /** Some parameter among `params` has a `null` entry. */
  predicate ParamsHaveNull(params: seq<ParamEntry>)
  {
    params != [] && (ParamsHaveNull(params[..|params| - 1]) || HasNull(params[|params| - 1].subParams))
  }

  /** Some sub-parameter of the document is `null`: reading its `assignedScore` throws. */
  predicate DocHasNull(clusters: seq<ClusterEntry>)
  {
    clusters != [] && (DocHasNull(clusters[..|clusters| - 1]) || ParamsHaveNull(clusters[|clusters| - 1].params))
  }

  lemma {:induction false} HasNullAt(subs: seq<SubParamEntry>, k: nat)
    requires k < |subs| && subs[k].value.Null?
    ensures HasNull(subs)
  {
    if k < |subs| - 1 {
      HasNullAt(subs[..|subs| - 1], k);
    }
  }

  lemma {:induction false} ParamsHaveNullAt(params: seq<ParamEntry>, j: nat)
    requires j < |params| && HasNull(params[j].subParams)
    ensures ParamsHaveNull(params)
  {
    if j < |params| - 1 {
      ParamsHaveNullAt(params[..|params| - 1], j);
    }
  }

  lemma {:induction false} DocHasNullAt(clusters: seq<ClusterEntry>, i: nat)
    requires i < |clusters| && ParamsHaveNull(clusters[i].params)
    ensures DocHasNull(clusters)
  {
    if i < |clusters| - 1 {
      DocHasNullAt(clusters[..|clusters| - 1], i);
    }
  }

  /** The sub-parameter entry `e` is the finding `p` names. */
  predicate NamesFinding(e: SubParamEntry, p: Performer)
  {
    e.name == p.name && e.value.Finding? && e.value.assignedScore == p.score
  }

  predicate InParam(pe: ParamEntry, p: Performer)
  {
    pe.name == p.paramName && exists k :: 0 <= k < |pe.subParams| && NamesFinding(pe.subParams[k], p)
  }

  predicate InCluster(ce: ClusterEntry, p: Performer)
  {
    ce.name == p.clusterName && exists j :: 0 <= j < |ce.params| && InParam(ce.params[j], p)
  }

  /** The document holds, under `p`'s cluster and parameter, a sub-parameter named `p.name` scored `p.score`. */
  predicate InDocument(clusters: seq<ClusterEntry>, p: Performer)
  {
    exists i :: 0 <= i < |clusters| && InCluster(clusters[i], p)
  }

  const LoadError: string := "Failed to fetch report data"

  datatype Performers = Performers(top: seq<Performer>, bottom: seq<Performer>)

  /** Scores of 85 or more, highest first, the first five. */
  function TopPerformers(clusters: seq<ClusterEntry>): seq<Performer>
  {
    Take(SortBy(Filter(DocFindings(clusters), IsTop), Score, Descending), 5)
  }

  /** Scores below 70, lowest first, the first five. */
  function BottomPerformers(clusters: seq<ClusterEntry>): seq<Performer>
  {
    Take(SortBy(Filter(DocFindings(clusters), IsBottom), Score, Ascending), 5)
  }

  /** The outcome of the performer pass: both lists, or the load error when a `null` entry throws. */
  function PerformersOf(clusters: seq<ClusterEntry>): Result<Performers, string>
  {
    if DocHasNull(clusters) then Failure(LoadError)
    else Success(Performers(TopPerformers(clusters), BottomPerformers(clusters)))
  }

  /**
   * One parameter's pass over its sub-parameters: the findings it pushes onto
   * `top` and `bottom`, or failure at a `null` entry, whose `assignedScore`
   * read throws. The passes below return what they push, and the caller
   * appends it, which leaves the shared arrays as the single traversal does.
   */
  method ScanParam(clusterName: string, param: ParamEntry)
    returns (ok: bool, top: seq<Performer>, bottom: seq<Performer>)
    ensures ok <==> !HasNull(param.subParams)
    ensures ok ==> top == Filter(SubFindings(clusterName, param.name, param.subParams), IsTop)
    ensures ok ==> bottom == Filter(SubFindings(clusterName, param.name, param.subParams), IsBottom)
  {
    top, bottom := [], [];
    var subs := param.subParams;
    var k := 0;
    while k < |subs|
      invariant 0 <= k <= |subs|
      invariant top == Filter(SubFindings(clusterName, param.name, subs[..k]), IsTop)
      invariant bottom == Filter(SubFindings(clusterName, param.name, subs[..k]), IsBottom)
      invariant !HasNull(subs[..k])
    {
      var entry := subs[k];
      ghost var before := SubFindings(clusterName, param.name, subs[..k]);
      assert subs[..k + 1][..k] == subs[..k];
      assert SubFindings(clusterName, param.name, subs[..k + 1]) == before + FindingOf(clusterName, param.name, entry);
      if entry.value.Null? {
        HasNullAt(subs, k);
        return false, top, bottom;
      }
      if entry.value.Finding? {
        var p := Performer(clusterName, param.name, entry.name, entry.value.assignedScore);
        FilterSnoc(before, p, IsTop);
        FilterSnoc(before, p, IsBottom);
        if p.score >= 85 {
          top := top + [p];
        } else if p.score < 70 {
          bottom := bottom + [p];
        }
      } else {
        assert before + FindingOf(clusterName, param.name, entry) == before;
      }
      k := k + 1;
    }
    assert subs[..k] == subs;
    ok := true;
  }

  /** One cluster's pass over its parameters. */
  method ScanCluster(cluster: ClusterEntry) returns (ok: bool, top: seq<Performer>, bottom: seq<Performer>)
    ensures ok <==> !ParamsHaveNull(cluster.params)
    ensures ok ==> top == Filter(ParamFindings(cluster.name, cluster.params), IsTop)
    ensures ok ==> bottom == Filter(ParamFindings(cluster.name, cluster.params), IsBottom)
  {
    top, bottom := [], [];
    var params := cluster.params;
    var j := 0;
    while j < |params|
      invariant 0 <= j <= |params|
      invariant top == Filter(ParamFindings(cluster.name, params[..j]), IsTop)
      invariant bottom == Filter(ParamFindings(cluster.name, params[..j]), IsBottom)
      invariant !ParamsHaveNull(params[..j])
    {
      ghost var before := ParamFindings(cluster.name, params[..j]);
      ghost var here := SubFindings(cluster.name, params[j].name, params[j].subParams);
      assert params[..j + 1][..j] == params[..j];
      assert ParamFindings(cluster.name, params[..j + 1]) == before + here;
      var t, b;
      ok, t, b := ScanParam(cluster.name, params[j]);
      if !ok {
        ParamsHaveNullAt(params, j);
        return;
      }
      FilterAppend(before, here, IsTop);
      FilterAppend(before, here, IsBottom);
      top, bottom := top + t, bottom + b;
      j := j + 1;
    }
    assert params[..j] == params;
    ok := true;
  }

  /**
   * The performer pass of the page's fetch effect: walks clusters, parameters
   * and sub-parameters, pushes each finding onto `top` or `bottom`, then sorts
   * both lists and keeps the first five of each.
   */
  method ExtractPerformers(clusters: seq<ClusterEntry>) returns (r: Result<Performers, string>)
    ensures r == PerformersOf(clusters)
  {
    var top: seq<Performer> := [];
    var bottom: seq<Performer> := [];
    var i := 0;
    while i < |clusters|
      invariant 0 <= i <= |clusters|
      invariant top == Filter(DocFindings(clusters[..i]), IsTop)
      invariant bottom == Filter(DocFindings(clusters[..i]), IsBottom)
      invariant !DocHasNull(clusters[..i])
    {
      ghost var before := DocFindings(clusters[..i]);
      ghost var here := ParamFindings(clusters[i].name, clusters[i].params);
      assert clusters[..i + 1][..i] == clusters[..i];
      assert DocFindings(clusters[..i + 1]) == before + here;
      var ok, t, b := ScanCluster(clusters[i]);
      if !ok {
        DocHasNullAt(clusters, i);
        return Failure(LoadError);
      }
      FilterAppend(before, here, IsTop);
      FilterAppend(before, here, IsBottom);
      top, bottom := top + t, bottom + b;
      i := i + 1;
    }
    assert clusters[..i] == clusters;
    top := SortBy(top, Score, Descending);
    bottom := SortBy(bottom, Score, Ascending);
    r := Success(Performers(Take(top, 5), Take(bottom, 5)));
  }

  // ---------------------------------------------------------------------
  // What the performer lists promise
  // ---------------------------------------------------------------------

  /** A `null` entry anywhere in the document, and only that, makes the pass throw. */
  lemma {:induction false} DocHasNullIff(clusters: seq<ClusterEntry>)
    ensures DocHasNull(clusters) <==>
            exists i, j, k :: 0 <= i < |clusters| && 0 <= j < |clusters[i].params|
                              && 0 <= k < |clusters[i].params[j].subParams|
                              && clusters[i].params[j].subParams[k].value.Null?
  {
    if exists i, j, k :: 0 <= i < |clusters| && 0 <= j < |clusters[i].params|
                         && 0 <= k < |clusters[i].params[j].subParams|
                         && clusters[i].params[j].subParams[k].value.Null? {
      var i, j, k :| 0 <= i < |clusters| && 0 <= j < |clusters[i].params|
                     && 0 <= k < |clusters[i].params[j].subParams|
                     && clusters[i].params[j].subParams[k].value.Null?;
      HasNullAt(clusters[i].params[j].subParams, k);
      ParamsHaveNullAt(clusters[i].params, j);
      DocHasNullAt(clusters, i);
    }
    if DocHasNull(clusters) {
      var i, j, k := NullWitness(clusters);
    }
  }

  /** Where the `null` entry of a document that has one sits. */
  lemma {:induction false} NullWitness(clusters: seq<ClusterEntry>) returns (i: nat, j: nat, k: nat)
    requires DocHasNull(clusters)
    ensures i < |clusters| && j < |clusters[i].params| && k < |clusters[i].params[j].subParams|
    ensures clusters[i].params[j].subParams[k].value.Null?
  {
    var n := |clusters| - 1;
    if DocHasNull(clusters[..n]) {
      i, j, k := NullWitness(clusters[..n]);
    } else {
      i := n;
      j := NullParam(clusters[n].params);
      k := NullEntry(clusters[n].params[j].subParams);
    }
  }

  lemma {:induction false} NullParam(params: seq<ParamEntry>) returns (j: nat)
    requires ParamsHaveNull(params)
    ensures j < |params| && HasNull(params[j].subParams)
  {
    var n := |params| - 1;
    if ParamsHaveNull(params[..n]) {
      j := NullParam(params[..n]);
    } else {
      j := n;
    }
  }

  lemma {:induction false} NullEntry(subs: seq<SubParamEntry>) returns (k: nat)
    requires HasNull(subs)
    ensures k < |subs| && subs[k].value.Null?
  {
    var n := |subs| - 1;
    if HasNull(subs[..n]) {
      k := NullEntry(subs[..n]);
    } else {
      k := n;
    }
  }

  /** The findings of a parameter are exactly its scored entries. */
  lemma {:induction false} SubFindingsMembers(clusterName: string, paramName: string, subs: seq<SubParamEntry>, p: Performer)
    ensures p in SubFindings(clusterName, paramName, subs)
            <==> p.clusterName == clusterName && InParam(ParamEntry(paramName, subs), p)
  {
    if subs != [] {
      var n := |subs| - 1;
      SubFindingsMembers(clusterName, paramName, subs[..n], p);
      if p.clusterName == clusterName && InParam(ParamEntry(paramName, subs), p) {
        var k :| 0 <= k < |subs| && NamesFinding(subs[k], p);
        if k < n {
          assert subs[..n][k] == subs[k];
        }
      }
      if InParam(ParamEntry(paramName, subs[..n]), p) {
        var k :| 0 <= k < n && NamesFinding(subs[..n][k], p);
        assert subs[k] == subs[..n][k];
      }
    }
  }

  /** The findings of a cluster are exactly the scored entries of its parameters. */
  lemma {:induction false} ParamFindingsMembers(clusterName: string, params: seq<ParamEntry>, p: Performer)
    ensures p in ParamFindings(clusterName, params) <==> InCluster(ClusterEntry(clusterName, params), p)
  {
    if params != [] {
      var n := |params| - 1;
      ParamFindingsMembers(clusterName, params[..n], p);
      SubFindingsMembers(clusterName, params[n].name, params[n].subParams, p);
      assert params[n] == ParamEntry(params[n].name, params[n].subParams);
      if InCluster(ClusterEntry(clusterName, params), p) {
        var j :| 0 <= j < |params| && InParam(params[j], p);
        if j < n {
          assert params[..n][j] == params[j];
        }
      }
      if InCluster(ClusterEntry(clusterName, params[..n]), p) {
        var j :| 0 <= j < n && InParam(params[..n][j], p);
        assert params[j] == params[..n][j];
      }
    }
  }

  /** The document's findings are exactly its scored sub-parameters: none is invented and none is missed. */
  lemma {:induction false} DocFindingsMembers(clusters: seq<ClusterEntry>, p: Performer)
    ensures p in DocFindings(clusters) <==> InDocument(clusters, p)
  {
    if clusters != [] {
      var n := |clusters| - 1;
      DocFindingsMembers(clusters[..n], p);
      ParamFindingsMembers(clusters[n].name, clusters[n].params, p);
      assert clusters[n] == ClusterEntry(clusters[n].name, clusters[n].params);
      if InDocument(clusters, p) {
        var i :| 0 <= i < |clusters| && InCluster(clusters[i], p);
        if i < n {
          assert clusters[..n][i] == clusters[i];
        }
      }
      if InDocument(clusters[..n], p) {
        var i :| 0 <= i < n && InCluster(clusters[..n][i], p);
        assert clusters[i] == clusters[..n][i];
      }
    }
  }

  /** An element of a sorted, truncated candidate list is a candidate. */
  lemma TakenFromCandidates(cands: seq<Performer>, dir: Direction, p: Performer)
    requires p in Take(SortBy(cands, Score, dir), 5)
    ensures p in cands
  {
    var sorted := SortBy(cands, Score, dir);
    assert p in sorted;
    assert p in multiset(sorted);
  }

  /**
   * The partition: the top list holds only findings scored 85 or more, the
   * bottom list only findings scored below 70, so scores 70 to 84 appear in
   * neither and no entry is in both; every entry names a scored sub-parameter
   * of the document; each list has at most five entries.
   */
  lemma PerformersPartition(clusters: seq<ClusterEntry>)
    ensures |TopPerformers(clusters)| <= 5 && |BottomPerformers(clusters)| <= 5
    ensures forall p :: p in TopPerformers(clusters) ==> p.score >= 85 && InDocument(clusters, p)
    ensures forall p :: p in BottomPerformers(clusters) ==> p.score < 70 && InDocument(clusters, p)
    ensures forall p :: p in TopPerformers(clusters) ==> p !in BottomPerformers(clusters)
  {
    var found := DocFindings(clusters);
    forall p | p in TopPerformers(clusters) ensures p.score >= 85 && InDocument(clusters, p) {
      TakenFromCandidates(Filter(found, IsTop), Descending, p);
      DocFindingsMembers(clusters, p);
    }
    forall p | p in BottomPerformers(clusters) ensures p.score < 70 && InDocument(clusters, p) {
      TakenFromCandidates(Filter(found, IsBottom), Ascending, p);
      DocFindingsMembers(clusters, p);
    }
  }

  /** The top list never rises and the bottom list never falls along its length. */
  lemma PerformersOrdered(clusters: seq<ClusterEntry>)
    ensures SortedBy(TopPerformers(clusters), Score, Descending)
    ensures SortedBy(BottomPerformers(clusters), Score, Ascending)
  {
    SortBySorted(Filter(DocFindings(clusters), IsTop), Score, Descending);
    SortBySorted(Filter(DocFindings(clusters), IsBottom), Score, Ascending);
  }

  /**
   * Stability: the entries of one score keep the document's order, and are
   * the first of that score in it.
   */
  lemma PerformersStable(clusters: seq<ClusterEntry>, v: int)
    ensures SameKey(TopPerformers(clusters), Score, v) <= SameKey(Filter(DocFindings(clusters), IsTop), Score, v)
    ensures SameKey(BottomPerformers(clusters), Score, v) <= SameKey(Filter(DocFindings(clusters), IsBottom), Score, v)
  {
    var top := SortBy(Filter(DocFindings(clusters), IsTop), Score, Descending);
    SortByStable(Filter(DocFindings(clusters), IsTop), Score, Descending, v);
    SameKeyPrefix(top, |TopPerformers(clusters)|, Score, v);
    var bottom := SortBy(Filter(DocFindings(clusters), IsBottom), Score, Ascending);
    SortByStable(Filter(DocFindings(clusters), IsBottom), Score, Ascending, v);
    SameKeyPrefix(bottom, |BottomPerformers(clusters)|, Score, v);
  }

  /** A candidate the truncation drops is one of at least five that are listed, each scored at least as well. */
  lemma {:induction false} DroppedTopCandidate(clusters: seq<ClusterEntry>, p: Performer)
    requires InDocument(clusters, p) && p.score >= 85
    requires p !in TopPerformers(clusters)
    ensures |TopPerformers(clusters)| == 5
    ensures forall q :: q in TopPerformers(clusters) ==> q.score >= p.score
  {
    DocFindingsMembers(clusters, p);
    var cands := Filter(DocFindings(clusters), IsTop);
    var sorted := SortBy(cands, Score, Descending);
    assert p in cands;
    assert p in multiset(sorted);
    var m :| 0 <= m < |sorted| && sorted[m] == p;
    SortBySorted(cands, Score, Descending);
    assert m >= 5;
  }

  /** A dropped bottom candidate is one of at least five listed, each scored at most as well. */
  lemma {:induction false} DroppedBottomCandidate(clusters: seq<ClusterEntry>, p: Performer)
    requires InDocument(clusters, p) && p.score < 70
    requires p !in BottomPerformers(clusters)
    ensures |BottomPerformers(clusters)| == 5
    ensures forall q :: q in BottomPerformers(clusters) ==> q.score <= p.score
  {
    DocFindingsMembers(clusters, p);
    var cands := Filter(DocFindings(clusters), IsBottom);
    var sorted := SortBy(cands, Score, Ascending);
    assert p in cands;
    assert p in multiset(sorted);
    var m :| 0 <= m < |sorted| && sorted[m] == p;
    SortBySorted(cands, Score, Ascending);
    assert m >= 5;
  }

  // ---------------------------------------------------------------------
  // Parameter averages and their badges
  // ---------------------------------------------------------------------

  /** The `assignedScore` values of a parameter's object entries that have one, in entry order. */
  function ParamScores(subs: seq<SubParamEntry>): seq<int>
  {
    if subs == [] then []
    else
      var last := subs[|subs| - 1].value;
      ParamScores(subs[..|subs| - 1]) + (if last.Finding? then [last.assignedScore] else [])
  }

  function Sum(s: seq<int>): int
  {
    if s == [] then 0 else Sum(s[..|s| - 1]) + s[|s| - 1]
  }

  /** `categoryAverage`: the mean score rounded to two decimals, or 0 when no entry is scored. */
  function ParamAverage(subs: seq<SubParamEntry>): (r: real)
    ensures ParamScores(subs) == [] ==> r == 0.0
    ensures ParamScores(subs) != [] ==>
              var scores := ParamScores(subs);
              var mean := Sum(scores) as real / |scores| as real;
              mean - 0.005 < r <= mean + 0.005
    ensures (r * 100.0).Floor as real == r * 100.0
  {
    var scores := ParamScores(subs);
    if |scores| > 0 then Arith.RoundTo2(Sum(scores) as real / |scores| as real) else 0.0
  }

  /** The badge number, `parseInt(categoryAverage)`: the average with its fraction cut off. */
  function AverageBadge(subs: seq<SubParamEntry>): (b: int)
    ensures ParamScores(subs) == [] ==> b == 0
    ensures ParamAverage(subs) >= 0.0 ==> b as real <= ParamAverage(subs) < b as real + 1.0
    ensures ParamAverage(subs) < 0.0 ==> b as real - 1.0 < ParamAverage(subs) <= b as real
  {
    Arith.Trunc(ParamAverage(subs))
  }

  /** The averaged scores are the scores the performer pass reads, entry for entry. */
  lemma {:induction false} ParamScoresAreFindings(clusterName: string, paramName: string, subs: seq<SubParamEntry>)
    ensures |ParamScores(subs)| == |SubFindings(clusterName, paramName, subs)|
    ensures forall i :: 0 <= i < |ParamScores(subs)| ==>
              ParamScores(subs)[i] == SubFindings(clusterName, paramName, subs)[i].score
  {
    if subs != [] {
      ParamScoresAreFindings(clusterName, paramName, subs[..|subs| - 1]);
    }
  }

  lemma {:induction false} SumBounds(s: seq<int>, lo: int, hi: int)
    requires forall i :: 0 <= i < |s| ==> lo <= s[i] <= hi
    ensures |s| * lo <= Sum(s) <= |s| * hi
  {
    if s != [] {
      SumBounds(s[..|s| - 1], lo, hi);
    }
  }

  /**
   * The average and its badge lie between the lowest and the highest score:
   * rounding to hundredths cannot leave the integer bounds.
   */
  lemma ParamAverageBounds(subs: seq<SubParamEntry>, lo: int, hi: int)
    requires ParamScores(subs) != []
    requires forall i :: 0 <= i < |ParamScores(subs)| ==> lo <= ParamScores(subs)[i] <= hi
    ensures lo as real <= ParamAverage(subs) <= hi as real
    ensures lo <= AverageBadge(subs) <= hi
  {
    var scores := ParamScores(subs);
    MeanBetween(scores, lo, hi);
    Arith.RoundTo2Between(Sum(scores) as real / |scores| as real, lo, hi);
    Arith.TruncBetween(ParamAverage(subs), lo, hi);
  }

  /** The mean of scores between two bounds is between them. */
  lemma MeanBetween(s: seq<int>, lo: int, hi: int)
    requires s != []
    requires forall i :: 0 <= i < |s| ==> lo <= s[i] <= hi
    ensures lo as real <= Sum(s) as real / |s| as real <= hi as real
  {
    SumBounds(s, lo, hi);
    Arith.DivBetween(Sum(s), |s|, lo, hi);
  }

  // ---------------------------------------------------------------------
  // Colours and links
  // ---------------------------------------------------------------------

  /** This page's `getScoreColor`: no score is muted, then 80 and 50 split green, orange and red. */
  function ScoreColor(score: Option<int>): (c: ScoreDisplay.Color)
    ensures c == ScoreDisplay.Muted <==> score.None?
  {
    match score
    case None => ScoreDisplay.Muted
    case Some(s) => if s >= 80 then ScoreDisplay.Green else if s >= 50 then ScoreDisplay.Orange else ScoreDisplay.Red
  }

  /**
   * The page and the score badge agree except on 80 to 84, which the page
   * shows green and the badge orange; a higher score never gets a lower colour.
   */
  lemma ScoreColorAgainstBadge(s: int, t: int)
    requires s <= t
    ensures ScoreColor(Some(s)) == ScoreDisplay.ScoreColor(Some(s)) <==> !(80 <= s < 85)
    ensures 80 <= s < 85 ==> ScoreColor(Some(s)) == ScoreDisplay.Green && ScoreDisplay.ScoreColor(Some(s)) == ScoreDisplay.Orange
    ensures ScoreDisplay.ColorRank(ScoreColor(Some(s))) <= ScoreDisplay.ColorRank(ScoreColor(Some(t)))
  {
  }

  /** `getBackLink`: where a role returns to from a report. */
  function BackLink(role: Option<string>): (r: string)
    ensures role == Some("super_admin") ==> r == "/dashboard/admin/ideas?role=super_admin"
    ensures role == Some("ttc_coordinator") ==> r == "/dashboard/coordinator/feedback?role=ttc_coordinator"
    ensures role != Some("super_admin") && role != Some("ttc_coordinator") ==> r == "/dashboard/ideas?role=innovator"
  {
    match role
    case Some(r) =>
      if r == Constants.RoleName(Constants.SuperAdmin) then "/dashboard/admin/ideas?role=" + r
      else if r == Constants.RoleName(Constants.Coordinator) then "/dashboard/coordinator/feedback?role=" + r
      else "/dashboard/ideas?role=" + Constants.RoleName(Constants.Innovator)
    case None => "/dashboard/ideas?role=" + Constants.RoleName(Constants.Innovator)
  }

  /** The super admin's back link is that role's "Idea Oversight" sidebar entry. */
  lemma SuperAdminBackLinkInSidebar()
    ensures BackLink(Some("super_admin")) == Constants.SuperAdminLinks[4].Href()
    ensures Constants.SuperAdminLinks[4].title == "Idea Oversight"
  {
  }

  /** Every other role, and a missing one, goes back to the innovator's "My Ideas" sidebar entry. */
  lemma DefaultBackLinkInSidebar(role: Option<string>)
    requires role != Some("super_admin") && role != Some("ttc_coordinator")
    ensures BackLink(role) == Constants.InnovatorLinks[2].Href()
    ensures Constants.InnovatorLinks[2].title == "My Ideas"
  {
  }

  /** The coordinator's back link is no entry of the coordinator's sidebar. */
  lemma CoordinatorBackLinkNotInSidebar()
    ensures forall l :: l in Constants.CoordinatorLinks ==> l.Href() != BackLink(Some("ttc_coordinator"))
  {
    CoordinatorFeedbackNotInSidebar();
  }

  /** No coordinator sidebar entry leads to the coordinator's feedback page. */
  lemma CoordinatorFeedbackNotInSidebar()
    ensures forall l :: l in Constants.CoordinatorLinks ==> l.Href() != "/dashboard/coordinator/feedback?role=ttc_coordinator"
  {
    forall l | l in Constants.CoordinatorLinks
      ensures l.Href() != "/dashboard/coordinator/feedback?role=ttc_coordinator"
    {
      // Every entry carries the coordinator role, and none of their paths is as long as the feedback page's.
      assert l.role == Constants.Coordinator && |l.path| != 31;
      assert |l.Href()| == |l.path| + 21;
    }
  }

  // ---------------------------------------------------------------------
  // Element ids and accordion keys
  // ---------------------------------------------------------------------

  predicate IsAsciiAlnum(c: char)
  {
    'a' <= c <= 'z' || 'A' <= c <= 'Z' || '0' <= c <= '9'
  }

  /** `name.replace(/[^a-zA-Z0-9]/g, "-")`. */
  function Sanitize(name: string): (r: string)
    ensures |r| == |name|
    ensures forall i :: 0 <= i < |name| && IsAsciiAlnum(name[i]) ==> r[i] == name[i]
    ensures forall i :: 0 <= i < |name| && !IsAsciiAlnum(name[i]) ==> r[i] == '-'
  {
    if name == [] then []
    else
      var c := name[|name| - 1];
      Sanitize(name[..|name| - 1]) + [if IsAsciiAlnum(c) then c else '-']
  }

  /** The DOM id of a sub-parameter row, which the highlight click scrolls to. */
  function ElementId(subParamName: string): string
  {
    "sub-param-" + Sanitize(subParamName)
  }

  /** Replacing twice changes nothing: every character of a sanitised name is alphanumeric or a dash. */
  lemma SanitizeIdempotent(name: string)
    ensures Sanitize(Sanitize(name)) == Sanitize(name)
    ensures forall i :: 0 <= i < |Sanitize(name)| ==> IsAsciiAlnum(Sanitize(name)[i]) || Sanitize(name)[i] == '-'
  {
  }

  /** Ids keep the prefix and one character per name character, so names of different lengths get different ids. */
  lemma ElementIdShape(a: string, b: string)
    ensures StartsWith(ElementId(a), "sub-param-") && |ElementId(a)| == 10 + |a|
    ensures |a| != |b| ==> ElementId(a) != ElementId(b)
  {
  }

  /** Names that differ only in punctuation or spacing share one id. */
  lemma ElementIdCollision()
    ensures ElementId("Go-to-Market") == ElementId("Go to Market")
  {
  }

  /** The key of a parameter's accordion item, `${clusterName}|${paramName}`. */
  function ParamKey(clusterName: string, paramName: string): (k: string)
    ensures |k| == |clusterName| + 1 + |paramName| && k[|clusterName|] == '|'
  {
    clusterName + "|" + paramName
  }

  /** Without a `|` in a cluster name, the key determines the cluster and the parameter. */
  lemma ParamKeyInjective(c1: string, p1: string, c2: string, p2: string)
    requires '|' !in c1 && '|' !in c2
    requires ParamKey(c1, p1) == ParamKey(c2, p2)
    ensures c1 == c2 && p1 == p2
  {
    var k := ParamKey(c1, p1);
    assert |c1| == |c2| by {
      assert forall i :: 0 <= i < |c2| ==> k[i] == c2[i];
      assert forall i :: 0 <= i < |c1| ==> k[i] == c1[i];
    }
    assert c1 == k[..|c1|] == c2;
    assert p1 == k[|c1| + 1..] == p2;
  }

  /** A `|` inside a name lets two different parameters share a key. */
  lemma ParamKeyCollision()
    ensures ParamKey("Risk|Legal", "Exposure") == ParamKey("Risk", "Legal|Exposure")
  {
  }

  /** The selected sub-parameter: `selectedSubParameter`. */
  datatype Selection = Selection(clusterName: string, paramName: string, subParamName: string)

  /** `isHighlighted` of a row. */
  function IsHighlighted(selected: Option<Selection>, clusterName: string, paramName: string, subParamName: string): (b: bool)
  {
    selected.Some? && selected.value.clusterName == clusterName
    && selected.value.paramName == paramName && selected.value.subParamName == subParamName
  }

  /** A row is highlighted exactly when it is the selected triple, so two highlighted rows share their triple. */
  lemma HighlightedIffSelected(selected: Option<Selection>, c1: string, p1: string, s1: string, c2: string, p2: string, s2: string)
    ensures IsHighlighted(selected, c1, p1, s1) <==> selected == Some(Selection(c1, p1, s1))
    ensures IsHighlighted(selected, c1, p1, s1) && IsHighlighted(selected, c2, p2, s2) ==> c1 == c2 && p1 == p2 && s1 == s2
  {
  }

  /** `prev.includes(x) ? prev : [...prev, x]`. */
  function AddIfAbsent(items: seq<string>, x: string): (r: seq<string>)
    ensures x in r && items <= r
    ensures forall y :: y in r <==> y in items || y == x
    ensures x in items ==> r == items
  {
    if x in items then items else items + [x]
  }

  /** Adding twice is adding once. */
  lemma AddIfAbsentIdempotent(items: seq<string>, x: string)
    ensures AddIfAbsent(AddIfAbsent(items, x), x) == AddIfAbsent(items, x)
    ensures |AddIfAbsent(items, x)| <= |items| + 1
  {
  }

  /** `allClustersExpanded`: a non-empty open list as long as the cluster list, whatever its members. */
  predicate AllExpanded(open: seq<string>, clusterNames: seq<string>)
  {
    |open| > 0 && |open| == |clusterNames|
  }

  /** `handleToggleExpandAll`: collapse everything when all count as expanded, else open every cluster. */
  function ToggleExpandAll(open: seq<string>, clusterNames: seq<string>): (r: seq<string>)
    ensures AllExpanded(open, clusterNames) ==> r == []
    ensures !AllExpanded(open, clusterNames) ==> r == clusterNames
  {
    if AllExpanded(open, clusterNames) then [] else clusterNames
  }

  /**
   * Toggling twice from a partly open list does not restore it: the first
   * toggle opens every cluster and the second collapses them all.
   */
  lemma ToggleTwiceFromPartial(open: seq<string>, clusterNames: seq<string>)
    requires clusterNames != [] && !AllExpanded(open, clusterNames)
    ensures ToggleExpandAll(ToggleExpandAll(open, clusterNames), clusterNames) == []
  {
  }

  /** The length test counts a list as expanded without its members being clusters. */
  lemma ExpandedByLengthOnly()
    ensures AllExpanded(["Other"], ["Team"]) && "Team" !in ["Other"]
    ensures ToggleExpandAll(["Other"], ["Team"]) == []
  {
  }

  // ---------------------------------------------------------------------
  // The highlight click and its timers
  // ---------------------------------------------------------------------

  /** A 3-second clear timer: its id and the selection its click made. */
  datatype ClearTimer = ClearTimer(id: nat, owner: Selection)

  /**
   * The state `handleHighlightClick` and its two timeouts work on: the open
   * cluster and parameter lists, the selection, the scroll callbacks waiting
   * on their 500 ms timeout (with the selection of their click, in firing
   * order), the pending clear timers (in firing order), `highlightTimeoutRef`
   * and the id the next timer gets.
   */
  datatype Highlight = Highlight(
    openClusters: seq<string>,
    openParams: seq<string>,
    selected: Option<Selection>,
    scrolls: seq<Selection>,
    clears: seq<ClearTimer>,
    timeoutRef: Option<nat>,
    nextTimer: nat)

  const NoHighlight: Highlight := Highlight([], [], None, [], [], None, 1)

  /** `clearTimeout(highlightTimeoutRef.current)` when the ref is set. */
  function CancelClear(clears: seq<ClearTimer>, ref: Option<nat>): (r: seq<ClearTimer>)
    ensures ref.None? ==> r == clears
    ensures ref.Some? ==> forall t :: t in r <==> t in clears && t.id != ref.value
  {
    if ref.None? then clears else Filter(clears, (t: ClearTimer) => t.id != ref.value)
  }

  /**
   * The click as the page has it: cancel the timer in the ref, open the
   * cluster and the parameter, select the triple and schedule the scroll.
   * An earlier click's scroll that has not yet run stays scheduled.
   */
  function ClickAsWritten(h: Highlight, clusterName: string, paramName: string, subParamName: string): (r: Highlight)
    ensures r.openClusters == AddIfAbsent(h.openClusters, clusterName)
    ensures r.openParams == AddIfAbsent(h.openParams, ParamKey(clusterName, paramName))
    ensures r.selected == Some(Selection(clusterName, paramName, subParamName))
    ensures r.scrolls == h.scrolls + [Selection(clusterName, paramName, subParamName)]
  {
    var sel := Selection(clusterName, paramName, subParamName);
    h.(openClusters := AddIfAbsent(h.openClusters, clusterName),
       openParams := AddIfAbsent(h.openParams, ParamKey(clusterName, paramName)),
       selected := Some(sel),
       scrolls := h.scrolls + [sel],
       clears := CancelClear(h.clears, h.timeoutRef))
  }

  /**
   * The click with the earlier click's pending scroll cancelled as well, so
   * that a new click supersedes everything the previous one scheduled.
   */
  function Click(h: Highlight, clusterName: string, paramName: string, subParamName: string): (r: Highlight)
    ensures r.openClusters == AddIfAbsent(h.openClusters, clusterName)
    ensures r.openParams == AddIfAbsent(h.openParams, ParamKey(clusterName, paramName))
    ensures r.selected == Some(Selection(clusterName, paramName, subParamName))
    ensures r.scrolls == [Selection(clusterName, paramName, subParamName)]
  {
    var sel := Selection(clusterName, paramName, subParamName);
    h.(openClusters := AddIfAbsent(h.openClusters, clusterName),
       openParams := AddIfAbsent(h.openParams, ParamKey(clusterName, paramName)),
       selected := Some(sel),
       scrolls := [sel],
       clears := CancelClear(h.clears, h.timeoutRef))
  }

  /**
   * The oldest 500 ms callback runs: when its row is in the document it
   * starts a 3 s clear timer for its click and stores it in the ref.
   */
  function ScrollFired(h: Highlight, elementFound: bool): (r: Highlight)
    requires h.scrolls != []
    ensures r.scrolls == h.scrolls[1..]
    ensures r.selected == h.selected && r.openClusters == h.openClusters && r.openParams == h.openParams
    ensures elementFound ==> r.clears == h.clears + [ClearTimer(h.nextTimer, h.scrolls[0])] && r.timeoutRef == Some(h.nextTimer)
    ensures !elementFound ==> r.clears == h.clears && r.timeoutRef == h.timeoutRef
  {
    if elementFound then
      h.(scrolls := h.scrolls[1..],
         clears := h.clears + [ClearTimer(h.nextTimer, h.scrolls[0])],
         timeoutRef := Some(h.nextTimer),
         nextTimer := h.nextTimer + 1)
    else h.(scrolls := h.scrolls[1..])
  }

  /** The oldest clear timer runs: the selection is dropped, whichever click made it. */
  function ClearFired(h: Highlight): (r: Highlight)
    requires h.clears != []
    ensures r.selected.None? && r.clears == h.clears[1..]
    ensures r.openClusters == h.openClusters && r.openParams == h.openParams && r.scrolls == h.scrolls
  {
    h.(selected := None, clears := h.clears[1..])
  }

  /**
   * At most one callback is outstanding, it belongs to the current
   * selection, and a pending clear timer is the one in the ref.
   */
  predicate Settled(h: Highlight)
  {
    |h.scrolls| + |h.clears| <= 1
    && (forall i :: 0 <= i < |h.scrolls| ==> h.selected == Some(h.scrolls[i]))
    && (forall i :: 0 <= i < |h.clears| ==> h.selected == Some(h.clears[i].owner) && h.timeoutRef == Some(h.clears[i].id))
  }

  /** The corrected click keeps the machine settled; it never removes an open item. */
  lemma ClickSettles(h: Highlight, clusterName: string, paramName: string, subParamName: string)
    requires Settled(h)
    ensures Settled(Click(h, clusterName, paramName, subParamName))
    ensures Click(h, clusterName, paramName, subParamName).clears == []
  {
    if h.clears != [] {
      assert h.clears == [h.clears[0]];
      assert !(h.clears[0] in CancelClear(h.clears, h.timeoutRef));
    }
  }

  lemma ScrollSettles(h: Highlight, elementFound: bool)
    requires Settled(h) && h.scrolls != []
    ensures Settled(ScrollFired(h, elementFound))
  {
  }

  /** In a settled machine a clear timer only ever drops the selection of its own click. */
  lemma ClearSettles(h: Highlight)
    requires Settled(h) && h.clears != []
    ensures h.selected == Some(h.clears[0].owner)
    ensures Settled(ClearFired(h))
  {
  }

  /**
   * Two quick clicks on the page as written: both scrolls run, and the first
   * click's clear timer drops the second click's selection while the second
   * click's own timer is still pending.
   */
  lemma ClickAsWrittenRace()
    ensures var a := Selection("Team", "Skills", "Experience");
            var b := Selection("Team", "Skills", "Diversity");
            var h1 := ClickAsWritten(NoHighlight, a.clusterName, a.paramName, a.subParamName);
            var h2 := ClickAsWritten(h1, b.clusterName, b.paramName, b.subParamName);
            var h3 := ScrollFired(h2, true);
            var h4 := ScrollFired(h3, true);
            var h5 := ClearFired(h4);
            Settled(NoHighlight) && h4.selected == Some(b) && h4.clears[0].owner == a
            && h5.selected.None? && h5.clears == [ClearTimer(2, b)]
  {
  }

  // ---------------------------------------------------------------------
  // Cluster chart data, sub-parameter rows and comments
  // ---------------------------------------------------------------------

  /** `detailed_analysis.cluster_analyses`: cluster names in key order and the `score` under each. */
  datatype ClusterAnalyses = ClusterAnalyses(keys: seq<string>, scores: map<string, real>)
  {
    ghost predicate Valid()
    {
      SpiderChart.Distinct(keys) && forall k :: k in scores <==> k in keys
    }
  }

  /** The spider chart's record: each cluster's `Math.round`ed score under its own name. */
  function ChartData(a: ClusterAnalyses): (r: SpiderChart.Record)
    ensures a.Valid() ==> r.Valid()
    ensures r.keys == a.keys
    ensures forall k :: k in a.scores ==>
              k in r.values && r.values[k].Number? && r.values[k].n == Arith.RoundHalfUp(a.scores[k]) as real
  {
    SpiderChart.Record(a.keys, map k | k in a.scores :: SpiderChart.Number(Arith.RoundHalfUp(a.scores[k]) as real))
  }

  /**
   * The chart's axes are exactly the clusters whose names the chart labels,
   * each plotted within half a point of its supplied score.
   */
  lemma ChartAxesAreLabelledClusters(a: ClusterAnalyses)
    requires a.Valid()
    ensures forall k :: k in SpiderChart.ValidDataKeys(ChartData(a)) <==> k in a.keys && k in SpiderChart.LabelNames
    ensures forall k :: k in a.scores ==> a.scores[k] - 0.5 < ChartData(a).values[k].n <= a.scores[k] + 0.5
  {
    var r := ChartData(a);
    forall k | k in a.keys && k in SpiderChart.LabelNames ensures k in SpiderChart.ValidDataKeys(r) {
      var j :| 0 <= j < |r.keys| && r.keys[j] == k;
      assert SpiderChart.Kept(r, r.keys[j]);
    }
  }

  /** The circumference of a sub-parameter's score ring, radius 18. */
  const SubCircumference: real := 2.0 * ScoreDisplay.Pi * 18.0

  /** A rendered sub-parameter row. */
  datatype SubParamRow = SubParamRow(
    elementId: string,
    score: int,
    color: ScoreDisplay.Color,
    offset: real,
    whatWentWell: string,
    whatCanBeImproved: string,
    highlighted: bool)

  /** `text || "No data"`. */
  function OrNoData(text: string): (r: string)
    ensures r != [] && (text != [] ==> r == text)
  {
    if text == [] then "No data" else text
  }

  /** A sub-parameter's row: only scored object entries get one. */
  function RenderSubParam(selected: Option<Selection>, clusterName: string, paramName: string, e: SubParamEntry): (r: Option<SubParamRow>)
    ensures r.Some? <==> e.value.Finding?
    ensures r.Some? ==> r.value.score == e.value.assignedScore && r.value.elementId == ElementId(e.name)
                        && r.value.color == ScoreColor(Some(e.value.assignedScore))
                        && r.value.whatWentWell != [] && r.value.whatCanBeImproved != []
                        && r.value.whatWentWell == OrNoData(e.value.whatWentWell)
                        && r.value.whatCanBeImproved == OrNoData(e.value.whatCanBeImproved)
                        && r.value.offset == SubCircumference - (e.value.assignedScore as real / 100.0) * SubCircumference
                        && (r.value.highlighted <==> selected == Some(Selection(clusterName, paramName, e.name)))
    ensures r.Some? && 0 <= r.value.score <= 100 ==> 0.0 <= r.value.offset <= SubCircumference
  {
    match e.value
    case Finding(score, well, improve) =>
      var offset := SubCircumference - (score as real / 100.0) * SubCircumference;
      assert 0 <= score <= 100 ==> 0.0 <= (score as real / 100.0) * SubCircumference <= SubCircumference;
      Some(SubParamRow(ElementId(e.name), score, ScoreColor(Some(score)), offset,
                       OrNoData(well), OrNoData(improve), IsHighlighted(selected, clusterName, paramName, e.name)))
    case _ => None
  }

  datatype Comment = Comment(id: string, authorName: string, authorEmail: string, text: string, timestamp: string)

  /** The comment list after a submit at `nowMillis`: a blank draft changes nothing, any other is prepended as typed. */
  function PostComment(comments: seq<Comment>, draft: string, nowMillis: nat): (r: seq<Comment>)
    ensures AllWhitespace(draft) ==> r == comments
    ensures !AllWhitespace(draft) ==> |r| == |comments| + 1 && r[1..] == comments && r[0].text == draft
  {
    if AllWhitespace(draft) then comments
    else [Comment("comment-" + IntToString(nowMillis), "Current User", "user@example.com", draft, "Just now")] + comments
  }

  /** A draft is ignored exactly when trimming empties it; a posted comment's id carries the time. */
  lemma PostCommentIgnoresBlank(comments: seq<Comment>, draft: string, nowMillis: nat)
    ensures PostComment(comments, draft, nowMillis) == comments <==> Trim(draft) == []
    ensures Trim(draft) != [] ==> PostComment(comments, draft, nowMillis)[0].id == "comment-" + IntToString(nowMillis)
  {
    TrimEmptyIffBlank(draft);
  }

  // ---------------------------------------------------------------------
  // The page state
  // ---------------------------------------------------------------------

  /** The parts of the fetched report the page reads. */
  datatype Report = Report(
    title: string,
    validationOutcome: string,
    overallScore: int,
    clusterAnalyses: Option<ClusterAnalyses>,
    clusters: Option<seq<ClusterEntry>>)

  /** What `axios.get` of the report gave: the report, or a thrown error. */
  datatype FetchResponse = Fetched(report: Report) | RequestFailed

  datatype Toast = Toast(title: string, description: string, destructive: bool)

  const LoadFailedToast: Toast := Toast("Error", "Failed to load report data", true)

  /** What the page renders: the spinner, the error panel with its message, or the report. */
  datatype Screen = LoadingScreen | ErrorScreen(message: string) | ReportScreen

  function ScreenOf(loading: bool, error: Option<string>, hasReport: bool): (s: Screen)
    ensures s == LoadingScreen <==> loading
    ensures s == ReportScreen <==> !loading && !Truthy(error) && hasReport
    ensures s.ErrorScreen? <==> !loading && (Truthy(error) || !hasReport)
    ensures s.ErrorScreen? ==> s.message == OrElse(error, "Report not found")
    ensures !loading && Truthy(error) ==> s == ErrorScreen(error.value)
  {
    if loading then LoadingScreen
    else if Truthy(error) then ErrorScreen(error.value)
    else if !hasReport then ErrorScreen("Report not found")
    else ReportScreen
  }

  function ClusterNamesOf(clusters: seq<ClusterEntry>): (r: seq<string>)
    ensures |r| == |clusters| && forall i :: 0 <= i < |clusters| ==> r[i] == clusters[i].name
  {
    seq(|clusters|, i requires 0 <= i < |clusters| => clusters[i].name)
  }

  /**
   * The page state. The accordion lists, the selection and the timers that
   * `handleHighlightClick` works on are kept together as one `Highlight`
   * value; the other hooks are fields of their own.
   */
  class ReportView {
    var loading: bool
    var error: Option<string>
    var reportData: Option<Report>
    var topPerformers: seq<Performer>
    var bottomPerformers: seq<Performer>
    var chart: SpiderChart.Record
    var highlight: Highlight
    var comments: seq<Comment>
    var newComment: string
    var votes: int

    ghost predicate Valid()
      reads this
    {
      Settled(highlight)
    }

    /** `allClusterNames`: the assessment's cluster names once a report is loaded. */
    function ClusterNames(): seq<string>
      reads this
    {
      if reportData.Some? && reportData.value.clusters.Some? then ClusterNamesOf(reportData.value.clusters.value)
      else []
    }

    function View(): Screen
      reads this
    {
      ScreenOf(loading, error, reportData.Some?)
    }

    constructor()
      ensures Valid() && View() == LoadingScreen
      ensures error.None? && reportData.None? && topPerformers == [] && bottomPerformers == []
      ensures chart == SpiderChart.Record([], map[]) && highlight == NoHighlight
      ensures comments == [] && newComment == [] && votes == 27
    {
      loading := true;
      error := None;
      reportData := None;
      topPerformers, bottomPerformers := [], [];
      chart := SpiderChart.Record([], map[]);
      highlight := NoHighlight;
      comments, newComment, votes := [], [], 27;
    }

    /**
     * The fetch effect for the route's `ideaId` with the request's outcome:
     * store the report, round the cluster scores for the chart when present,
     * run the performer pass when the assessment has clusters; a thrown
     * request or a `null` sub-parameter ends in the error state.
     */
    method Load(ideaId: string, response: FetchResponse) returns (toast: Option<Toast>)
      modifies this
      ensures ideaId == [] ==> toast.None? && loading == old(loading) && error == old(error) && reportData == old(reportData)
                               && chart == old(chart)
      ensures ideaId != [] ==> !loading
      ensures ideaId != [] && response.RequestFailed? ==>
                error == Some(LoadError) && toast == Some(LoadFailedToast) && reportData == old(reportData) && chart == old(chart)
      ensures ideaId != [] && response.Fetched? ==>
                reportData == Some(response.report)
                && chart == (if response.report.clusterAnalyses.Some? then ChartData(response.report.clusterAnalyses.value) else old(chart))
      ensures ideaId != [] && response.Fetched? && response.report.clusters.Some? ==>
                match PerformersOf(response.report.clusters.value)
                case Success(p) => topPerformers == p.top && bottomPerformers == p.bottom && error == old(error) && toast.None?
                case Failure(_) => error == Some(LoadError) && toast == Some(LoadFailedToast)
                                   && topPerformers == old(topPerformers) && bottomPerformers == old(bottomPerformers)
      ensures ideaId != [] && response.Fetched? && response.report.clusters.None? ==> error == old(error) && toast.None?
      ensures !(ideaId != [] && response.Fetched? && response.report.clusters.Some?
                && PerformersOf(response.report.clusters.value).Success?) ==>
                topPerformers == old(topPerformers) && bottomPerformers == old(bottomPerformers)
      ensures highlight == old(highlight) && comments == old(comments) && newComment == old(newComment) && votes == old(votes)
    {
      toast := None;
      if ideaId == [] {
        return;
      }
      // The spinner shown while the request is out is not modelled: the
      // fields below are the state once the effect has finished.
      var err, data, chartData, top, bottom := error, reportData, chart, topPerformers, bottomPerformers;
      match response {
        case RequestFailed =>
          err := Some(LoadError);
          toast := Some(LoadFailedToast);
        case Fetched(report) =>
          data := Some(report);
          if report.clusterAnalyses.Some? {
            chartData := ChartData(report.clusterAnalyses.value);
          }
          if report.clusters.Some? {
            var r := ExtractPerformers(report.clusters.value);
            match r {
              case Success(p) =>
                top, bottom := p.top, p.bottom;
              case Failure(_) =>
                err := Some(LoadError);
                toast := Some(LoadFailedToast);
            }
          }
      }
      loading, error, reportData, chart, topPerformers, bottomPerformers := false, err, data, chartData, top, bottom;
    }

    /** `handleHighlightClick`, with the earlier click's pending scroll cancelled too. */
    method HighlightClick(clusterName: string, paramName: string, subParamName: string)
      requires Valid()
      modifies this
      ensures Valid()
      ensures highlight == Click(old(highlight), clusterName, paramName, subParamName)
      ensures loading == old(loading) && error == old(error) && reportData == old(reportData)
      ensures topPerformers == old(topPerformers) && bottomPerformers == old(bottomPerformers) && chart == old(chart)
      ensures comments == old(comments) && newComment == old(newComment) && votes == old(votes)
    {
      ClickSettles(highlight, clusterName, paramName, subParamName);
      var sel := Selection(clusterName, paramName, subParamName);
      highlight := highlight.(
        clears := CancelClear(highlight.clears, highlight.timeoutRef),
        openClusters := AddIfAbsent(highlight.openClusters, clusterName),
        openParams := AddIfAbsent(highlight.openParams, ParamKey(clusterName, paramName)),
        selected := Some(sel),
        scrolls := [sel]);
    }

    /** The 500 ms callback of the oldest click, told whether its row is in the document. */
    method ScrollCallback(elementFound: bool)
      requires Valid() && highlight.scrolls != []
      modifies this
      ensures Valid()
      ensures highlight == ScrollFired(old(highlight), elementFound)
      ensures loading == old(loading) && error == old(error) && reportData == old(reportData)
      ensures topPerformers == old(topPerformers) && bottomPerformers == old(bottomPerformers) && chart == old(chart)
      ensures comments == old(comments) && newComment == old(newComment) && votes == old(votes)
    {
      ScrollSettles(highlight, elementFound);
      var h := highlight;
      if elementFound {
        highlight := h.(scrolls := h.scrolls[1..],
                        clears := h.clears + [ClearTimer(h.nextTimer, h.scrolls[0])],
                        timeoutRef := Some(h.nextTimer),
                        nextTimer := h.nextTimer + 1);
      } else {
        highlight := h.(scrolls := h.scrolls[1..]);
      }
    }

    /** The 3 s clear timer: the highlight ends and the selection is dropped. */
    method ClearCallback()
      requires Valid() && highlight.clears != []
      modifies this
      ensures Valid()
      ensures highlight == ClearFired(old(highlight))
      ensures loading == old(loading) && error == old(error) && reportData == old(reportData)
      ensures topPerformers == old(topPerformers) && bottomPerformers == old(bottomPerformers) && chart == old(chart)
      ensures comments == old(comments) && newComment == old(newComment) && votes == old(votes)
    {
      ClearSettles(highlight);
      highlight := highlight.(selected := None, clears := highlight.clears[1..]);
    }

    /** The "Expand All" / "Collapse All" button. */
    method ToggleExpandAllClick()
      requires Valid()
      modifies this
      ensures Valid()
      ensures highlight == old(highlight).(openClusters := ToggleExpandAll(old(highlight.openClusters), old(ClusterNames())))
      ensures loading == old(loading) && error == old(error) && reportData == old(reportData)
      ensures topPerformers == old(topPerformers) && bottomPerformers == old(bottomPerformers) && chart == old(chart)
      ensures comments == old(comments) && newComment == old(newComment) && votes == old(votes)
    {
      var names := ClusterNames();
      if AllExpanded(highlight.openClusters, names) {
        highlight := highlight.(openClusters := []);
      } else {
        highlight := highlight.(openClusters := names);
      }
    }

    /** `handleVote`. */
    method Vote() returns (toast: Toast)
      modifies this
      ensures votes == old(votes) + 1 && toast == Toast("Voted!", "Your vote has been counted.", false)
      ensures highlight == old(highlight) && comments == old(comments) && newComment == old(newComment)
      ensures loading == old(loading) && error == old(error) && reportData == old(reportData)
      ensures topPerformers == old(topPerformers) && bottomPerformers == old(bottomPerformers) && chart == old(chart)
    {
      votes := votes + 1;
      toast := Toast("Voted!", "Your vote has been counted.", false);
    }

    /** Typing in the comment box. */
    method EditComment(text: string)
      modifies this
      ensures newComment == text && comments == old(comments) && votes == old(votes) && highlight == old(highlight)
      ensures loading == old(loading) && error == old(error) && reportData == old(reportData)
      ensures topPerformers == old(topPerformers) && bottomPerformers == old(bottomPerformers) && chart == old(chart)
    {
      newComment := text;
    }

    /** `handleSubmitComment` at time `nowMillis`. */
    method SubmitComment(nowMillis: nat) returns (toast: Option<Toast>)
      modifies this
      ensures comments == PostComment(old(comments), old(newComment), nowMillis)
      ensures AllWhitespace(old(newComment)) ==> newComment == old(newComment) && toast.None?
      ensures !AllWhitespace(old(newComment)) ==>
                newComment == [] && toast == Some(Toast("Comment Posted", "Your feedback has been added.", false))
      ensures votes == old(votes) && highlight == old(highlight)
      ensures loading == old(loading) && error == old(error) && reportData == old(reportData)
      ensures topPerformers == old(topPerformers) && bottomPerformers == old(bottomPerformers) && chart == old(chart)
    {
      if AllWhitespace(newComment) {
        return None;
      }
      comments, newComment := PostComment(comments, newComment, nowMillis), [];
      toast := Some(Toast("Comment Posted", "Your feedback has been added.", false));
    }
  }
}
