/**
 * The roadmap panel: the phase of the current TRL, the phase being viewed
 * and its previous/next/dot navigation, the activity list shown for the
 * viewed phase, the phase dots and the progress bar.
 */
module Roadmap {
  import opened Wrappers
  import opened Constants

  /** `findIndex` over the phases: the first phase listing `trl`, or -1. */
  function FindPhaseIndex(phases: seq<Phase>, trl: string): (r: int)
    ensures -1 <= r < |phases|
    ensures r >= 0 ==> trl in phases[r].trls && forall k :: 0 <= k < r ==> trl !in phases[k].trls
    ensures r == -1 <==> forall k :: 0 <= k < |phases| ==> trl !in phases[k].trls
  {
    if |phases| == 0 then -1
    else if trl in phases[0].trls then 0
    else
      var r := FindPhaseIndex(phases[1..], trl);
      assert forall k :: 1 <= k < |phases| ==> phases[k] == phases[1..][k - 1];
      if r == -1 then -1 else r + 1
  }

  /** `currentPhaseIndex`. */
  function CurrentPhaseIndex(trl: string): int
  {
    FindPhaseIndex(RoadmapPhases, trl)
  }

  /** A TRL has a phase exactly when it is one of TRL-1 to TRL-9, and that phase is the only one listing it. */
  lemma CurrentPhaseIndexDefined(trl: string)
    ensures CurrentPhaseIndex(trl) != -1 <==> trl in TrlLevels
    ensures CurrentPhaseIndex(trl) != -1 ==>
              forall k :: 0 <= k < |RoadmapPhases| && trl in RoadmapPhases[k].trls ==> k == CurrentPhaseIndex(trl)
  {
    RoadmapPhasesCoverTrls();
    var p := RoadmapPhases;
    assert TrlLevels == p[0].trls + p[1].trls + p[2].trls + p[3].trls + p[4].trls;
    var c := CurrentPhaseIndex(trl);
    if c != -1 {
      forall k | 0 <= k < |p| && trl in p[k].trls ensures k == c {
        if k > c {
          RoadmapTrlsDisjoint(c, k, trl);
        }
      }
    }
  }

  /** A TRL listed by phase `k` has `k` as its current phase. */
  lemma {:induction false} PhaseOfListedTrl(trl: string, k: nat)
    requires k < |RoadmapPhases| && trl in RoadmapPhases[k].trls
    ensures CurrentPhaseIndex(trl) == k
  {
    RoadmapPhasesCoverTrls();
    var p := RoadmapPhases;
    assert TrlLevels == p[0].trls + p[1].trls + p[2].trls + p[3].trls + p[4].trls;
    assert trl in TrlLevels;
    CurrentPhaseIndexDefined(trl);
  }

  /** The phase of each TRL: 1-2 ideation, 3-4 prototyping, 5-7 validation, 8 launch, 9 growth. */
  lemma CurrentPhaseOfEachTrl()
    ensures CurrentPhaseIndex("TRL-1") == 0 && CurrentPhaseIndex("TRL-2") == 0
    ensures CurrentPhaseIndex("TRL-3") == 1 && CurrentPhaseIndex("TRL-4") == 1
    ensures CurrentPhaseIndex("TRL-5") == 2 && CurrentPhaseIndex("TRL-6") == 2 && CurrentPhaseIndex("TRL-7") == 2
    ensures CurrentPhaseIndex("TRL-8") == 3
    ensures CurrentPhaseIndex("TRL-9") == 4
  {
    PhaseOfListedTrl("TRL-1", 0);
    PhaseOfListedTrl("TRL-2", 0);
    PhaseOfListedTrl("TRL-3", 1);
    PhaseOfListedTrl("TRL-4", 1);
    PhaseOfListedTrl("TRL-5", 2);
    PhaseOfListedTrl("TRL-6", 2);
    PhaseOfListedTrl("TRL-7", 2);
    PhaseOfListedTrl("TRL-8", 3);
    PhaseOfListedTrl("TRL-9", 4);
  }

  const LastPhase: int := |RoadmapPhases| - 1

  /** The Previous button: one phase back, stopping at the first. */
  function PreviousIndex(viewed: int): (r: int)
    ensures 0 <= viewed <= LastPhase ==> 0 <= r <= LastPhase
    ensures 0 <= viewed <= LastPhase ==> (r == viewed <==> PreviousDisabled(viewed))
    ensures 0 < viewed ==> r == viewed - 1
    ensures viewed <= 1 ==> r == 0
  {
    if viewed - 1 > 0 then viewed - 1 else 0
  }

  /** The Next button: one phase on, stopping at the last. */
  function NextIndex(viewed: int): (r: int)
    ensures 0 <= viewed <= LastPhase ==> 0 <= r <= LastPhase
    ensures 0 <= viewed <= LastPhase ==> (r == viewed <==> NextDisabled(viewed))
    ensures viewed < LastPhase ==> r == viewed + 1
    ensures viewed >= LastPhase - 1 ==> r == LastPhase
  {
    if LastPhase < viewed + 1 then LastPhase else viewed + 1
  }

  predicate PreviousDisabled(viewed: int)
  {
    viewed == 0
  }

  predicate NextDisabled(viewed: int)
  {
    viewed == LastPhase
  }

  /** Next undoes Previous and Previous undoes Next, away from the ends. */
  lemma PreviousNextInverse(viewed: int)
    ensures 0 < viewed <= LastPhase ==> NextIndex(PreviousIndex(viewed)) == viewed
    ensures 0 <= viewed < LastPhase ==> PreviousIndex(NextIndex(viewed)) == viewed
  {
  }

  /** `activitiesToShow`: the supplied list for the current phase when it is non-empty, else the phase's defaults. */
  function ActivitiesToShow(current: int, viewed: int, keyActivities: seq<Activity>): (r: seq<Activity>)
    requires 0 <= viewed <= LastPhase
    ensures r == keyActivities || r == RoadmapPhases[viewed].keyActivities
    ensures r == keyActivities && r != RoadmapPhases[viewed].keyActivities ==> viewed == current
    ensures viewed == current && |keyActivities| > 0 ==> r == keyActivities
    ensures !(viewed == current && |keyActivities| > 0) ==> r == RoadmapPhases[viewed].keyActivities
  {
    if viewed == current && |keyActivities| > 0 then keyActivities else RoadmapPhases[viewed].keyActivities
  }

  /** The shown list is never empty, and on a phase other than the current one it is always the defaults. */
  lemma ActivitiesToShowNonEmpty(current: int, viewed: int, keyActivities: seq<Activity>)
    requires 0 <= viewed <= LastPhase
    ensures |ActivitiesToShow(current, viewed, keyActivities)| > 0
    ensures viewed != current ==> ActivitiesToShow(current, viewed, keyActivities) == RoadmapPhases[viewed].keyActivities
  {
    RoadmapPhasesHaveThreeActivities();
  }

  /** A phase dot: filled for phases up to the current one, checked for those before it, ringed when viewed. */
  datatype Dot = Dot(filled: bool, checked: bool, ringed: bool)

  function Dots(current: int, viewed: int): (r: seq<Dot>)
    ensures |r| == |RoadmapPhases|
    ensures forall i :: 0 <= i < |r| ==> r[i].checked ==> r[i].filled
  {
    seq(|RoadmapPhases|, i requires 0 <= i < |RoadmapPhases| => Dot(i <= current, i < current, i == viewed))
  }

  function CountFilled(dots: seq<Dot>): nat
  {
    if |dots| == 0 then 0 else (if dots[0].filled then 1 else 0) + CountFilled(dots[1..])
  }

  function CountChecked(dots: seq<Dot>): nat
  {
    if |dots| == 0 then 0 else (if dots[0].checked then 1 else 0) + CountChecked(dots[1..])
  }

  function CountRinged(dots: seq<Dot>): nat
  {
    if |dots| == 0 then 0 else (if dots[0].ringed then 1 else 0) + CountRinged(dots[1..])
  }

  /** Counting the dots of `[from, 5)` for the thresholds `current` and `viewed`. */
  lemma {:induction false} CountDotsFrom(current: int, viewed: int, from: nat)
    requires from <= |RoadmapPhases|
    ensures var d := Dots(current, viewed)[from..];
            CountFilled(d) == Clamp(current + 1 - from, |RoadmapPhases| - from)
            && CountChecked(d) == Clamp(current - from, |RoadmapPhases| - from)
            && CountRinged(d) == (if from <= viewed < |RoadmapPhases| then 1 else 0)
    decreases |RoadmapPhases| - from
  {
    var d := Dots(current, viewed)[from..];
    if from < |RoadmapPhases| {
      CountDotsFrom(current, viewed, from + 1);
      assert d[1..] == Dots(current, viewed)[from + 1..];
    }
  }

  /** `x` clamped into `[0, hi]`. */
  function Clamp(x: int, hi: nat): nat
  {
    if x < 0 then 0 else if x > hi then hi else x
  }

  /** With a valid current phase, `current + 1` dots are filled, `current` are checked and exactly one is ringed. */
  lemma DotCounts(current: int, viewed: int)
    requires 0 <= current <= LastPhase && 0 <= viewed <= LastPhase
    ensures CountFilled(Dots(current, viewed)) == current + 1
    ensures CountChecked(Dots(current, viewed)) == current
    ensures CountRinged(Dots(current, viewed)) == 1
  {
    CountDotsFrom(current, viewed, 0);
    assert Dots(current, viewed)[0..] == Dots(current, viewed);
  }

  /** The progress bar's width in percent: the current phase's share of the four steps. */
  function ProgressWidth(current: int): (w: real)
    ensures 0 <= current <= LastPhase ==> 0.0 <= w <= 100.0
    ensures current == 0 ==> w == 0.0
    ensures current == LastPhase ==> w == 100.0
  {
    (current as real / (|RoadmapPhases| - 1) as real) * 100.0
  }

  /** Each phase adds a quarter of the bar. */
  lemma ProgressWidthSteps(current: int)
    ensures ProgressWidth(current) == 25.0 * current as real
  {
  }

  /** The activity checkboxes can be ticked by mentors only. */
  predicate IsMentor(role: Option<string>)
  {
    role == Some(RoleName(Mentor))
  }

  /** What the panel shows. */
  datatype Screen =
    | InvalidTrl
    | Panel(viewedName: string, activities: seq<Activity>, previousDisabled: bool, nextDisabled: bool,
            dots: seq<Dot>, width: real, checkboxesEnabled: bool)

  /** The component: props and the `viewedPhaseIndex` state. */
  class RoadmapView {
    var currentTrl: string
    var role: Option<string>
    var keyActivities: seq<Activity>
    var viewedPhaseIndex: int

    function Current(): int
      reads this
    {
      CurrentPhaseIndex(currentTrl)
    }

    /** The viewed index follows the current one: -1 with it, else a real phase. */
    ghost predicate Valid()
      reads this
    {
      if Current() == -1 then viewedPhaseIndex == -1 else 0 <= viewedPhaseIndex <= LastPhase
    }

    /** Mounting starts on the current phase. */
    constructor (trl: string, role: Option<string>, keyActivities: seq<Activity>)
      ensures this.currentTrl == trl && this.role == role && this.keyActivities == keyActivities
      ensures viewedPhaseIndex == CurrentPhaseIndex(trl)
      ensures Valid()
    {
      this.currentTrl := trl;
      this.role := role;
      this.keyActivities := keyActivities;
      viewedPhaseIndex := CurrentPhaseIndex(trl);
    }

    /** New props; the reset effect moves the view back to the current phase when the TRL changed. */
    method ChangeProps(trl: string, role: Option<string>, keyActivities: seq<Activity>)
      requires Valid()
      modifies this
      ensures this.currentTrl == trl && this.role == role && this.keyActivities == keyActivities
      ensures trl != old(currentTrl) ==> viewedPhaseIndex == CurrentPhaseIndex(trl)
      ensures trl == old(currentTrl) ==> viewedPhaseIndex == old(viewedPhaseIndex)
      ensures Valid()
    {
      var changed := trl != currentTrl;
      this.currentTrl := trl;
      this.role := role;
      this.keyActivities := keyActivities;
      if changed {
        viewedPhaseIndex := CurrentPhaseIndex(trl);
      }
    }

    /** The Previous button (only on screen when the TRL is valid). */
    method Previous()
      requires Valid() && Current() != -1
      modifies this
      ensures viewedPhaseIndex == PreviousIndex(old(viewedPhaseIndex))
      ensures currentTrl == old(currentTrl) && role == old(role) && keyActivities == old(keyActivities)
      ensures Valid()
    {
      viewedPhaseIndex := PreviousIndex(viewedPhaseIndex);
    }

    /** The Next button. */
    method Next()
      requires Valid() && Current() != -1
      modifies this
      ensures viewedPhaseIndex == NextIndex(old(viewedPhaseIndex))
      ensures currentTrl == old(currentTrl) && role == old(role) && keyActivities == old(keyActivities)
      ensures Valid()
    {
      viewedPhaseIndex := NextIndex(viewedPhaseIndex);
    }

    /** A click on the dot of phase `index`. */
    method SelectPhase(index: int)
      requires Valid() && Current() != -1
      requires 0 <= index <= LastPhase
      modifies this
      ensures viewedPhaseIndex == index
      ensures currentTrl == old(currentTrl) && role == old(role) && keyActivities == old(keyActivities)
      ensures Valid()
    {
      viewedPhaseIndex := index;
    }

    /** What is rendered: only the invalid-TRL message for an unknown TRL, else the panel for the viewed phase. */
    function Render(): (s: Screen)
      requires Valid()
      reads this
      ensures s.InvalidTrl? <==> Current() == -1
      ensures s.Panel? ==> s.viewedName == RoadmapPhases[viewedPhaseIndex].name
                           && s.previousDisabled == PreviousDisabled(viewedPhaseIndex)
                           && s.nextDisabled == NextDisabled(viewedPhaseIndex)
                           && |s.activities| > 0
                           && (s.checkboxesEnabled <==> role == Some("mentor"))
      ensures s.Panel? ==> s.activities == ActivitiesToShow(Current(), viewedPhaseIndex, keyActivities)
                           && s.dots == Dots(Current(), viewedPhaseIndex)
                           && s.width == ProgressWidth(Current())
    {
      var current := Current();
      if current == -1 then InvalidTrl
      else
        var v := viewedPhaseIndex;
        ActivitiesToShowNonEmpty(current, v, keyActivities);
        Panel(RoadmapPhases[v].name, ActivitiesToShow(current, v, keyActivities),
              PreviousDisabled(v), NextDisabled(v), Dots(current, v), ProgressWidth(current), IsMentor(role))
    }
  }

  /**
   * The panel of a known TRL: the dots up to the current phase are filled,
   * those before it checked, exactly one is ringed, and the bar is a quarter
   * per phase; the supplied activities show exactly on a non-empty current phase.
   */
  lemma PanelShowsProgress(v: RoadmapView)
    requires v.Valid() && v.Current() != -1
    ensures v.Render().Panel?
    ensures CountFilled(v.Render().dots) == v.Current() + 1
    ensures CountChecked(v.Render().dots) == v.Current()
    ensures CountRinged(v.Render().dots) == 1
    ensures v.Render().width == 25.0 * v.Current() as real
    ensures v.viewedPhaseIndex == v.Current() && |v.keyActivities| > 0 ==> v.Render().activities == v.keyActivities
  {
    DotCounts(v.Current(), v.viewedPhaseIndex);
    ProgressWidthSteps(v.Current());
  }
}
