/**
 * The circular score badge: its colour band, the text in its centre and
 * the stroke offset of its progress ring.
 */
module ScoreDisplay {
  import opened Wrappers
  import opened Text

  datatype Color = Muted | Green | Orange | Red

  /** `getScoreColor` of the badge: no score is muted, then 85 and 50 split green, orange and red. */
  function ScoreColor(score: Option<int>): (c: Color)
    ensures c == Muted <==> score.None?
  {
    match score
    case None => Muted
    case Some(s) => if s >= 85 then Green else if s >= 50 then Orange else Red
  }

  /** The band of a present score: below 50 red, below 85 orange, else green. */
  function Band(s: int): nat
  {
    if s < 50 then 0 else if s < 85 then 1 else 2
  }

  function ColorRank(c: Color): nat
  {
    match c
    case Muted => 0
    case Red => 0
    case Orange => 1
    case Green => 2
  }

  /** The colours of present scores are exactly the three bands, in order. */
  lemma ScoreColorBands(s: int)
    ensures ScoreColor(Some(s)) != Muted
    ensures ColorRank(ScoreColor(Some(s))) == Band(s)
  {
  }

  /** A higher score never gets a lower band. */
  lemma ScoreColorMonotone(a: int, b: int)
    requires a <= b
    ensures ColorRank(ScoreColor(Some(a))) <= ColorRank(ScoreColor(Some(b)))
  {
  }

  /** The centre text: the score's digits, or `N/A` for no score. */
  function ScoreText(score: Option<int>): (t: string)
    ensures t == "N/A" <==> score.None?
    ensures score.Some? ==> t == IntToString(score.value)
  {
    match score
    case None => "N/A"
    case Some(s) =>
      var t := IntToString(s);
      assert t[0] == '-' || IsDigit(t[0]) by {
        if s >= 0 { assert t == NatToString(s); }
      }
      t
  }

  /** `Math.PI` as a double. */
  const Pi: real := 3.141592653589793

  /** The ring's circumference, 2·π·20. */
  const Circumference: real := 2.0 * Pi * 20.0

  /** The stroke offset: the full circumference for no score, `C - (s/100)·C` otherwise. */
  function StrokeOffset(score: Option<int>): (off: real)
    ensures score.None? ==> off == Circumference
    ensures score == Some(0) ==> off == Circumference
    ensures score == Some(100) ==> off == 0.0
    ensures score.Some? && 0 <= score.value <= 100 ==> 0.0 <= off <= Circumference
    ensures score.Some? ==> off == Circumference * (1.0 - score.value as real / 100.0)
  {
    match score
    case None => Circumference
    case Some(s) => Circumference - (s as real / 100.0) * Circumference
  }

  /** A higher score leaves less of the ring undrawn. */
  lemma StrokeOffsetDecreasing(a: int, b: int)
    requires a <= b
    ensures StrokeOffset(Some(b)) <= StrokeOffset(Some(a))
  {
    assert (a as real / 100.0) * Circumference <= (b as real / 100.0) * Circumference;
  }

  /** What the badge shows. */
  datatype Badge = Badge(ringColor: Color, offset: real, text: string, textColor: Color, status: string, statusColor: Color)

  /** `ScoreDisplay`: ring, centre text and status share the score's colour; the status string is shown verbatim. */
  function Render(score: Option<int>, status: string): (b: Badge)
    ensures b.ringColor == b.textColor == b.statusColor == ScoreColor(score)
    ensures b.status == status
    ensures b.text == ScoreText(score) && b.offset == StrokeOffset(score)
  {
    var c := ScoreColor(score);
    Badge(c, StrokeOffset(score), ScoreText(score), c, status, c)
  }
}
