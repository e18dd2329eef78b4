/** The landing page's interactive line chart: a static series, a playback
    mode that shows randomly generated series, and a custom mode in which the
    visitor types a value for each point into a number input. */
module HomeChart {

  /** The static "Task Completion Rate" series, one point per month. */
  const STATIC_SERIES: seq<real> := [65.0, 78.0, 85.0, 92.0, 88.0, 95.0]
  const POINTS := 6

  /** `Math.max(0, Math.min(100, value))`. */
  function Clamp(value: real): real
  {
    if value > 100.0 then 100.0 else if value < 0.0 then 0.0 else value
  }

  /** The clamped value is in [0, 100], is the value itself when that is
      already in range, and is the nearest bound otherwise. */
  lemma ClampProperties(value: real)
    ensures 0.0 <= Clamp(value) <= 100.0
    ensures 0.0 <= value <= 100.0 ==> Clamp(value) == value
    ensures value < 0.0 ==> Clamp(value) == 0.0
    ensures value > 100.0 ==> Clamp(value) == 100.0
    ensures Clamp(Clamp(value)) == Clamp(value)
  {
  }

  /** One value of `generateRandomData(min, max, n)` for the draw `r` of `Math.random()`. */
  function RandomPoint(min: int, max: int, r: real): real
  {
    (ScaledDraw(r, max - min + 1) + min) as real
  }

  /** `Math.floor(r * w)`. */
  function ScaledDraw(r: real, w: int): int
  {
    (r * w as real).Floor
  }

  /** With `min <= max`, every generated value is a whole number in [min, max]. */
  lemma RandomPointRange(min: int, max: int, r: real)
    requires min <= max && 0.0 <= r < 1.0
    ensures min as real <= RandomPoint(min, max, r) <= max as real
  {
    var w := max - min + 1;
    ScaleBelow(r, w as real);
    FloorBelow(r * w as real, w);
    assert 0 <= ScaledDraw(r, w) < w;
  }

  lemma FloorBelow(x: real, w: int)
    requires 0.0 <= x < w as real
    ensures 0 <= x.Floor < w
  {
  }

  lemma ScaleBelow(r: real, w: real)
    requires 0.0 <= r < 1.0 && w > 0.0
    ensures 0.0 <= r * w < w
  {
    assert w - r * w == (1.0 - r) * w;
  }

  /** `generateRandomData(min, max, 6)` for the draws `draws` of `Math.random()`. */
  function GeneratedSeries(min: int, max: int, draws: seq<real>): (r: seq<real>)
    requires |draws| == POINTS
    ensures |r| == POINTS
    ensures forall i :: 0 <= i < POINTS ==> r[i] == RandomPoint(min, max, draws[i])
  {
    seq(POINTS, i requires 0 <= i < POINTS => RandomPoint(min, max, draws[i]))
  }

  class HomeChartState {
    var isPlaying: bool
    var isCustomMode: bool
    var playbackData: seq<real>
    var customData: seq<real>
    /** The bounds for generated values (`dataRange`). */
    var rangeMin: int
    var rangeMax: int

    constructor ()
      ensures !isPlaying && !isCustomMode
      ensures playbackData == STATIC_SERIES && customData == STATIC_SERIES
      ensures rangeMin == 60 && rangeMax == 100
      ensures Valid()
    {
      isPlaying := false;
      isCustomMode := false;
      playbackData := STATIC_SERIES;
      customData := STATIC_SERIES;
      rangeMin := 60;
      rangeMax := 100;
    }

    /** Both series always have one point per month. */
    predicate Valid()
      reads this
    {
      |playbackData| == POINTS && |customData| == POINTS
    }

    /** The series the line chart draws. */
    function DisplayedSeries(): (r: seq<real>)
      reads this
      ensures isCustomMode ==> r == customData
      ensures !isCustomMode && isPlaying ==> r == playbackData
      ensures !isCustomMode && !isPlaying ==> r == STATIC_SERIES
      ensures Valid() ==> |r| == POINTS
    {
      if isCustomMode then customData else if isPlaying then playbackData else STATIC_SERIES
    }

    /** `handleDataPointChange`: the number input at `index` changed to `value`. The
        inputs are drawn one per point of the custom series. */
    method HandleDataPointChange(index: nat, value: real)
      requires Valid() && index < |customData|
      modifies this`customData
      ensures customData == old(customData)[index := Clamp(value)]
      ensures 0.0 <= customData[index] <= 100.0
      ensures |customData| == |old(customData)|
      ensures forall i :: 0 <= i < |customData| && i != index ==> customData[i] == old(customData)[i]
      ensures Valid()
    {
      ClampProperties(value);
      customData := customData[index := Clamp(value)];
    }

    /** `toggleCustomMode`: playback stops, the mode flips, and entering
        custom mode starts from the series currently playing. */
    method ToggleCustomMode()
      modifies this`isPlaying, this`isCustomMode, this`customData
      ensures !isPlaying
      ensures isCustomMode == !old(isCustomMode)
      ensures customData == if old(isCustomMode) then old(customData) else old(playbackData)
      ensures old(Valid()) ==> Valid()
    {
      var wasCustom := isCustomMode;
      isPlaying := false;
      isCustomMode := !wasCustom;
      if !wasCustom {
        customData := playbackData;
      }
    }

    /** `togglePlayback`: leave custom mode, and flip playing. */
    method TogglePlayback()
      modifies this`isPlaying, this`isCustomMode
      ensures !isCustomMode
      ensures isPlaying == !old(isPlaying)
    {
      if isCustomMode {
        isCustomMode := false;
      }
      isPlaying := !isPlaying;
    }

    /** One run of the playback effect (at start and on every interval
        tick): while playing outside custom mode, the playback series is
        replaced by six generated values; `draws` are the `Math.random()`
        results. */
    method PlaybackTick(draws: seq<real>)
      requires |draws| == POINTS && forall i :: 0 <= i < |draws| ==> 0.0 <= draws[i] < 1.0
      modifies this`playbackData
      ensures isPlaying && !isCustomMode ==>
                playbackData == GeneratedSeries(rangeMin, rangeMax, draws)
      ensures !(isPlaying && !isCustomMode) ==> playbackData == old(playbackData)
      ensures isPlaying && !isCustomMode && rangeMin <= rangeMax ==>
                forall i :: 0 <= i < POINTS ==> rangeMin as real <= playbackData[i] <= rangeMax as real
      ensures old(Valid()) ==> Valid()
    {
      if isPlaying && !isCustomMode {
        playbackData := GeneratedSeries(rangeMin, rangeMax, draws);
        if rangeMin <= rangeMax {
          forall i | 0 <= i < POINTS
            ensures rangeMin as real <= playbackData[i] <= rangeMax as real
          {
            RandomPointRange(rangeMin, rangeMax, draws[i]);
          }
        }
      }
    }
  }

  /** Entering custom mode and editing one point shows the playback series
      with that one point replaced by its clamped value. */
  method EditAfterEnteringCustomMode(chart: HomeChartState, index: nat, value: real)
    requires chart.Valid() && !chart.isCustomMode && index < POINTS
    modifies chart
    ensures chart.DisplayedSeries() == old(chart.playbackData)[index := Clamp(value)]
    ensures !chart.isPlaying
  {
    chart.ToggleCustomMode();
    chart.HandleDataPointChange(index, value);
  }
}
