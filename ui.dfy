/** The in-game panel (`update_game_ui`) and the FPS counter (`update_fps_ui`). */
module Ui {
  import opened Wrappers
  import opened Numerics
  import opened Constants
  import opened Resources
  import opened Analysis

  // ---------------------------------------------------------------- rating

  datatype Rating = Supreme | Grandmaster | Master | Diamond | Platinum | Gold | Silver | Bronze | KeepPracticing

  /** The label shown for a rating. */
  function RatingLabel(r: Rating): string {
    match r
    case Supreme => "Supreme"
    case Grandmaster => "Grandmaster"
    case Master => "Master"
    case Diamond => "Diamond"
    case Platinum => "Platinum"
    case Gold => "Gold"
    case Silver => "Silver"
    case Bronze => "Bronze"
    case KeepPracticing => "Keep practicing"
  }

  /** The rating of an average delay in milliseconds: the first band whose strict upper bound it is under. */
  function RatingFor(delayMs: real): Rating {
    if delayMs < 125.0 then Supreme
    else if delayMs < 135.0 then Grandmaster
    else if delayMs < 150.0 then Master
    else if delayMs < 165.0 then Diamond
    else if delayMs < 180.0 then Platinum
    else if delayMs < 200.0 then Gold
    else if delayMs < 220.0 then Silver
    else if delayMs < 250.0 then Bronze
    else KeepPracticing
  }

  /** The position of a rating from best (0) to worst (8). */
  function Rank(r: Rating): nat {
    match r
    case Supreme => 0
    case Grandmaster => 1
    case Master => 2
    case Diamond => 3
    case Platinum => 4
    case Gold => 5
    case Silver => 6
    case Bronze => 7
    case KeepPracticing => 8
  }

  /** The strict lower bound of each band, from best to worst. */
  function BandFloor(n: nat): real
    requires 1 <= n <= 8
  {
    [125.0, 135.0, 150.0, 165.0, 180.0, 200.0, 220.0, 250.0][n - 1]
  }

  /** Each rating is given exactly to the delays in its half-open band. */
  lemma RatingBands(delayMs: real)
    ensures var n := Rank(RatingFor(delayMs));
      && (n >= 1 ==> delayMs >= BandFloor(n))
      && (n <= 7 ==> delayMs < BandFloor(n + 1))
  {
  }

  /** The boundaries fall on the side the strict comparison puts them. */
  lemma RatingBoundaries()
    ensures RatingFor(124.9) == Supreme && RatingFor(125.0) == Grandmaster
    ensures RatingFor(249.9) == Bronze && RatingFor(250.0) == KeepPracticing
    ensures RatingLabel(RatingFor(250.0)) == "Keep practicing"
  {
  }

  /** A slower average never earns a better rating. */
  lemma RatingMonotone(a: real, b: real)
    requires a <= b
    ensures Rank(RatingFor(a)) <= Rank(RatingFor(b))
  {
    RatingBands(a);
    RatingBands(b);
  }

  // ---------------------------------------------------------------- accuracy

  /** `hits / (hits + misses) * 100`; `None` stands for the NaN of a trial with no shot. */
  function Accuracy(hits: nat, misses: nat): (r: Option<real>)
    ensures r.Some? <==> hits + misses > 0
  {
    var shots := (hits + misses) as real;
    if shots == 0.0 then None else Some(hits as real / shots * 100.0)
  }

  /** The accuracy is a percentage, 100 exactly when every shot hit and 0 when none did. */
  lemma AccuracyBounds(hits: nat, misses: nat)
    requires hits + misses > 0
    ensures var a := Accuracy(hits, misses).value;
      && 0.0 <= a <= 100.0
      && (misses == 0 <==> a == 100.0)
      && (hits == 0 <==> a == 0.0)
  {
    var shots := (hits + misses) as real;
    var q := hits as real / shots;
    DivBounds(hits as real, shots, 0.0, 1.0);
    assert q * shots == hits as real;
    if misses != 0 && q > 1.0 {
      MulStrict(1.0, q, shots);
    }
    if misses == 0 {
      assert hits as real == shots;
    }
  }

  // ---------------------------------------------------------------- the panel

  /** What `update_game_ui` shows: the live figures, the results, or the title. */
  datatype Panel =
    | Live(remaining: real, accuracy: Option<real>, hits: nat, misses: nat, angularError: Option<real>)
    | Results(averageDelay: real, countDirections: nat, reactDirections: nat, accuracy: Option<real>,
              hits: nat, misses: nat, averageError: Option<real>, peakError: real, rating: Rating)
    | Title

  /** The panel and whether the start hint is visible. */
  datatype GameUi = GameUi(panel: Panel, hintVisible: bool)

  /**
    `update_game_ui` with the info text present: a running trial first, then a finished one,
    otherwise the title.
  */
  function GameUiFor(fl: Float, s: TestState, now: real, camPos: Vec3): (r: GameUi)
    ensures r.panel.Live? <==> s.isRunning
    ensures r.panel.Results? <==> !s.isRunning && s.testCompleted
    ensures r.hintVisible <==> r.panel.Title?
  {
    if s.isRunning then
      var remaining := TestDuration - (now - s.startTime);
      var error := AngularError(fl, Sub3(s.targetPosition, camPos), s.crosshairDirection);
      GameUi(Live(remaining, Accuracy(s.hits, s.misses), s.hits, s.misses, error), false)
    else if s.testCompleted then
      GameUi(Results(s.averageDelay, s.countDirections, s.reactDirections, Accuracy(s.hits, s.misses),
                     s.hits, s.misses, s.rmsDistance, s.peakAngularError, RatingFor(s.averageDelay)), false)
    else
      GameUi(Title, true)
  }

  /** The results panel rates the stored average delay, and its accuracy is a percentage once a shot was fired. */
  lemma ResultsRated(fl: Float, s: TestState, now: real, camPos: Vec3)
    requires !s.isRunning && s.testCompleted && s.hits + s.misses > 0
    ensures var p := GameUiFor(fl, s, now, camPos).panel;
      && p.rating == RatingFor(s.averageDelay)
      && p.accuracy.Some? && 0.0 <= p.accuracy.value <= 100.0
  {
    AccuracyBounds(s.hits, s.misses);
  }

  /** While running, the panel counts down from the trial length and reports a real angle. */
  lemma LivePanel(fl: Float, s: TestState, now: real, camPos: Vec3)
    requires Lawful(fl) && s.isRunning
    ensures var p := GameUiFor(fl, s, now, camPos).panel;
      && p.remaining + (now - s.startTime) == TestDuration
      && (p.angularError.Some? ==> 0.0 <= p.angularError.value <= 180.0)
  {
  }

  // ---------------------------------------------------------------- FPS counter

  /** `FpsUiState`. */
  class FpsUiState {
    var lastUpdateSecs: real

    constructor (lastUpdateSecs: real)
      ensures this.lastUpdateSecs == lastUpdateSecs
    {
      this.lastUpdateSecs := lastUpdateSecs;
    }
  }

  /** Whether the FPS text is due for a refresh at `now`. */
  predicate FpsDue(lastUpdateSecs: real, now: real) {
    now - lastUpdateSecs >= 0.5
  }

  /**
    `update_fps_ui`: at most every half second the refresh time moves to `now`, and the
    smoothed frame rate, if there is one and a text to show it in, is the value displayed.
  */
  method UpdateFpsUi(state: FpsUiState, now: real, fps: Option<real>, hasText: bool)
    returns (shown: Option<real>)
    modifies state
    ensures FpsDue(old(state.lastUpdateSecs), now) ==> state.lastUpdateSecs == now
    ensures !FpsDue(old(state.lastUpdateSecs), now) ==> state.lastUpdateSecs == old(state.lastUpdateSecs)
    ensures shown.Some? <==> FpsDue(old(state.lastUpdateSecs), now) && fps.Some? && hasText
    ensures shown.Some? ==> shown == fps
  {
    if now - state.lastUpdateSecs < 0.5 {
      return None;
    }
    state.lastUpdateSecs := now;
    shown := None;
    if fps.Some? && hasText {
      shown := fps;
    }
  }

  /** Two refreshes are always at least half a second apart. */
  lemma FpsRefreshSpacing(last: real, t1: real, t2: real)
    requires FpsDue(last, t1) && FpsDue(t1, t2)
    ensures t2 - last >= 1.0 && t2 - t1 >= 0.5
  {
  }
}
