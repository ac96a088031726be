# mVRT reaction trainer — a Dafny model

mVRT is a Bevy game that measures how fast a player reacts to a target changing direction.
A trial lasts a fixed time. During it a sphere moves inside a box in front of the frozen camera
and changes heading at random moments. The player follows it with the mouse-driven crosshair,
and an automatic shot is fired at a fixed rate. Once the trial ends, the recorded samples are
analysed. The analysis finds the target's turns and the player's reaction to each turn, giving
delay statistics, angular errors and a rating. A settings screen edits the sensitivity, field
of view, lighting, colours and key bindings: numeric text boxes, HSL sliders, preset buttons
and an HSV colour picker. The settings are saved to and loaded from a configuration file with
hex colour strings and key names.

The model covers the following, one Dafny module per source area:

- `Target`, `Analysis`: the trial step (`update_target`) and the analysis after it.
- `Game`: the start, restart and reset of a trial.
- `Camera`: mouse look and the projection.
- `Ui`: the in-game panel and the FPS counter.
- `Resources`: the `Settings` and `ReactionTest` resources.
- `CfgSettings`, `Config`: the configuration codec and its conversions.
- `NumericInput`, `InputHandlers`: the numeric text entry and the seven input boxes.
- `Buttons`, `Sliders`, `Picker`: the settings buttons, the sliders and the colour picker.

The support modules are `Numerics` (reals, vectors, quaternions, the float library as a
parameter), `Types` (keys, samples, colours), `Constants` and `Wrappers`.

Conventions:

- Resources whose fields the game updates in place are classes: `Resources.Settings` and
  `Resources.ReactionTest`. Each has a value snapshot (`State()`, `Snapshot()`).
- Every system that mutates them is a method whose `ensures` ties the new snapshot to a
  function of the old one. Lemmas about that function state what the game promises.
- f32 arithmetic is modelled on reals.
- The float library is a record of function values (`Numerics.Float`). Its few laws are
  stated by the predicates `Lawful` and `UnitCircle`, and only the lemmas that need them
  assume them.
- The engine's colour conversions are a record `Types.ColorSpace`.
- Time, random draws, the keyboard, mouse events and the presence of entities are parameters.

## Model

| member | source | states |
|---|---|---|
| Target.RayDirectionReversible | src/kernel/target.rs:503-510 | the ray–sphere test depends only on the line: the reversed direction gives the same answer |
| Target.RayHitsIffNearLine | src/kernel/target.rs:503-510 | for a unit direction, the test holds exactly when the line passes within the radius of the centre |
| Target.RayFromInsideHits | src/kernel/target.rs:503-510 | a ray starting inside the sphere always hits it |
| Target.ClampToBox | src/kernel/target.rs:128-136 | the clamped camera coordinates lie in the box, and a point already inside is kept |
| Target.NegZBasis | src/kernel/target.rs:67-70 | the camera basis of the forward vector -Z is (X, Y, -Z) |
| Target.ForwardNegZOrthonormal | src/kernel/target.rs:67-70 | the basis built from the frozen forward vector -Z is orthonormal |
| Target.LocalOfPlace | src/kernel/target.rs:128-136 | in an orthonormal basis, reading back the camera coordinates of a placed point gives the coordinates it was placed at |
| Target.ReflectFacesAway | src/kernel/target.rs:109-119 | the reflected velocity never points against the unit normal |
| Target.ReflectKeepsSpeed | src/kernel/target.rs:109-119 | reflecting about a unit (or zero) normal keeps the speed |
| Target.HeadingSpeed | src/kernel/target.rs:99-106 | a new heading has exactly the target speed |
| Target.NewVelocityProperties | src/kernel/target.rs:86-119 | a redirected target moves at the target speed, and after a boundary hit its velocity has a non-negative component along the direction back to the camera |
| Target.ReflectedAway | src/kernel/target.rs:109-119 | reflecting about the direction back to the camera keeps the speed, and the result's component along that direction is non-negative |
| Target.AnalyzeReactionDelay | src/kernel/target.rs:195-227 | writes exactly the delay statistics of the recorded samples into the resource |
| Target.StoreDelayStatistics | src/kernel/target.rs:207-225 | writes the four delay fields and no other |
| Target.AnalyzeResults | src/kernel/target.rs:182-193 | writes exactly the analysis of the recorded samples |
| Target.FinishTest | src/kernel/target.rs:176-180 | stops the trial, marks it completed, and stores the analysis |
| Target.ShootStep | src/kernel/target.rs:32-52 | performs the shooting stage of a step on the resource |
| Target.RecordShot | src/kernel/target.rs:32-50 | writes the shot time and the two counters and no other field |
| Target.SteerStep | src/kernel/target.rs:61-125 | performs the redirection stage of a step on the resource |
| Target.Redirect | src/kernel/target.rs:106-124 | writes the velocity, the interval and the two timers and no other field |
| Target.MoveStep | src/kernel/target.rs:128-136 | performs the movement stage on the resource |
| Target.RecordStep | src/kernel/target.rs:144-174 | appends one sample and changes nothing else |
| Target.UpdateTarget | src/kernel/target.rs:8-175 | one fixed step of the trial, equal to `Tick` of the old state |
| Target.AdvanceStages | src/kernel/target.rs:32-174 | a running step is shoot, then steer, then move, then record, each on the previous stage's result |
| Target.TickRecordsOneSample | src/kernel/target.rs:144-174 | a running step before the end appends exactly one sample with the trial time, the new target position, the crosshair and the camera position |
| Target.AdvanceKeepsTargetInBox | src/kernel/target.rs:73-136 | in an orthonormal basis, after a step the target is inside the box in front of the camera |
| Target.TickKeepsTargetInBox | src/kernel/target.rs:8-175 | with the frozen -Z camera, every running step keeps the target inside the box |
| Target.TickShoots | src/kernel/target.rs:32-52 | when a shot is due, exactly one hit or miss is scored, a hit exactly when the crosshair ray meets the target; otherwise the shot state is kept |
| Target.TickRedirects | src/kernel/target.rs:61-125 | redirection happens exactly on the timer or on leaving the box; the new velocity is `NewVelocity` of the old velocity and the drawn angle, with the target speed, a non-negative component along the direction back to the camera after a boundary hit, and the next timer, and otherwise keeps velocity and timers |
| Target.TickKeepsTrialParameters | src/kernel/target.rs:8-30 | no step changes the frozen camera, the trial parameters or the crosshair; a step ends the trial exactly when a running trial with a target reaches the duration |
| Target.TickOutsideTrial | src/kernel/target.rs:16-30 | a step changes nothing unless a trial runs with a target; at the trial's end it finishes an uncompleted trial once, appending no sample |
| Target.AdvanceKeepsTrialParameters | src/kernel/target.rs:32-174 | the stages of a step leave the frozen parameters alone |
| Target.TickKeepsSamplesOrdered | src/kernel/target.rs:144-174 | samples stay in time order across steps |
| Target.DelayStatisticsStored | src/kernel/target.rs:195-227 | statistics are written only for at least 100 samples and one delay; a stored mean and median lie in [70, 800] ms, and the reacted count is at most the detected count |
| Target.AnalyzeChangesOnlyStatistics | src/kernel/target.rs:182-193 | the analysis changes only the six statistics |
| Target.AnalyzeStored | src/kernel/target.rs:182-193 | nothing is stored below 50 samples; otherwise the average and peak angular errors are stored, each in [0, 180] degrees when defined |
| Analysis.StepSum | src/kernel/target.rs:272-306 | at most one counted step per pair of samples |
| Analysis.AccumulateSteps | src/kernel/target.rs:285-299 | the loop's sum and count of counted step velocities equal the `StepSum` specification |
| Analysis.CalculateSmoothedDirection | src/kernel/target.rs:272-306 | the smoothed direction (mean counted velocity, or zero) equals `SmoothedDirection` |
| Analysis.StepSumUniform | src/kernel/target.rs:272-306 | steps that all count with one velocity v sum to n·v with count n |
| Analysis.UniformMotionSmoothed | src/kernel/target.rs:272-306 | a track moving uniformly over a window is smoothed to exactly its velocity |
| Analysis.DegreesRange | src/kernel/target.rs:249-252 | an angle in [0, π] converts to [0, 180] degrees |
| Analysis.AcosDegrees | src/kernel/target.rs:249-252 | acos of a clamped cosine lies in [0, 180] degrees |
| Analysis.AngleDegrees | src/kernel/target.rs:249-252 | the angle between two directions lies in [0, 180] degrees |
| Analysis.FindTargetDirectionChanges | src/kernel/target.rs:229-270 | the loop's result equals the `DirectionChanges` specification |
| Analysis.ChangesNext | src/kernel/target.rs:254-264 | one loop iteration either appends the detected turn or keeps the list |
| Analysis.DetectTurn | src/kernel/target.rs:236-252 | the loop body's turn test equals the `Turn` specification |
| Analysis.ChangesStep | src/kernel/target.rs:235-266 | each step records nothing, or appends one change at sample i-1 with the new direction and at least 80 ms from every earlier change |
| Analysis.ChangesAtSampleTimes | src/kernel/target.rs:235-266 | every change has the time of a sample at an index in [7, len-7) |
| Analysis.ChangesSpaced | src/kernel/target.rs:254-256 | no two recorded changes are less than 80 ms apart |
| Analysis.ChangesUnitDirections | src/kernel/target.rs:245-262 | every recorded new direction is a unit vector |
| Analysis.DirectionChangesProperties | src/kernel/target.rs:229-270 | over the whole trial, changes sit at sample times inside the scanned range and are at least 80 ms apart |
| Analysis.FirstAtOrAfter | src/kernel/target.rs:334-335 | a found index lies in range and is at or after the time |
| Analysis.FirstAtOrAfterIsFirst | src/kernel/target.rs:334-335 | a found index is the first such sample, and none is found only when there is none |
| Analysis.LastAtOrBefore | src/kernel/target.rs:334-335 | a found index lies in range and is at or before the time |
| Analysis.LastAtOrBeforeIsLast | src/kernel/target.rs:334-335 | a found index is the last such sample, and none is found only when there is none |
| Analysis.Relevant | src/kernel/target.rs:386-390 | the filter never lengthens the samples |
| Analysis.RelevantExactly | src/kernel/target.rs:386-390 | the filter keeps exactly the samples whose time lies in the window |
| Analysis.DirectionBefore | src/kernel/target.rs:382-419 | with fewer than three samples in the 150 ms window there is no direction |
| Analysis.CrosshairDirectionBeforeTime | src/kernel/target.rs:382-419 | the method's result equals `DirectionBefore` |
| Analysis.FirstReactionFound | src/kernel/target.rs:349-376 | a reaction found is the time of a searched sample at which the crosshair reacts, and no earlier sample of the range reacts |
| Analysis.FirstReactionNone | src/kernel/target.rs:349-378 | the search finds nothing exactly when no sample of the range reacts |
| Analysis.PlayerReaction | src/kernel/target.rs:327-379 | there is no reaction with under three samples in the 150 ms before the change |
| Analysis.PlayerReactionNeedsDirection | src/kernel/target.rs:345-346 | there is no reaction without a crosshair direction before the change |
| Analysis.PlayerReactionIsFirst | src/kernel/target.rs:327-379 | the reaction is the time of the first sample of the window, up to three before its end, at which the crosshair reacts; there is none exactly when no such sample reacts |
| Analysis.FindPlayerReaction | src/kernel/target.rs:327-379 | the scan with early return equals `PlayerReaction` |
| Analysis.FirstReactionStep | src/kernel/target.rs:349-376 | one scan step returns at a reacting sample or moves on to the next |
| Analysis.CheckReaction | src/kernel/target.rs:350-375 | the loop body's test equals `Reacts`: long enough, turned by 25 degrees or more, and better aligned with the target by more than 0.05 |
| Analysis.ReactionInWindow | src/kernel/target.rs:327-379 | on time-ordered samples a reaction found lies within the searched window |
| Analysis.ReactionDelays | src/kernel/target.rs:308-325 | no more delays than changes |
| Analysis.ReactionDelaysSnoc | src/kernel/target.rs:316-321 | one more change appends its delay when it found a reaction, and nothing otherwise |
| Analysis.ReactionDelay | src/kernel/target.rs:313-320 | the loop body's delay equals `DelayFor` |
| Analysis.CalculateReactionDelays | src/kernel/target.rs:308-325 | the loop's delays equal `ReactionDelays` |
| Analysis.DelayForBounded | src/kernel/target.rs:313-319 | on time-ordered samples a delay lies in [0.07, 0.8] s |
| Analysis.DelaysBounded | src/kernel/target.rs:308-325 | every delay lies in [0.07, 0.8] s |
| Analysis.SumBounds | src/kernel/target.rs:207-209 | a sum of values in [lo, hi] lies in [n·lo, n·hi] |
| Analysis.Insert | src/kernel/target.rs:212-213 | insertion into a sorted sequence keeps it sorted and adds exactly the element |
| Analysis.SortAscending | src/kernel/target.rs:212-213 | the sort result is ascending and a permutation of its input |
| Analysis.SortKeepsBounds | src/kernel/target.rs:212-213 | sorting keeps every value within the bounds |
| Analysis.StatisticsBounds | src/kernel/target.rs:207-223 | the mean and the median of values in [lo, hi] s lie in [1000·lo, 1000·hi] ms |
| Analysis.DelayStatisticsBounds | src/kernel/target.rs:195-227 | on time-ordered samples the mean and median delays lie in [70, 800] ms |
| Analysis.AngularError | src/kernel/target.rs:456-470 | the error is defined exactly for two non-zero vectors, and then lies in [0, 180] degrees |
| Analysis.AverageError | src/kernel/target.rs:472-489 | the average over no samples is 0 |
| Analysis.ErrorSumBounds | src/kernel/target.rs:472-489 | a defined error sum lies in [0, 180·n] |
| Analysis.AverageErrorBounds | src/kernel/target.rs:472-489 | a defined average error lies in [0, 180] degrees |
| Analysis.PeakErrorBounds | src/kernel/target.rs:491-501 | the peak lies in [0, 180] and is at least every defined per-sample error |
| Game.LawfulNormalizable | src/kernel/game.rs:523 | with a lawful float library the launch direction can be normalised |
| Game.LaunchDirectionLength | src/kernel/game.rs:523 | (1, 0.5, 0.5) has positive length |
| Game.LaunchVelocitySpeed | src/kernel/game.rs:523 | the launch velocity has the target speed and points along (2, 1, 1) |
| Game.StartTest | src/kernel/game.rs:513-528 | the resource after `start_test` equals `Started` of its old snapshot |
| Game.ResetTest | src/kernel/game.rs:530-545 | the resource after `reset_test` equals `Reset` of its old snapshot |
| Game.StoreRun | src/kernel/game.rs:514-517 | writes the run flags, start time and cleared samples only |
| Game.StoreScore | src/kernel/game.rs:534-536 | clears the score and the last shot time only |
| Game.StoreAim | src/kernel/game.rs:519-523 | writes the crosshair, target position and velocity only |
| Game.StoreSchedule | src/kernel/game.rs:524-527 | writes the first change time and the camera angles only |
| Game.AimAtCamera | src/kernel/game.rs:482-486 | freezes the camera position and forward vector, and places the target ahead of the camera |
| Game.GameInputSystem | src/kernel/game.rs:467-511 | the new trial equals `InputState`, and the requested state equals `InputRequest` |
| Game.StartedSpec | src/kernel/game.rs:513-528 | a started trial runs from `now` with no samples, the target straight ahead along -Z and the launch velocity; it keeps the score, and nothing else is written |
| Game.ResetIdle | src/kernel/game.rs:530-545 | a reset trial is idle with no shot, the target at the origin and the default timers |
| Game.ResetIdempotent | src/kernel/game.rs:530-545 | resetting twice is resetting once |
| Game.StartKeyIgnoredWhileRunning | src/kernel/game.rs:493 | the start key does nothing to a running trial |
| Game.StartKeyStarts | src/kernel/game.rs:493-506 | the start key on an idle trial starts a fresh trial that keeps the old score |
| Game.RestartKeyResets | src/kernel/game.rs:477-506 | restart always zeroes the score; with a camera the trial is running, and without one it is only reset (or started when the start key is also down) |
| Game.StartPathsAimFromCamera | src/kernel/game.rs:477-506 | after either start path with a camera, the target sits `target_distance` ahead of the camera along -Z |
| Game.InputKeepsForwardNegZ | src/kernel/game.rs:467-511 | every input path keeps the frozen forward vector at -Z |
| Game.SettingsKeyRequestsSettings | src/kernel/game.rs:508-510 | the settings screen is requested exactly when its key goes down, and the game state never is |
| Camera.SumDeltasAppend | src/kernel/camera.rs:17-20 | summing two runs of events is adding their sums |
| Camera.NewPitch | src/kernel/camera.rs:25-26 | the pitch is clamped to [-π/2, π/2] and unchanged when already within |
| Camera.UpdateCamera | src/kernel/camera.rs:7-36 | the trial after `update_camera` equals `Look` of the summed delta, and the rotation written equals `CameraRotation` |
| Camera.StoreLook | src/kernel/camera.rs:24-30 | writes the yaw, pitch and crosshair only |
| Camera.LookStillWhenIdle | src/kernel/camera.rs:13-22 | nothing changes and nothing is written while idle or without motion |
| Camera.LookTurns | src/kernel/camera.rs:23-26 | a movement turns yaw by -dx·s and pitch by -dy·s, clamped at straight up or down; no other field changes |
| Camera.LookKeepsPitchBounded | src/kernel/camera.rs:25-26 | the pitch stays within [-π/2, π/2] |
| Camera.CrosshairFollowsCamera | src/kernel/camera.rs:28-34 | the crosshair is the camera rotation applied to -Z, and both come from the new yaw and pitch |
| Camera.YawAdds | src/kernel/camera.rs:17-24 | splitting a frame's events in two turns the yaw by the same total |
| Camera.AspectRatio | src/kernel/camera.rs:43-47 | without a window the ratio is 1200/800; with one it is width over height, undefined for a zero side |
| Camera.VerticalFovBounded | src/kernel/camera.rs:49-50 | the vertical field of view lies in (-π, π) |
| Camera.ApplyFovWithoutWindow | src/kernel/camera.rs:38-58 | without a window the projection uses aspect 1.5 and the matching vertical angle |
| Ui.RatingBands | src/user_interface/ui.rs:111-121 | each rating covers exactly its half-open band of average delays |
| Ui.RatingBoundaries | src/user_interface/ui.rs:111-121 | the band edges fall on the side of the strict comparisons, with 250 ms as "Keep practicing" |
| Ui.RatingMonotone | src/user_interface/ui.rs:111-121 | a slower average never gets a better rating |
| Ui.Accuracy | src/user_interface/ui.rs:100 | accuracy is defined exactly when a shot was fired |
| Ui.AccuracyBounds | src/user_interface/ui.rs:100 | accuracy lies in [0, 100]: 100 exactly without misses and 0 exactly without hits |
| Ui.GameUiFor | src/user_interface/ui.rs:75-159 | the live panel is shown exactly while running, results exactly after completion, and the hint only with the title |
| Ui.ResultsRated | src/user_interface/ui.rs:110-150 | the results rate the stored average delay and show an accuracy percentage |
| Ui.LivePanel | src/user_interface/ui.rs:83-109 | the live panel counts down from the trial length and shows an angle in [0, 180] |
| Ui.FpsUiState.constructor | src/user_interface/ui.rs:161-181 | holds the given last update time |
| Ui.UpdateFpsUi | src/user_interface/ui.rs:161-181 | the text is refreshed, and the time stamped, exactly when half a second has passed and an FPS value and a text exist |
| Ui.FpsRefreshSpacing | src/user_interface/ui.rs:167-171 | two refreshes are at least half a second apart |
| Resources.Sensitivity | src/state/resources.rs:109-113 | the sensitivity exists exactly for non-zero cm/360 and dpi; it turns a full 360 in cm/360 of travel, and is positive for positive inputs |
| Resources.Settings.Default | src/state/resources.rs:63-106 | the default settings, with the default dpi, cm/360 and fov, and the picker closed |
| Resources.Settings.Holding | src/config/config.rs:22-62 | a resource holding exactly the given values |
| Resources.Settings.MouseSensitivity | src/state/resources.rs:109-113 | finite exactly when cm/360 times dpi is non-zero; the counts of one cm/360 sweep turn by 2π; positive for positive settings |
| Resources.Settings.GetCrosshairColor | src/state/resources.rs:116-118 | an opaque colour whose HSL form, in every colour space, is the stored crosshair fields; setting it back with `set_crosshair_color` leaves the resource unchanged |
| Resources.Settings.GetArenaColor | src/state/resources.rs:120-122 | an opaque colour whose HSL form, in every colour space, is the stored arena fields; setting it back with `set_arena_color` leaves the resource unchanged |
| Resources.Settings.GetTargetColor | src/state/resources.rs:124-126 | an opaque colour whose HSL form, in every colour space, is the stored target fields; setting it back with `set_target_color` leaves the resource unchanged |
| Resources.Settings.GetFresnelColor | src/state/resources.rs:128-130 | an opaque colour whose HSL form, in every colour space, is the stored Fresnel fields; setting it back with `set_fresnel_color` leaves the resource unchanged |
| Resources.Settings.SetCrosshairColor | src/state/resources.rs:133-138 | writes the colour's HSL into the crosshair fields and nothing else |
| Resources.Settings.SetArenaColor | src/state/resources.rs:140-145 | writes the colour's HSL into the arena fields and nothing else |
| Resources.Settings.SetTargetColor | src/state/resources.rs:147-152 | writes the colour's HSL into the target fields and nothing else |
| Resources.Settings.SetFresnelColor | src/state/resources.rs:154-159 | writes the colour's HSL into the Fresnel fields and nothing else |
| Resources.ColorGetSetIdentity | src/state/resources.rs:116-159 | setting a colour to what its getter returns changes nothing |
| Resources.DefaultVelocity | src/state/resources.rs:226 | the default velocity has the target speed |
| Resources.ReactionTest.Default | src/state/resources.rs:218-248 | an idle trial facing -Z, with a 30 Hz shot rate, target distance 15 and the first change at 0.1 s |
| CfgSettings.AsU8 | src/state/cfgsettings.rs:78-80 | the `as u8` cast truncates toward zero and saturates at 0 and 255 |
| CfgSettings.Hex2 | src/state/cfgsettings.rs:82 | a byte is written as two upper-case hex digits |
| CfgSettings.SrgbBytes | src/state/cfgsettings.rs:76-80 | each channel becomes a byte |
| CfgSettings.ColorToHexShape | src/state/cfgsettings.rs:75-83 | the output is '#' and six upper-case hex digits |
| CfgSettings.TrimHashes | src/state/cfgsettings.rs:86 | drops exactly the leading '#'s: the result is a suffix not starting with '#', and only '#'s were removed |
| CfgSettings.Utf8Len | src/state/cfgsettings.rs:87 | the byte length is at least the character count |
| CfgSettings.Utf8LenAscii | src/state/cfgsettings.rs:87 | byte length equals character count exactly for ASCII |
| CfgSettings.U8FromHex | src/state/cfgsettings.rs:91-93 | a parsed byte is below 256 |
| CfgSettings.PairAccepted | src/state/cfgsettings.rs:91-93 | a two-character pair parses exactly when it is two hex digits or '+' followed by one hex digit, as `u8::from_str_radix` accepts |
| CfgSettings.HexToColor | src/state/cfgsettings.rs:85-100 | failures carry only the length message or the invalid-hex message |
| CfgSettings.HexToColorLengthError | src/state/cfgsettings.rs:87-89 | a remainder that is not six bytes is refused with the length message |
| CfgSettings.HexToColorAcceptsExactly | src/state/cfgsettings.rs:85-100 | a string is accepted exactly when, after the '#'s, it is six ASCII characters forming three hex pairs |
| CfgSettings.HexStringRoundTrip | src/state/cfgsettings.rs:75-100 | formatting three bytes and parsing them back gives the same bytes and their sRGB colour |
| CfgSettings.ColorToHexParses | src/state/cfgsettings.rs:75-100 | every colour written is read back, with the same bytes |
| CfgSettings.ColorToHexRoundTrip | src/state/cfgsettings.rs:75-100 | reading back a written colour gives the colour quantised to sRGB bytes |
| CfgSettings.DefaultColorsAccepted | src/state/cfgsettings.rs:55-61 | the four default colour strings parse, as red, cyan, red and yellow bytes |
| CfgSettings.DefaultColorsParsed | src/state/cfgsettings.rs:55-61 | the default colours read as sRGB red, cyan, red and yellow |
| CfgSettings.SerializeUnlisted | src/state/cfgsettings.rs:102-160 | a key is written as "F35" exactly when it is outside the table |
| CfgSettings.ListedKeyRoundTrip | src/state/cfgsettings.rs:102-221 | a key in the table reads back as itself |
| CfgSettings.UnlistedKeyRoundTrip | src/state/cfgsettings.rs:157-219 | a key outside the table reads back as F35 |
| CfgSettings.KeyNameRoundTrip | src/state/cfgsettings.rs:163-221 | a name that reads as a key other than F35 is that key's own name; a name that no listed key is written as reads as F35 |
| Config.FromConfig | src/config/config.rs:22-62 | the resource built equals `SettingsOf` the configuration |
| Config.BuiltCopies | src/config/config.rs:24-42 | scalar, file and key fields are copied and the picker stays default, whatever the colours parse to |
| Config.BuiltColors | src/config/config.rs:45-59 | each colour is the parsed one's HSL when it parsed, and the default otherwise |
| Config.SettingsOfCopies | src/config/config.rs:24-42 | `Settings::from` copies scalar, file and key fields and keeps the picker default |
| Config.SettingsOfColors | src/config/config.rs:45-59 | a colour string that parses is set through its setter, and one that does not leaves the default |
| Config.BadHexKeepsDefault | src/config/config.rs:49-51 | a refused arena string leaves the default cyan |
| Config.DefaultConfigSettings | src/config/config.rs:22-62 | the default configuration gives the default settings with the colours set from their sRGB spelling |
| Config.ConfigOfSettings | src/config/config.rs:66-93 | each saved colour string reads back as the sRGB-quantised colour of its getter; the scalar, file and key fields are the resource's own |
| Config.ConfigColorsParse | src/config/config.rs:66-93 | every saved colour string parses back |
| Config.ConfigRoundTrip | src/config/config.rs:22-93 | configuration to settings to configuration keeps every field except the four colour strings |
| Config.SettingsRoundTrip | src/config/config.rs:22-93 | settings to configuration to settings keeps scalar, file and key fields, resets the picker, and turns each colour into the HSL of its sRGB bytes |
| NumericInput.TextBuffer.constructor | src/user_interface/ui_components.rs:819 | holds the given text |
| NumericInput.TablePosition | src/user_interface/ui_components.rs:838-865 | a position is at most 24 |
| NumericInput.PositionHolds | src/user_interface/ui_components.rs:838-865 | every table entry is found at its own position |
| NumericInput.Typing | src/user_interface/ui_components.rs:867-887 | a typed character is a digit, '.' or '-' |
| NumericInput.HandleNumericInput | src/user_interface/ui_components.rs:867-887 | the buffer after one key equals `Handled` |
| NumericInput.ProcessNumericInput | src/user_interface/ui_components.rs:819-836 | the buffer after a frame equals `Processed`: table keys in order, then the erasing keys |
| NumericInput.HandledAppends | src/user_interface/ui_components.rs:867-887 | one key appends at most one numeric character, and '-' only to an empty buffer when allowed |
| NumericInput.TypedAppends | src/user_interface/ui_components.rs:820-824 | typing only appends numeric characters, with '-' only at the front when allowed |
| NumericInput.TypedNothing | src/user_interface/ui_components.rs:820-824 | with no table key down, typing changes nothing |
| NumericInput.ProcessedCharacters | src/user_interface/ui_components.rs:819-836 | a frame only adds numeric characters, and '-' only at the front |
| NumericInput.AtMostOneErased | src/user_interface/ui_components.rs:827-831 | without Delete at most one character is erased from the end, exactly when an erasing key is active and there is text |
| NumericInput.DeleteClears | src/user_interface/ui_components.rs:833-835 | Delete empties the buffer |
| NumericInput.OtherKeysIgnored | src/user_interface/ui_components.rs:819-836 | keys outside the table and the erasing keys change nothing |
| NumericInput.NoMinusWhenDisallowed | src/user_interface/ui_components.rs:880-884 | with minus disallowed, no '-' is ever added |
| NumericInput.TableDistinct | src/user_interface/ui_components.rs:838-865 | no key is listed twice |
| NumericInput.TypedSingle | src/user_interface/ui_components.rs:820-824 | a single key down types that key's effect if it is listed, and nothing otherwise |
| NumericInput.SingleKeyTypes | src/user_interface/ui_components.rs:820-824 | a single table key down types exactly that key's effect |
| NumericInput.TypedSkipsAbsent | src/user_interface/ui_components.rs:820-824 | table entries that are not down do not change the buffer |
| NumericInput.MinusAfterDigitDropped | src/user_interface/ui_components.rs:820-884 | with "1" and "-" going down together on an empty buffer, the digit comes first in table order, so the minus is dropped |
| InputHandlers.InputFocus.constructor | src/config/settings/input_handlers.rs:29-31 | no box holds the focus |
| InputHandlers.AllFieldsListed | src/config/settings/input_handlers.rs:384-481 | every field is among those the clearing pass visits |
| InputHandlers.WithField | src/config/settings/input_handlers.rs:38 | writes only the field's own setting |
| InputHandlers.WithFieldOnlyField | src/config/settings/input_handlers.rs:38 | writing a field back to its old value restores the settings |
| InputHandlers.Hi | src/config/settings/input_handlers.rs:38 | every clamp range is non-empty |
| InputHandlers.StoreField | src/config/settings/input_handlers.rs:38 | writes the named field's setting only |
| InputHandlers.InputBoxSystem | src/config/settings/input_handlers.rs:6-45 | one box's run: the focus, the editing mark, the buffer, the settings and the label after the run, each given by its specification function |
| InputHandlers.EditBuffer | src/config/settings/input_handlers.rs:33-43 | the keys edit the buffer, a parsed value is clamped and stored, and the label is the buffer with the caret |
| InputHandlers.PressFocuses | src/config/settings/input_handlers.rs:15-18 | a press gives the box focus and marks it editing |
| InputHandlers.EscapeReleases | src/config/settings/input_handlers.rs:19-32 | Escape off the box removes the mark, releases this box's focus and shows the formatted setting |
| InputHandlers.CommitClamps | src/config/settings/input_handlers.rs:37-39 | a parsed number stores its value clamped into the field's range, and nothing else |
| InputHandlers.UnparsableKeeps | src/config/settings/input_handlers.rs:37-39 | an unparsable buffer leaves the settings unchanged |
| InputHandlers.CaretShown | src/config/settings/input_handlers.rs:40 | while a box reads keys its label is the buffer followed by '\|' |
| InputHandlers.ReadsOnlyWhenFocused | src/config/settings/input_handlers.rs:33 | a box reads keys exactly when it was marked and holds the focus |
| InputHandlers.AmbientRejectsMinus | src/config/settings/input_handlers.rs:337 | the ambient-light box never gains a '-', and every other box allows one |
| InputHandlers.ClearOtherEditingStates | src/config/settings/input_handlers.rs:349-483 | exactly the unfocused editing boxes lose their mark and show the formatted setting |
| InputHandlers.AtMostOneEditing | src/config/settings/input_handlers.rs:384-481 | after the pass at most one box is editing, and it is the focused one |
| Buttons.Window.constructor | src/config/settings/button_handlers.rs:9 | holds the given mode |
| Buttons.Toggled | src/config/settings/button_handlers.rs:14-19 | the toggle always switches between windowed and a full-screen mode |
| Buttons.ToggleTwice | src/config/settings/button_handlers.rs:14-19 | two presses return to windowed, or settle on borderless from any full-screen mode |
| Buttons.HandleFullscreenToggle | src/config/settings/button_handlers.rs:7-23 | only a press toggles the window mode |
| Buttons.FresnelFlipped | src/config/settings/button_handlers.rs:43 | the switch flips and nothing else changes |
| Buttons.FresnelTwice | src/config/settings/button_handlers.rs:43 | two presses restore the settings |
| Buttons.HandleFresnelClicks | src/config/settings/button_handlers.rs:41-51 | a press flips the switch and paints the background for the new value; otherwise nothing changes |
| Buttons.NextArenaHue | src/config/settings/button_handlers.rs:83-99 | cycles cyan, yellow, magenta with a 1-degree tolerance |
| Buttons.NextTargetHue | src/config/settings/button_handlers.rs:104-120 | cycles red, green, blue; any hue under 1 counts as red |
| Buttons.ArenaPreset | src/config/settings/button_handlers.rs:81-100 | sets full saturation and half lightness and changes only the arena fields |
| Buttons.TargetPreset | src/config/settings/button_handlers.rs:102-121 | sets full saturation and half lightness and changes only the target fields |
| Buttons.ArenaCycle | src/config/settings/button_handlers.rs:81-100 | from cyan, three presses come back to cyan |
| Buttons.ArenaPeriodic | src/config/settings/button_handlers.rs:81-100 | after one press, the arena presets repeat with period three |
| Buttons.TargetCycle | src/config/settings/button_handlers.rs:102-121 | from red, three presses come back to red |
| Buttons.TargetPeriodic | src/config/settings/button_handlers.rs:102-121 | after one press, the target presets repeat with period three |
| Buttons.ButtonRequest | src/config/settings/button_handlers.rs:123-129 | the game state is requested exactly by a press on Back or Start |
| Buttons.PressArena | src/config/settings/button_handlers.rs:81-100 | the arena preset written into the resource |
| Buttons.PressTarget | src/config/settings/button_handlers.rs:102-121 | the target preset written into the resource |
| Buttons.SettingsButtonSystem | src/config/settings/button_handlers.rs:54-154 | a press applies the presets of the button's roles, the background follows the interaction, and the request follows `ButtonRequest` |
| Sliders.WithSlider | src/config/settings/slider_handlers.rs:77-112 | writes only the bar's own setting |
| Sliders.WrappedHueIsRemEuclid | src/config/settings/slider_handlers.rs:54-57 | `%` then +360 for negatives is the Euclidean remainder, a hue in [0, 360) |
| Sliders.Dragged | src/config/settings/slider_handlers.rs:52-61 | a dragged hue lies in [0, 360), and a saturation or lightness in [0, 1] |
| Sliders.FillWithinBar | src/config/settings/slider_handlers.rs:63-70 | a fill for a valid setting is between 0 and 200 px |
| Sliders.SlidSettings | src/config/settings/slider_handlers.rs:76-112 | each pressed bar moves by the frame's travel and every other setting is kept |
| Sliders.StillWithoutDrag | src/config/settings/slider_handlers.rs:51 | without a held button or sideways travel nothing changes |
| Sliders.StoreSlider | src/config/settings/slider_handlers.rs:79-110 | writes the bar's setting only |
| Sliders.StepsCompose | src/config/settings/slider_handlers.rs:76-112 | the six loops in source order compose to `SlidSettings` |
| Sliders.DragValue | src/config/settings/slider_handlers.rs:52-61 | the computed value equals `Dragged` |
| Sliders.ApplyHsl | src/config/settings/slider_handlers.rs:50-74 | moves the bar when the gate holds, and returns the fill width of the new value |
| Sliders.WithSliderSame | src/config/settings/slider_handlers.rs:50-74 | writing a bar's own value changes nothing |
| Sliders.SlideAll | src/config/settings/slider_handlers.rs:76-112 | the six loops leave the settings at `SlidSettings` |
| Sliders.SettingsSliderSystem | src/config/settings/slider_handlers.rs:5-113 | the frame's events are summed, then the settings end at `SlidSettings` of that sum |
| Picker.Chosen | src/config/settings/color_picker.rs:24-47 | a swatch opens the picker exactly when it carries a marker |
| Picker.OpenedTargets | src/config/settings/color_picker.rs:24-47 | opening names the colour, opens the picker, and keeps every colour |
| Picker.StartPicker | src/config/settings/color_picker.rs:24-31 | writes the picker components, target and open flag |
| Picker.HandleColorPickerClicks | src/config/settings/color_picker.rs:8-51 | a press on a marked swatch opens the picker on its colour; otherwise nothing changes |
| Picker.Closed | src/config/settings/color_picker.rs:278-289 | closing clears the open flag and the target and nothing else |
| Picker.ClosePicker | src/config/settings/color_picker.rs:278-289 | the resource after closing equals `Closed` |
| Picker.AppliedWritesTarget | src/config/settings/color_picker.rs:86-117 | Apply writes the picked colour's HSL into exactly the named colour |
| Picker.CloseKeepsColors | src/config/settings/color_picker.rs:278-289 | closing changes no colour, and closing twice is closing once |
| Picker.HandleColorPickerButtons | src/config/settings/color_picker.rs:53-129 | Apply writes and closes, Close closes; the named swatch is repainted with the picked colour |
| Picker.HandleColorPickerEscape | src/config/settings/color_picker.rs:267-276 | Escape closes an open picker |
| Picker.PickerSlid | src/config/settings/color_picker.rs:131-175 | nothing changes when closed or without a drag, and only the picker components ever change |
| Picker.PickerSlidRanges | src/config/settings/color_picker.rs:148-172 | a moved hue is in [0, 360), a moved saturation or brightness in [0, 1], and unpressed bars keep their values |
| Picker.HandleColorPickerSliders | src/config/settings/color_picker.rs:131-175 | the events are summed, then the picker ends at `PickerSlid` of the sum |
| Picker.SegmentParamInside | src/config/settings/color_picker.rs:203 | a segment's middle lies strictly inside (0, 1) |
| Picker.UpdateColorPickerDisplay | src/config/settings/color_picker.rs:177-221 | when open, the preview and every segment are painted with their colours; when closed, nothing is |
| Picker.HandlePositions | src/config/settings/color_picker.rs:223-265 | handle positions exist exactly when the picker is open |
| Picker.HandlesOnBars | src/config/settings/color_picker.rs:255-263 | components in range put every handle within 0–100 % of its bar |

## Left out

- Floating point: f32 values are reals. Rounding, overflow and infinities are not modelled. NaN is modelled as `None` where the code can produce it: the accuracy with no shot, the angular error of a zero vector, the sensitivity with a zero divisor. Camera.AspectRatio is `None` when either side of the window is zero. In f32 only a 0×0 window gives NaN; a zero width gives 0 and a zero height gives infinity, and the program still writes a projection (fov ±π or 0). The model writes no projection in any of these cases.
- `π` is a fixed decimal constant. `sqrt`, `acos`, `atan`, `atan2`, `sin`, `cos`, `tan` and `str::parse::<f32>` are functions passed in, so number parsing and formatting are not modelled.
- The u32 and usize counters are unbounded naturals, so their wrap-around is not modelled.
- Camera.UpdateCamera: requires a finite sensitivity (`cm_360` and `dpi` non-zero). With a zero divisor the f32 division would give infinity or NaN.
- Analysis.FindTargetDirectionChanges: requires at least seven samples. Below that, `len() - 7` underflows. Its only caller, `analyze_reaction_delay`, needs 100 samples first.
- CfgSettings.HexToColor: `&hex[0..2]`, `&hex[2..4]` and `&hex[4..6]` slice bytes, so a six-byte remainder whose byte 2 or 4 falls inside a multi-byte character ("#aébcd") panics in the source. The model refuses every non-ASCII remainder with the invalid-hex message instead. Config.BuiltColors, Config.SettingsOfColors and Config.BadHexKeepsDefault therefore keep the default colour where the program would stop while loading the configuration.
- The boundary reflection in `NewVelocity` (src/kernel/target.rs:108-118) only ensures that the target does not move away from the camera. The box is not centred on the camera, so the target can still move towards the wall it left; the source's comments promise more than the code computes.
- Ui.GameUiFor: takes the camera position as a parameter. The source unwraps the single player camera during a running trial and panics without one; the model assumes the camera exists.
- Analysis.PlayerReaction: when the window's last index is below 3, the source's `end_idx - 3` underflows, which panics in a debug build. The model returns `None` there.
- Target.UpdateTarget: requires a non-zero frozen forward vector, which every start path sets to -Z. It also requires the random draws to lie in the ranges `gen_range` gives them.
- Analysis.SortAscending: `sort_by(partial_cmp)` is an insertion sort specified by its result, sorted and a permutation. The order of equal delays is not modelled.
- Picker.UpdateColorPickerDisplay: requires every segment count to be positive. A zero count would divide by zero.
- Sliders.SlideAll: states the new settings and only the number of fills. The width of each fill is stated per bar by `Sliders.ApplyHsl`.
- Sliders.SettingsSliderSystem: states the new settings and only the number of fills, as above.
- NumericInput.SingleKeyTypes: requires the key to be in the table. Keys outside it are covered by `NumericInput.TypedSingle`.
- The hue remainders use exact real arithmetic. The f32 `%` and `rem_euclid` can round to 360 for tiny negative inputs.
- Each handler works on one entity per call: one box, one swatch or one button whose interaction changed. A loop over several changed entities of one query is not modelled.
- `Changed<Interaction>`, mouse buttons and keys are parameters: pressed flags, pressed-bar sets and `Keys`.
- The Apply and Close buttons are boolean flags.
- The colour picker does not read mouse-motion events while closed. Those events are not carried over to later frames.
- ECS commands are not modelled: spawning the picker, despawning it recursively, inserting and removing editing markers. The markers appear as a boolean before and after a box's run.
- The overlay click that closes the picker is not modelled.
- The Discord link's external process is not modelled.
- The configuration file, its serde encoding, file I/O and the autosave and save-event systems are not modelled. `Settings::from` and `GameConfig::from` are.
- Audio, meshes, materials, lighting, theming, the Fresnel shader and the UI layout (`ui_setup.rs`) are not modelled.
- `update_button_styles` is not modelled.
- `Window` keeps only its mode; the other Bevy window fields are not needed here.
- The FPS text is the raw value. Its formatting is not modelled.
- Bevy's colour-space conversions are functions passed in (`Types.ColorSpace`). Only "a colour already in that space is returned unchanged" is assumed of them.
