# AI-VR-ME digital twin: a Dafny model of the session pipeline

AI-VR-ME is a Unity dashboard for a rehabilitation session with a patient's digital
twin. This project models in Dafny the part of it that does the work, and proves
properties of that model:

- **Session data and generators** (`session_data.dfy`, `data_generator.dfy`,
  `model_a.dfy`, `model_b.dfy`, `model_c.dfy`). A session has 9000 frames over 300 s,
  four channels (accuracy, velocity, fatigue, confidence) and a parallel anomaly
  schedule of frames and reasons. Three profiles exist: Model A (baseline), Model B
  (fatigued) and Model C (high performer). Each profile fills its channels with a
  linear ramp, draws an anomaly schedule, and applies a clamped triangular impact
  around every event in place. The random draws are inputs whose ranges are
  preconditions.
- **Playback clock** (`simulation_controller.dfy`). It converts playback time and
  speed into a frame, `clamp(floor(t * 30), 0, N - 1)`, and stops itself on the last
  frame.
- **Coordinator** (`digital_twin.dfy`, `anomaly_cursor.dfy`). The button handlers of
  `DigitalTwinManager` are modelled: generate, play, pause, stop, export, switch
  model and speed. So is one iteration of its metrics poller, together with the
  anomaly-window cursor. The cursor reports a frame as anomalous within 10 frames of
  the next scheduled event, and it steps past at most one event per poll. The bus's
  update event and the state's change event reach the anomaly pop-up and the insight
  panel that subscribe to them.
- **Shared state** (`simulation_state.dfy`, `metrics_bus.dfy`, `model_switcher.dfy`).
  These are the state enum holder, the metrics snapshot with its update event, and
  the model carousel.
- **Charts** (`enhanced_line_chart.dfy`, `line_chart_renderer.dfy`,
  `chart_feeder.dfy`, `chart_view.dfy`). There are two bounded point buffers with
  oldest-first eviction, and the per-tick feeder that pushes into them. The informative
  chart's projection into its plot rectangle is modelled too, with its axis ticks,
  time labels, status band and title fallbacks.
- **Rule sets and panels** (`dashboard.dfy`, `insight_panel.dfy`, `anomaly_panel.dfy`,
  `header_bar.dfy`, `tutorial.dfy`, `data_exporter.dfy`, `edges.dfy`). These cover:
  - the dashboard's status classifiers;
  - the insight panel's priority chain;
  - the rising-edge anomaly counters and hold-to-hide;
  - the header bar's formatters;
  - the tutorial pager and its persisted completion flag;
  - the CSV export text and its file name.
- **Support** (`unity.dfy`, `text.dfy`, `buffers.dfy`). `Mathf` clamping,
  interpolation and rounding are written out over `real`, with decimal number
  formatting (`F0` to `F3`). `KeepLast` is the bounded-buffer function that both
  chart classes are specified by.

Objects whose fields the C# code updates are Dafny classes with `modifies` frames,
and each method's `ensures` states the new state (the coordinator's poll
passes on part of it, as "## Left out" says). Loops become `while` loops
with invariants:
- the generators' array fills;
- the exporter's row loop;
- the chart label loops;
- the poller's resume.

Pure rules are functions, with lemmas that relate them.

The model follows the code where the design description of the system says
otherwise:
- Model B's schedule is `n * r` for a fresh draw `r` per event. It is not
  increasing: `ModelB.RepeatedFrame` and `ModelB.OutOfOrderFrames` exhibit a
  repeated frame and a decrease.
- Stop does not rewind the anomaly cursor. Only generating a session resets it.
- The playback speed is stored as given; nothing clamps it to [0.1, 2.0].
  `Playback.SimulationController.Update` promises that the frame never moves back
  only when the speed and the time step are non-negative.

## Model

| member | source | states |
|---|---|---|
| States.ChangesOnlyEach | Assets/Scripts/SimulationStateProvider.cs:24-29 | the raised-event log has no two equal neighbours, in both directions of the equivalence |
| States.ChangesOnlyAppend | Assets/Scripts/SimulationStateProvider.cs:26-28 | a state different from the last one raised can be raised next without breaking the no-repeat invariant |
| States.SimulationStateProvider.constructor | Assets/Scripts/SimulationStateProvider.cs:16-17 | the provider starts Stopped with nothing raised |
| States.SimulationStateProvider.SetState | Assets/Scripts/SimulationStateProvider.cs:24-29 | the state becomes the new one; OnStateChanged is raised exactly once when it differs, never when it is the same |
| States.SimulationStateProvider.SetStopped | Assets/Scripts/SimulationStateProvider.cs:19 | Stopped becomes current, raised only on a change |
| States.SimulationStateProvider.SetGenerating | Assets/Scripts/SimulationStateProvider.cs:20 | Generating becomes current, raised only on a change |
| States.SimulationStateProvider.SetPlaying | Assets/Scripts/SimulationStateProvider.cs:21 | Playing becomes current, raised only on a change |
| States.SimulationStateProvider.SetPaused | Assets/Scripts/SimulationStateProvider.cs:22 | Paused becomes current, raised only on a change |
| Metrics.MetricsBus.constructor | Assets/Scripts/MetricsBus.cs:6-21 | all metrics start at zero with no anomaly and an empty reason |
| Metrics.MetricsBus.ResetAll | Assets/Scripts/MetricsBus.cs:23-35 | every metric, the frame and the time are zero, no anomaly, empty reason, one OnMetricsUpdated |
| Metrics.MetricsBus.UpdateFromFrame | Assets/Scripts/MetricsBus.cs:37-58 | metrics, frame and time stored as given; the reason kept only when an anomaly is detected, otherwise empty; one OnMetricsUpdated |
| Switcher.NextIndex | Assets/Scripts/ModelSwitcher.cs:10-15 | the next index stays in range, advances by one, wraps to 0 after the last slot and stays put when there are no slots |
| Switcher.SwitchesCount | Assets/Scripts/ModelSwitcher.cs:10-15 | k switches from a valid index land on (index + k) mod length |
| Switcher.FullCycle | Assets/Scripts/ModelSwitcher.cs:10-15 | as many switches as there are slots return to the starting model |
| Switcher.EveryModelReached | Assets/Scripts/ModelSwitcher.cs:10-15 | every slot is reached from every other in fewer switches than there are slots |
| Switcher.EmptyNeverMoves | Assets/Scripts/ModelSwitcher.cs:12 | with no generators, switching never moves the index |
| Switcher.ModelSwitcher.constructor | Assets/Scripts/ModelSwitcher.cs:5-8 | the generator slots as given, index 0 |
| Switcher.ModelSwitcher.SwitchToNextModel | Assets/Scripts/ModelSwitcher.cs:10-15 | the index moves as NextIndex says; the slots are unchanged |
| Switcher.ModelSwitcher.ActiveGenerator | Assets/Scripts/ModelSwitcher.cs:17-21 | None with no slots, otherwise the generator in the current slot (None for an unassigned one) |
| Switcher.ModelSwitcher.ActiveModelKey | Assets/Scripts/ModelSwitcher.cs:24-29 | a one-character key 'A' + index, with no fallback, so letters A to Z for the first 26 slots |
| Switcher.ModelSwitcher.CurrentModelName | Assets/Scripts/ModelSwitcher.cs:32-36 | the active generator's model name, or "Unknown Model" when there is none |
| Session.SessionData.constructor | Assets/Scripts/SessionData.cs:3-18 | a field-initialised record: no frames, empty name and channels, no anomaly schedule |
| Generators.CreateSessionData | Assets/Scripts/DataGenerator.cs:29-41 | a fresh valid record of 9000 frames lasting 300 seconds, four channels of that length holding 0 (C# zero-fills a new array), the generator's model name, the supplied timestamp and no anomaly schedule |
| Generators.CurveEnds | Assets/Scripts/DataGenerator_ModelA.cs:14-22 | the per-frame line starts at its start value on frame 0 and reaches its end value on the last frame |
| Generators.CurveMonotone | Assets/Scripts/DataGenerator_ModelA.cs:14-22 | a declining line never rises from one frame to a later one, a rising line never falls |
| Generators.LerpMonotone | Assets/Scripts/DataGenerator_ModelA.cs:16-18 | Lerp with t clamped to [0, 1] is monotone in t, in the direction of its two ends |
| Generators.CurveInRange | Assets/Scripts/DataGenerator_ModelA.cs:14-22 | a line whose two ends lie in a range lies in that range at every frame |
| Generators.BaseChannelsInRange | Assets/Scripts/DataGenerator_ModelA.cs:14-22 | the four lines have the session's length and lie in the ranges the impacts clamp to |
| Generators.FillBaseCurves | Assets/Scripts/DataGenerator_ModelA.cs:14-22 | after the loop each channel holds its Lerp line at t = i / (totalFrames - 1) |
| Generators.TakeBelow | Assets/Scripts/DataGenerator_ModelA.cs:33-47 | the kept frames are a prefix of the candidates, all below the bound, and the first candidate left out (if any) is at or past it |
| Generators.TakeBelowStops | Assets/Scripts/DataGenerator_ModelA.cs:36 | when the first n candidates are below the bound and the next is not, exactly those n are kept |
| Generators.PickReasons | Assets/Scripts/DataGenerator_ModelA.cs:40-45 | one reason per scheduled event, each taken from the model's table |
| Generators.WeightBounds | Assets/Scripts/DataGenerator_ModelA.cs:66 | the impact weight 1 - abs(i - frame) / window lies in [0, 1], is 1 at the event and 0 at the window's edges |
| Generators.ImpactAtFacts | Assets/Scripts/DataGenerator_ModelA.cs:62-72 | one impact keeps a frame inside the channel's clamp range, moves it only in the impact's direction and leaves frames outside the window and at its edges alone |
| Generators.ImpactChannelAll | Assets/Scripts/DataGenerator_ModelA.cs:53-54 | applying a whole schedule to a channel keeps its length |
| Generators.ImpactChannelAllFacts | Assets/Scripts/DataGenerator_ModelA.cs:53-54 | after all impacts a channel is in range, every frame moved only in the impacts' direction, and frames outside every window keep their value |
| Generators.ImpactAllFacts | Assets/Scripts/DataGenerator_ModelA.cs:53-73 | after all impacts the four channels are in range, no frame is better than before (accuracy, velocity, confidence not higher, fatigue not lower), untouched frames are unchanged |
| Generators.ImpactPrefixEnds | Assets/Scripts/DataGenerator_ModelA.cs:62-73 | before the window loop nothing has changed, after it the whole impact is done |
| Generators.ImpactPrefixStep | Assets/Scripts/DataGenerator_ModelA.cs:62-73 | one loop iteration updates the one frame i when it is inside the session and skips it otherwise |
| Generators.ApplyAnomalyImpact | Assets/Scripts/DataGenerator_ModelA.cs:59-73 | the four channels in place become the single-impact function of their old contents |
| Generators.ApplyImpacts | Assets/Scripts/DataGenerator_ModelA.cs:53-54 | the four channels become the whole-schedule impact function of their old contents, applied in schedule order |
| ModelA.BuildSchedule | Assets/Scripts/DataGenerator_ModelA.cs:25-47 | the loop's frames and reasons are the schedule functions of the draws |
| ModelA.GenerateSessionData | Assets/Scripts/DataGenerator_ModelA.cs:9-57 | a fresh 9000-frame session of the generator's name whose schedule, reasons and channels are the functions of the draws |
| ModelA.FrameBound | Assets/Scripts/DataGenerator_ModelA.cs:35 | the n-th frame draw is below 900 + 300 (n + 1) |
| ModelA.ScheduleShape | Assets/Scripts/DataGenerator_ModelA.cs:28-47 | the loop never stops early: 2 to 4 events, the first in [1050, 1200), each 150 to 299 frames after the previous, strictly increasing, all before frame 8880, with a reason from the table for each |
| ModelA.Increasing | Assets/Scripts/DataGenerator_ModelA.cs:35 | any later frame draw is at least 150 frames after an earlier one |
| ModelA.BaseCurves | Assets/Scripts/DataGenerator_ModelA.cs:14-22 | the lines run 92 to 84, 1.25 to 1.0, 12 to 55 and 92 to 78; accuracy, velocity and confidence never rise and fatigue never falls |
| ModelA.SessionInRange | Assets/Scripts/DataGenerator_ModelA.cs:53-73 | the generated channels are in range, nowhere better than the base lines, and equal to them more than 15 frames from every event |
| ModelB.BuildSchedule | Assets/Scripts/DataGenerator_ModelB.cs:24-49 | the loop's frames and reasons are the schedule functions of the draws |
| ModelB.GenerateSessionData | Assets/Scripts/DataGenerator_ModelB.cs:9-59 | a fresh 9000-frame session of the generator's name whose schedule, reasons and channels are the functions of the draws |
| ModelB.ScheduleShape | Assets/Scripts/DataGenerator_ModelB.cs:28-49 | 6 to 10 events, the first at frame 0, event n at n times its spacing draw, all before frame 150, a reason from the table for each |
| ModelB.ScheduleLength | Assets/Scripts/DataGenerator_ModelB.cs:24-37 | the six-to-ten count announced for the cluster holds despite the break at frame 150: every drawn candidate is kept when at most 8 were drawn (candidate 7 is at most 7 × 20 = 140), and at least 8 otherwise |
| ModelB.StopsAtFirstLateCandidate | Assets/Scripts/DataGenerator_ModelB.cs:37 | a short schedule ends at the first candidate at or past frame 150 |
| ModelB.RepeatedFrame | Assets/Scripts/DataGenerator_ModelB.cs:36 | legal draws can put two events on the same frame |
| ModelB.OutOfOrderFrames | Assets/Scripts/DataGenerator_ModelB.cs:36 | legal draws can put a later event before an earlier one |
| ModelB.BaseCurves | Assets/Scripts/DataGenerator_ModelB.cs:14-22 | the lines run 88 to 70, 1.05 to 0.65, 25 to 90 and 88 to 60; accuracy, velocity and confidence never rise and fatigue never falls |
| ModelB.SessionInRange | Assets/Scripts/DataGenerator_ModelB.cs:54-75 | the generated channels are in range, nowhere better than the base lines, equal to them more than 12 frames from every event and from frame 162 on |
| ModelC.GenerateSessionData | Assets/Scripts/DataGenerator_ModelC.cs:9-48 | a fresh 9000-frame session with the two drawn frames, the two fixed reasons and the channels of the schedule |
| ModelC.ScheduleShape | Assets/Scripts/DataGenerator_ModelC.cs:28-39 | exactly two events, the first in [1800, 2400), the second at least 600 frames later and before frame 8820, with windows that never overlap |
| ModelC.BaseCurves | Assets/Scripts/DataGenerator_ModelC.cs:14-22 | the lines run 94 to 97, 1.20 to 1.35, 8 to 30 and 94 to 98, each rising slowly |
| ModelC.SessionInRange | Assets/Scripts/DataGenerator_ModelC.cs:44-64 | the generated channels are in range, nowhere better than the base lines, and equal to them more than 15 frames from both events |
| ChartView.PlotArea | Assets/Scripts/ChartLineRendererV2.cs:346-349 | the plotting area starts one label margin right of the rectangle's left edge and one bottom margin above its bottom, and ends one right margin and one top margin inside its far edges |
| ChartView.ProjectEdges | Assets/Scripts/ChartLineRendererV2.cs:351-367 | the first point lands on the area's left edge and the last on its right edge; minValue lands on the bottom, maxValue on the top, and a value above maxValue above the area |
| ChartView.Scale | Assets/Scripts/ChartLineRendererV2.cs:363-367 | a relative position of 0 adds nothing, of 1 the whole length, and beyond 1 more than the length |
| ChartView.ProjectLine | Assets/Scripts/ChartLineRendererV2.cs:359-370 | one projected point per data point, in order, each the projection of its data point |
| ChartView.YTicks | Assets/Scripts/ChartLineRendererV2.cs:393-396 | the bottom y tick is minValue, the top one maxValue, and the ticks run in order |
| ChartView.YLabel | Assets/Scripts/ChartLineRendererV2.cs:398-402 | a y label is a whole number with no decimal point, followed by the unit exactly when units are shown and the unit is non-empty |
| ChartView.FormatFixedWhole | Assets/Scripts/ChartLineRendererV2.cs:398 | formatting without decimals prints no decimal point |
| ChartView.XLabelSeconds | Assets/Scripts/ChartLineRendererV2.cs:422-423 | under a minute the x label is a number followed by 's' |
| ChartView.XLabelMinutes | Assets/Scripts/ChartLineRendererV2.cs:424-429 | from a minute on the x label is digits, ':' and exactly two digits |
| ChartView.Minutes | Assets/Scripts/ChartLineRendererV2.cs:426 | the whole minutes of a time of at least a minute bracket it |
| ChartView.Seconds | Assets/Scripts/ChartLineRendererV2.cs:427 | the seconds within the minute are below 60 and, with the minutes, make up the time's whole seconds |
| ChartView.XLabelClock | Assets/Scripts/ChartLineRendererV2.cs:424-429 | reading an m:ss label back gives the whole minutes and seconds of the time |
| ChartView.ValueTextShape | Assets/Scripts/ChartLineRendererV2.cs:493-507 | the value text ends in the unit, with one decimal for '%' or a 0-100 scale and two otherwise |
| ChartView.StatusBand | Assets/Scripts/ChartLineRendererV2.cs:521-530 | a value at or below minValue is red, at or above maxValue green, and an empty range is red |
| ChartView.StatusBandMonotone | Assets/Scripts/ChartLineRendererV2.cs:521-530 | a higher value never gets a worse status colour |
| ChartView.InverseLerpMonotone | Assets/Scripts/ChartLineRendererV2.cs:521 | InverseLerp over a proper range is monotone in the value |
| ChartView.DisplayTitle | Assets/Scripts/ChartLineRendererV2.cs:565-574 | the title is the custom title, else the source chart's title, else "Chart", and never empty |
| ChartView.MetricName | Assets/Scripts/ChartLineRendererV2.cs:576-598 | a missing title gives "Value"; ACCURACY, VELOCITY, FATIGUE and CONFIDENCE are checked in that order; otherwise the first word, else the whole title |
| ChartView.AxisTitle | Assets/Scripts/ChartLineRendererV2.cs:438-453 | the y-axis title is the metric name, followed by " (", the unit and ")" when there is a unit |
| ChartView.RunAt | Assets/Scripts/ChartLineRendererV2.cs:393 | a run of i values of f holds f(0) to f(i - 1) in order |
| ChartView.Tabulate | Assets/Scripts/ChartLineRendererV2.cs:393 | the label loop's result is the run of its label function |
| ChartView.YLabelsRun | Assets/Scripts/ChartLineRendererV2.cs:393-409 | the y labels appended one by one are the labels of the declared range |
| ChartView.UpdateYLabels | Assets/Scripts/ChartLineRendererV2.cs:393-409 | the y-label loop leaves one label per slot, the label of its tick |
| ChartView.XLabelsRun | Assets/Scripts/ChartLineRendererV2.cs:412-435 | the x labels appended one by one are the labels of the data's time span |
| ChartView.UpdateXLabels | Assets/Scripts/ChartLineRendererV2.cs:412-435 | the x-label loop leaves one label per slot, the label of its time |
| ChartView.RunTicksCount | Assets/Scripts/ChartLineRendererV2.cs:305-309 | after n frames the throttle counter is n mod updateInterval and the chart has refreshed n div updateInterval times |
| ChartView.RunTicksStep | Assets/Scripts/ChartLineRendererV2.cs:305-309 | one more frame advances the counter and refresh count as division by the interval says |
| ChartView.InformativeChartUI.constructor | Assets/Scripts/ChartLineRendererV2.cs:14-63 | the inspector defaults: interval 2, five axis labels, margins 65/45/35/15, every display switch on, no line, nothing built |
| ChartView.InformativeChartUI.BuildUI | Assets/Scripts/ChartLineRendererV2.cs:87-98 | builds the title, value display and axis labels once, as configured; a second call changes nothing |
| ChartView.InformativeChartUI.UpdateChart | Assets/Scripts/ChartLineRendererV2.cs:318-339 | without a chart or renderer nothing changes; with fewer than two points the line is cleared; otherwise line, labels, axis title and value are all redrawn from the chart |
| ChartView.InformativeChartUI.Redraw | Assets/Scripts/ChartLineRendererV2.cs:334-338 | a refresh leaves the projected line, the range's y labels, the span's x labels, the axis title and the newest value on display |
| ChartView.InformativeChartUI.DrawLine | Assets/Scripts/ChartLineRendererV2.cs:341-375 | the renderer's points are the projection of the data into the plotting area and nothing else on display changes |
| ChartView.InformativeChartUI.DrawLabels | Assets/Scripts/ChartLineRendererV2.cs:377-436 | the axis labels follow the range and time span, the axis title names the metric and the newest value is the reading; the line is unchanged |
| ChartView.InformativeChartUI.LateUpdate | Assets/Scripts/ChartLineRendererV2.cs:304-316 | the counter advances as the throttle says; off a refresh frame nothing else changes; on one the UI is built and, with a chart and a line renderer, two or more points are drawn (line, labels for the built label count, axis title, value) with one more refresh, while fewer points clear the line |
| Cursor.PollAt | Assets/Scripts/DigitalTwinManager.cs:172-194 | with no event under the cursor nothing is reported; otherwise the frame is anomalous exactly when it lies within 10 frames of the event, with that event's reason, and the cursor moves on exactly when the frame is past the window, so one poll never both reports and moves |
| Cursor.Run | Assets/Scripts/DigitalTwinManager.cs:152-194 | polling a run of frames gives one flag per frame and moves the cursor forward by at most one event per poll, never past the last event |
| Cursor.RunAppend | Assets/Scripts/DigitalTwinManager.cs:152-194 | polling two runs of frames in turn is polling their concatenation |
| Cursor.ReportsOnlyLaterEvents | Assets/Scripts/DigitalTwinManager.cs:177-194 | the cursor never rewinds, so a sweep reports only frames near events at or after its starting cursor |
| Cursor.ExhaustedCursorIsQuiet | Assets/Scripts/DigitalTwinManager.cs:177-179 | once the cursor has passed every event nothing is reported and the cursor stays |
| Cursor.Range | Assets/Scripts/DigitalTwinManager.cs:159 | the consecutive frames lo to hi - 1 |
| Cursor.Uniform | Assets/Scripts/DigitalTwinManager.cs:177-194 | frames that all leave the cursor in place are flagged by their own polls |
| Cursor.Single | Assets/Scripts/DigitalTwinManager.cs:177-194 | a single poll is a sweep of one frame |
| Cursor.Chain | Assets/Scripts/DigitalTwinManager.cs:152-194 | two adjacent sweeps make one |
| Cursor.TwoEventSweep | Assets/Scripts/DigitalTwinManager.cs:175-194 | polling frames 0 to 300 over events at 100 and 200 reports exactly 90-110 and 190-210 and passes both events |
| Cursor.CloseEventsMissFrame | Assets/Scripts/DigitalTwinManager.cs:184-193 | over events at 100 and 115 the poll at frame 111 moves the cursor and reports nothing, although 111 is inside the second event's window |
| Cursor.OutOfOrderEventSkipped | Assets/Scripts/DigitalTwinManager.cs:179-193 | an event listed after a later one is never reported: over events at 300 then 150 only 290-310 are reported |
| Twin.ScheduleForShape | Assets/Scripts/DigitalTwinManager.cs:42 | whichever model generates it, a session's schedule has at least two events, one reason per event and every event inside the session |
| Twin.GenerateWith | Assets/Scripts/DigitalTwinManager.cs:42 | the call dispatched to the active generator gives a fresh valid 9000-frame session built by that generator, with a present schedule and one reason per event |
| Twin.FrameSeconds | Assets/Scripts/DigitalTwinManager.cs:164 | the time of a frame at 30 frames per second is never negative for a real frame |
| Twin.Progress | Assets/Scripts/DigitalTwinManager.cs:212 | the progress through a session is 0 at the first frame, 1 at the last, and within [0, 1] in between |
| Twin.AscendingOrdered | Assets/Scripts/DigitalTwinManager.cs:152-223 | the polled frames are in order exactly when no frame is earlier than any frame before it |
| Twin.InRangeEach | Assets/Scripts/DigitalTwinManager.cs:161-162 | the polled frames are in range exactly when each of them is a frame of the session |
| Twin.InRangeExtend | Assets/Scripts/DigitalTwinManager.cs:161-162 | polling one more in-range frame keeps the polled frames in range |
| Twin.TraceStep | Assets/Scripts/DigitalTwinManager.cs:159-223 | one more wait keeps the polled frames in order and in range when the clock cannot run backwards |
| Twin.AscendingExtend | Assets/Scripts/DigitalTwinManager.cs:159 | polling the clock's current frame, which is no earlier than its previous one, keeps the polled frames in order |
| Twin.ClearViews | Assets/Scripts/DigitalTwinManager.cs:106-112 | the dashboard shows no data (every card "--" and Good, the "No Data" insight), the anomaly pop-up is reset, and every chart of both feeders is empty |
| Twin.NotifyMetrics | Assets/Scripts/MetricsBus.cs:57 | each panel subscribed to the bus runs its handler (AnomalyPanelUI.cs:44, InsightPanelUI.cs:49): the pop-up appends the flag, shows itself with the reason on a rising flag and hides once the hold has passed on a quiet one; the insight panel appends the flag, stamps an onset and shows the message for the current state; a panel wired to another bus is untouched |
| Twin.ChangeState | Assets/Scripts/SimulationStateProvider.cs:24-29 | the state becomes the new one, raised only if it changed; an insight panel subscribed to the provider (InsightPanelUI.cs:52) then shows the message for the new state unless it is Playing, and otherwise keeps its message |
| Twin.EnterState | Assets/Scripts/SimulationStateProvider.cs:24-29 | the state and its events as in ChangeState; the insight panel keeps what it heard and counted, shows the ready message after a change to Stopped and keeps its message on Playing |
| Twin.Rewind | Assets/Scripts/DigitalTwinManager.cs:98-99 | the clock keeps its session and speed, rewinds to frame 0 and stops, and the state becomes Stopped, raised only if it changed |
| Twin.ShowGenerated | Assets/Scripts/DigitalTwinManager.cs:58-65 | the header shows time 0 and frame 0 of the session and the state goes from Generating back to Stopped, raised once |
| Twin.ResetOutputs | Assets/Scripts/DigitalTwinManager.cs:106-121 | the views are cleared and every chart emptied, the bus publishes an all-zero frame with no anomaly and no reason, and each panel subscribed to the bus hears it: the pop-up counts nothing and is hidden, the insight panel has heard one more quiet frame and shows the message for the current state |
| Twin.ClearAllViews | Assets/Scripts/DigitalTwinManager.cs:48-55 | the dashboard shows no data, every chart is empty, the pop-up is reset, and the insight panel has heard nothing, counts nothing and shows the message for the current state |
| Twin.StopOutputs | Assets/Scripts/DigitalTwinManager.cs:98-121 | the clock rewinds to frame 0 and stops, the state is Stopped, the dashboard shows no data, every chart is empty, the bus is zeroed, the pop-up counts nothing and is hidden, and a wired insight panel has heard the quiet frame and shows the ready message |
| Twin.ShowStart | Assets/Scripts/DigitalTwinManager.cs:58-60 | the header reads time 0, an empty bar and frame 0 of the total |
| Twin.PublishFrame | Assets/Scripts/DigitalTwinManager.cs:197-209 | the bus holds the frame's samples, frame, time and anomaly; each panel subscribed to the bus hears it (the frame's anomaly flag is appended, a rising flag shows the pop-up with its reason, the insight panel shows the message for the current state); the dashboard's value texts, card statuses and insight follow the bus |
| Twin.ShowPoll | Assets/Scripts/DigitalTwinManager.cs:197-214 | after PublishFrame and ShowFrame, the bus, the dashboard's cards and the header show the frame and each subscribed panel has heard its anomaly flag |
| Twin.ShowFrame | Assets/Scripts/DigitalTwinManager.cs:211-214 | the header shows the frame's time at 30 fps, its progress through the session and the frame counter |
| Twin.DigitalTwinManager.constructor | Assets/Scripts/DigitalTwinManager.cs:6-25 | the wired scene before any session: no session, cursor 0, no poller, nothing exported or polled |
| Twin.DigitalTwinManager.OnGenerateButtonClicked | Assets/Scripts/DigitalTwinManager.cs:29-67 | nothing at all while generating; otherwise Generating then Stopped are raised and a wired insight panel ends on the ready message; with no generator no view changes; with one, a fresh session of its schedule is loaded at frame 0, cursor 0, the dashboard shows no data, every chart is empty, both panels are reset, the header shows time 0 of 9000 and the poller is stopped |
| Twin.DigitalTwinManager.Generate | Assets/Scripts/DigitalTwinManager.cs:33-66 | Generating then Stopped are raised and a wired insight panel ends on the ready message; without a generator no view, chart or panel count changes; with one, a fresh session built by it starts over with every view and chart cleared |
| Twin.DigitalTwinManager.GenerateWithGenerator | Assets/Scripts/DigitalTwinManager.cs:33-65 | with a generator, Generating then Stopped are raised, a fresh session built by it starts over with every view and chart cleared, the header shows its start and a wired insight panel shows the ready message |
| Twin.DigitalTwinManager.GenerateNothing | Assets/Scripts/DigitalTwinManager.cs:33-40 | without a generator the state raises Generating then Stopped, a wired insight panel hears both and ends on the ready message, and nothing else changes |
| Twin.DigitalTwinManager.GenerateFrom | Assets/Scripts/DigitalTwinManager.cs:42-65 | a fresh session built by the chosen generator is loaded, every view and chart is cleared, the header shows its start, the state returns to Stopped and a wired insight panel shows the ready message |
| Twin.DigitalTwinManager.Regenerate | Assets/Scripts/DigitalTwinManager.cs:44-65 | the given session starts over (clock at frame 0, cursor 0, no data on the dashboard, every chart empty, panels reset), the header shows its start, the state returns to Stopped and a wired insight panel shows the ready message |
| Twin.DigitalTwinManager.Announce | Assets/Scripts/DigitalTwinManager.cs:58-65 | the header shows the session's start, the state returns from Generating to Stopped, raised once, and a wired insight panel shows the ready message without hearing or counting anything |
| Twin.DigitalTwinManager.Install | Assets/Scripts/DigitalTwinManager.cs:44-63 | the session is loaded with the cursor at 0, the dashboard shows no data, every chart is empty, both panels are reset; a running poller is stopped, its handle still held |
| Twin.DigitalTwinManager.Load | Assets/Scripts/DigitalTwinManager.cs:44-46 | the clock holds the session at frame 0, stopped, the cursor is at the first event with nothing polled and no poller runs |
| Twin.DigitalTwinManager.OnPlayButtonClicked | Assets/Scripts/DigitalTwinManager.cs:70-84 | nothing at all without a session or while playing; otherwise the clock starts, Playing is raised, and the new poller's first poll runs at once: the bus, the dashboard's cards and the header show the current frame, the cursor moves as the matcher says, and each subscribed panel hears the frame's anomaly flag |
| Twin.DigitalTwinManager.Play | Assets/Scripts/DigitalTwinManager.cs:78-82 | the clock starts, Playing is raised, the poller runs and its first poll shows the current frame on the bus, the dashboard's cards and the header, moving the cursor as the matcher says |
| Twin.DigitalTwinManager.OnPauseButtonClicked | Assets/Scripts/DigitalTwinManager.cs:87-93 | only while playing: the clock pauses, Paused is raised and a wired insight panel shows the paused message with its count; otherwise nothing changes |
| Twin.DigitalTwinManager.OnStopButtonClicked | Assets/Scripts/DigitalTwinManager.cs:96-123 | the clock rewinds and stops, the state is Stopped, the poller is stopped and dropped, the dashboard shows no data and every chart is empty, the bus is zeroed and the subscribed panels hear it (the pop-up counts nothing and is hidden, the insight panel shows the ready message), the header reads time 0; the cursor and the insight count are kept |
| Twin.DigitalTwinManager.Halt | Assets/Scripts/DigitalTwinManager.cs:98-121 | everything the stop button does except redrawing the header |
| Twin.DigitalTwinManager.OnExportButtonClicked | Assets/Scripts/DigitalTwinManager.cs:125-134 | nothing without a session; otherwise the session's CSV file is written under its model name and time stamp |
| Twin.DigitalTwinManager.OnSwitchModelButtonClicked | Assets/Scripts/DigitalTwinManager.cs:137-144 | the switcher moves to its next slot and the header shows the new slot's key |
| Twin.DigitalTwinManager.SetPlaybackSpeed | Assets/Scripts/DigitalTwinManager.cs:147-150 | the clock's speed becomes the given one; frame and playing flag are unchanged |
| Twin.DigitalTwinManager.PollerBody | Assets/Scripts/DigitalTwinManager.cs:154-214 | the loop ends unless Playing, and nothing on screen changes; without a session the coroutine ends with its handle held; otherwise the frame is polled, the cursor moves as the matcher says, the bus, the dashboard's cards and the header show the frame, and each subscribed panel hears its anomaly flag |
| Twin.DigitalTwinManager.PollFrame | Assets/Scripts/DigitalTwinManager.cs:159-214 | the clock's frame is a frame of the session; it is polled, the cursor moves as the matcher says, the bus, the dashboard's cards and the header show it and each subscribed panel hears its anomaly flag |
| Twin.DigitalTwinManager.AdvanceCursor | Assets/Scripts/DigitalTwinManager.cs:172-194 | the cursor moves as the matcher says for the frame and the frame joins those polled |
| Twin.DigitalTwinManager.ResumePoller | Assets/Scripts/DigitalTwinManager.cs:152-226 | over successive waits the poller polls once per wait while it runs, stops when the clock stops, polls only frames of the session and, with no negative wait or speed, in order |
| Twin.DigitalTwinManager.ResumeOnce | Assets/Scripts/DigitalTwinManager.cs:216-223 | one more wait of a running poller keeps the resumed-poller invariant |
| Twin.DigitalTwinManager.PollerStep | Assets/Scripts/DigitalTwinManager.cs:216-223 | after one wait a stopped clock sets the state to Stopped (a wired insight panel shows the ready message) and ends the poller with nothing else on screen changed; a running one is polled at its current frame as PollerBody says, which never goes back with no negative wait or speed |
| Twin.DigitalTwinManager.EndPolling | Assets/Scripts/DigitalTwinManager.cs:218-225 | the state becomes Stopped (a wired insight panel that hears the change shows the ready message), the poller ends and its handle is dropped; nothing polled changes |
| Unity.Clamp | Assets/Scripts/LineChartRenderer.cs:52 | the result lies in [lo, hi], is v when v already does, lo below it and hi above it |
| Unity.ClampInt | Assets/Scripts/SimulationController.cs:55 | the integer clamp: in range, v when v is, the nearer bound otherwise |
| Unity.Clamp01 | Assets/Scripts/HeaderBarUI.cs:79 | the result lies in [0, 1] and is v when v already does |
| Unity.Lerp | Assets/Scripts/ChartLineRendererV2.cs:396 | the interpolation gives a at t <= 0, b at t >= 1 and a value between a and b otherwise |
| Unity.InverseLerp | Assets/Scripts/ChartLineRendererV2.cs:521 | the position lies in [0, 1], is 0 for equal bounds or at or below a, and 1 at or above b |
| Unity.Max | Assets/Scripts/ChartLineRendererV2.cs:353 | the result is one of the two values and at least both |
| Unity.MaxInt | Assets/Scripts/LineChartRenderer.cs:27 | the integer maximum is one of the two values and at least both |
| Unity.Abs | Assets/Scripts/DigitalTwinManager.cs:184 | the magnitude is the value or its negation, never negative |
| Unity.FloorToInt | Assets/Scripts/SimulationController.cs:53 | the largest integer not above the value |
| Unity.RoundToInt | Assets/Scripts/HeaderBarUI.cs:62 | the nearest integer, a half going to the even neighbour |
| Buffers.KeepLast | Assets/Scripts/EnhancedLineChart.cs:43-50 | the trimmed buffer is a suffix of the old one, of length min(count, capacity), and the whole buffer when the capacity is not positive |
| Buffers.KeepLastAppend | Assets/Scripts/EnhancedLineChart.cs:27-50 | trimming after every append gives the buffer of trimming once after all of them: the buffer is always the newest entries of the whole history |
| Buffers.KeepLastIdempotent | Assets/Scripts/EnhancedLineChart.cs:43-50 | trimming twice to the same capacity is trimming once |
| Buffers.KeepLastShrink | Assets/Scripts/LineChartRenderer.cs:25-30 | lowering the capacity of a trimmed buffer keeps its newest entries |
| Edges.EdgeStep | Assets/Scripts/AnomalyPanelUI.cs:66-78 | one more observed flag adds one anomaly to the count exactly when the flag rises |
| Edges.EdgesAtMostHalf | Assets/Scripts/InsightPanelUI.cs:69-75 | the count of rising edges is at most half the observations, rounded up when the flag ends raised |
| Edges.HeldFlagCountsOnce | Assets/Scripts/AnomalyPanelUI.cs:66-78 | a flag held raised over any number of updates counts once |
| Edges.AlternatingCountsEvery | Assets/Scripts/InsightPanelUI.cs:69-75 | alternating lowered and raised flags count one anomaly per raised flag |
| Text.NatToString | Assets/Scripts/HeaderBarUI.cs:89 | the decimal text of a number is a non-empty run of digits with no leading zero |
| Text.ParseNatToString | Assets/Scripts/HeaderBarUI.cs:89 | reading the decimal text of a number back gives the number |
| Text.NatToStringInjective | Assets/Scripts/HeaderBarUI.cs:89 | different numbers never print the same |
| Text.PadZeros | Assets/Scripts/HeaderBarUI.cs:65 | zero padding to a width keeps the digits at the end and makes the text at least that wide |
| Text.ParsePadZeros | Assets/Scripts/HeaderBarUI.cs:65 | padding with zeros never changes the value the digits stand for |
| Text.RoundHalfUp | Assets/Scripts/ConsolidatedDashboard.cs:76-79 | the nearest integer to a non-negative real, halves rounded up |
| Text.FixedDigits | Assets/Scripts/ConsolidatedDashboard.cs:76-79 | the fixed-point digits hold a '.' followed by exactly d digits when d > 0 |
| Text.Padded | Assets/Scripts/DataExporter.cs:32 | a number zero-padded to a width has exactly that many digits and reads back as the number |
| Text.FormatFixed | Assets/Scripts/DataExporter.cs:25-29 | the "F<d>" text uses only number characters, and for d > 0 ends in '.' and exactly d digits |
| Text.ContainsMeansOccurs | Assets/Scripts/ChartLineRendererV2.cs:583-590 | a title contains a word exactly when the word occurs in it at some position |
| Text.IndexOf | Assets/Scripts/ChartLineRendererV2.cs:593 | the first position of the character, or -1 exactly when it does not occur |
| Text.ReplaceChar | Assets/Scripts/DataExporter.cs:31 | same length, every occurrence of the old character replaced and every other character kept |
| Text.Join | Assets/Scripts/DataExporter.cs:24-29 | the parts with a separator between consecutive ones contain at least one separator per gap |
| Text.Split | Assets/Scripts/DataExporter.cs:24-29 | splitting gives one more piece than there are separators |
| Text.SplitJoin | Assets/Scripts/DataExporter.cs:24-29 | splitting joined separator-free fields gives the fields back |
| Text.TerminatedAppend | Assets/Scripts/DataExporter.cs:20-29 | writing one more line appends it and its terminator |
| Text.SplitTerminated | Assets/Scripts/DataExporter.cs:20-29 | splitting terminator-free lines written one per line gives the lines back, then the empty piece after the last terminator |
| Header.ModelText | Assets/Scripts/HeaderBarUI.cs:50-54 | the model text is "Model: " followed by the key |
| Header.StatusText | Assets/Scripts/HeaderBarUI.cs:69-73 | the status text is "Status: " followed by the status |
| Header.StatusName | Assets/Scripts/HeaderBarUI.cs:37 | the upper-cased name of a playback state |
| Header.ShownSeconds | Assets/Scripts/HeaderBarUI.cs:62 | the whole seconds shown are the time rounded to the nearest integer and never below zero |
| Header.MinutesSecondsReadsAs | Assets/Scripts/HeaderBarUI.cs:63-65 | a clock text is at least two minute digits, ':' and two second digits, reading back as its minutes and seconds |
| Header.AtLeastTwoDigitsReadsBack | Assets/Scripts/HeaderBarUI.cs:65 | {n:00} gives at least two digits, reading back as n |
| Header.TwoDigitsReadsBack | Assets/Scripts/HeaderBarUI.cs:65 | {n:00} for n below 60 gives exactly two digits, reading back as n |
| Header.TimeTextReadsBack | Assets/Scripts/HeaderBarUI.cs:57-66 | after "Time: " the clock text reads back as the whole minutes and remaining seconds of the rounded, non-negative time |
| Header.ZeroTime | Assets/Scripts/HeaderBarUI.cs:62-65 | a time that is negative or rounds to zero shows "Time: 00:00" |
| Header.ProgressFill | Assets/Scripts/HeaderBarUI.cs:76-80 | the fill is the progress clamped to [0, 1] |
| Header.FramesTextReadsBack | Assets/Scripts/HeaderBarUI.cs:83-92 | split at '/', the frame counter gives the current frame and the total when both are shown, and 0 and 0 otherwise |
| Header.SplitDigits | Assets/Scripts/HeaderBarUI.cs:89 | two digit strings joined by '/' split back into the two |
| Header.HeaderBarUI.constructor | Assets/Scripts/HeaderBarUI.cs:21-30 | the initial header: the title, model A, time 0, STOPPED, an empty bar and "0/0" |
| Header.HeaderBarUI.Update | Assets/Scripts/HeaderBarUI.cs:32-40 | with a state provider the status shows its state's upper-cased name; nothing else changes |
| Header.HeaderBarUI.SetModel | Assets/Scripts/HeaderBarUI.cs:50-54 | the model text changes and nothing else |
| Header.HeaderBarUI.SetTime | Assets/Scripts/HeaderBarUI.cs:57-66 | the time text changes and nothing else |
| Header.HeaderBarUI.SetStatus | Assets/Scripts/HeaderBarUI.cs:69-73 | the status text changes and nothing else |
| Header.HeaderBarUI.SetProgress | Assets/Scripts/HeaderBarUI.cs:76-80 | the bar's fill changes and nothing else |
| Header.HeaderBarUI.SetProgressFrames | Assets/Scripts/HeaderBarUI.cs:83-92 | the frame counter changes and nothing else |
| Exporter.Fields | Assets/Scripts/DataExporter.cs:23-29 | six fields per frame, the first the frame number, all made of number characters |
| Exporter.Cells | Assets/Scripts/DataExporter.cs:25-29 | one formatted cell per value, each made of number characters |
| Exporter.Lines | Assets/Scripts/DataExporter.cs:21-30 | one data row per frame |
| Exporter.Csv | Assets/Scripts/DataExporter.cs:19-30 | the exported text starts with the header row |
| Exporter.FileName | Assets/Scripts/DataExporter.cs:31-33 | "Session_", the model name with every space turned into '_', '_', the time stamp and ".csv" |
| Exporter.TimestampText | Assets/Scripts/DataExporter.cs:32 | "yyyyMMdd_HHmmss": fifteen characters, digits around one '_', whose six fields read back as the date and time |
| Exporter.TimestampLayout | Assets/Scripts/DataExporter.cs:32 | where the six zero-padded fields sit in the time stamp |
| Exporter.ExportSession | Assets/Scripts/DataExporter.cs:12-44 | nothing for a null session; otherwise the file under the session's name holds the header and one row per frame |
| Exporter.AppendRow | Assets/Scripts/DataExporter.cs:21-30 | one more row extends the exported text by that row and its '\n' |
| Exporter.CsvDecodes | Assets/Scripts/DataExporter.cs:19-30 | after the header the text splits at '\n' into exactly one row per frame and an empty tail, and row i splits at ',' into frame i's six fields, the first reading back as i |
| Exporter.JoinAvoids | Assets/Scripts/DataExporter.cs:24-29 | joined fields that avoid a character, with another separator, avoid it |
| AnomalyPanel.ShownReason | Assets/Scripts/AnomalyPanelUI.cs:71-73 | the bus's reason, or a fixed sentence when it is empty, never empty |
| AnomalyPanel.CountText | Assets/Scripts/AnomalyPanelUI.cs:100 | "Total anomalies: " followed by digits that read back as the count |
| AnomalyPanel.NeverHiddenEarly | Assets/Scripts/AnomalyPanelUI.cs:82-88 | a raised flag never hides the panel, nor does anything within the hold time after an onset |
| AnomalyPanel.AnomalyPanelUI.constructor | Assets/Scripts/AnomalyPanelUI.cs:17-33 | hidden, nothing counted, last onset at -999, hold time three seconds |
| AnomalyPanel.AnomalyPanelUI.ShowAnomaly | Assets/Scripts/AnomalyPanelUI.cs:91-106 | title, reason and count on display, fully visible and interactive; the counting state is unchanged |
| AnomalyPanel.AnomalyPanelUI.HideAnomaly | Assets/Scripts/AnomalyPanelUI.cs:108-114 | transparent, not interactive and not blocking; the texts and the counting state are unchanged |
| AnomalyPanel.AnomalyPanelUI.HandleMetricsUpdated | Assets/Scripts/AnomalyPanelUI.cs:60-89 | an onset of the bus's flag counts once, stamps its time and shows the reason; with the flag down a visible panel hides once the hold time has passed; the count equals the onsets among all flags seen |
| AnomalyPanel.AnomalyPanelUI.ResetAnomalyCount | Assets/Scripts/AnomalyPanelUI.cs:117-123 | nothing counted, the flag lowered, the time back to -999, the panel hidden |
| InsightPanel.PlayingTopic | Assets/Scripts/InsightPanelUI.cs:130-209 | the first-match chain: an active anomaly always wins; the message is an alert exactly when there is an anomaly, fatigue above 85 or accuracy below 70, and stable exactly when no rule fires |
| InsightPanel.DashboardAlertIsPanelAlert | Assets/Scripts/InsightPanelUI.cs:148-168 | whenever the dashboard's accuracy/fatigue card is red, the panel's message is an alert too |
| InsightPanel.StableIsDashboardGood | Assets/Scripts/InsightPanelUI.cs:170-208 | a stable panel means a green dashboard, except at fatigue exactly 65, where the dashboard says Caution |
| InsightPanel.Percent | Assets/Scripts/InsightPanelUI.cs:152 | a number with one decimal followed by '%' |
| InsightPanel.Speed | Assets/Scripts/InsightPanelUI.cs:196 | a number with two decimals followed by " m/s" |
| InsightPanel.WithCount | Assets/Scripts/InsightPanelUI.cs:141 | the sentence followed by the decimal digits of the count |
| InsightPanel.PlayingInsight | Assets/Scripts/InsightPanelUI.cs:137-208 | the playing message has its topic's title and colour; the anomaly and stable recommendations end in the count when the count is shown |
| InsightPanel.TopicBody | Assets/Scripts/InsightPanelUI.cs:139-203 | the anomaly message's body names the bus's reason; the others quote the metric they are about |
| InsightPanel.TopicRecommendation | Assets/Scripts/InsightPanelUI.cs:140-206 | the anomaly and stable recommendations end in the onset count when it is shown, and are the fixed sentences otherwise |
| InsightPanel.StateInsight | Assets/Scripts/InsightPanelUI.cs:89-128 | fixed messages for Stopped and Generating, the count for Paused, the chain for Playing; only Playing can show an alert |
| InsightPanel.InsightPanelUI.constructor | Assets/Scripts/InsightPanelUI.cs:23-44 | the inspector defaults and the ready message with nothing counted |
| InsightPanel.InsightPanelUI.UpdateInsight | Assets/Scripts/InsightPanelUI.cs:89-128 | nothing without a state provider and a bus; otherwise the message for the current state, the counting state unchanged |
| InsightPanel.InsightPanelUI.RefreshInsight | Assets/Scripts/InsightPanelUI.cs:234-237 | the counting state is untouched and the message is the one for the current state |
| InsightPanel.InsightPanelUI.OnMetricsUpdated | Assets/Scripts/InsightPanelUI.cs:64-79 | an onset of the bus's flag counts once and stamps its time; the count equals the onsets among all flags seen, and the message is refreshed |
| InsightPanel.InsightPanelUI.OnStateChanged | Assets/Scripts/InsightPanelUI.cs:82-87 | the message is refreshed for every new state except Playing, which waits for the next metrics update |
| InsightPanel.InsightPanelUI.ResetAnomalyCount | Assets/Scripts/InsightPanelUI.cs:226-232 | no onsets, a lowered flag, the time back to -999, and the message refreshed |
| InsightPanel.AnomalyHeldAfterOnset | Assets/Scripts/InsightPanelUI.cs:133-135 | strictly within the hold time after an onset the playing message stays on the anomaly, even once the flag drops |
| Dashboard.AccuracyFatigueStatus | Assets/Scripts/ConsolidatedDashboard.cs:152-157 | green exactly when accuracy is at least 70 and fatigue below 65; red exactly for accuracy below 50 with fatigue outside [65, 85], or accuracy at least 70 with fatigue above 85; amber otherwise |
| Dashboard.VelocityStatus | Assets/Scripts/ConsolidatedDashboard.cs:162-167 | green exactly on [0.8, 1.5], red exactly below 0.5, amber otherwise |
| Dashboard.ConfidenceStatus | Assets/Scripts/ConsolidatedDashboard.cs:171-176 | green exactly from 80, red exactly below 60, amber between |
| Dashboard.ConfidenceMonotone | Assets/Scripts/ConsolidatedDashboard.cs:171-176 | more confidence never makes the confidence card worse |
| Dashboard.VelocityMonotoneBelowRange | Assets/Scripts/ConsolidatedDashboard.cs:162-167 | up to 1.5 more velocity never makes the card worse; above it the card drops from green to amber |
| Dashboard.AccuracyFatigueNotMonotone | Assets/Scripts/ConsolidatedDashboard.cs:152-157 | the accuracy/fatigue status is monotone in neither input: more fatigue can turn red into amber, more accuracy amber into red |
| Dashboard.CardStatuses | Assets/Scripts/ConsolidatedDashboard.cs:81-96 | four statuses: accuracy and fatigue cards both take the accuracy/fatigue status, velocity and confidence their own |
| Dashboard.FatigueCardFollowsAccuracy | Assets/Scripts/ConsolidatedDashboard.cs:81-96 | the fatigue card's colour moves with accuracy even while fatigue stays put |
| Dashboard.CardTexts | Assets/Scripts/ConsolidatedDashboard.cs:76-79 | each card shows its value with the card's decimals followed by its unit |
| Dashboard.CardText | Assets/Scripts/ConsolidatedDashboard.cs:76-79 | the value with d decimals followed by the unit |
| Dashboard.StatusInsight | Assets/Scripts/ConsolidatedDashboard.cs:123-147 | the status message is coloured by its status and is never the anomaly message |
| Dashboard.InsightFor | Assets/Scripts/ConsolidatedDashboard.cs:103-148 | an active anomaly wins with its reason; otherwise the message of the accuracy/fatigue status; alert exactly for an anomaly or a red status |
| Dashboard.AnomalyOverridesMetrics | Assets/Scripts/ConsolidatedDashboard.cs:108-121 | while an anomaly is active the metrics have no say in the insight |
| Dashboard.ConsolidatedDashboard.constructor | Assets/Scripts/ConsolidatedDashboard.cs:53-56 | the cards start as after a reset: every card shows "--" and is green |
| Dashboard.ConsolidatedDashboard.UpdateFromMetrics | Assets/Scripts/ConsolidatedDashboard.cs:60-71 | nothing without a bus; otherwise the cards show and are coloured by the bus's values and the insight is chosen from them |
| Dashboard.ConsolidatedDashboard.ResetDashboard | Assets/Scripts/ConsolidatedDashboard.cs:204-229 | the feeder's charts are emptied, every card shows "--" and is green, the insight reads the no-data message with its icon colour kept |
| Feeder.Pushed | Assets/Scripts/ChartFeederUI.cs:71-73 | the raw value, or with normalisation the value that times the scale gives back the raw one |
| Feeder.FeedPoints | Assets/Scripts/ChartFeederUI.cs:69-78 | three points at x = elapsed seconds, for accuracy, velocity and fatigue, raw or normalised by 100, velocityMax and 100 |
| Feeder.ChartFeederUI.constructor | Assets/Scripts/ChartFeederUI.cs:6-22 | the wired charts and sources, 30 Hz, no normalisation, velocityMax 2, no feed loop |
| Feeder.ChartFeederUI.StartFeeding | Assets/Scripts/ChartFeederUI.cs:35-41 | a feed loop is held afterwards; a new one is started only when none was held |
| Feeder.ChartFeederUI.StopFeeding | Assets/Scripts/ChartFeederUI.cs:44-51 | the held feed loop, if any, is stopped and its handle dropped |
| Feeder.ChartFeederUI.ClearAll | Assets/Scripts/ChartFeederUI.cs:54-59 | every wired chart is emptied and announces the change once |
| Feeder.ChartFeederUI.FeedStep | Assets/Scripts/ChartFeederUI.cs:67-80 | only while Playing with a bus, each wired chart receives its point of the tick and trims to its capacity; otherwise no chart changes; titles, ranges, units and capacities are kept |
| Feeder.Push | Assets/Scripts/ChartFeederUI.cs:76-78 | a wired chart becomes the newest points of its buffer plus the new one, announces one change and keeps its title, range, unit and capacity |
| EnhancedChart.EnhancedLineChart.constructor | Assets/Scripts/EnhancedLineChart.cs:8-17 | the inspector defaults: title "Chart", range 0 to 100, unit "%", capacity 300, no points |
| EnhancedChart.EnhancedLineChart.ClearChart | Assets/Scripts/EnhancedLineChart.cs:21-25 | no points, and one change announced; title, range, unit and capacity are kept |
| EnhancedChart.EnhancedLineChart.AddDataPoint | Assets/Scripts/EnhancedLineChart.cs:27-32 | the point is appended, the oldest beyond the capacity dropped and one change announced; with a positive capacity the buffer fits it and ends in the new point; title, range, unit and capacity are kept |
| EnhancedChart.EnhancedLineChart.AddVector | Assets/Scripts/EnhancedLineChart.cs:34 | the same as adding the vector's x and y |
| EnhancedChart.EnhancedLineChart.AddDataPoints | Assets/Scripts/EnhancedLineChart.cs:36-41 | all points appended, trimmed once and one change announced |
| EnhancedChart.EnhancedLineChart.TrimIfNeeded | Assets/Scripts/EnhancedLineChart.cs:43-50 | the buffer keeps its newest min(count, capacity) points, all of them for a non-positive capacity |
| EnhancedChart.SuffixAppend | Assets/Scripts/EnhancedLineChart.cs:27-41 | appending the same points to a suffix of the history and to the history keeps it a suffix |
| EnhancedChart.BufferIsNewestHistory | Assets/Scripts/EnhancedLineChart.cs:27-50 | while the capacity is fixed the buffer is the newest points added since the last clear, however they were batched |
| LineChart.Repaired | Assets/Scripts/LineChartRenderer.cs:78-79 | a non-positive capacity is repaired to 1, a positive one is kept |
| LineChart.Vertex | Assets/Scripts/LineChartRenderer.cs:117-123 | the vertex's height lies within the rectangle |
| LineChart.VertexSpan | Assets/Scripts/LineChartRenderer.cs:112-120 | the first vertex is on the left edge, the last on the right edge, and with a positive width they run left to right |
| LineChart.LineChartRenderer.constructor | Assets/Scripts/LineChartRenderer.cs:10-18 | the serialised settings and an empty series |
| LineChart.LineChartRenderer.SetMaxDataPoints | Assets/Scripts/LineChartRenderer.cs:25-30 | the capacity becomes at least 1 and the oldest values beyond it are evicted |
| LineChart.LineChartRenderer.SetMinValue | Assets/Scripts/LineChartRenderer.cs:36 | the lower bound changes for later values only |
| LineChart.LineChartRenderer.SetMaxValue | Assets/Scripts/LineChartRenderer.cs:42 | the upper bound changes for later values only |
| LineChart.LineChartRenderer.AddPoint | Assets/Scripts/LineChartRenderer.cs:50-56 | the value is clamped into the range, appended last and the series trimmed to the repaired capacity, keeping the newest values; the bounds are unchanged |
| LineChart.LineChartRenderer.AddDataPoint | Assets/Scripts/LineChartRenderer.cs:45-48 | the same as AddPoint |
| LineChart.LineChartRenderer.Clear | Assets/Scripts/LineChartRenderer.cs:58-62 | the series is empty; the settings are kept |
| LineChart.LineChartRenderer.ClearDataPoints | Assets/Scripts/LineChartRenderer.cs:64-67 | the series is empty; the settings are kept |
| LineChart.LineChartRenderer.ClearData | Assets/Scripts/LineChartRenderer.cs:69-72 | the series is empty; the settings are kept |
| LineChart.LineChartRenderer.TrimIfNeeded | Assets/Scripts/LineChartRenderer.cs:76-84 | a non-positive capacity is repaired to 1, then the oldest values beyond it are dropped |
| LineChart.LineChartRenderer.Segments | Assets/Scripts/LineChartRenderer.cs:88-133 | fewer than two values draw nothing; otherwise one segment per consecutive pair, from each vertex to the next |
| Tutorial.Pages | Assets/Scripts/TutorialOverlayController.cs:19-47 | the custom pages when there are any, otherwise the five built-in pages; never empty |
| Tutorial.Finished | Assets/Scripts/TutorialOverlayController.cs:87-93 | the completion flag is set unless the tutorial shows every run, and every other preference is untouched |
| Tutorial.Forgotten | Assets/Scripts/TutorialOverlayController.cs:97-101 | the completion flag is gone and every other preference is untouched |
| Tutorial.FinishThenReset | Assets/Scripts/TutorialOverlayController.cs:58-101 | an unforced finished tutorial counts as done until its progress is reset; finishing a forced one leaves the preferences as they were |
| Tutorial.PlayerPrefs.constructor | Assets/Scripts/TutorialOverlayController.cs:58 | the preference store holds the given values |
| Tutorial.ResetTutorialProgress | Assets/Scripts/TutorialOverlayController.cs:97-101 | the store becomes its old values with the completion flag deleted |
| Tutorial.TutorialOverlayController.constructor | Assets/Scripts/TutorialOverlayController.cs:6-46 | the inspector settings, the root's initial visibility and step 0 |
| Tutorial.TutorialOverlayController.Start | Assets/Scripts/TutorialOverlayController.cs:49-67 | without a root and a body nothing changes; a completed unforced tutorial hides the root; otherwise the root is shown on page 0 |
| Tutorial.TutorialOverlayController.Next | Assets/Scripts/TutorialOverlayController.cs:69-80 | without a root and a body nothing changes; otherwise the step advances, showing its page, and past the last page the tutorial finishes and hides |
| Tutorial.TutorialOverlayController.Skip | Assets/Scripts/TutorialOverlayController.cs:82-85 | finishes at once: the preferences become Finished and the root, if any, is hidden; the step and text are kept |
| Tutorial.TutorialOverlayController.FinishTutorial | Assets/Scripts/TutorialOverlayController.cs:87-95 | the preferences become Finished of the old ones and the root, if any, is hidden |
| Playback.FrameAt | Assets/Scripts/SimulationController.cs:53-55 | in a session with frames the result is a valid frame index: the frame the playback time falls in, or the last frame once time has reached it |
| Playback.FrameAtMonotone | Assets/Scripts/SimulationController.cs:51-55 | later playback times never show an earlier frame |
| Playback.StepMonotone | Assets/Scripts/SimulationController.cs:51-55 | a step with non-negative delta and speed never shows an earlier frame |
| Playback.SimulationController.constructor | Assets/Scripts/SimulationController.cs:7-15 | no session, speed 1, stopped at frame 0 and time 0 |
| Playback.SimulationController.LoadSession | Assets/Scripts/SimulationController.cs:18-24 | the session is stored and the clock rewound and stopped at frame 0; the speed is kept |
| Playback.SimulationController.StartPlayback | Assets/Scripts/SimulationController.cs:27-31 | the clock runs afterwards exactly when it ran before or a session is loaded; nothing else changes |
| Playback.SimulationController.PausePlayback | Assets/Scripts/SimulationController.cs:34-37 | the clock stops with its time and frame kept |
| Playback.SimulationController.StopPlayback | Assets/Scripts/SimulationController.cs:40-45 | the clock stops and rewinds to time 0 and frame 0, keeping the session |
| Playback.SimulationController.Update | Assets/Scripts/SimulationController.cs:47-61 | when not running or without a session nothing changes; otherwise time advances by delta times speed, the frame is FrameAt of the new time and the clock keeps running only before the last frame; with non-negative delta and speed the frame never moves back |

## Left out

- Floating point: C# `float` is modelled as `real`, so IEEE rounding, NaN and infinities are not modelled. Where C# would divide by zero, the model requires a non-zero divisor instead (`Feeder.Pushed` and `Feeder.FeedPoints` with normalisation).
- Number formatting (`ToString("F2")` and the like) is fixed-point decimal with halves rounded away from zero and a `.` separator; culture settings are not modelled.
- `UnityEngine.Random.Range` draws are inputs whose ranges are preconditions; the random generator itself is not modelled.
- `Time.time`, `Time.deltaTime`, `DateTime.Now` and the platform newline are parameters.
- Coroutines and `WaitForSeconds`: one iteration of the metrics poller and the chart feeder is a step method; the scheduling between iterations and the wait times are not modelled.
- C# events are modelled as counters or logs on the publisher. After each `UpdateFromFrame` and `SetState` the coordinator runs the handlers of the panels that `AnomalyPanelUI.OnEnable` and `InsightPanelUI.OnEnable` subscribe (`Twin.NotifyMetrics`, `Twin.ChangeState`). The avatar colour controller, the bus's third subscriber, only sets colours and is not called. Subscription order and unsubscribing in `OnDisable` are not modelled.
- The coordinator's handlers: a panel wired to a bus or state provider other than the coordinator's hears nothing from these calls (`Twin.NotifyMetrics` and `Twin.ChangeState` state this); the handlers themselves only promise that such a panel stays valid.
- PollerBody: after a poll, the dashboard's insight texts, the pop-up shown with its reason on a rising flag and the insight panel's message are stated by `Twin.PublishFrame` and not restated here. This contract carries the bus, the cards, the header and the flags each subscribed panel heard, from which the panels' counts follow.
- PollFrame: as for PollerBody, the dashboard's insight texts, the pop-up's onset display and the insight panel's message are stated by `Twin.PublishFrame` only.
- PollerStep: as for PollerBody for the poll it runs; the dashboard's insight texts, the pop-up's onset display and the insight panel's message are stated by `Twin.PublishFrame` only.
- OnPlayButtonClicked: as for PollerBody for its first poll; the dashboard's insight texts, the pop-up's onset display and the insight panel's message are stated by `Twin.PublishFrame` only.
- Play: as for OnPlayButtonClicked.
- ShowPoll: the dashboard's insight texts, the pop-up's onset display and the insight panel's message are those of `Twin.PublishFrame`, which it calls; its own contract carries the cards, the header and the flags heard.
- EnterState: states the insight panel's message only after a change to Stopped or to Playing, the two cases the coordinator relies on; `Twin.ChangeState` states it for every state.
- File I/O in `DataExporter.ExportSession` (`Application.persistentDataPath`, `File.WriteAllText`, exceptions and log lines): the model returns the file name and the CSV text that would be written.
- `PlayerPrefs` is a class holding a map from keys to integers; it is not persisted across runs.
- Toasts (`ToastManager`), the info panel, colours, fonts, layout geometry, grid lines, mesh building (`VertexHelper`, `AddLineSegment`, `AddQuad`) and the avatar colour controller: presentation only. Only the point-to-vertex formula of `LineChartRenderer.OnPopulateMesh` is kept.
- Branches that only guard missing UI widgets (`if (text != null)`) are modelled as optional fields where they change behaviour, and are dropped where they only skip a text assignment.
- Initial widget texts set in the Unity scene are not modelled; a widget's text is what the model last wrote.
- `Twin.DigitalTwinManager.OnSwitchModelButtonClicked` and `Switcher.ModelSwitcher.ActiveModelKey`: require the key `'A' + index` to be a Dafny `char`, i.e. fewer than 55231 models; C# `char` arithmetic wraps instead.
- `Feeder.ChartFeederUI.ClearAll`, `Feeder.ChartFeederUI.FeedStep`, `Dashboard.ConsolidatedDashboard.ResetDashboard` and the coordinator's handlers: require the three wired charts to be distinct objects; the same chart wired twice (aliasing) is not modelled.
- `ChartSeriesTarget` (reflection), help and legend panels, button visuals, the speed slider and demo controls, `AnalyticsDashboard` and `FrameData`: they forward clicks or assign colours and texts and are not part of this model.
