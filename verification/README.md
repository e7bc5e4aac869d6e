# Squat and back-thigh analytics — a Dafny model

The repository holds four near-duplicate scripts that watch someone exercise.
In each, a pose estimator finds body landmarks in every video frame, and a
small amount of pure logic turns one joint angle per frame into feedback and
a repetition count. This project models that per-frame logic and proves
properties of it:

- **Angle folding** (`Angle`). `calculate_angle` subtracts the directions of
  the two rays at the vertex, takes the absolute value in degrees, and folds
  anything above 180 to `360 - x`. The arctangent difference enters the model
  as an opaque raw difference `d` with `-360 <= d <= 360`. The four scripts
  carry identical copies of this function: `main.py:16-20`,
  `main1.6.py:26-30`, `main1.7.py:73-77` and `main1.8.py:63-67`. All four are
  modelled by `Angle.Fold`.
- **Knee analysis of `main.py`** (`Hysteresis`). A stateless posture label
  per frame (below 70, above 160, or in between). Next to it, a two-state
  repetition counter (`knee_bent`, `rep_count`) with thresholds 70 and 160.
  A repetition is counted only when the knee goes from bent to extended.
- **Back-thigh analysis of `main1.7.py` and `main1.8.py`** (`Tally`). Both
  files run the same `process_frame` code. Every frame with landmarks whose
  angle is below 70 adds one to `rep_count`. Every frame with landmarks
  appends one row `[timestamp, rep_count, angle]` to `data`.
- **Coaching variant `main1.6.py`** (`Coach`). It has the same tally and rows
  (defined via `Tally.Step`). It also keeps `angle_history` and `rep_time`,
  and it speaks a repetition message below 70 and a posture warning above 170.
- **Export shape** (`Export`). `save_data` and `save_report` write the rows
  as a table with the columns Timestamp, Repetitions and Back-Thigh Angle, in
  that order.
- **Composition and comparison** (`Pipeline`). Rows built from folded
  frames hold angles in [0, 180]. On the same frames, the single-threshold
  tally is never below the two-threshold count.

Each script's state is an immutable record. Each per-frame update is a pure
`Step` function over `(state, frame)`, and `Run` folds it over a sequence of
frames from the script's initial state. A frame is an optional angle (`None`
when the pose estimator finds no landmarks) plus, for the back-thigh
variants, the clock reading `datetime.now()` would return. The clock is an
opaque `Instant` supplied with the frame.

Each counter has a partner: an independent definition it is proved equal to.
- `Hysteresis.Run` counts exactly the `Cycles` of the angle stream. A cycle
  is a frame above 160 while some earlier frame was below 70 and no frame
  in between was above 160.
- `Tally.Run` satisfies the `Ledger` invariant: the tally and every row's
  Repetitions field equal the number of rows so far whose angle is below 70.
- `Coach.Run` keeps its lists in lock-step with the rows and with the tally.

On `[170, 65, 75, 65, 75, 65, 175]`, `main.py` counts one repetition: the
first 65 arms the counter, the bounces around 70 add nothing, and the final
175 is above 160 (`BounceCountsOnce`). The back-thigh scripts count every
frame below 70, and `Tally` keeps that rule as written.

## Model

| member | source | states |
|---|---|---|
| Angle.Fold | main.py:16-20 | For every raw difference in [-360, 360], the folded angle lies in [0, 180] and equals either \|d\| or 360 - \|d\| |
| Angle.FoldUnique | main.py:17-20 | The folded angle is the only value in [0, 180] among \|d\| and 360 - \|d\| |
| Angle.FoldSymmetric | main1.6.py:26-30 | Negating the raw difference, which is what swapping the outer landmarks does, gives the same angle |
| Angle.FoldRightAngle | main1.8.py:63-67 | The raw differences -90, +90 (outer landmarks swapped) and 270 of right angles all fold to 90 |
| Angle.FoldFrames | main1.8.py:83-91 | Folding a frame stream keeps clocks and landmark presence, and puts every angle in [0, 180], congruent to the raw difference up to sign |
| Hysteresis.Classify | main.py:58-63 | Exactly one posture zone per angle: too tight iff below 70, too wide iff above 160, correct iff in [70, 160] |
| Hysteresis.LabelInjective | main.py:58-63 | The three feedback texts differ, so the text shown identifies the zone |
| Hysteresis.Feedback | main.py:57-64 | A label is shown iff the frame has landmarks, and it is the text of the angle's zone |
| Hysteresis.Step | main.py:57-70 | No angle: no change. Extended and below 70: becomes bent, same count. Bent and above 160: one more repetition and extended. Anything else: no change. The count grows iff bent and above 160 |
| Hysteresis.RunCountsCycles | main.py:47-70 | Starting from not bent and zero, the knee is bent iff the stream leaves it armed, and the count equals the completed bend-and-extend cycles |
| Hysteresis.CompletesAtIff | main.py:66-70 | A repetition is counted at frame i iff that frame is above 160 and the frames before it leave the knee armed |
| Hysteresis.BendBetweenRepetitions | main.py:66-70 | Between any two counted repetitions there is a frame below 70 |
| Hysteresis.RepsBoundedByBends | main.py:66-70 | The count, plus one if the knee is bent, never exceeds the number of frames below 70 |
| Hysteresis.RunMonotone | main.py:69 | Along the stream the count never decreases, and it grows by at most one per frame |
| Hysteresis.RunIgnoresMissing | main.py:57 | Trailing frames without landmarks leave the counter state unchanged |
| Hysteresis.StepAgreesWithClassify | main.py:58-70 | A repetition is only counted on a frame labelled too wide, and the knee only becomes bent on a frame labelled too tight |
| Hysteresis.SquatCountsOnce | main.py:66-71 | [170, 100, 60, 50, 65, 100, 170] yields exactly one repetition, counted at the final 170 and not at the 65 rebound |
| Hysteresis.BounceCountsOnce | main.py:66-70 | [170, 65, 75, 65, 75, 65, 175] yields no repetition before the last frame and exactly one after it |
| Tally.Step | main1.8.py:81-104 | No landmarks: tally and rows unchanged. Landmarks: the tally grows by exactly one iff the angle is below 70, and exactly one row is appended carrying the clock, the updated tally and the angle |
| Tally.StepKeepsLedger | main1.8.py:97-102 | Each frame keeps the invariant that the tally and every row's Repetitions equal the number of rows so far with angle below 70 |
| Tally.RunLedger | main1.8.py:107-117 | From 0 and no rows: the invariant holds, there is one row per frame with landmarks, the row angles are those frames' angles in order, and the final tally is the number of frames below 70 |
| Tally.RepetitionsStep | main1.8.py:97-102 | Consecutive rows: Repetitions steps by one iff the later row's angle is below 70, and otherwise stays the same |
| Tally.RepetitionsMonotone | main1.7.py:119-123 | The Repetitions column is non-decreasing, rising by at most one per row |
| Tally.LastRowIsFinalCount | main1.7.py:123-146 | When rows exist, the last row's Repetitions equals the final tally handed to the report |
| Tally.CountAtMostRows | main1.7.py:119-123 | The tally never exceeds the number of rows |
| Tally.RunIgnoresMissing | main1.7.py:109-125 | Trailing frames without landmarks leave the tally and the rows unchanged |
| Tally.SquatTalliedPerFrame | main1.8.py:97-102 | A single squat held below 70 for two frames is tallied twice, with rows Repetitions 0, 1, 2, 2 |
| Coach.Step | main1.6.py:68-103 | No landmarks: nothing changes. Tally and rows evolve as in Tally.Step. The angle joins the history exactly once. A clock reading is added to rep_time exactly when the tally grows |
| Coach.AlertsExclusive | main1.6.py:86-98 | At most one message per frame. The repetition message is spoken iff the tally grows, the posture warning iff the angle is above 170, and the warning never comes with a repetition |
| Coach.StepKeepsLockStep | main1.6.py:84-101 | Each frame keeps history and rows the same length, keeps history[i] equal to row i's angle, and keeps len(rep_time) equal to the tally |
| Coach.RunLockStep | main1.6.py:105-118 | From the empty start: the tally part equals the plain tally, the lists stay in lock-step, the history is the angles seen, and rep_time holds the clocks of the frames below 70 |
| Coach.RunSkipsMissing | main1.6.py:70-103 | Frames without landmarks, wherever they occur, change nothing: tally, rows, history and rep_time are as if only the frames with landmarks had been processed |
| Export.ToTable | main1.8.py:73 | The exported table has the header Timestamp, Repetitions, Back-Thigh Angle and one three-cell line per row |
| Export.RowRoundTrip | main1.8.py:102 | A row exported to its three cells reads back as the same row |
| Export.ParseRowExact | main1.6.py:101 | A line that reads back as a row is exactly that row's export |
| Export.TableRoundTrip | main1.7.py:84 | The exported table reads back as the same rows in the same order |
| Export.ParseTableExact | main1.6.py:36 | A table that reads back as rows is exactly the export of those rows |
| Export.ColumnsByName | main1.7.py:84 | Looking the table up by column name gives the timestamps, the repetition counts and the angles of the rows, respectively |
| Pipeline.FoldedRowsInRange | main1.8.py:91-102 | Rows recorded from frames whose raw differences are folded hold angles in [0, 180] |
| Pipeline.TallyAtLeastCycles | main1.8.py:97-98 | On the same frames, the single-threshold tally is at least the two-threshold repetition count |
| Pipeline.SquatCountedDifferently | main.py:66-70 | On one squat held below 70 for two frames, the two-threshold counter counts 1 and the single-threshold tally counts 2 |

## Left out

- The arctangent of each ray and the radian-to-degree conversion. This is floating-point trigonometry; its result enters as the raw difference `d`.
- Pose estimation (MediaPipe), video and webcam capture, drawing of landmarks and text overlays, window display and the quit key. These are foreign calls and I/O. A frame is reduced to its optional angle.
- The integer truncation `int(angle)` used only for the on-screen angle text.
- The wall clock. `datetime.now()` becomes an opaque `Instant` carried by the frame, and its `'%H:%M:%S'` formatting is not modelled. In `main1.6.py` the row and `rep_time` read the clock in two separate calls; the model uses one reading per frame for both.
- Coach.AlertsExclusive: the spoken wording and the speech engine are not modelled. Only which message is spoken, and the exercise name it carries, is modelled.
- The CSV text and file names written by pandas, the PDF report, and the plot of `rep_time`. These are external libraries and output only. `Export` models the table shape.
- SQLite users and reports, login, registration, and the report listing. This is database I/O with no logic beyond the queries. The final tally handed to the report is covered by `Tally.LastRowIsFinalCount`.
- All Tk screens and dialogs.
- Session open and close errors and a visibility-confidence floor. None of the scripts has them.
- Exercise-specific threshold configuration. The scripts hard-code 70, 160 and 170, and the model uses those constants.
