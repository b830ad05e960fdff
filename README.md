# People counter: trajectory analysis and crossing count

This project models the counting core of a people-counting program. Each video frame, a centroid tracker
gives every visible person a persistent object id and a centroid. For each `(objectID, centroid)` entry,
the frame loop in `main.py` does the following:

- It keeps a trackable object per id. The object holds the centroid history and a `counted` flag.
- It takes the direction of travel as the new `y` minus the mean of the previous `y`s.
- It counts a person once, as *up* or as *down*, when the person moves that way and is past the middle
  line `H // 2`.
- It keeps the totals `totalUp` and `totalDown` and the lists `emptyUp` and `emptyDown`, which grow with
  every count.
- It keeps the net occupancy in the one-element list `x`.
- On a down count it raises an alert when `sum(x)` has reached the threshold.

The model has three modules:

- `Trajectory` (trajectory.dfy) holds the values: `Centroid`, `Record`, `Event` and `State`. It gives
  the direction test two ways. One is the source's real-valued `y - mean(ys)` (`Direction`). The other
  is an exact integer form with the division cleared (`MovingUp` and `MovingDown`). It also has the
  invariant `Valid`, the pure one-entry step `Step` and its fold over a frame, `Run`.
- `Properties` (properties.dfy) proves what the block promises about `Step` and `Run`.
- `Counter` (counter.dfy) has the class `TrajectoryAnalyzer`. Its fields are the block's variables.
  `Observe` updates them in place for one entry. `ProcessFrame` runs the loop over one frame's entries.
  Both are proved equal to `Step` and `Run`, and both keep `Valid`.

Notes on the model:

- The floating-point mean is replaced by exact arithmetic. `DirectionSign` proves that
  `|ys|·y < sum(ys)` holds exactly when `y - mean(ys) < 0` over the reals, and likewise for `> 0`.
- Python's `H // 2` rounds towards minus infinity. Dafny's `h / 2` does the same, because the divisor
  is positive. `Midline` states this.
- The frame height `H` and `config.Threshold` are parameters.
- The tracker's output is the input: a sequence of `Sighting(id, centroid)` in `objects.items()` order.
- A new `TrackableObject(objectID, centroid)` is modelled as `Record([centroid], false)`.

Two consequences of the code worth stating:

- History `[50, 50, 50]` followed by `y = 70`, with the line at 90, gives direction `+20`. The object
  is moving down but is still above the line, so no event fires (`AboveLineExample`).
- Records are never removed. An id that the tracker drops keeps its record (`StepFrame`, `RunOthers`).

## Model

| member | source | states |
|---|---|---|
| `Trajectory.Midline` | main.py:209 | the line `H // 2` is the floor of `H / 2`: `2·m <= H < 2·m + 2` |
| `Trajectory.Ys` | main.py:200 | the list of `y` coordinates has one entry per centroid, the `y` of that centroid |
| `Trajectory.Tally` | main.py:210-211 | the list built by `append(total)` after each increment is `[1, 2, ..., n]` |
| `Trajectory.Run` | main.py:187 | the loop over the tracker's entries yields one event and one alert flag per entry |
| `Properties.DirectionSign` | main.py:200-201 | `direction < 0` iff `|ys|·y < sum(ys)`; `direction > 0` iff `|ys|·y > sum(ys)`; zero iff neither |
| `Properties.ClassifyByDirection` | main.py:209-219 | for a history: up iff direction < 0 and `y < H // 2`; down iff direction > 0 and `y > H // 2`; direction 0 gives no event |
| `Properties.FirstSighting` | main.py:189-193 | a first sighting stores `([c], not counted)`, emits no event and no alert, and leaves the totals, the lists and `x` unchanged |
| `Properties.HistoryGrows` | main.py:200-202 | a later sighting appends exactly the new centroid to the history, counted or not |
| `Properties.StepFrame` | main.py:234 | after an observation the id has a record, every other record is unchanged, and no record is removed |
| `Properties.CountedIsInert` | main.py:205 | a counted record stays counted; its later sightings emit nothing, raise no alert and change neither the totals nor the lists nor `x` |
| `Properties.Latch` | main.py:205-228 | `counted` never reverts; it turns true only for the observed id, and exactly when that observation emits a crossing of an uncounted record |
| `Properties.Classification` | main.py:205-219 | up iff the record existed uncounted, direction < 0 and `y < H // 2`; down iff it existed uncounted, direction > 0 and `y > H // 2` |
| `Properties.TotalsGrow` | main.py:209-219 | `totalUp` grows by one exactly on an up event, `totalDown` exactly on a down event; neither decreases and together they grow by at most one |
| `Properties.OccupancyIsSumOfX` | main.py:221 | under the invariant, `sum(x)` is the net occupancy `totalDown - totalUp` |
| `Properties.OccupancyAfterUncounted` | main.py:229-231 | after an observation of an existing uncounted record, `x == [totalDown - totalUp]` |
| `Properties.AlertCondition` | main.py:217-226 | an alert is raised iff the event is a down crossing and the occupancy before that crossing is `>= Threshold`; an up crossing never raises one |
| `Properties.CountedIdsStep` | main.py:212 | the set of counted ids grows by the observed id exactly when a crossing fires, and that id was not counted before |
| `Properties.StepPreservesValid` | main.py:186-234 | one observation keeps the invariant: `emptyUp == [1..totalUp]`, `emptyDown == [1..totalDown]`, `x` is the occupancy, histories are non-empty, counted records = counts |
| `Properties.InitialValid` | main.py:63-72 | the initial variables satisfy the invariant and `sum(x) == 0` |
| `Properties.StepsCommute` | main.py:187-234 | observing two different ids in either order gives the same state and the same event per id |
| `Properties.StepSeesOwnRecord` | main.py:189 | observing another id first does not change the event or the new record of this id |
| `Properties.RecordsCommute` | main.py:234 | the records after two different ids do not depend on their order |
| `Properties.TotalsCommute` | main.py:209-219 | the totals after two different ids do not depend on their order |
| `Properties.ListsAndXCommute` | main.py:210-231 | `emptyUp`, `emptyDown` and `x` after two different ids do not depend on their order |
| `Properties.RunPreservesValid` | main.py:186-234 | any sequence of observations keeps the invariant |
| `Properties.RunHistory` | main.py:189-202 | an id has a record iff it had one or was observed, and its history grew by exactly the number of its observations |
| `Properties.RunCountsOnce` | main.py:205-228 | over any run at most one crossing is emitted per id, none once it is counted, and one exactly when the run latched it |
| `Properties.RunTotals` | main.py:209-219 | over any run, each total grows by exactly the number of its events |
| `Properties.RunAppend` | main.py:187-234 | running one sequence of sightings and then another equals one run over both joined, with events and alerts concatenated, so successive frames compose |
| `Properties.RunOthers` | main.py:234 | a run leaves the record of an id it never observes exactly as it was, present or absent |
| `Properties.EventIsLocal` | main.py:189-219 | the event of a sighting depends only on that id's own record, not on any other record, the totals or `x` |
| `Properties.EventsIndependent` | main.py:187-219 | within a frame of distinct ids, each entry's event equals the event it gets when observed alone against the state before the frame, so the order of entries does not change any id's event |
| `Properties.UpExample` | main.py:209-212 | history `y = 100, 100, 100`, new `y = 40`, line at 90: up crossing |
| `Properties.DownExample` | main.py:217-219 | history `y = 50, 50, 50`, new `y = 120`, line at 90: down crossing |
| `Properties.AboveLineExample` | main.py:209-219 | history `y = 50, 50, 50`, new `y = 70`, line at 90: moving down above the line, no crossing |
| `Counter.TrajectoryAnalyzer.constructor` | main.py:63-72 | starts with no trackable objects, zero totals and empty lists, and satisfies the invariant |
| `Counter.TrajectoryAnalyzer.Observe` | main.py:188-234 | updates the fields in place exactly as `Step` specifies and keeps the invariant; other ids' records are untouched; an alert implies a down crossing at occupancy `>= Threshold` |
| `Counter.TrajectoryAnalyzer.ProcessFrame` | main.py:187-234 | runs the loop body over one frame's entries in order; the new fields, events and alerts are exactly `Run`, and the invariant holds |

## Left out

- Argument parsing, loading and running the Caffe network, video capture and writing, and the frame
  resize (main.py:16-121): I/O and foreign libraries.
- Detection filtering and the dlib correlation trackers (main.py:123-172): their behaviour is in
  libraries whose code is not visible. The rectangles only feed the centroid tracker.
- `CentroidTracker.update` (main.py:184): lib/centroidtracker.py is not part of this model. Its output
  is taken as the input sequence of sightings, with distinct ids as a dictionary gives them.
- `TrackableObject` (lib/trackableobject.py) is not part of this model. The record keeps only what the
  block uses, the centroid history and `counted`, and not the stored object id.
- The alert's delivery is left out: drawing the warning with `cv2.putText`, sending mail with
  `Mailer().send` when `config.ALERT` is set, and the log lines (main.py:222-226). The alert is only a
  returned boolean.
- The on-screen line and text (main.py:177-179), `FPS`, `schedule`, threading and timing: display and
  timing side effects.
- Floating-point rounding in `np.mean` (main.py:201) is not modelled: the model compares against the
  exact mean. The NaN mean of an empty history does not arise, because every history holds at least
  one centroid.
- The `TrackableObject` is a mutable object that the dictionary stores by reference. It is modelled as a
  value written back under its id (main.py:234). Nothing else refers to it, so no aliasing is lost.
- Alerts are not order-independent within a frame: a second down crossing sees the first in `sum(x)`.
  `StepsCommute` and `EventsIndependent` therefore state that the state and the events do not depend on
  the order, and do not claim it for the alerts.
- The defects of the driver loop outside the counting block are not reproduced: the option name at
  main.py:17, `net.foward` at main.py:121, the detection loop outside its `if` at main.py:124, and the
  tab-indented lines at main.py:177-179.
