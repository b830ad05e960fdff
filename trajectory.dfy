/**
 * The per-identity trajectory analyser of the people counter: one
 * trajectory record per object id, a direction test against the mean of the
 * previous vertical positions, an exactly-once up/down crossing latch, the
 * running totals and the occupancy alert.
 *
 * This module holds the values and the pure step function that specifies
 * one observation; the class in module Counter performs the same step in
 * place and is proved against it.
 */
module Trajectory {

  /** A centroid as produced by the centroid tracker: (x, y) in pixels. */
  datatype Centroid = Centroid(x: int, y: int)

  /** One trackable object: its centroid history and its counted flag. */
  datatype Record = Record(centroids: seq<Centroid>, counted: bool)

  /** The counting event one observation produces. */
  datatype Event = NoCrossing | CrossedUp | CrossedDown

  /** One (objectID, centroid) entry of the centroid tracker's output. */
  datatype Sighting = Sighting(id: int, centroid: Centroid)

  /**
   * Everything the counting block keeps between observations:
   * the trackable objects by id, the two totals, the two lists that grow
   * with every count, and the one-element occupancy list x.
   */
  datatype State = State(
    trackableObjects: map<int, Record>,
    totalUp: nat,
    totalDown: nat,
    emptyUp: seq<int>,
    emptyDown: seq<int>,
    x: seq<int>)

  /** What one observation yields: the new state, the event and the alert. */
  datatype Outcome = Outcome(state: State, event: Event, alert: bool)

  /** What a sequence of observations yields, one event and alert each. */
  datatype Trace = Trace(state: State, events: seq<Event>, alerts: seq<bool>)

  /** The state before the first frame: nothing tracked, nothing counted. */
  function Initial(): State
  {
    State(map[], 0, 0, [], [], [])
  }

  /** The counting line `H // 2`; Python's `//` rounds towards minus infinity. */
  function Midline(h: int): (m: int)
    ensures 2 * m <= h < 2 * m + 2
  {
    h / 2
  }

  /** Python's built-in `sum` over a list of integers. */
  function Sum(s: seq<int>): int
  {
    if s == [] then 0 else Sum(s[..|s| - 1]) + s[|s| - 1]
  }

  /** The list comprehension `[c[1] for c in centroids]`. */
  function Ys(centroids: seq<Centroid>): (ys: seq<int>)
    ensures |ys| == |centroids|
    ensures forall i :: 0 <= i < |centroids| ==> ys[i] == centroids[i].y
  {
    seq(|centroids|, i requires 0 <= i < |centroids| => centroids[i].y)
  }

  /** `np.mean(y)`, taken over the reals instead of floating point. */
  function Mean(ys: seq<int>): real
    requires |ys| > 0
  {
    Sum(ys) as real / |ys| as real
  }

  /** `direction = centroid[1] - np.mean(y)`, over the reals. */
  function Direction(history: seq<Centroid>, y: int): real
    requires |history| > 0
  {
    y as real - Mean(Ys(history))
  }

  /** `direction < 0`, with the mean cleared of its division. */
  predicate MovingUp(history: seq<Centroid>, y: int)
  {
    |history| * y < Sum(Ys(history))
  }

  /** `direction > 0`, with the mean cleared of its division. */
  predicate MovingDown(history: seq<Centroid>, y: int)
  {
    |history| * y > Sum(Ys(history))
  }

  /**
   * The two tests of an uncounted record: up when moving up and above the
   * line, otherwise down when moving down and below it.
   */
  function Classify(history: seq<Centroid>, y: int, h: int): Event
  {
    if MovingUp(history, y) && y < Midline(h) then CrossedUp
    else if MovingDown(history, y) && y > Midline(h) then CrossedDown
    else NoCrossing
  }

  /** The list [1, 2, ..., n] that `emptyUp.append(totalUp)` builds up. */
  function Tally(n: nat): (t: seq<int>)
    ensures |t| == n
    ensures forall i :: 0 <= i < n ==> t[i] == i + 1
  {
    if n == 0 then [] else Tally(n - 1) + [n]
  }

  /** The ids whose record has been counted. */
  function CountedIds(records: map<int, Record>): set<int>
  {
    set id | id in records && records[id].counted
  }

  /** Whether `id` has a record and that record is counted. */
  predicate Counted(s: State, id: int)
  {
    id in s.trackableObjects && s.trackableObjects[id].counted
  }

  /**
   * The invariant the counting block keeps: the lists are exactly the
   * running tallies, x is empty or holds the net occupancy (and is empty
   * only before the first count), every history is non-empty, and the
   * number of counted records equals the number of counts.
   */
  ghost predicate Valid(s: State)
  {
    && s.emptyUp == Tally(s.totalUp)
    && s.emptyDown == Tally(s.totalDown)
    && (s.x == [s.totalDown - s.totalUp] || (s.x == [] && s.totalUp == 0 && s.totalDown == 0))
    && (forall id :: id in s.trackableObjects ==> |s.trackableObjects[id].centroids| > 0)
    && |CountedIds(s.trackableObjects)| == s.totalUp + s.totalDown
  }

  /**
   * One pass of the loop body for entry (id, c): create the record on a
   * first sighting; otherwise take the direction from the previous
   * centroids, append c, and, if the record is not yet counted, count an
   * up or down crossing, test the alert against sum(x) as it stood, and
   * reset x to the net occupancy.
   */
  function Step(s: State, id: int, c: Centroid, h: int, threshold: int): Outcome
  {
    if id !in s.trackableObjects then
      Outcome(s.(trackableObjects := s.trackableObjects[id := Record([c], false)]), NoCrossing, false)
    else
      var obj := s.trackableObjects[id];
      var grown := obj.(centroids := obj.centroids + [c]);
      if obj.counted then
        Outcome(s.(trackableObjects := s.trackableObjects[id := grown]), NoCrossing, false)
      else
        var event := Classify(obj.centroids, c.y, h);
        var up := if event == CrossedUp then s.totalUp + 1 else s.totalUp;
        var down := if event == CrossedDown then s.totalDown + 1 else s.totalDown;
        var emptyUp := if event == CrossedUp then s.emptyUp + [up] else s.emptyUp;
        var emptyDown := if event == CrossedDown then s.emptyDown + [down] else s.emptyDown;
        var alert := event == CrossedDown && Sum(s.x) >= threshold;
        var obj' := grown.(counted := event != NoCrossing);
        Outcome(
          State(s.trackableObjects[id := obj'], up, down, emptyUp, emptyDown,
                [|emptyDown| - |emptyUp|]),
          event, alert)
  }

  /** The loop over `objects.items()`: Step for each sighting in order. */
  function Run(s: State, objects: seq<Sighting>, h: int, threshold: int): (t: Trace)
    ensures |t.events| == |t.alerts| == |objects|
    decreases |objects|
  {
    if objects == [] then Trace(s, [], [])
    else
      var last := objects[|objects| - 1];
      var t := Run(s, objects[..|objects| - 1], h, threshold);
      var o := Step(t.state, last.id, last.centroid, h, threshold);
      Trace(o.state, t.events + [o.event], t.alerts + [o.alert])
  }
}
