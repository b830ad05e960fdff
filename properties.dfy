/**
 * What the counting block promises, proved about Trajectory.Step (one
 * observation) and Trajectory.Run (the observations of a frame, or of
 * several frames in a row).
 */
module Properties {
  import opened Trajectory

  /** How many sightings in `objects` carry `id`. */
  function Occurrences(objects: seq<Sighting>, id: int): nat
  {
    if objects == [] then 0
    else Occurrences(objects[..|objects| - 1], id) + (if objects[|objects| - 1].id == id then 1 else 0)
  }

  /** How many of `events` are `e`. */
  function CountEvents(events: seq<Event>, e: Event): nat
  {
    if events == [] then 0
    else CountEvents(events[..|events| - 1], e) + (if events[|events| - 1] == e then 1 else 0)
  }

  /** How many crossing events were emitted for sightings of `id`. */
  function CrossingsFor(objects: seq<Sighting>, events: seq<Event>, id: int): nat
    requires |events| == |objects|
  {
    if objects == [] then 0
    else
      var n := |objects| - 1;
      CrossingsFor(objects[..n], events[..n], id) + (if objects[n].id == id && events[n] != NoCrossing then 1 else 0)
  }

  // ---------------------------------------------------------------------
  // The direction test

  /**
   * The sign of `y - mean(ys)` over the reals is the sign of
   * `|ys| * y - sum(ys)`, so the integer tests MovingUp and MovingDown are
   * exactly `direction < 0` and `direction > 0`.
   */
  lemma DirectionSign(history: seq<Centroid>, y: int)
    requires |history| > 0
    ensures Direction(history, y) < 0.0 <==> MovingUp(history, y)
    ensures Direction(history, y) > 0.0 <==> MovingDown(history, y)
    ensures Direction(history, y) == 0.0 <==> !MovingUp(history, y) && !MovingDown(history, y)
  {
    var n := |history| as real;
    var total := Sum(Ys(history)) as real;
    var d := Direction(history, y);
    assert d == y as real - total / n;
    assert d * n == y as real * n - total;
    assert (|history| * y) as real == n * y as real;
    if d < 0.0 {
      assert d * n < 0.0;
    } else if d > 0.0 {
      assert d * n > 0.0;
    } else {
      assert d * n == 0.0;
    }
  }

  /**
   * Classify, stated with the source's own real-valued direction: up iff
   * the direction is negative and the centroid is above the line, down iff
   * it is positive and the centroid is below the line, never both, and
   * nothing when the direction is exactly zero.
   */
  lemma ClassifyByDirection(history: seq<Centroid>, y: int, h: int)
    requires |history| > 0
    ensures Classify(history, y, h) == CrossedUp <==> Direction(history, y) < 0.0 && y < Midline(h)
    ensures Classify(history, y, h) == CrossedDown <==> Direction(history, y) > 0.0 && y > Midline(h)
    ensures Direction(history, y) == 0.0 ==> Classify(history, y, h) == NoCrossing
  {
    DirectionSign(history, y);
  }

  // ---------------------------------------------------------------------
  // One observation

  /**
   * A first sighting creates the record ([c], not counted), emits nothing
   * and leaves the totals, the two lists and x as they were.
   */
  lemma FirstSighting(s: State, id: int, c: Centroid, h: int, threshold: int)
    requires id !in s.trackableObjects
    ensures var o := Step(s, id, c, h, threshold);
      && o.state.trackableObjects[id] == Record([c], false)
      && o.event == NoCrossing && !o.alert
      && o.state.totalUp == s.totalUp && o.state.totalDown == s.totalDown
      && o.state.emptyUp == s.emptyUp && o.state.emptyDown == s.emptyDown
      && o.state.x == s.x
  {
  }

  /**
   * A later sighting appends exactly the new centroid to the history,
   * whether or not the record is counted.
   */
  lemma HistoryGrows(s: State, id: int, c: Centroid, h: int, threshold: int)
    requires id in s.trackableObjects
    ensures var o := Step(s, id, c, h, threshold);
      && id in o.state.trackableObjects
      && o.state.trackableObjects[id].centroids == s.trackableObjects[id].centroids + [c]
  {
  }

  /**
   * Only the observed id's record changes: it is present afterwards, every
   * other record is untouched, and no record is removed.
   */
  lemma StepFrame(s: State, id: int, c: Centroid, h: int, threshold: int)
    ensures var o := Step(s, id, c, h, threshold);
      && o.state.trackableObjects.Keys == s.trackableObjects.Keys + {id}
      && forall j :: j in s.trackableObjects && j != id ==>
           o.state.trackableObjects[j] == s.trackableObjects[j]
  {
  }

  /**
   * A counted record stays counted, its later sightings emit nothing, raise
   * no alert and leave the totals, the lists and x unchanged.
   */
  lemma CountedIsInert(s: State, id: int, c: Centroid, h: int, threshold: int)
    requires Counted(s, id)
    ensures var o := Step(s, id, c, h, threshold);
      && Counted(o.state, id)
      && o.event == NoCrossing && !o.alert
      && o.state.totalUp == s.totalUp && o.state.totalDown == s.totalDown
      && o.state.emptyUp == s.emptyUp && o.state.emptyDown == s.emptyDown
      && o.state.x == s.x
  {
  }

  /**
   * The counted flag is a one-shot latch: it never goes back to false, and
   * it goes from false to true only for the observed id, exactly when that
   * observation emits a crossing.
   */
  lemma Latch(s: State, id: int, c: Centroid, h: int, threshold: int, j: int)
    ensures var o := Step(s, id, c, h, threshold);
      Counted(o.state, j) <==> Counted(s, j) || (j == id && o.event != NoCrossing)
    ensures var o := Step(s, id, c, h, threshold);
      o.event != NoCrossing ==> !Counted(s, id)
  {
  }

  /**
   * An up event happens iff the record existed uncounted, the direction is
   * negative and the centroid is above the line; a down event iff it
   * existed uncounted, the direction is positive and the centroid is below
   * the line.
   */
  lemma Classification(s: State, id: int, c: Centroid, h: int, threshold: int)
    requires Valid(s)
    ensures var o := Step(s, id, c, h, threshold);
      o.event == CrossedUp <==>
        && id in s.trackableObjects && !s.trackableObjects[id].counted
        && Direction(s.trackableObjects[id].centroids, c.y) < 0.0 && c.y < Midline(h)
    ensures var o := Step(s, id, c, h, threshold);
      o.event == CrossedDown <==>
        && id in s.trackableObjects && !s.trackableObjects[id].counted
        && Direction(s.trackableObjects[id].centroids, c.y) > 0.0 && c.y > Midline(h)
  {
    if id in s.trackableObjects {
      ClassifyByDirection(s.trackableObjects[id].centroids, c.y, h);
    }
  }

  /**
   * The totals never decrease; each grows by one exactly on its own event,
   * so together they grow by at most one per observation.
   */
  lemma TotalsGrow(s: State, id: int, c: Centroid, h: int, threshold: int)
    ensures var o := Step(s, id, c, h, threshold);
      && o.state.totalUp == s.totalUp + (if o.event == CrossedUp then 1 else 0)
      && o.state.totalDown == s.totalDown + (if o.event == CrossedDown then 1 else 0)
    ensures var o := Step(s, id, c, h, threshold);
      s.totalUp + s.totalDown <= o.state.totalUp + o.state.totalDown <= s.totalUp + s.totalDown + 1
  {
  }

  /** The one-element x list always holds the net occupancy, or is empty at 0. */
  lemma OccupancyIsSumOfX(s: State)
    requires Valid(s)
    ensures Sum(s.x) == s.totalDown - s.totalUp
  {
  }

  /** After an observation of an existing uncounted record, x is [down - up]. */
  lemma OccupancyAfterUncounted(s: State, id: int, c: Centroid, h: int, threshold: int)
    requires Valid(s)
    requires id in s.trackableObjects && !s.trackableObjects[id].counted
    ensures var o := Step(s, id, c, h, threshold);
      o.state.x == [o.state.totalDown - o.state.totalUp]
  {
    TotalsGrow(s, id, c, h, threshold);
  }

  /**
   * An alert is raised only with a down crossing, and then exactly when the
   * occupancy before this crossing reaches the threshold; an up crossing
   * never raises one.
   */
  lemma AlertCondition(s: State, id: int, c: Centroid, h: int, threshold: int)
    requires Valid(s)
    ensures var o := Step(s, id, c, h, threshold);
      o.alert <==> o.event == CrossedDown && s.totalDown - s.totalUp >= threshold
  {
    OccupancyIsSumOfX(s);
  }

  /** The counted ids after a step: one more exactly when a crossing fired. */
  lemma CountedIdsStep(s: State, id: int, c: Centroid, h: int, threshold: int)
    ensures var o := Step(s, id, c, h, threshold);
      CountedIds(o.state.trackableObjects) ==
        CountedIds(s.trackableObjects) + (if o.event != NoCrossing then {id} else {})
    ensures var o := Step(s, id, c, h, threshold);
      o.event != NoCrossing ==> id !in CountedIds(s.trackableObjects)
  {
    var o := Step(s, id, c, h, threshold);
    forall j
      ensures j in CountedIds(o.state.trackableObjects) <==>
        j in CountedIds(s.trackableObjects) + (if o.event != NoCrossing then {id} else {})
    {
      Latch(s, id, c, h, threshold, j);
    }
  }

  /** Every observation keeps the invariant. */
  lemma StepPreservesValid(s: State, id: int, c: Centroid, h: int, threshold: int)
    requires Valid(s)
    ensures Valid(Step(s, id, c, h, threshold).state)
  {
    var o := Step(s, id, c, h, threshold);
    CountedIdsStep(s, id, c, h, threshold);
    TotalsGrow(s, id, c, h, threshold);
    StepFrame(s, id, c, h, threshold);
    forall j | j in o.state.trackableObjects
      ensures |o.state.trackableObjects[j].centroids| > 0
    {
      if j == id && id in s.trackableObjects {
        HistoryGrows(s, id, c, h, threshold);
      }
    }
  }

  /** The state before the first frame satisfies the invariant. */
  lemma InitialValid()
    ensures Valid(Initial())
    ensures Sum(Initial().x) == 0
  {
    assert CountedIds(map[]) == {};
  }

  /**
   * Observing two different ids in either order gives the same state and
   * the same crossing event for each id (the alerts may differ, since the
   * second down crossing sees the first in the occupancy).
   */
  lemma StepsCommute(s: State, a: int, ca: Centroid, b: int, cb: Centroid, h: int, threshold: int)
    requires a != b
    ensures
      var ab1 := Step(s, a, ca, h, threshold);
      var ab2 := Step(ab1.state, b, cb, h, threshold);
      var ba1 := Step(s, b, cb, h, threshold);
      var ba2 := Step(ba1.state, a, ca, h, threshold);
      ab2.state == ba2.state && ab1.event == ba2.event && ab2.event == ba1.event
  {
    var ab1 := Step(s, a, ca, h, threshold);
    var ab2 := Step(ab1.state, b, cb, h, threshold);
    var ba1 := Step(s, b, cb, h, threshold);
    var ba2 := Step(ba1.state, a, ca, h, threshold);
    StepSeesOwnRecord(s, a, ca, b, cb, h, threshold);
    StepSeesOwnRecord(s, b, cb, a, ca, h, threshold);
    RecordsCommute(s, a, ca, b, cb, h, threshold);
    TotalsCommute(s, a, ca, b, cb, h, threshold);
    ListsAndXCommute(s, a, ca, b, cb, h, threshold);
  }

  /** The records come out the same in either order. */
  lemma RecordsCommute(s: State, a: int, ca: Centroid, b: int, cb: Centroid, h: int, threshold: int)
    requires a != b
    ensures
      var ab2 := Step(Step(s, a, ca, h, threshold).state, b, cb, h, threshold).state;
      var ba2 := Step(Step(s, b, cb, h, threshold).state, a, ca, h, threshold).state;
      ab2.trackableObjects == ba2.trackableObjects
  {
    var ab1 := Step(s, a, ca, h, threshold).state;
    var ba1 := Step(s, b, cb, h, threshold).state;
    StepSeesOwnRecord(s, a, ca, b, cb, h, threshold);
    StepSeesOwnRecord(s, b, cb, a, ca, h, threshold);
    StepFrame(s, a, ca, h, threshold);
    StepFrame(s, b, cb, h, threshold);
    StepFrame(ab1, b, cb, h, threshold);
    StepFrame(ba1, a, ca, h, threshold);
  }

  /** The totals come out the same in either order. */
  lemma TotalsCommute(s: State, a: int, ca: Centroid, b: int, cb: Centroid, h: int, threshold: int)
    requires a != b
    ensures
      var ab2 := Step(Step(s, a, ca, h, threshold).state, b, cb, h, threshold).state;
      var ba2 := Step(Step(s, b, cb, h, threshold).state, a, ca, h, threshold).state;
      ab2.totalUp == ba2.totalUp && ab2.totalDown == ba2.totalDown
  {
    StepSeesOwnRecord(s, a, ca, b, cb, h, threshold);
    StepSeesOwnRecord(s, b, cb, a, ca, h, threshold);
    TotalsGrow(s, a, ca, h, threshold);
    TotalsGrow(s, b, cb, h, threshold);
    TotalsGrow(Step(s, a, ca, h, threshold).state, b, cb, h, threshold);
    TotalsGrow(Step(s, b, cb, h, threshold).state, a, ca, h, threshold);
  }

  /** Observing `a` first does not change what observing `b` yields. */
  lemma StepSeesOwnRecord(s: State, a: int, ca: Centroid, b: int, cb: Centroid, h: int, threshold: int)
    requires a != b
    ensures Step(Step(s, a, ca, h, threshold).state, b, cb, h, threshold).event == Step(s, b, cb, h, threshold).event
    ensures var s' := Step(s, a, ca, h, threshold).state;
      Step(s', b, cb, h, threshold).state.trackableObjects[b] == Step(s, b, cb, h, threshold).state.trackableObjects[b]
  {
    StepFrame(s, a, ca, h, threshold);
  }

  /** The two tally lists and x come out the same in either order. */
  lemma ListsAndXCommute(s: State, a: int, ca: Centroid, b: int, cb: Centroid, h: int, threshold: int)
    requires a != b
    ensures
      var ab2 := Step(Step(s, a, ca, h, threshold).state, b, cb, h, threshold).state;
      var ba2 := Step(Step(s, b, cb, h, threshold).state, a, ca, h, threshold).state;
      ab2.emptyUp == ba2.emptyUp && ab2.emptyDown == ba2.emptyDown && ab2.x == ba2.x
  {
    StepSeesOwnRecord(s, a, ca, b, cb, h, threshold);
    StepSeesOwnRecord(s, b, cb, a, ca, h, threshold);
  }

  // ---------------------------------------------------------------------
  // Several observations

  /** Run of a prefix followed by one more step. */
  lemma RunSnoc(s: State, objects: seq<Sighting>, h: int, threshold: int)
    requires objects != []
    ensures var n := |objects| - 1;
      var t := Run(s, objects[..n], h, threshold);
      var o := Step(t.state, objects[n].id, objects[n].centroid, h, threshold);
      && Run(s, objects, h, threshold) == Trace(o.state, t.events + [o.event], t.alerts + [o.alert])
      && Run(s, objects, h, threshold).events[..n] == t.events
  {
  }

  /** Any sequence of observations keeps the invariant. */
  lemma {:induction false} RunPreservesValid(s: State, objects: seq<Sighting>, h: int, threshold: int)
    requires Valid(s)
    ensures Valid(Run(s, objects, h, threshold).state)
    decreases |objects|
  {
    if objects != [] {
      var n := |objects| - 1;
      RunPreservesValid(s, objects[..n], h, threshold);
      StepPreservesValid(Run(s, objects[..n], h, threshold).state, objects[n].id, objects[n].centroid, h, threshold);
    }
  }

  /**
   * A record's history holds one centroid per observation of its id: the
   * id has a record iff it had one or was observed, and the history grew by
   * exactly the number of observations.
   */
  lemma {:induction false} RunHistory(s: State, objects: seq<Sighting>, h: int, threshold: int, id: int)
    ensures var r := Run(s, objects, h, threshold).state;
      id in r.trackableObjects <==> id in s.trackableObjects || Occurrences(objects, id) > 0
    ensures var r := Run(s, objects, h, threshold).state;
      id in r.trackableObjects ==>
        |r.trackableObjects[id].centroids| ==
          (if id in s.trackableObjects then |s.trackableObjects[id].centroids| else 0) + Occurrences(objects, id)
    decreases |objects|
  {
    if objects != [] {
      var n := |objects| - 1;
      RunHistory(s, objects[..n], h, threshold, id);
      var r := Run(s, objects[..n], h, threshold).state;
      StepFrame(r, objects[n].id, objects[n].centroid, h, threshold);
      if objects[n].id == id && id in r.trackableObjects {
        HistoryGrows(r, id, objects[n].centroid, h, threshold);
      }
    }
  }

  /**
   * Counted once: over any run, the crossings emitted for an id plus one if
   * it was already counted equal one if it is counted at the end. So at
   * most one crossing is ever emitted per id, none once it is counted, and
   * one exactly when the run latched it.
   */
  lemma {:induction false} RunCountsOnce(s: State, objects: seq<Sighting>, h: int, threshold: int, id: int)
    ensures var t := Run(s, objects, h, threshold);
      CrossingsFor(objects, t.events, id) + (if Counted(s, id) then 1 else 0) ==
        (if Counted(t.state, id) then 1 else 0)
    ensures var t := Run(s, objects, h, threshold);
      CrossingsFor(objects, t.events, id) <= 1 && (Counted(s, id) ==> CrossingsFor(objects, t.events, id) == 0)
    decreases |objects|
  {
    if objects != [] {
      var n := |objects| - 1;
      RunCountsOnce(s, objects[..n], h, threshold, id);
      RunSnoc(s, objects, h, threshold);
      var r := Run(s, objects[..n], h, threshold).state;
      Latch(r, objects[n].id, objects[n].centroid, h, threshold, id);
    }
  }

  /** Over any run, each total grows by exactly the number of its events. */
  lemma {:induction false} RunTotals(s: State, objects: seq<Sighting>, h: int, threshold: int)
    ensures var t := Run(s, objects, h, threshold);
      && t.state.totalUp == s.totalUp + CountEvents(t.events, CrossedUp)
      && t.state.totalDown == s.totalDown + CountEvents(t.events, CrossedDown)
    decreases |objects|
  {
    if objects != [] {
      var n := |objects| - 1;
      RunTotals(s, objects[..n], h, threshold);
      RunSnoc(s, objects, h, threshold);
      var r := Run(s, objects[..n], h, threshold).state;
      TotalsGrow(r, objects[n].id, objects[n].centroid, h, threshold);
    }
  }

  /**
   * Observing a run of sightings and then another run is one run over the
   * two joined: successive frames compose, with their events and alerts
   * concatenated.
   */
  lemma {:induction false} RunAppend(s: State, first: seq<Sighting>, second: seq<Sighting>, h: int, threshold: int)
    ensures var t1 := Run(s, first, h, threshold);
      var t2 := Run(t1.state, second, h, threshold);
      Run(s, first + second, h, threshold) == Trace(t2.state, t1.events + t2.events, t1.alerts + t2.alerts)
    decreases |second|
  {
    if second == [] {
      assert first + second == first;
    } else {
      var n := |second| - 1;
      assert (first + second)[..|first + second| - 1] == first + second[..n];
      RunAppend(s, first, second[..n], h, threshold);
    }
  }

  /** No two sightings carry the same id, as in one frame's dictionary. */
  predicate DistinctIds(objects: seq<Sighting>)
  {
    forall i, j :: 0 <= i < j < |objects| ==> objects[i].id != objects[j].id
  }

  /** A run leaves alone the record of an id it never observes. */
  lemma {:induction false} RunOthers(s: State, objects: seq<Sighting>, h: int, threshold: int, id: int)
    requires forall i :: 0 <= i < |objects| ==> objects[i].id != id
    ensures var r := Run(s, objects, h, threshold).state;
      && (id in r.trackableObjects <==> id in s.trackableObjects)
      && (id in s.trackableObjects ==> r.trackableObjects[id] == s.trackableObjects[id])
    decreases |objects|
  {
    if objects != [] {
      var n := |objects| - 1;
      RunOthers(s, objects[..n], h, threshold, id);
      StepFrame(Run(s, objects[..n], h, threshold).state, objects[n].id, objects[n].centroid, h, threshold);
    }
  }

  /** The event of a sighting depends only on that id's own record. */
  lemma EventIsLocal(s1: State, s2: State, id: int, c: Centroid, h: int, threshold: int)
    requires id in s1.trackableObjects <==> id in s2.trackableObjects
    requires id in s1.trackableObjects ==> s1.trackableObjects[id] == s2.trackableObjects[id]
    ensures Step(s1, id, c, h, threshold).event == Step(s2, id, c, h, threshold).event
  {
  }

  /**
   * No interaction between identities within a frame: when the ids are
   * distinct, each sighting's event is the one it would get if it were
   * observed alone against the state before the frame. So every order of
   * the frame's entries yields the same event for each id.
   */
  lemma {:induction false} EventsIndependent(s: State, objects: seq<Sighting>, h: int, threshold: int)
    requires DistinctIds(objects)
    ensures forall k :: 0 <= k < |objects| ==>
      Run(s, objects, h, threshold).events[k] == Step(s, objects[k].id, objects[k].centroid, h, threshold).event
    decreases |objects|
  {
    if objects != [] {
      var n := |objects| - 1;
      var prefix := objects[..n];
      assert DistinctIds(prefix);
      EventsIndependent(s, prefix, h, threshold);
      RunSnoc(s, objects, h, threshold);
      RunOthers(s, prefix, h, threshold, objects[n].id);
      EventIsLocal(Run(s, prefix, h, threshold).state, s, objects[n].id, objects[n].centroid, h, threshold);
      forall k | 0 <= k < |objects|
        ensures Run(s, objects, h, threshold).events[k] == Step(s, objects[k].id, objects[k].centroid, h, threshold).event
      {
        if k < n {
          assert Run(s, objects, h, threshold).events[k] == Run(s, prefix, h, threshold).events[k];
        }
      }
    }
  }

  // ---------------------------------------------------------------------
  // Worked trajectories (a 180-pixel frame puts the line at y = 90)

  /** Three samples at the same height v sum to 3 * v. */
  lemma SumOfThree(v: int)
    ensures Sum(Ys([Centroid(0, v), Centroid(0, v), Centroid(0, v)])) == 3 * v
  {
    var ys := Ys([Centroid(0, v), Centroid(0, v), Centroid(0, v)]);
    assert ys == [v, v, v];
    assert Sum([v]) == v by { assert [v][..0] == []; }
    assert Sum([v, v]) == 2 * v by { assert [v, v][..1] == [v]; }
    assert ys[..2] == [v, v];
  }

  /** Three samples at y = 100, then y = 40: moving up, above the line. */
  lemma UpExample()
    ensures Classify([Centroid(0, 100), Centroid(0, 100), Centroid(0, 100)], 40, 180) == CrossedUp
  {
    SumOfThree(100);
  }

  /** Three samples at y = 50, then y = 120: moving down, below the line. */
  lemma DownExample()
    ensures Classify([Centroid(0, 50), Centroid(0, 50), Centroid(0, 50)], 120, 180) == CrossedDown
  {
    SumOfThree(50);
  }

  /** Three samples at y = 50, then y = 70: moving down but still above the line. */
  lemma AboveLineExample()
    ensures Classify([Centroid(0, 50), Centroid(0, 50), Centroid(0, 50)], 70, 180) == NoCrossing
  {
    SumOfThree(50);
  }
}
