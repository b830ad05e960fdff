/**
 * The counting block as the frame loop runs it: the trackable-object
 * dictionary, the two totals, the two tally lists and x are variables that
 * each observation updates in place. Every method here is proved to do
 * what Trajectory.Step / Trajectory.Run specify, and to keep the invariant.
 */
module Counter {
  import opened Trajectory
  import Properties

  class TrajectoryAnalyzer {
    var trackableObjects: map<int, Record>
    var totalUp: nat
    var totalDown: nat
    var emptyUp: seq<int>
    var emptyDown: seq<int>
    var x: seq<int>

    /** The counting state held in the fields. */
    ghost function Snapshot(): State
      reads this
    {
      State(trackableObjects, totalUp, totalDown, emptyUp, emptyDown, x)
    }

    ghost predicate Valid()
      reads this
    {
      Trajectory.Valid(Snapshot())
    }

    /** The variables as `run()` initialises them before its frame loop. */
    constructor ()
      ensures Valid() && Snapshot() == Initial()
    {
      trackableObjects := map[];
      totalUp, totalDown := 0, 0;
      x, emptyUp, emptyDown := [], [], [];
      new;
      assert Snapshot() == Initial();
      Properties.InitialValid();
    }

    /**
     * The loop body for one (objectID, centroid) entry with frame height h:
     * returns the crossing it counts, if any, and whether the occupancy
     * alert is raised.
     */
    method Observe(objectID: int, centroid: Centroid, h: int, threshold: int) returns (event: Event, alert: bool)
      requires Valid()
      modifies this
      ensures Valid()
      ensures Outcome(Snapshot(), event, alert) == Step(old(Snapshot()), objectID, centroid, h, threshold)
      ensures alert ==> event == CrossedDown && old(totalDown - totalUp) >= threshold
      ensures objectID in trackableObjects
      ensures forall j :: j in old(trackableObjects) && j != objectID ==>
                j in trackableObjects && trackableObjects[j] == old(trackableObjects[j])
    {
      ghost var before := Snapshot();
      event, alert := NoCrossing, false;
      var trackObj: Record;
      if objectID !in trackableObjects {
        trackObj := Record([centroid], false);
      } else {
        trackObj := trackableObjects[objectID];
        var history := trackObj.centroids;
        trackObj := trackObj.(centroids := history + [centroid]);
        if !trackObj.counted {
          if MovingUp(history, centroid.y) && centroid.y < Midline(h) {
            totalUp := totalUp + 1;
            emptyUp := emptyUp + [totalUp];
            trackObj := trackObj.(counted := true);
            event := CrossedUp;
          } else if MovingDown(history, centroid.y) && centroid.y > Midline(h) {
            totalDown := totalDown + 1;
            emptyDown := emptyDown + [totalDown];
            alert := Sum(x) >= threshold;
            trackObj := trackObj.(counted := true);
            event := CrossedDown;
          }
          x := [];
          x := x + [|emptyDown| - |emptyUp|];
        }
      }
      trackableObjects := trackableObjects[objectID := trackObj];
      Properties.StepPreservesValid(before, objectID, centroid, h, threshold);
      Properties.AlertCondition(before, objectID, centroid, h, threshold);
    }

    /**
     * The loop over `objects.items()` for one frame: observes each entry in
     * order and returns the event and alert of each.
     */
    method ProcessFrame(objects: seq<Sighting>, h: int, threshold: int) returns (events: seq<Event>, alerts: seq<bool>)
      requires Valid()
      modifies this
      ensures Valid()
      ensures Trace(Snapshot(), events, alerts) == Run(old(Snapshot()), objects, h, threshold)
    {
      events, alerts := [], [];
      var i := 0;
      while i < |objects|
        invariant 0 <= i <= |objects|
        invariant Valid()
        invariant Trace(Snapshot(), events, alerts) == Run(old(Snapshot()), objects[..i], h, threshold)
      {
        var event, alert := Observe(objects[i].id, objects[i].centroid, h, threshold);
        events, alerts := events + [event], alerts + [alert];
        assert objects[..i + 1][..i] == objects[..i];
        i := i + 1;
      }
      assert objects[..i] == objects;
    }
  }
}
