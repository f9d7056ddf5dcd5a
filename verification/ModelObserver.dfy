/** The observer of a model's motion over a time window (ModelObserver). */
module ModelObserver {
  import opened Columns

  datatype Vector = Vector(x: real, y: real, z: real)

  datatype Pose = Pose(position: Vector, rotation: Vector)

  /** Everything noted at one update. */
  datatype Observation = Observation(time: int, pose: Pose, coordinates: Vector, linear: Vector, angular: Vector)

  /** The trimming loop: drop the oldest until the window holds the rest. */
  function Trimmed(os: seq<Observation>, window: int): seq<Observation> {
    if os != [] && os[|os| - 1].time - os[0].time > window then Trimmed(os[1..], window) else os
  }

  ghost predicate InOrder(h: seq<Observation>) {
    forall i, j :: 0 <= i <= j < |h| ==> h[i].time <= h[j].time
  }

  /** The loop never takes the latest observation, unless the window is negative: then,
      with times in order, it would go on to an empty deque. */
  lemma {:induction false} TrimmingEmptiesIffNegative(os: seq<Observation>, window: int)
    requires os != []
    ensures window >= 0 ==> Trimmed(os, window) != []
    ensures InOrder(os) ==> (Trimmed(os, window) == [] <==> window < 0)
  {
    if |os| > 1 && os[|os| - 1].time - os[0].time > window {
      TrimmingEmptiesIffNegative(os[1..], window);
    } else if InOrder(os) {
      assert os[0].time <= os[|os| - 1].time;
    }
  }

  /** What is kept after the first n observations of a history. */
  function Kept(h: seq<Observation>, n: nat, window: int): seq<Observation>
    requires n <= |h|
  {
    if n == 0 then []
    else
      var os := Kept(h, n - 1, window) + [h[n - 1]];
      if window == 0 then os else Trimmed(os, window)
  }

  /** The first observation not too old at the n-th one, counted from k. */
  function First(h: seq<Observation>, n: nat, window: int, k: nat): nat
    requires k <= n <= |h|
    decreases n - k
  {
    if k < n && h[n - 1].time - h[k].time > window then First(h, n, window, k + 1) else k
  }

  lemma {:induction false} FirstIsFirst(h: seq<Observation>, n: nat, window: int, k: nat)
    requires k < n <= |h| && window > 0 && InOrder(h)
    ensures var f := First(h, n, window, k);
      k <= f < n && forall i :: k <= i < n ==> (i >= f <==> h[n - 1].time - h[i].time <= window)
    decreases n - k
  {
    if k + 1 < n && h[n - 1].time - h[k].time > window {
      FirstIsFirst(h, n, window, k + 1);
    }
  }

  lemma {:induction false} TrimmedSlice(h: seq<Observation>, n: nat, window: int, k: nat)
    requires k < n <= |h|
    ensures First(h, n, window, k) <= n && Trimmed(h[k..n], window) == h[First(h, n, window, k)..n]
    decreases n - k
  {
    assert h[k..n][1..] == h[k + 1..n];
    if k + 1 < n { TrimmedSlice(h, n, window, k + 1); }
  }

  /** With times in order and a fixed positive window, what is kept after every update is
      exactly the observations no older than the latest one minus the window. */
  lemma {:induction false} KeptIsWindow(h: seq<Observation>, n: nat, window: int) returns (f: nat)
    requires 0 < n <= |h| && window > 0 && InOrder(h)
    ensures f < n && Kept(h, n, window) == h[f..n]
    ensures forall i :: 0 <= i < n ==> (i >= f <==> h[n - 1].time - h[i].time <= window)
  {
    var e := 0;
    if n > 1 { e := KeptIsWindow(h, n - 1, window); }
    assert Kept(h, n - 1, window) + [h[n - 1]] == h[e..n];
    TrimmedSlice(h, n, window, e);
    FirstIsFirst(h, n, window, e);
    f := First(h, n, window, e);
  }

  /** Without a window everything is kept. */
  lemma {:induction false} AllIsKept(h: seq<Observation>, n: nat)
    requires n <= |h|
    ensures Kept(h, n, 0) == h[..n]
  {
    if n > 0 {
      AllIsKept(h, n - 1);
      assert h[..n] == h[..n - 1] + [h[n - 1]];
    }
  }

  function TimeOf(o: Observation): int { o.time }
  function PoseOf(o: Observation): Pose { o.pose }
  function CoordinatesOf(o: Observation): Vector { o.coordinates }
  function LinearOf(o: Observation): Vector { o.linear }
  function AngularOf(o: Observation): Vector { o.angular }

  datatype Deques = Deques(
    times: seq<int>, poses: seq<Pose>, coordinates: seq<Vector>, linear: seq<Vector>, angular: seq<Vector>)

  /** The five deques of the same observations. */
  function AsDeques(os: seq<Observation>): Deques {
    Deques(Column(os, TimeOf), Column(os, PoseOf), Column(os, CoordinatesOf), Column(os, LinearOf),
           Column(os, AngularOf))
  }

  predicate Lockstep(d: Deques) { |d.times| == |d.poses| == |d.coordinates| == |d.linear| == |d.angular| }

  lemma DequesMatch(os: seq<Observation>)
    ensures var d := AsDeques(os);
      && Lockstep(d) && |d.times| == |os|
      && forall i :: 0 <= i < |os| ==>
           && d.times[i] == os[i].time && d.poses[i] == os[i].pose && d.coordinates[i] == os[i].coordinates
           && d.linear[i] == os[i].linear && d.angular[i] == os[i].angular
  {
    ColumnAt(os, TimeOf);
    ColumnAt(os, PoseOf);
    ColumnAt(os, CoordinatesOf);
    ColumnAt(os, LinearOf);
    ColumnAt(os, AngularOf);
  }

  lemma DequesOfMore(os: seq<Observation>, o: Observation)
    ensures var d := AsDeques(os);
      AsDeques(os + [o]) == Deques(d.times + [o.time], d.poses + [o.pose], d.coordinates + [o.coordinates],
                                  d.linear + [o.linear], d.angular + [o.angular])
  {
    ColumnOfMore(os, o, TimeOf);
    ColumnOfMore(os, o, PoseOf);
    ColumnOfMore(os, o, CoordinatesOf);
    ColumnOfMore(os, o, LinearOf);
    ColumnOfMore(os, o, AngularOf);
  }

  lemma DequesOfRest(os: seq<Observation>)
    requires os != []
    ensures var d := AsDeques(os);
      && Lockstep(d) && d.times != []
      && AsDeques(os[1..]) == Deques(d.times[1..], d.poses[1..], d.coordinates[1..], d.linear[1..], d.angular[1..])
  {
    DequesMatch(os);
    ColumnOfRest(os, TimeOf);
    ColumnOfRest(os, PoseOf);
    ColumnOfRest(os, CoordinatesOf);
    ColumnOfRest(os, LinearOf);
    ColumnOfRest(os, AngularOf);
  }

  class ModelObserver {
    var windowSize: int
    var times: seq<int>
    var poses: seq<Pose>
    var sphericalCoordinates: seq<Vector>
    var linearVelocities: seq<Vector>
    var angularVelocities: seq<Vector>

    function View(): Deques
      reads this
    {
      Deques(times, poses, sphericalCoordinates, linearVelocities, angularVelocities)
    }

    constructor ()
      ensures windowSize == 0 && View() == AsDeques([])
    {
      windowSize := 0;
      times, poses, sphericalCoordinates, linearVelocities, angularVelocities := [], [], [], [], [];
    }

    method LimitTo(window: int)
      modifies this`windowSize
      ensures windowSize == window
    {
      windowSize := window;
    }

    /** `os` are the observations held.  A model without its base link ends the update
        half way: exactly then the deques fall out of step. */
    method Update(modelFound: bool, linkFound: bool, o: Observation, ghost os: seq<Observation>)
      requires View() == AsDeques(os) && windowSize >= 0
      modifies this`times, this`poses, this`sphericalCoordinates, this`linearVelocities, this`angularVelocities
      ensures !modelFound ==> View() == AsDeques(os)
      ensures modelFound && linkFound ==>
        View() == AsDeques(if windowSize == 0 then os + [o] else Trimmed(os + [o], windowSize))
      ensures Lockstep(View()) <==> (modelFound ==> linkFound)
    {
      hide AsDeques;
      DequesMatch(os);
      if !modelFound {
        return;
      }
      DequesOfMore(os, o);
      DequesMatch(os + [o]);
      times := times + [o.time];
      poses := poses + [o.pose];
      sphericalCoordinates := sphericalCoordinates + [o.coordinates];
      if !linkFound {
        return;
      }
      linearVelocities := linearVelocities + [o.linear];
      angularVelocities := angularVelocities + [o.angular];
      if windowSize != 0 {
        TrimToWindow(os + [o]);
        DequesMatch(Trimmed(os + [o], windowSize));
      }
    }

    /** The loop over the deques' front. */
    method TrimToWindow(ghost os: seq<Observation>)
      requires View() == AsDeques(os) && os != [] && windowSize >= 0
      modifies this`times, this`poses, this`sphericalCoordinates, this`linearVelocities, this`angularVelocities
      ensures View() == AsDeques(Trimmed(os, windowSize))
    {
      hide AsDeques;
      ghost var rest := os;
      DequesMatch(rest);
      while times[|times| - 1] - times[0] > windowSize
        invariant rest != [] && View() == AsDeques(rest) && Lockstep(View())
        invariant |times| == |rest| && times[0] == rest[0].time && times[|times| - 1] == rest[|rest| - 1].time
        invariant Trimmed(rest, windowSize) == Trimmed(os, windowSize)
        decreases |times|
      {
        DequesOfRest(rest);
        DequesMatch(rest[1..]);
        times := times[1..];
        poses := poses[1..];
        sphericalCoordinates := sphericalCoordinates[1..];
        linearVelocities := linearVelocities[1..];
        angularVelocities := angularVelocities[1..];
        rest := rest[1..];
      }
    }
  }
}
