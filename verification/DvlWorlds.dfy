/** What the DVL sensors read: on every interleaving of the two threads, an updated sensor
    reads what was last reported of its entity when its world state left the simulation
    thread. */
module DvlWorlds {
  import opened DvlRequests
  import opened DvlThreads

  datatype Said = Nothing | Says(kinematics: Kinematics)

  /** The last word of the first n reports on entity e: what was reported of it, unless it
      was removed since. */
  function LastSaid(reports: seq<Report>, n: nat, e: Entity): Said
    requires n <= |reports|
  {
    if n == 0 then Nothing
    else if e in reports[n - 1].removed then Nothing
    else if e in reports[n - 1].each then Says(reports[n - 1].each[e])
    else LastSaid(reports, n - 1, e)
  }

  /** The world state is the last word of the first n reports on every entity. */
  ghost predicate IsWorld(w: WorldState, reports: seq<Report>, n: nat) {
    n <= |reports| && forall e :: LastSaid(reports, n, e) == if e in w then Says(w[e]) else Nothing
  }

  lemma {:induction false} LastSaidBefore(reports: seq<Report>, more: seq<Report>, n: nat, e: Entity)
    requires n <= |reports|
    ensures LastSaid(reports + more, n, e) == LastSaid(reports, n, e)
  {
    if n > 0 { LastSaidBefore(reports, more, n - 1, e); }
  }

  lemma IsWorldBefore(w: WorldState, reports: seq<Report>, more: seq<Report>, n: nat)
    requires IsWorld(w, reports, n)
    ensures IsWorld(w, reports + more, n)
  {
    forall e
      ensures LastSaid(reports + more, n, e) == if e in w then Says(w[e]) else Nothing
    {
      LastSaidBefore(reports, more, n, e);
      hide LastSaid;
    }
  }

  /** One more report. */
  lemma ReportedWorld(w: WorldState, w': WorldState, reports: seq<Report>, p: Report)
    requires IsWorld(w, reports, |reports|) && Follows(w', w, p)
    ensures IsWorld(w', reports + [p], |reports| + 1)
  {
    forall e
      ensures LastSaid(reports + [p], |reports| + 1, e) == if e in w' then Says(w'[e]) else Nothing
    {
      LastSaidBefore(reports, [p], |reports|, e);
      assert LastSaid(reports, |reports|, e) == if e in w then Says(w[e]) else Nothing;
    }
  }

  // ----- Reports along a run -----

  /** The reports made by the first m events of a run. */
  ghost function ReportsAt(start: System, run: seq<Event>, m: nat): seq<Report>
    requires m <= |run|
  {
    if m == 0 then []
    else
      var e := run[m - 1];
      ReportsAt(start, run, m - 1)
      + if Enabled(SystemAt(start, run, m - 1), e) && e.PostUpdate? then [e.report] else []
  }

  /** For every request of the history, how many reports there were when it was made. */
  ghost function StampsAt(start: System, run: seq<Event>, m: nat): seq<nat>
    requires m <= |run|
  {
    if m == 0 then []
    else
      var before, made := StampsAt(start, run, m - 1), |SystemAt(start, run, m).history|;
      before + seq(if made > |before| then made - |before| else 0, _ => |ReportsAt(start, run, m)|)
  }

  /** The history's world states are the last words of the reports at their stamps, and
      stamps do not go back. */
  ghost predicate Dated(h: seq<Request>, stamps: seq<nat>, reports: seq<Report>) {
    && |stamps| == |h|
    && (forall i, j :: 0 <= i <= j < |stamps| ==> stamps[i] <= stamps[j])
    && (forall j :: 0 <= j < |stamps| ==> stamps[j] <= |reports|)
    && (forall j :: 0 <= j < |h| && h[j].SetWorldState? ==> IsWorld(h[j].world, reports, stamps[j]))
  }

  lemma DatedWithMore(h: seq<Request>, stamps: seq<nat>, reports: seq<Report>, more: seq<Report>)
    requires Dated(h, stamps, reports)
    ensures Dated(h, stamps, reports + more)
  {
    hide IsWorld;
    forall j | 0 <= j < |h| && h[j].SetWorldState?
      ensures IsWorld(h[j].world, reports + more, stamps[j])
    {
      IsWorldBefore(h[j].world, reports, more, stamps[j]);
    }
  }

  /** Requests made now, whose world states are those of now. */
  lemma DatedNow(h: seq<Request>, asked: seq<Request>, stamps: seq<nat>, reports: seq<Report>)
    requires Dated(h, stamps, reports)
    requires forall j :: 0 <= j < |asked| && asked[j].SetWorldState? ==> IsWorld(asked[j].world, reports, |reports|)
    ensures Dated(h + asked, stamps + seq(|asked|, _ => |reports|), reports)
  {
    hide IsWorld;
    var all := h + asked;
    forall j | 0 <= j < |all| && all[j].SetWorldState?
      ensures IsWorld(all[j].world, reports, (stamps + seq(|asked|, _ => |reports|))[j])
    {
      if j >= |h| { assert all[j] == asked[j - |h|]; }
    }
  }

  /** What one event adds to the history, and that its world state is the current one. */
  lemma StepAsks(y: System, e: Event) returns (asked: seq<Request>)
    requires Enabled(y, e)
    ensures Next(y, e).history == y.history + asked
    ensures forall j :: 0 <= j < |asked| && asked[j].SetWorldState? ==>
      e.PostUpdate? && asked[j].world == Next(y, e).state.sim.world
    ensures e.PostUpdate? ==> Follows(Next(y, e).state.sim.world, y.state.sim.world, e.report)
    ensures !e.PostUpdate? ==> Next(y, e).state.sim.world == y.state.sim.world
  {
    hide Creations, Destructions, Left, Joined, Handled, TouchedAll, TornDown, Enabled, Follows;
    asked := [];
    assert y.history + [] == y.history;
    match e {
      case PreUpdate(found) =>
        asked := Creations(found, |found|);
        CreationAt(found, |found|);
      case PostUpdate(p) =>
        CollectedFollows(y.state.sim, p);
        var gone := Destructions(y.state.sim.known, p.gone, |p.gone|);
        OnlyDestructions(y.state.sim.known, p.gone, |p.gone|);
        var m := Collected(y.state.sim, p);
        asked := gone + if Flushes(m, p) then [SetWorldState(m.world)] else [];
        hide Collected, Flushes;
        assert y.history + (gone + [SetWorldState(m.world)]) == y.history + gone + [SetWorldState(m.world)];
      case _ =>
    }
  }

  ghost predicate AllDated(start: System, run: seq<Event>, m: nat)
    requires m <= |run|
  {
    var y, reports := SystemAt(start, run, m), ReportsAt(start, run, m);
    && IsWorld(y.state.sim.world, reports, |reports|)
    && Dated(y.history, StampsAt(start, run, m), reports)
  }

  lemma StepKeepsDated(start: System, run: seq<Event>, m: nat)
    requires m < |run| && AllDated(start, run, m) && Enabled(SystemAt(start, run, m), run[m])
    ensures AllDated(start, run, m + 1)
  {
    var y, e, reports := SystemAt(start, run, m), run[m], ReportsAt(start, run, m);
    var asked := StepAsks(y, e);
    var reports' := ReportsAt(start, run, m + 1);
    hide Next, Enabled, IsWorld, Dated, Follows;
    var w' := Next(y, e).state.sim.world;
    if e.PostUpdate? {
      ReportedWorld(y.state.sim.world, w', reports, e.report);
      DatedWithMore(y.history, StampsAt(start, run, m), reports, [e.report]);
    } else {
      assert reports' == reports;
    }
    assert IsWorld(w', reports', |reports'|);
    DatedNow(y.history, asked, StampsAt(start, run, m), reports');
    assert |StampsAt(start, run, m)| == |y.history| by { DatedLength(y.history, StampsAt(start, run, m), reports); }
  }

  lemma DatedLength(h: seq<Request>, stamps: seq<nat>, reports: seq<Report>)
    requires Dated(h, stamps, reports)
    ensures |stamps| == |h|
  {
  }

  /** Under every interleaving. */
  lemma {:induction false} AlwaysDated(start: System, run: seq<Event>, m: nat)
    requires m <= |run| && Initial(start)
    ensures AllDated(start, run, m)
  {
    hide AllDated, SystemAt, Enabled;
    if m == 0 {
      InitiallyDated(start, run);
    } else {
      AlwaysDated(start, run, m - 1);
      if Enabled(SystemAt(start, run, m - 1), run[m - 1]) {
        StepKeepsDated(start, run, m - 1);
      } else {
        NothingAsked(start, run, m);
      }
    }
  }

  lemma InitiallyDated(start: System, run: seq<Event>)
    requires Initial(start)
    ensures AllDated(start, run, 0)
  {
  }

  lemma NothingAsked(start: System, run: seq<Event>, m: nat)
    requires 0 < m <= |run| && AllDated(start, run, m - 1) && !Enabled(SystemAt(start, run, m - 1), run[m - 1])
    ensures AllDated(start, run, m)
  {
    hide Enabled, IsWorld;
    assert ReportsAt(start, run, m) == ReportsAt(start, run, m - 1);
    assert StampsAt(start, run, m) == StampsAt(start, run, m - 1);
  }

  // ----- What a sensor reads -----

  /** What a live sensor reads of its own entity between batches: what the last request that
      reached its thread says of it. */
  lemma SensorReadsSnapshot(y: System, id: SensorId) returns (j: nat)
    requires Coherent(y) && y.state.batch == [] && id in y.state.ren.sensors
    ensures |Requests(y.log)| == j + 1 <= |y.history| && y.history[j].SetWorldState?
    ensures var s := y.state.ren.sensors[id];
      s.entity in s.world && s.entity in y.history[j].world && s.world[s.entity] == y.history[j].world[s.entity]
  {
    var r, h := y.state.ren, Requests(y.log);
    var e := r.sensors[id].entity;
    assert Live(y.log, e, id);
    LiveIsKnown(y.log, e, id);
    hide Live, Requests, IndexIsReplay, KnownAfter, SnapshotsCover, CreatedOnce;
    LastSnapshotCovers(y, h);
    j := |h| - 1;
    HandledIsHistory(y);
    hide HandOffFits, HistoryFits;
  }

  lemma HandledIsHistory(y: System)
    requires HandOffFits(y) && y.state.batch == []
    ensures Requests(y.log) <= y.history
  {
    hide Requests;
    var h := Requests(y.log);
    assert h + [] == h;
    assert y.history == h + (y.state.queued + y.state.sim.perStep);
  }

  /** On every run, when the updated sensors publish: with h requests handled so far, each
      reads the last word on its entity of all the reports made when the h-th request was. */
  lemma ReadingIsLastReport(start: System, run: seq<Event>, m: nat, i: nat)
    requires m <= |run| && Initial(start) && SystemAt(start, run, m).state.phase == RenderDone
    requires i < |SystemAt(start, run, m).state.ren.updated|
    ensures var y := SystemAt(start, run, m);
      var h, stamps := |Requests(y.log)|, StampsAt(start, run, m);
      && CanPublish(y.state.ren) && 0 < h <= |stamps| && stamps[h - 1] <= |ReportsAt(start, run, m)|
      && |Readings(y.state.ren, |y.state.ren.updated|)| == |y.state.ren.updated|
      && LastSaid(ReportsAt(start, run, m), stamps[h - 1], y.state.ren.sensors[y.state.ren.updated[i]].entity)
         == Says(Readings(y.state.ren, |y.state.ren.updated|)[i])
  {
    AlwaysCoherent(start, run, m);
    UpdatedSensorsCanPublish(start, run, m);
    AlwaysDated(start, run, m);
    var y, reports := SystemAt(start, run, m), ReportsAt(start, run, m);
    var id := y.state.ren.updated[i];
    ReadingsAt(y.state.ren, |y.state.ren.updated|);
    hide SystemAt, StampsAt, Readings, LastSaid, Requests;
    assert y.state.batch == [] && id in y.state.ren.sensors by { UpdatedIsReady(y, id); }
    var j := SensorReadsSnapshot(y, id);
    hide Coherent;
    assert IsWorld(y.history[j].world, reports, StampsAt(start, run, m)[j]);
  }

  lemma UpdatedIsReady(y: System, id: SensorId)
    requires Coherent(y) && y.state.phase == RenderDone && id in y.state.ren.updated
    ensures y.state.batch == [] && id in y.state.ren.sensors
  {
  }
}
