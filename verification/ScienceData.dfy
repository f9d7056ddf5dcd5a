/** The science data of a mission (ScienceSensorsSystem): reading the table, walking the
    time index over it, and interpolating between two time slices. */
module ScienceData {
  import opened Wrappers
  import opened Columns

  /** What stof reads. */
  datatype Float = Number(x: real) | Infinite(positive: bool) | NaN

  datatype Word = Unparsable | Parsed(value: Float)

  datatype Field =
    | Time | Latitude | Longitude | Depth
    | Temperature | Salinity | Chlorophyll | EastCurrent | NorthCurrent
    | Unrecognized

  type Row = seq<Word>

  /** One datum of a time slice. */
  datatype Datum = Datum(
    latitude: Float, longitude: Float, depth: Float,
    temperature: Float, salinity: Float, chlorophyll: Float, eastCurrent: Float, northCurrent: Float)

  // ----- One row -----

  /** The parsable words among the first w: an unparsable word does not advance the column. */
  function CellCount(row: Row, w: nat): (n: nat)
    requires w <= |row|
    ensures n <= w
  {
    if w == 0 then 0 else CellCount(row, w - 1) + if row[w - 1].Parsed? then 1 else 0
  }

  /** The field of word w: that of the column reached so far. */
  function FieldOf(header: seq<Field>, row: Row, w: nat): Field
    requires w < |row|
  {
    if CellCount(row, w) < |header| then header[CellCount(row, w)] else Unrecognized
  }

  /** A row with more parsable words than columns would be read past the header. */
  predicate Fits(header: seq<Field>, row: Row) { CellCount(row, |row|) <= |header| }

  predicate Holds(header: seq<Field>, row: Row, f: Field, w: nat)
    requires w < |row|
  {
    row[w].Parsed? && FieldOf(header, row, w) == f
  }

  /** The last value for a field among the first w words, NaN if there is none. */
  function Value(header: seq<Field>, row: Row, f: Field, w: nat): Float
    requires w <= |row|
  {
    if w == 0 then NaN
    else if Holds(header, row, f, w - 1) then row[w - 1].value
    else Value(header, row, f, w - 1)
  }

  /** What the first n words say. */
  function DatumUpTo(header: seq<Field>, row: Row, n: nat): Datum
    requires n <= |row|
  {
    Datum(Value(header, row, Latitude, n), Value(header, row, Longitude, n), Value(header, row, Depth, n),
          Value(header, row, Temperature, n), Value(header, row, Salinity, n), Value(header, row, Chlorophyll, n),
          Value(header, row, EastCurrent, n), Value(header, row, NorthCurrent, n))
  }

  function DatumOf(header: seq<Field>, row: Row): Datum { DatumUpTo(header, row, |row|) }

  predicate Located(d: Datum) { d.latitude != NaN && d.longitude != NaN && d.depth != NaN }

  /** std::find from index k: NaN equals nothing. */
  function Find(ts: seq<Float>, v: Float, k: nat): (i: nat)
    requires k <= |ts|
    ensures k <= i <= |ts|
    decreases |ts| - k
  {
    if k < |ts| && (ts[k] != v || v == NaN) then Find(ts, v, k + 1) else k
  }

  /** The time stamps after the first w words of a row, and the slice the row belongs to. */
  function Stamps(ts: seq<Float>, header: seq<Field>, row: Row, w: nat): seq<Float>
    requires w <= |row|
  {
    if w == 0 then ts
    else
      var b := Stamps(ts, header, row, w - 1);
      if Holds(header, row, Time, w - 1) && Find(b, row[w - 1].value, 0) == |b| then b + [row[w - 1].value] else b
  }

  function SliceOf(ts: seq<Float>, header: seq<Field>, row: Row, w: nat): int
    requires w <= |row|
  {
    if w == 0 then -1
    else if Holds(header, row, Time, w - 1) then Find(Stamps(ts, header, row, w - 1), row[w - 1].value, 0)
    else SliceOf(ts, header, row, w - 1)
  }

  // ----- The table -----

  /** Data by time: slice i holds what was read for stamp i. */
  datatype Table = Table(timestamps: seq<Float>, slices: seq<seq<Datum>>)

  function Widened(slices: seq<seq<Datum>>, n: nat): seq<seq<Datum>>
    decreases n - |slices|
  {
    if |slices| < n then Widened(slices + [[]], n) else slices
  }

  function WithRow(t: Table, header: seq<Field>, row: Row): Table {
    var ts := Stamps(t.timestamps, header, row, |row|);
    var slices, k, d := Widened(t.slices, |ts|), SliceOf(t.timestamps, header, row, |row|), DatumOf(header, row);
    Table(ts, if 0 <= k < |slices| && Located(d) then slices[k := slices[k] + [d]] else slices)
  }

  function Read(header: seq<Field>, rows: seq<Row>, m: nat): Table
    requires m <= |rows|
  {
    if m == 0 then Table([], []) else WithRow(Read(header, rows, m - 1), header, rows[m - 1])
  }

  // ----- What the table should be -----

  /** The time of a row: its last time cell. */
  function TimeOf(header: seq<Field>, row: Row, w: nat): Option<Float>
    requires w <= |row|
  {
    if w == 0 then None
    else if Holds(header, row, Time, w - 1) then Some(row[w - 1].value)
    else TimeOf(header, row, w - 1)
  }

  predicate Counts(header: seq<Field>, row: Row, t: Float) {
    TimeOf(header, row, |row|) == Some(t) && Located(DatumOf(header, row))
  }

  /** The data of the first m rows for time t, in file order. */
  function DataAt(header: seq<Field>, rows: seq<Row>, t: Float, m: nat): seq<Datum>
    requires m <= |rows|
  {
    if m == 0 then []
    else DataAt(header, rows, t, m - 1) + if Counts(header, rows[m - 1], t) then [DatumOf(header, rows[m - 1])] else []
  }

  /** The time cells of a row, and those of the first m rows, in file order. */
  function RowTimes(header: seq<Field>, row: Row, w: nat): seq<Float>
    requires w <= |row|
  {
    if w == 0 then []
    else RowTimes(header, row, w - 1) + if Holds(header, row, Time, w - 1) then [row[w - 1].value] else []
  }

  function AllTimes(header: seq<Field>, rows: seq<Row>, m: nat): seq<Float>
    requires m <= |rows|
  {
    if m == 0 then [] else AllTimes(header, rows, m - 1) + RowTimes(header, rows[m - 1], |rows[m - 1]|)
  }

  /** First appearances: `us` are the distinct values of `vs`, in the order they appear. */
  ghost predicate FirstAppearances(us: seq<Float>, vs: seq<Float>) {
    && (forall i, j :: 0 <= i < j < |us| ==> us[i] != us[j])
    && (forall v :: v in vs <==> v in us)
    && (forall i, j, n :: 0 <= i < j < |us| && 0 <= n < |vs| && vs[n] == us[j] ==> us[i] in vs[..n])
  }

  predicate NoNaN(header: seq<Field>, row: Row) {
    forall w :: 0 <= w < |row| && Holds(header, row, Time, w) ==> row[w].value != NaN
  }

  // ----- Group-by -----

  lemma {:induction false} FindFinds(ts: seq<Float>, v: Float, k: nat)
    requires k <= |ts| && v != NaN
    ensures var i := Find(ts, v, k);
      (i < |ts| ==> ts[i] == v) && forall j :: k <= j < i ==> ts[j] != v
    decreases |ts| - k
  {
    if k < |ts| && ts[k] != v { FindFinds(ts, v, k + 1); }
  }

  lemma NotFound(ts: seq<Float>, v: Float)
    requires v != NaN
    ensures Find(ts, v, 0) == |ts| <==> v !in ts
  {
    FindFinds(ts, v, 0);
  }

  lemma AppearanceOfMore(us: seq<Float>, vs: seq<Float>, v: Float)
    requires FirstAppearances(us, vs)
    ensures FirstAppearances(if v in us then us else us + [v], vs + [v])
  {
    var us', vs' := if v in us then us else us + [v], vs + [v];
    forall i, j, n | 0 <= i < j < |us'| && 0 <= n < |vs'| && vs'[n] == us'[j]
      ensures us'[i] in vs'[..n]
    {
      if n < |vs| {
        assert vs'[..n] == vs[..n] && us'[j] in vs;
        assert us'[j] in us;
      } else {
        assert vs'[..n] == vs;
        assert us'[i] in us;
      }
    }
  }

  lemma {:induction false} RowAppearances(ts: seq<Float>, vs: seq<Float>, header: seq<Field>, row: Row, w: nat)
    requires w <= |row| && FirstAppearances(ts, vs) && NoNaN(header, row)
    ensures FirstAppearances(Stamps(ts, header, row, w), vs + RowTimes(header, row, w))
  {
    if w == 0 {
      assert vs + [] == vs;
    } else {
      RowAppearances(ts, vs, header, row, w - 1);
      hide Holds, FirstAppearances;
      var us, more := Stamps(ts, header, row, w - 1), RowTimes(header, row, w - 1);
      if Holds(header, row, Time, w - 1) {
        var v := row[w - 1].value;
        NotFound(us, v);
        AppearanceOfMore(us, vs + more, v);
        assert vs + (more + [v]) == (vs + more) + [v];
      } else {
        assert more + [] == more;
      }
    }
  }

  /** The stamps read are the distinct times of the file in order of first appearance. */
  lemma {:induction false} StampsAreFirstAppearances(header: seq<Field>, rows: seq<Row>, m: nat)
    requires m <= |rows| && forall i :: 0 <= i < m ==> NoNaN(header, rows[i])
    ensures FirstAppearances(Read(header, rows, m).timestamps, AllTimes(header, rows, m))
  {
    if m > 0 {
      StampsAreFirstAppearances(header, rows, m - 1);
      RowAppearances(Read(header, rows, m - 1).timestamps, AllTimes(header, rows, m - 1), header, rows[m - 1],
                     |rows[m - 1]|);
      hide FirstAppearances;
    }
  }

  lemma {:induction false} StampsGrow(ts: seq<Float>, header: seq<Field>, row: Row, w: nat)
    requires w <= |row|
    ensures |ts| <= |Stamps(ts, header, row, w)| && Stamps(ts, header, row, w)[..|ts|] == ts
  {
    if w > 0 { StampsGrow(ts, header, row, w - 1); }
  }

  /** The slice a row goes to is the one of its time. */
  lemma {:induction false} SliceIsOfTime(ts: seq<Float>, header: seq<Field>, row: Row, w: nat)
    requires w <= |row| && NoNaN(header, row)
    ensures var us, k, t := Stamps(ts, header, row, w), SliceOf(ts, header, row, w), TimeOf(header, row, w);
      -1 <= k < |us| && (k == -1 <==> t == None) && (k >= 0 ==> t == Some(us[k]))
  {
    if w > 0 {
      SliceIsOfTime(ts, header, row, w - 1);
      if Holds(header, row, Time, w - 1) { FindFinds(Stamps(ts, header, row, w - 1), row[w - 1].value, 0); }
    }
  }

  lemma {:induction false} WidenedIsPadded(slices: seq<seq<Datum>>, n: nat)
    requires |slices| <= n
    ensures var more := Widened(slices, n);
      |more| == n && more[..|slices|] == slices && forall i :: |slices| <= i < n ==> more[i] == []
    decreases n - |slices|
  {
    if |slices| < n {
      WidenedIsPadded(slices + [[]], n);
      assert (slices + [[]])[..|slices|] == slices;
    }
  }

  /** Slice i of the table holds exactly the data for stamp i, in file order, and what was
      never stamped has no data. */
  ghost predicate GroupedBy(t: Table, header: seq<Field>, rows: seq<Row>, m: nat)
    requires m <= |rows|
  {
    && |t.slices| == |t.timestamps|
    && (forall i :: 0 <= i < |t.slices| ==> t.slices[i] == DataAt(header, rows, t.timestamps[i], m))
    && (forall v :: v !in t.timestamps ==> DataAt(header, rows, v, m) == [])
  }

  lemma RowKeepsGroups(t: Table, header: seq<Field>, rows: seq<Row>, m: nat)
    requires m < |rows| && GroupedBy(t, header, rows, m) && NoNaN(header, rows[m])
    requires Unique(WithRow(t, header, rows[m]).timestamps)
    ensures GroupedBy(WithRow(t, header, rows[m]), header, rows, m + 1)
  {
    var row, t' := rows[m], WithRow(t, header, rows[m]);
    var n := |row|;
    StampsGrow(t.timestamps, header, row, n);
    SliceIsOfTime(t.timestamps, header, row, n);
    WidenedIsPadded(t.slices, |t'.timestamps|);
    hide Stamps, SliceOf, TimeOf, DatumOf, Widened, NoNaN, Located;
    forall i | 0 <= i < |t'.slices|
      ensures t'.slices[i] == DataAt(header, rows, t'.timestamps[i], m + 1)
    {
      if i < |t.timestamps| {
        assert t'.timestamps[i] == t.timestamps[i];
      } else {
        NewStamp(t.timestamps, t'.timestamps, i);
      }
    }
    forall v | v !in t'.timestamps
      ensures DataAt(header, rows, v, m + 1) == []
    {
      assert v !in t.timestamps by { PrefixHas(t.timestamps, t'.timestamps, v); }
    }
  }

  predicate Unique(ts: seq<Float>) { forall i, j :: 0 <= i < j < |ts| ==> ts[i] != ts[j] }

  lemma PrefixHas(ts: seq<Float>, us: seq<Float>, v: Float)
    requires |ts| <= |us| && us[..|ts|] == ts
    ensures v in ts ==> v in us
  {
  }

  lemma NewStamp(ts: seq<Float>, us: seq<Float>, i: nat)
    requires |ts| <= i < |us| && us[..|ts|] == ts && Unique(us)
    ensures us[i] !in ts
  {
    assert forall j :: 0 <= j < |ts| ==> us[j] == ts[j];
  }

  lemma StampsAreUnique(header: seq<Field>, rows: seq<Row>, m: nat)
    requires m <= |rows| && forall i :: 0 <= i < m ==> NoNaN(header, rows[i])
    ensures Unique(Read(header, rows, m).timestamps)
  {
    StampsAreFirstAppearances(header, rows, m);
    hide Read, NoNaN, AllTimes;
  }

  /** Reading is a stable group-by of the located rows by their time. */
  lemma {:induction false} ReadGroups(header: seq<Field>, rows: seq<Row>, m: nat)
    requires m <= |rows| && forall i :: 0 <= i < m ==> NoNaN(header, rows[i])
    ensures GroupedBy(Read(header, rows, m), header, rows, m)
  {
    if m == 0 {
      NothingRead(header, rows);
    } else {
      ReadGroups(header, rows, m - 1);
      StampsAreUnique(header, rows, m);
      hide GroupedBy, NoNaN, WithRow, Unique;
      RowKeepsGroups(Read(header, rows, m - 1), header, rows, m - 1);
    }
  }

  lemma NothingRead(header: seq<Field>, rows: seq<Row>)
    ensures GroupedBy(Read(header, rows, 0), header, rows, 0)
  {
  }

  // ----- Seven arrays side by side -----

  /** A position in the local frame. */
  datatype Point = Point(x: Float, y: Float, z: Float)

  function Negated(v: Float): Float {
    match v
    case Number(x) => Number(-x)
    case Infinite(positive) => Infinite(!positive)
    case NaN => NaN
  }

  function LatLonOf(d: Datum): Point { Point(d.latitude, d.longitude, d.depth) }
  function TemperatureOf(d: Datum): Float { d.temperature }
  function SalinityOf(d: Datum): Float { d.salinity }
  function ChlorophyllOf(d: Datum): Float { d.chlorophyll }
  function EastOf(d: Datum): Float { d.eastCurrent }
  function NorthOf(d: Datum): Float { d.northCurrent }

  function LocalOf(toLocal: Point -> Point): Datum -> Point {
    (d: Datum) => toLocal(Point(d.latitude, d.longitude, Negated(d.depth)))
  }

  /** One of the arrays: one value of every datum, slice by slice. */
  function Sliced<T>(slices: seq<seq<Datum>>, f: Datum -> T): (c: seq<seq<T>>)
    ensures |c| == |slices|
  {
    if slices == [] then [] else Sliced(slices[..|slices| - 1], f) + [Column(slices[|slices| - 1], f)]
  }

  datatype Arrays = Arrays(
    coords: seq<seq<Point>>, latLon: seq<seq<Point>>, temperature: seq<seq<Float>>, salinity: seq<seq<Float>>,
    chlorophyll: seq<seq<Float>>, east: seq<seq<Float>>, north: seq<seq<Float>>)

  function AsArrays(slices: seq<seq<Datum>>, toLocal: Point -> Point): Arrays {
    Arrays(Sliced(slices, LocalOf(toLocal)), Sliced(slices, LatLonOf), Sliced(slices, TemperatureOf),
           Sliced(slices, SalinityOf), Sliced(slices, ChlorophyllOf), Sliced(slices, EastOf), Sliced(slices, NorthOf))
  }

  lemma SlicedWithMore<T>(slices: seq<seq<Datum>>, f: Datum -> T)
    ensures Sliced(slices + [[]], f) == Sliced(slices, f) + [[]]
  {
    assert (slices + [[]])[..|slices|] == slices;
  }

  lemma {:induction false} SlicedWithDatum<T>(slices: seq<seq<Datum>>, k: nat, d: Datum, f: Datum -> T)
    requires k < |slices|
    ensures Sliced(slices, f)[k] == Column(slices[k], f)
    ensures Sliced(slices[k := slices[k] + [d]], f) == Sliced(slices, f)[k := Sliced(slices, f)[k] + [f(d)]]
  {
    var front, more := slices[..|slices| - 1], slices[k := slices[k] + [d]];
    if k == |slices| - 1 {
      assert (slices[k] + [d])[..|slices[k]|] == slices[k];
      assert more[..|slices| - 1] == front;
    } else {
      SlicedWithDatum(front, k, d, f);
      assert more[..|slices| - 1] == front[k := front[k] + [d]];
    }
  }

  lemma ArraysWithDatum(slices: seq<seq<Datum>>, k: nat, d: Datum, toLocal: Point -> Point)
    requires k < |slices|
    ensures var c, p := AsArrays(slices, toLocal), Point(d.latitude, d.longitude, d.depth);
      && |c.coords| == |c.latLon| == |c.temperature| == |c.salinity| == |slices|
      && |c.chlorophyll| == |c.east| == |c.north| == |slices|
      && AsArrays(slices[k := slices[k] + [d]], toLocal) == Arrays(
           c.coords[k := c.coords[k] + [toLocal(Point(d.latitude, d.longitude, Negated(d.depth)))]],
           c.latLon[k := c.latLon[k] + [p]], c.temperature[k := c.temperature[k] + [d.temperature]],
           c.salinity[k := c.salinity[k] + [d.salinity]], c.chlorophyll[k := c.chlorophyll[k] + [d.chlorophyll]],
           c.east[k := c.east[k] + [d.eastCurrent]], c.north[k := c.north[k] + [d.northCurrent]])
  {
    SlicedWithDatum(slices, k, d, LocalOf(toLocal));
    SlicedWithDatum(slices, k, d, LatLonOf);
    SlicedWithDatum(slices, k, d, TemperatureOf);
    SlicedWithDatum(slices, k, d, SalinityOf);
    SlicedWithDatum(slices, k, d, ChlorophyllOf);
    SlicedWithDatum(slices, k, d, EastOf);
    SlicedWithDatum(slices, k, d, NorthOf);
    hide Sliced, Column;
  }

  /** Index i of slice k is the same datum in all seven arrays. */
  lemma {:induction false} SlicedAt<T>(slices: seq<seq<Datum>>, k: nat, i: nat, f: Datum -> T)
    requires k < |slices| && i < |slices[k]|
    ensures |Sliced(slices, f)[k]| == |slices[k]| && Sliced(slices, f)[k][i] == f(slices[k][i])
  {
    if k == |slices| - 1 {
      Columns.ColumnAt(slices[k], f);
    } else {
      SlicedAt(slices[..|slices| - 1], k, i, f);
    }
  }

  /** What stands at one index of the arrays: the datum's own values, and its place in the
      local frame, where depth counts downwards and so is the height with its sign changed. */
  ghost predicate HoldsDatum(c: Arrays, k: nat, i: nat, d: Datum, toLocal: Point -> Point)
    requires |c.coords| == |c.latLon| == |c.temperature| == |c.salinity| && k < |c.coords|
    requires |c.chlorophyll| == |c.east| == |c.north| == |c.coords|
  {
    && i < |c.latLon[k]| && c.latLon[k][i] == Point(d.latitude, d.longitude, d.depth)
    && i < |c.coords[k]| && IsPlaceOf(c.coords[k][i], c.latLon[k][i], toLocal)
    && i < |c.temperature[k]| && c.temperature[k][i] == d.temperature
    && i < |c.salinity[k]| && c.salinity[k][i] == d.salinity
    && i < |c.chlorophyll[k]| && c.chlorophyll[k][i] == d.chlorophyll
    && i < |c.east[k]| && c.east[k][i] == d.eastCurrent
    && i < |c.north[k]| && c.north[k][i] == d.northCurrent
  }

  predicate IsPlaceOf(place: Point, p: Point, toLocal: Point -> Point) {
    match p.z
    case Number(depth) => place == toLocal(Point(p.x, p.y, Number(0.0 - depth)))
    case Infinite(true) => place == toLocal(Point(p.x, p.y, Infinite(false)))
    case Infinite(false) => place == toLocal(Point(p.x, p.y, Infinite(true)))
    case NaN => place == toLocal(Point(p.x, p.y, NaN))
  }

  lemma ArraysHold(slices: seq<seq<Datum>>, toLocal: Point -> Point, k: nat, i: nat)
    requires k < |slices| && i < |slices[k]|
    ensures var c := AsArrays(slices, toLocal);
      && |c.coords| == |c.latLon| == |c.temperature| == |c.salinity| == |slices|
      && |c.chlorophyll| == |c.east| == |c.north| == |slices|
      && |c.latLon[k]| == |c.coords[k]| == |slices[k]|
      && HoldsDatum(c, k, i, slices[k][i], toLocal)
  {
    SlicedAt(slices, k, i, LocalOf(toLocal));
    SlicedAt(slices, k, i, LatLonOf);
    SlicedAt(slices, k, i, TemperatureOf);
    SlicedAt(slices, k, i, SalinityOf);
    SlicedAt(slices, k, i, ChlorophyllOf);
    SlicedAt(slices, k, i, EastOf);
    SlicedAt(slices, k, i, NorthOf);
    hide Sliced;
    var c, d := AsArrays(slices, toLocal), slices[k][i];
    assert c.coords[k][i] == toLocal(Point(d.latitude, d.longitude, Negated(d.depth)));
    assert c.latLon[k][i] == Point(d.latitude, d.longitude, d.depth);
    assert IsPlaceOf(c.coords[k][i], c.latLon[k][i], toLocal);
  }

  /** After reading, every entry of the arrays is a located row of its time, at the place in
      its slice that the file's order gives it. */
  lemma ArraysHoldRows(header: seq<Field>, rows: seq<Row>, toLocal: Point -> Point, k: nat, i: nat)
    requires forall j :: 0 <= j < |rows| ==> NoNaN(header, rows[j])
    requires var t := Read(header, rows, |rows|); k < |t.timestamps| && k < |t.slices| && i < |t.slices[k]|
    ensures var t := Read(header, rows, |rows|);
      var c, data := AsArrays(t.slices, toLocal), DataAt(header, rows, t.timestamps[k], |rows|);
      && |c.coords| == |c.latLon| == |c.temperature| == |c.salinity|
      && |c.chlorophyll| == |c.east| == |c.north| == |c.coords| && k < |c.coords|
      && |c.latLon[k]| == |data| && i < |data| && HoldsDatum(c, k, i, data[i], toLocal)
  {
    var t := Read(header, rows, |rows|);
    ReadGroups(header, rows, |rows|);
    hide Read, NoNaN, HoldsDatum, AsArrays;
    assert t.slices[k] == DataAt(header, rows, t.timestamps[k], |rows|);
    ArraysHold(t.slices, toLocal, k, i);
  }

  /** The data in all slices. */
  function DataCount(slices: seq<seq<Datum>>): nat {
    if slices == [] then 0 else DataCount(slices[..|slices| - 1]) + |slices[|slices| - 1]|
  }

  lemma {:induction false} DataCountGrows(slices: seq<seq<Datum>>, k: nat, d: Datum)
    requires k < |slices|
    ensures DataCount(slices[k := slices[k] + [d]]) == DataCount(slices) + 1
  {
    var more := slices[k := slices[k] + [d]];
    if k == |slices| - 1 {
      assert more[..|slices| - 1] == slices[..|slices| - 1];
    } else {
      assert more[..|slices| - 1] == slices[..|slices| - 1][k := slices[k] + [d]];
      DataCountGrows(slices[..|slices| - 1], k, d);
    }
  }

  lemma {:induction false} WideningAddsNothing(slices: seq<seq<Datum>>, n: nat)
    ensures DataCount(Widened(slices, n)) == DataCount(slices)
    ensures |Widened(slices, n)| == if |slices| < n then n else |slices|
    decreases n - |slices|
  {
    if |slices| < n {
      assert (slices + [[]])[..|slices|] == slices;
      WideningAddsNothing(slices + [[]], n);
    }
  }

  /** A row adds a datum exactly if it has a time and all three coordinates are numbers or
      infinite; otherwise it adds none. */
  lemma RowAddsDatumIff(t: Table, header: seq<Field>, row: Row)
    requires |t.slices| == |t.timestamps| && NoNaN(header, row)
    ensures DataCount(WithRow(t, header, row).slices) == DataCount(t.slices) +
      if TimeOf(header, row, |row|).Some? && Value(header, row, Latitude, |row|) != NaN
         && Value(header, row, Longitude, |row|) != NaN && Value(header, row, Depth, |row|) != NaN then 1 else 0
  {
    var ts, k := Stamps(t.timestamps, header, row, |row|), SliceOf(t.timestamps, header, row, |row|);
    SliceIsOfTime(t.timestamps, header, row, |row|);
    StampsGrow(t.timestamps, header, row, |row|);
    WideningAddsNothing(t.slices, |ts|);
    hide Stamps, SliceOf, Widened, TimeOf, Value, NoNaN;
    var slices := Widened(t.slices, |ts|);
    if 0 <= k < |slices| { DataCountGrows(slices, k, DatumOf(header, row)); }
  }

  /** A time that is no number is never found, so its row opens a slice every time. */
  lemma {:induction false} NaNIsNotFound(ts: seq<Float>, k: nat)
    requires k <= |ts|
    ensures Find(ts, NaN, k) == |ts|
    decreases |ts| - k
  {
    if k < |ts| { NaNIsNotFound(ts, k + 1); }
  }

  lemma {:induction false} WidenedOnce(slices: seq<seq<Datum>>, n: nat)
    requires |slices| <= n
    ensures Widened(slices, n + 1) == Widened(slices, n) + [[]]
    decreases n - |slices|
  {
    if |slices| < n { WidenedOnce(slices + [[]], n); }
  }

  /** One more word: what it does to the datum being read. */
  lemma OneWord(header: seq<Field>, row: Row, w: nat)
    requires w < |row|
    ensures var d, d' := DatumUpTo(header, row, w), DatumUpTo(header, row, w + 1);
      d' == if row[w].Unparsable? then d
            else
              var v := row[w].value;
              match FieldOf(header, row, w)
              case Latitude => d.(latitude := v)
              case Longitude => d.(longitude := v)
              case Depth => d.(depth := v)
              case Temperature => d.(temperature := v)
              case Salinity => d.(salinity := v)
              case Chlorophyll => d.(chlorophyll := v)
              case EastCurrent => d.(eastCurrent := v)
              case NorthCurrent => d.(northCurrent := v)
              case _ => d
  {
    hide CellCount;
  }

  lemma {:induction false} CellCountGrows(row: Row, w: nat, n: nat)
    requires w <= n <= |row|
    ensures CellCount(row, w) <= CellCount(row, n)
  {
    if w < n { CellCountGrows(row, w, n - 1); }
  }

  class ScienceSensorsSystem {
    const toLocal: Point -> Point
    var timestamps: seq<Float>
    var timeSpaceCoords: seq<seq<Point>>
    var timeSpaceCoordsLatLon: seq<seq<Point>>
    var temperatureArr: seq<seq<Float>>
    var salinityArr: seq<seq<Float>>
    var chlorophyllArr: seq<seq<Float>>
    var eastCurrentArr: seq<seq<Float>>
    var northCurrentArr: seq<seq<Float>>
    var timeIdx: nat

    function View(): Arrays
      reads this
    {
      Arrays(timeSpaceCoords, timeSpaceCoordsLatLon, temperatureArr, salinityArr, chlorophyllArr, eastCurrentArr,
             northCurrentArr)
    }

    constructor (toLocal: Point -> Point)
      ensures this.toLocal == toLocal && timestamps == [] && View() == AsArrays([], toLocal) && timeIdx == 0
    {
      this.toLocal := toLocal;
      timestamps, timeIdx := [], 0;
      timeSpaceCoords, timeSpaceCoordsLatLon := [], [];
      temperatureArr, salinityArr, chlorophyllArr, eastCurrentArr, northCurrentArr := [], [], [], [], [];
    }

    method NewSlice(v: Float, ghost slices: seq<seq<Datum>>)
      requires View() == AsArrays(slices, toLocal)
      modifies this
      ensures timestamps == old(timestamps) + [v] && View() == AsArrays(slices + [[]], toLocal)
        && timeIdx == old(timeIdx)
    {
      SlicedWithMore(slices, LocalOf(toLocal));
      SlicedWithMore(slices, LatLonOf);
      SlicedWithMore(slices, TemperatureOf);
      SlicedWithMore(slices, SalinityOf);
      SlicedWithMore(slices, ChlorophyllOf);
      SlicedWithMore(slices, EastOf);
      SlicedWithMore(slices, NorthOf);
      hide Sliced;
      timestamps := timestamps + [v];
      timeSpaceCoords := timeSpaceCoords + [[]];
      timeSpaceCoordsLatLon := timeSpaceCoordsLatLon + [[]];
      temperatureArr := temperatureArr + [[]];
      salinityArr := salinityArr + [[]];
      chlorophyllArr := chlorophyllArr + [[]];
      eastCurrentArr := eastCurrentArr + [[]];
      northCurrentArr := northCurrentArr + [[]];
    }

    method AddDatum(k: nat, d: Datum, ghost slices: seq<seq<Datum>>)
      requires View() == AsArrays(slices, toLocal) && k < |slices|
      modifies this
      ensures timestamps == old(timestamps) && View() == AsArrays(slices[k := slices[k] + [d]], toLocal)
        && timeIdx == old(timeIdx)
    {
      hide AsArrays, Sliced, Column;
      ArraysWithDatum(slices, k, d, toLocal);
      var cart := toLocal(Point(d.latitude, d.longitude, Negated(d.depth)));
      timeSpaceCoords := timeSpaceCoords[k := timeSpaceCoords[k] + [cart]];
      timeSpaceCoordsLatLon :=
        timeSpaceCoordsLatLon[k := timeSpaceCoordsLatLon[k] + [Point(d.latitude, d.longitude, d.depth)]];
      temperatureArr := temperatureArr[k := temperatureArr[k] + [d.temperature]];
      salinityArr := salinityArr[k := salinityArr[k] + [d.salinity]];
      chlorophyllArr := chlorophyllArr[k := chlorophyllArr[k] + [d.chlorophyll]];
      eastCurrentArr := eastCurrentArr[k := eastCurrentArr[k] + [d.eastCurrent]];
      northCurrentArr := northCurrentArr[k := northCurrentArr[k] + [d.northCurrent]];
    }

    /** One line of the file. */
    method ReadRow(header: seq<Field>, row: Row, ghost t: Table)
      requires Fits(header, row) && |t.slices| == |t.timestamps|
      requires timestamps == t.timestamps && View() == AsArrays(t.slices, toLocal)
      modifies this
      ensures var u := WithRow(t, header, row);
        |u.slices| == |u.timestamps| && timestamps == u.timestamps && View() == AsArrays(u.slices, toLocal)
      ensures timeIdx == old(timeIdx)
    {
      hide AsArrays, CellCount, Widened, Find, DatumUpTo;
      var column, lineTimeIdx := 0, -1;
      var latitude, longitude, depth := NaN, NaN, NaN;
      var temp, sal, chlor, nCurr, eCurr := NaN, NaN, NaN, NaN, NaN;
      Begin(t, header, row);
      ghost var slices := t.slices;
      for w := 0 to |row|
        invariant column == CellCount(row, w) && timeIdx == old(timeIdx)
        invariant -1 <= lineTimeIdx == SliceOf(t.timestamps, header, row, w) < |timestamps|
        invariant timestamps == Stamps(t.timestamps, header, row, w)
        invariant slices == Widened(t.slices, |timestamps|) && |slices| == |timestamps| >= |t.slices|
        invariant View() == AsArrays(slices, toLocal)
        invariant Datum(latitude, longitude, depth, temp, sal, chlor, eCurr, nCurr) == DatumUpTo(header, row, w)
      {
        OneWord(header, row, w);
        NextColumn(header, row, w);
        if row[w].Parsed? {
          var val := row[w].value;
          match header[column] {
            case Time =>
              lineTimeIdx := Find(timestamps, val, 0);
              if lineTimeIdx == |timestamps| {
                WidenedOnce(t.slices, |timestamps|);
                NewSlice(val, slices);
                slices := slices + [[]];
              }
            case Latitude => latitude := val;
            case Longitude => longitude := val;
            case Depth => depth := val;
            case Temperature => temp := val;
            case Salinity => sal := val;
            case Chlorophyll => chlor := val;
            case EastCurrent => eCurr := val;
            case NorthCurrent => nCurr := val;
            case Unrecognized =>
          }
          column := column + 1;
        }
      }
      if lineTimeIdx != -1 && latitude != NaN && longitude != NaN && depth != NaN {
        AddDatum(lineTimeIdx, Datum(latitude, longitude, depth, temp, sal, chlor, eCurr, nCurr), slices);
      }
    }

    /** The first load: there are no stamps yet, and the other arrays are cleared. */
    method ReadData(header: seq<Field>, rows: seq<Row>)
      requires timestamps == [] && forall i :: 0 <= i < |rows| ==> Fits(header, rows[i])
      modifies this
      ensures var t := Read(header, rows, |rows|);
        |t.slices| == |t.timestamps| && timestamps == t.timestamps && View() == AsArrays(t.slices, toLocal)
      ensures timeIdx == old(timeIdx)
      ensures |timeSpaceCoords| == |timeSpaceCoordsLatLon| == |timestamps|
      ensures forall k :: 0 <= k < |timestamps| ==> |timeSpaceCoords[k]| == |timeSpaceCoordsLatLon[k]|
      ensures forall k, i :: 0 <= k < |timestamps| && 0 <= i < |timeSpaceCoords[k]| ==>
        IsPlaceOf(timeSpaceCoords[k][i], timeSpaceCoordsLatLon[k][i], toLocal)
    {
      hide WithRow, Fits;
      timeSpaceCoords, timeSpaceCoordsLatLon := [], [];
      temperatureArr, salinityArr, chlorophyllArr, eastCurrentArr, northCurrentArr := [], [], [], [], [];
      ghost var t := Table([], []);
      for i := 0 to |rows|
        invariant t == Read(header, rows, i) && timeIdx == old(timeIdx)
        invariant |t.slices| == |t.timestamps| && timestamps == t.timestamps && View() == AsArrays(t.slices, toLocal)
      {
        ReadRow(header, rows[i], t);
        t := WithRow(t, header, rows[i]);
      }
      PlacesOf(t.slices, toLocal);
    }

    /** `estimates`: what each slice says at the point asked for. */
    method InterpolateInTime(estimates: seq<Estimate>, simTime: real, tol: real) returns (r: Option<real>)
      requires timeIdx < |timestamps| == |estimates| && tol > 0.0
      ensures r == Interpolated(timestamps, estimates, timeIdx, simTime, tol)
      ensures Brackets(timestamps, timeIdx, simTime) && Known(estimates[timeIdx]) ==> RightFor(r, estimates, timeIdx)
    {
      if Brackets(timestamps, timeIdx, simTime) && Known(estimates[timeIdx]) {
        BracketedIsRight(timestamps, estimates, timeIdx, simTime, tol);
      }
      if estimates[timeIdx].Nowhere? {
        return None;
      }
      var data1 := estimates[timeIdx].value;
      if timeIdx + 1 >= |estimates| {
        return data1;
      }
      var next := timeIdx + 1;
      if estimates[next].Nowhere? {
        return None;
      }
      var data2 := estimates[next].value;
      var prevTimeStamp, nextTimeStamp := timestamps[timeIdx], timestamps[next];
      if CloserThan(prevTimeStamp, nextTimeStamp, tol) {
        return data1;
      }
      if data1.None? || data2.None? || !prevTimeStamp.Number? || !nextTimeStamp.Number? {
        return None;
      }
      var dist := nextTimeStamp.x - prevTimeStamp.x;
      var sum := data1.value * (nextTimeStamp.x - simTime) + data2.value * (simTime - prevTimeStamp.x);
      assert sum == Weighted(data1.value, data2.value, nextTimeStamp.x - simTime, simTime - prevTimeStamp.x);
      return Some(sum / dist);
    }

    /** The part of PostUpdate that follows the time of the simulation. */
    method FollowTime(simTime: real)
      modifies this`timeIdx
      ensures timeIdx == Advanced(timestamps, old(timeIdx), simTime)
    {
      if timeIdx + 1 < |timestamps| {
        if Reached(timestamps[timeIdx + 1], simTime) {
          timeIdx := timeIdx + 1;
        }
      }
    }
  }

  lemma PlacesOf(slices: seq<seq<Datum>>, toLocal: Point -> Point)
    ensures var c := AsArrays(slices, toLocal);
      && |c.coords| == |c.latLon| == |slices|
      && (forall k :: 0 <= k < |slices| ==> |c.coords[k]| == |c.latLon[k]|)
      && forall k, i :: 0 <= k < |slices| && 0 <= i < |c.coords[k]| ==>
           IsPlaceOf(c.coords[k][i], c.latLon[k][i], toLocal)
  {
    var c := AsArrays(slices, toLocal);
    forall k | 0 <= k < |slices|
      ensures |c.coords[k]| == |c.latLon[k]| == |slices[k]|
    {
      SliceLength(slices, k, LocalOf(toLocal));
      SliceLength(slices, k, LatLonOf);
    }
    forall k, i | 0 <= k < |slices| && 0 <= i < |c.coords[k]|
      ensures IsPlaceOf(c.coords[k][i], c.latLon[k][i], toLocal)
    {
      ArraysHold(slices, toLocal, k, i);
    }
  }

  lemma {:induction false} SliceLength<T>(slices: seq<seq<Datum>>, k: nat, f: Datum -> T)
    requires k < |slices|
    ensures |Sliced(slices, f)[k]| == |slices[k]|
  {
    if k == |slices| - 1 {
      Columns.ColumnAt(slices[k], f);
    } else {
      SliceLength(slices[..|slices| - 1], k, f);
    }
  }

  lemma Begin(t: Table, header: seq<Field>, row: Row)
    requires |t.slices| == |t.timestamps|
    ensures CellCount(row, 0) == 0
    ensures Widened(t.slices, |t.timestamps|) == t.slices
    ensures DatumUpTo(header, row, 0) == Datum(NaN, NaN, NaN, NaN, NaN, NaN, NaN, NaN)
  {
  }

  lemma NextColumn(header: seq<Field>, row: Row, w: nat)
    requires w < |row| && Fits(header, row)
    ensures CellCount(row, w + 1) == CellCount(row, w) + if row[w].Parsed? then 1 else 0
    ensures row[w].Parsed? ==> CellCount(row, w) < |header| && FieldOf(header, row, w) == header[CellCount(row, w)]
  {
    CellCountGrows(row, w + 1, |row|);
  }

  // ----- The time index -----

  /** simTime >= timestamp, as doubles compare. */
  predicate Reached(stamp: Float, simTime: real) {
    match stamp
    case Number(x) => simTime >= x
    case Infinite(positive) => !positive
    case NaN => false
  }

  /** As doubles compare: a time has reached a number not above it and minus infinity. */
  lemma ReachedSays(stamp: Float, simTime: real)
    ensures Reached(stamp, simTime) <==> stamp == Infinite(false) || (stamp.Number? && stamp.x <= simTime)
  {
  }

  function Advanced(ts: seq<Float>, k: nat, simTime: real): nat {
    if k + 1 < |ts| && Reached(ts[k + 1], simTime) then k + 1 else k
  }

  /** The stamps are numbers and increase. */
  ghost predicate Increasing(ts: seq<Float>) {
    && (forall i :: 0 <= i < |ts| ==> ts[i].Number?)
    && (forall i, j :: 0 <= i < j < |ts| ==> ts[i].x < ts[j].x)
  }

  /** The time lies in slice k. */
  ghost predicate Brackets(ts: seq<Float>, k: nat, now: real) {
    && k < |ts| && (forall i :: 0 <= i < |ts| ==> ts[i].Number?)
    && ts[k].x <= now && (k + 1 < |ts| ==> now < ts[k + 1].x)
  }

  /** One update moves the index by one slice at most: it keeps bracketing the time exactly
      when time has not run past the slice after next. */
  lemma AdvanceBracketsIff(ts: seq<Float>, k: nat, was: real, now: real)
    requires Increasing(ts) && Brackets(ts, k, was) && was <= now
    ensures Brackets(ts, Advanced(ts, k, now), now) <==> (k + 2 < |ts| ==> now < ts[k + 2].x)
  {
    if k + 2 < |ts| { assert ts[k + 1].x < ts[k + 2].x; }
  }

  /** The index after the first m of the updates that follow times[0]. */
  function IndexAfter(ts: seq<Float>, start: nat, times: seq<real>, m: nat): (k: nat)
    requires start < |ts| && m < |times|
    ensures k < |ts|
  {
    if m == 0 then start else Advanced(ts, IndexAfter(ts, start, times, m - 1), times[m])
  }

  /** No step of time is longer than any gap between stamps. */
  ghost predicate StepsFitGaps(ts: seq<Float>, times: seq<real>)
    requires Increasing(ts)
  {
    forall m, i :: 0 <= m < |times| - 1 && 0 <= i < |ts| - 1 ==> StepFitsGap(ts, i, times, m)
  }

  predicate StepFitsGap(ts: seq<Float>, i: nat, times: seq<real>, m: nat)
    requires m + 1 < |times| && i + 1 < |ts| && ts[i].Number? && ts[i + 1].Number?
  {
    times[m + 1] - times[m] <= ts[i + 1].x - ts[i].x
  }

  lemma {:induction false} IndexAlwaysBrackets(ts: seq<Float>, start: nat, times: seq<real>, m: nat)
    requires Increasing(ts) && StepsFitGaps(ts, times) && NeverBack(times) && m < |times|
    requires Brackets(ts, start, times[0])
    ensures Brackets(ts, IndexAfter(ts, start, times, m), times[m])
  {
    if m > 0 {
      IndexAlwaysBrackets(ts, start, times, m - 1);
      var k := IndexAfter(ts, start, times, m - 1);
      AdvanceBracketsIff(ts, k, times[m - 1], times[m]);
      if k + 2 < |ts| { assert StepFitsGap(ts, k + 1, times, m - 1); }
    }
  }

  ghost predicate NeverBack(times: seq<real>) {
    forall j :: 0 <= j < |times| - 1 ==> times[j] <= times[j + 1]
  }

  /** A step of time over two stamps leaves the index a slice behind. */
  lemma StepOverTwoStamps()
    ensures var ts := [Number(0.0), Number(1.0), Number(2.0)];
      && Increasing(ts) && Brackets(ts, 0, 0.5)
      && Advanced(ts, 0, 2.5) == 1 && !Brackets(ts, Advanced(ts, 0, 2.5), 2.5)
  {
  }

  /** An index that starts behind, as after a late load, catches up by one slice an update
      and then stays, while time is in slice K. */
  lemma {:induction false} IndexCatchesUp(ts: seq<Float>, start: nat, K: nat, times: seq<real>, m: nat)
    requires Increasing(ts) && m < |times| && start < |ts| && ts[start].x <= times[0]
    requires forall j :: 0 <= j <= m ==> Brackets(ts, K, times[j])
    ensures start <= K && IndexAfter(ts, start, times, m) == if start + m < K then start + m else K
    ensures start + m >= K ==> Brackets(ts, IndexAfter(ts, start, times, m), times[m])
  {
    assert Brackets(ts, K, times[0]);
    if m > 0 {
      IndexCatchesUp(ts, start, K, times, m - 1);
      var k := IndexAfter(ts, start, times, m - 1);
      assert Brackets(ts, K, times[m]);
      if k + 1 < K { assert ts[k + 1].x < ts[K].x; }
    }
  }

  // ----- Interpolation in time -----

  /** What a slice says at a point: no interpolators there, or an estimate that may be
      missing. */
  datatype Estimate = Nowhere | Somewhere(value: Option<real>)

  /** next - prev < tol, as floating-point numbers compare. */
  predicate CloserThan(prev: Float, next: Float, tol: real) {
    if prev == NaN || next == NaN then false
    else if prev.Number? && next.Number? then next.x - prev.x < tol
    else prev != next && (next == Infinite(false) || prev == Infinite(true))
  }

  /** InterpolateInTime; None is NaN, which infinities in a quotient come to as well. */
  function Interpolated(ts: seq<Float>, estimates: seq<Estimate>, k: nat, now: real, tol: real): Option<real>
    requires k < |ts| == |estimates| && tol > 0.0
  {
    if estimates[k].Nowhere? then None
    else if k + 1 >= |estimates| then estimates[k].value
    else if estimates[k + 1].Nowhere? then None
    else if CloserThan(ts[k], ts[k + 1], tol) then estimates[k].value
    else if ts[k].Number? && ts[k + 1].Number? then
      Blend(estimates[k].value, estimates[k + 1].value, ts[k].x, ts[k + 1].x, now)
    else None
  }

  /** Infinities apart: their difference is below any tolerance if it is minus infinity, and
      not if it is infinity or no number. */
  lemma CloserSays(prev: Float, next: Float, tol: real)
    ensures prev.Number? && next.Number? ==> (CloserThan(prev, next, tol) <==> next.x < prev.x + tol)
    ensures prev == NaN || next == NaN ==> !CloserThan(prev, next, tol)
    ensures CloserThan(prev, Infinite(false), tol) <==> prev != NaN && prev != Infinite(false)
    ensures CloserThan(prev, Infinite(true), tol) <==> false
    ensures prev.Infinite? && next.Number? ==> (CloserThan(prev, next, tol) <==> prev.positive)
  {
  }

  function Blend(a: Option<real>, b: Option<real>, from: real, to: real, now: real): Option<real>
    requires to > from
  {
    if a.Some? && b.Some? then Some(Weighted(a.value, b.value, to - now, now - from) / (to - from)) else None
  }

  function Weighted(a: real, b: real, left: real, right: real): real { a * left + b * right }

  predicate Between(x: real, a: real, b: real) { a <= x <= b || b <= x <= a }

  lemma WeightedParts(a: real, b: real, left: real, right: real)
    ensures Weighted(a, b, left, right) - a * (left + right) == (b - a) * right
    ensures b * (left + right) - Weighted(a, b, left, right) == (b - a) * left
  {
    assert a * (left + right) == a * left + a * right;
    assert b * (left + right) == b * left + b * right;
  }

  lemma Quotient(n: real, x: real, d: real)
    requires d > 0.0
    ensures n >= x * d ==> n / d >= x
    ensures n <= x * d ==> n / d <= x
  {
  }

  lemma SameSign(a: real, b: real)
    requires b >= 0.0
    ensures a >= 0.0 ==> a * b >= 0.0
    ensures a <= 0.0 ==> a * b <= 0.0
  {
  }

  /** While the index brackets the time, the result lies between the two slices' values. */
  lemma BlendIsBetween(a: real, b: real, from: real, to: real, now: real)
    requires from < to && from <= now <= to
    ensures Between(Blend(Some(a), Some(b), from, to, now).value, a, b)
  {
    var left, right := to - now, now - from;
    WeightedParts(a, b, left, right);
    SameSign(b - a, left);
    SameSign(b - a, right);
    Quotient(Weighted(a, b, left, right), a, left + right);
    Quotient(Weighted(a, b, left, right), b, left + right);
    hide Weighted;
    assert left + right == to - from;
  }

  lemma WeightedAtEnds(a: real, b: real, d: real)
    requires d > 0.0
    ensures Weighted(a, b, 0.0, d) / d == b && Weighted(a, b, d, 0.0) / d == a
  {
    Quotient(b * d, b, d);
    Quotient(a * d, a, d);
  }

  lemma BlendAtEnds(a: real, b: real, from: real, to: real)
    requires from < to
    ensures Blend(Some(a), Some(b), from, to, to) == Some(b)
    ensures Blend(Some(a), Some(b), from, to, from) == Some(a)
  {
    WeightedAtEnds(a, b, to - from);
    hide Weighted;
    assert to - to == 0.0 && from - from == 0.0;
  }

  ghost predicate Known(e: Estimate) { e.Somewhere? && e.value.Some? }

  /** When there is a value at all, and which: the current slice must be known, a next
      slice must have interpolators, and be known too unless the stamps nearly coincide.
      The last slice holds its value. */
  lemma InterpolatedIsKnownIff(ts: seq<Float>, estimates: seq<Estimate>, k: nat, now: real, tol: real)
    requires k < |ts| == |estimates| && tol > 0.0
    ensures var r := Interpolated(ts, estimates, k, now, tol);
      && (r.Some? <==>
           && Known(estimates[k])
           && (k + 1 < |ts| ==>
                && estimates[k + 1].Somewhere?
                && (!CloserThan(ts[k], ts[k + 1], tol) ==>
                     Known(estimates[k + 1]) && ts[k].Number? && ts[k + 1].Number?)))
      && (r.Some? && k + 1 == |ts| ==> r == estimates[k].value)
      && (r.Some? && k + 1 < |ts| && ts[k] == Number(now) ==> r == estimates[k].value)
  {
    if k + 1 < |ts| && ts[k].Number? && ts[k + 1].Number? && !CloserThan(ts[k], ts[k + 1], tol)
      && Known(estimates[k]) && Known(estimates[k + 1])
    {
      BlendAtEnds(estimates[k].value.value, estimates[k + 1].value.value, ts[k].x, ts[k + 1].x);
    }
  }

  /** At the moment one slice hands over to the next, both give the same result exactly
      when the slices are the tolerance apart or agree anyway. */
  lemma HandOverIsContinuousIff(ts: seq<Float>, estimates: seq<Estimate>, k: nat, tol: real)
    requires Increasing(ts) && k + 1 < |ts| == |estimates| && tol > 0.0
    requires Known(estimates[k]) && Known(estimates[k + 1]) && (k + 2 < |ts| ==> Known(estimates[k + 2]))
    ensures Interpolated(ts, estimates, k, ts[k + 1].x, tol) == Interpolated(ts, estimates, k + 1, ts[k + 1].x, tol)
            <==> ts[k + 1].x - ts[k].x >= tol || estimates[k].value == estimates[k + 1].value
  {
    var a, b := estimates[k].value.value, estimates[k + 1].value.value;
    if ts[k + 1].x - ts[k].x >= tol { BlendAtEnds(a, b, ts[k].x, ts[k + 1].x); }
    if k + 2 < |ts| && ts[k + 2].x - ts[k + 1].x >= tol {
      BlendAtEnds(b, estimates[k + 2].value.value, ts[k + 1].x, ts[k + 2].x);
    }
    hide Blend;
  }

  /** Two stamps closer than the tolerance: the value jumps. */
  lemma CloseStampsJump(tol: real)
    requires tol > 0.0
    ensures var ts := [Number(0.0), Number(tol / 2.0)];
      var estimates := [Somewhere(Some(1.0)), Somewhere(Some(2.0))];
      && Increasing(ts)
      && Interpolated(ts, estimates, 0, tol / 2.0, tol) == Some(1.0)
      && Interpolated(ts, estimates, 1, tol / 2.0, tol) == Some(2.0)
  {
  }

  /** Between known slices the result is known, and between their values. */
  lemma InterpolatedIsBetween(ts: seq<Float>, estimates: seq<Estimate>, k: nat, now: real, tol: real)
    requires k + 1 < |ts| == |estimates| && tol > 0.0
    requires ts[k].Number? && ts[k + 1].Number? && ts[k].x <= now <= ts[k + 1].x
    requires Known(estimates[k]) && Known(estimates[k + 1])
    ensures var r := Interpolated(ts, estimates, k, now, tol);
      r.Some? && Between(r.value, estimates[k].value.value, estimates[k + 1].value.value)
  {
    if ts[k + 1].x - ts[k].x >= tol {
      BlendIsBetween(estimates[k].value.value, estimates[k + 1].value.value, ts[k].x, ts[k + 1].x, now);
    }
  }

  /** Between two numbers: the mean of the two values, each weighted by the distance in time
      of the other's stamp. */
  lemma InterpolatedIsWeighted(ts: seq<Float>, estimates: seq<Estimate>, k: nat, now: real, tol: real)
    requires k + 1 < |ts| == |estimates| && tol > 0.0 && Known(estimates[k]) && Known(estimates[k + 1])
    requires ts[k].Number? && ts[k + 1].Number? && ts[k].x + tol <= ts[k + 1].x
    ensures var r := Interpolated(ts, estimates, k, now, tol);
      r.Some? && r.value * (ts[k + 1].x - ts[k].x) ==
        estimates[k].value.value * (ts[k + 1].x - now) + estimates[k + 1].value.value * (now - ts[k].x)
  {
    var a, b, from, to := estimates[k].value.value, estimates[k + 1].value.value, ts[k].x, ts[k + 1].x;
    QuotientTimes(Weighted(a, b, to - now, now - from), to - from);
  }

  lemma QuotientTimes(n: real, d: real)
    requires d > 0.0
    ensures (n / d) * d == n
  {
  }

  // ----- Interpolation along a run -----

  /** The result at time `now` is right for slice k: between its value and the next one's,
      or its own if it is the last. */
  ghost predicate RightFor(r: Option<real>, estimates: seq<Estimate>, k: nat)
    requires k < |estimates|
  {
    if k + 1 == |estimates| then r == (if estimates[k].Somewhere? then estimates[k].value else None)
    else
      Known(estimates[k]) && Known(estimates[k + 1]) ==>
        r.Some? && Between(r.value, estimates[k].value.value, estimates[k + 1].value.value)
  }

  lemma BracketedIsRight(ts: seq<Float>, estimates: seq<Estimate>, k: nat, now: real, tol: real)
    requires k < |ts| == |estimates| && tol > 0.0 && Brackets(ts, k, now) && Known(estimates[k])
    ensures RightFor(Interpolated(ts, estimates, k, now, tol), estimates, k)
  {
    if k + 1 < |ts| && Known(estimates[k + 1]) { InterpolatedIsBetween(ts, estimates, k, now, tol); }
  }

  /** After every update of a run, the value interpolated at its time lies between those of
      the two slices around that time. */
  lemma InterpolatedAlwaysBetween(
    ts: seq<Float>, estimates: seq<Estimate>, start: nat, times: seq<real>, m: nat, tol: real)
    requires Increasing(ts) && StepsFitGaps(ts, times) && NeverBack(times) && m < |times|
    requires Brackets(ts, start, times[0]) && |ts| == |estimates| && tol > 0.0
    requires Known(estimates[IndexAfter(ts, start, times, m)])
    ensures var k := IndexAfter(ts, start, times, m);
      Brackets(ts, k, times[m]) && RightFor(Interpolated(ts, estimates, k, times[m], tol), estimates, k)
  {
    IndexAlwaysBrackets(ts, start, times, m);
    BracketedIsRight(ts, estimates, IndexAfter(ts, start, times, m), times[m], tol);
  }

  ghost predicate AllKnown(estimates: seq<Estimate>) { forall i :: 0 <= i < |estimates| ==> Known(estimates[i]) }

  predicate Close(x: real, y: real, d: real) { -d <= x - y <= d }

  /** From x at time t to y at time t', no steeper than `slope`. */
  predicate Gradual(x: real, t: real, y: real, t': real, slope: real) { Close(y, x, slope * (t' - t)) }

  /** From each slice to the next the estimate changes by at most `slope` a second, and not
      at all if they are closer than the tolerance. */
  ghost predicate Gentle(ts: seq<Float>, estimates: seq<Estimate>, tol: real, slope: real)
    requires Increasing(ts) && |ts| == |estimates| && AllKnown(estimates)
  {
    forall i :: 0 <= i < |ts| - 1 ==> GentleAt(ts, estimates, i, tol, slope)
  }

  ghost predicate GentleAt(ts: seq<Float>, estimates: seq<Estimate>, i: nat, tol: real, slope: real)
    requires Increasing(ts) && |ts| == |estimates| && AllKnown(estimates) && i + 1 < |ts|
  {
    && (ts[i + 1].x - ts[i].x >= tol || estimates[i].value == estimates[i + 1].value)
    && Close(estimates[i + 1].value.value, estimates[i].value.value, slope * (ts[i + 1].x - ts[i].x))
  }

  lemma WeightedMoves(a: real, b: real, left: real, right: real, dt: real)
    ensures Weighted(a, b, left - dt, right + dt) - Weighted(a, b, left, right) == (b - a) * dt
  {
    assert a * (left - dt) == a * left - a * dt;
    assert b * (right + dt) == b * right + b * dt;
  }

  lemma QuotientsClose(n: real, n': real, g: real, dt: real, slope: real, d: real)
    requires d > 0.0 && dt >= 0.0 && n' - n == g * dt && Close(g, 0.0, slope * d)
    ensures Close(n' / d, n / d, slope * dt)
  {
    ScaledClose(g, slope * d, dt);
    Reordered(slope, d, dt);
    Quotient(n' - n, slope * dt, d);
    Quotient(n' - n, -(slope * dt), d);
    QuotientsDiffer(n, n', d);
  }

  lemma Reordered(x: real, y: real, z: real)
    ensures (x * y) * z == (x * z) * y && -(x * z) * y == -((x * z) * y)
  {
  }

  lemma QuotientsDiffer(n: real, n': real, d: real)
    requires d > 0.0
    ensures (n' - n) / d == n' / d - n / d
  {
  }

  lemma ScaledClose(g: real, bound: real, dt: real)
    requires dt >= 0.0 && Close(g, 0.0, bound)
    ensures Close(g * dt, 0.0, bound * dt)
  {
    SameSign(bound - g, dt);
    SameSign(bound + g, dt);
    assert (bound - g) * dt == bound * dt - g * dt;
    assert (bound + g) * dt == bound * dt + g * dt;
  }

  lemma BlendIsGradual(a: real, b: real, from: real, to: real, t: real, t': real, slope: real)
    requires from < to && t <= t' && Close(b, a, slope * (to - from))
    ensures var x, y := Blend(Some(a), Some(b), from, to, t), Blend(Some(a), Some(b), from, to, t');
      x.Some? && y.Some? && Gradual(x.value, t, y.value, t', slope)
  {
    WeightedMoves(a, b, to - t, t - from, t' - t);
    hide Weighted;
    assert to - t - (t' - t) == to - t' && t - from + (t' - t) == t' - from;
    QuotientsClose(Weighted(a, b, to - t, t - from), Weighted(a, b, to - t', t' - from), b - a, t' - t, slope,
                   to - from);
  }

  lemma Unchanged(x: real, t: real, t': real, slope: real)
    requires t <= t' && slope >= 0.0
    ensures Gradual(x, t, x, t', slope)
  {
    SameSign(slope, t' - t);
  }

  /** Within one slice. */
  lemma SliceIsGentle(ts: seq<Float>, estimates: seq<Estimate>, k: nat, t: real, t': real, tol: real, slope: real)
    requires Increasing(ts) && k < |ts| == |estimates| && AllKnown(estimates) && tol > 0.0 && slope >= 0.0
    requires k + 1 < |ts| ==> GentleAt(ts, estimates, k, tol, slope)
    requires ts[k].x <= t <= t' && (k + 1 < |ts| ==> t' <= ts[k + 1].x)
    ensures var r, r' := Interpolated(ts, estimates, k, t, tol), Interpolated(ts, estimates, k, t', tol);
      r.Some? && r'.Some? && Gradual(r.value, t, r'.value, t', slope)
  {
    hide Blend, Gradual;
    assert Known(estimates[k]);
    if k + 1 < |ts| && ts[k + 1].x - ts[k].x >= tol {
      assert Known(estimates[k + 1]);
      BlendIsGradual(estimates[k].value.value, estimates[k + 1].value.value, ts[k].x, ts[k + 1].x, t, t', slope);
    } else {
      Unchanged(estimates[k].value.value, t, t', slope);
    }
  }

  lemma GradualAdds(x: real, t: real, y: real, t': real, z: real, t'': real, slope: real)
    requires Gradual(x, t, y, t', slope) && Gradual(y, t', z, t'', slope)
    ensures Gradual(x, t, z, t'', slope)
  {
    assert slope * (t' - t) == slope * t' - slope * t;
    assert slope * (t'' - t') == slope * t'' - slope * t';
    assert slope * (t'' - t) == slope * t'' - slope * t;
  }

  lemma GradualSelf(x: real, t: real, slope: real)
    ensures Gradual(x, t, x, t, slope)
  {
  }

  /** The estimate in slice k at time t, where all estimates are known. */
  function ValueIn(ts: seq<Float>, estimates: seq<Estimate>, k: nat, t: real, tol: real): real
    requires k < |ts| == |estimates| && tol > 0.0
  {
    var r := Interpolated(ts, estimates, k, t, tol);
    if r.Some? then r.value else 0.0
  }

  /** From one update to the next, across a hand-over or not. */
  lemma UpdateIsGentle(ts: seq<Float>, estimates: seq<Estimate>, k: nat, t: real, t': real, tol: real, slope: real)
    requires Increasing(ts) && k < |ts| == |estimates| && AllKnown(estimates) && tol > 0.0 && slope >= 0.0
    requires Gentle(ts, estimates, tol, slope)
    requires Brackets(ts, k, t) && t <= t' && Brackets(ts, Advanced(ts, k, t'), t')
    ensures Gradual(ValueIn(ts, estimates, k, t, tol), t,
                    ValueIn(ts, estimates, Advanced(ts, k, t'), t', tol), t', slope)
  {
    var k' := Advanced(ts, k, t');
    assert k + 1 < |ts| ==> GentleAt(ts, estimates, k, tol, slope);
    assert k' + 1 < |ts| ==> GentleAt(ts, estimates, k', tol, slope);
    hide Interpolated, GentleAt, Gradual;
    if k' == k {
      SliceIsGentle(ts, estimates, k, t, t', tol, slope);
    } else {
      var stamp := ts[k'].x;
      assert Known(estimates[k]) && Known(estimates[k']) && (k' + 1 < |ts| ==> Known(estimates[k' + 1]));
      SliceIsGentle(ts, estimates, k, t, stamp, tol, slope);
      SliceIsGentle(ts, estimates, k', stamp, t', tol, slope);
      assert stamp - ts[k].x >= tol || estimates[k].value == estimates[k'].value by {
        NoJump(ts, estimates, k, tol, slope);
      }
      HandOverIsContinuousIff(ts, estimates, k, tol);
      GradualAdds(ValueIn(ts, estimates, k, t, tol), t, ValueIn(ts, estimates, k, stamp, tol), stamp,
                  ValueIn(ts, estimates, k', t', tol), t', slope);
    }
  }

  lemma NoJump(ts: seq<Float>, estimates: seq<Estimate>, k: nat, tol: real, slope: real)
    requires Increasing(ts) && k + 1 < |ts| == |estimates| && AllKnown(estimates)
      && GentleAt(ts, estimates, k, tol, slope)
    ensures ts[k + 1].x - ts[k].x >= tol || estimates[k].value == estimates[k + 1].value
  {
  }

  /** Continuity along a run: between any two updates, over any number of hand-overs, the
      interpolated value changes by no more than the steepest slope between slices allows. */
  lemma {:induction false} InterpolationIsContinuous(
      ts: seq<Float>, estimates: seq<Estimate>, start: nat, times: seq<real>, m: nat, n: nat, tol: real, slope: real)
    requires Increasing(ts) && StepsFitGaps(ts, times) && NeverBack(times) && m <= n < |times|
    requires Brackets(ts, start, times[0]) && |ts| == |estimates| && AllKnown(estimates) && tol > 0.0 && slope >= 0.0
    requires Gentle(ts, estimates, tol, slope)
    ensures Gradual(ValueIn(ts, estimates, IndexAfter(ts, start, times, m), times[m], tol), times[m],
                    ValueIn(ts, estimates, IndexAfter(ts, start, times, n), times[n], tol), times[n], slope)
  {
    assert start < |ts|;
    hide Interpolated, Gentle, StepsFitGaps, AllKnown, ValueIn, Advanced, Gradual, Brackets;
    var x := ValueIn(ts, estimates, IndexAfter(ts, start, times, m), times[m], tol);
    if m == n {
      GradualSelf(x, times[m], slope);
    } else {
      InterpolationIsContinuous(ts, estimates, start, times, m, n - 1, tol, slope);
      IndexAlwaysBrackets(ts, start, times, n - 1);
      IndexAlwaysBrackets(ts, start, times, n);
      var k := IndexAfter(ts, start, times, n - 1);
      UpdateIsGentle(ts, estimates, k, times[n - 1], times[n], tol, slope);
      GradualAdds(x, times[m], ValueIn(ts, estimates, k, times[n - 1], tol), times[n - 1],
                  ValueIn(ts, estimates, IndexAfter(ts, start, times, n), times[n], tol), times[n], slope);
    }
  }
}
