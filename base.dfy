/**
 * The two-stage nearest-match search of `BaseSearchEngine`: the station nearest to the
 * query coordinate among the Chinese stations that have coordinates, then that station's
 * observation whose date is nearest to the query date.
 *
 * The database session is a `Database` value holding both tables. The distance
 * expression that each concrete engine supplies (`get_distance_comp`) is a function of the
 * station and the query coordinate whose value may be NULL; SQLite orders NULL before every
 * number.
 */
module Base {
  import opened Wrappers
  import opened ModelsBase
  import opened Selection

  /** The two tables the session reads. */
  datatype Database = Database(stations: seq<StationInfo>, data: seq<Data>)

  /** The two `ValueError`s that `search` raises. */
  datatype SearchError = NoStationFound | NoDataFound

  /** The ordering key of the station stage, given a station and the query latitude and longitude; `None` is SQL NULL. */
  type DistanceKey = (StationInfo, real, real) -> Option<real>

  /** SQLite's ascending order on a nullable number: NULL comes before every number. */
  predicate DistanceLe(x: Option<real>, y: Option<real>)
  {
    x.None? || (y.Some? && x.value <= y.value)
  }

  /** The country filter: "中国" (China). */
  const China: string := "\U{4E2D}\U{56FD}"

  /** A station the first stage may pick: in China, with both coordinates non-null. */
  predicate StationEligible(s: StationInfo)
  {
    s.country == Some(China) && s.latitude.Some? && s.longitude.Some?
  }

  /** An observation the second stage may pick: one of `station`'s, with a wind speed unless null ones are allowed. */
  predicate DataEligible(d: Data, station: StationInfo, includeNullWdsp: bool)
  {
    d.station == station.stationId && (includeNullWdsp || d.wdsp.Some?)
  }

  /** `get_day_comp`: the absolute difference of the query day and a record's day. */
  function DayComp(query: Day, recordDay: Day): (diff: nat)
    ensures recordDay == query - diff || recordDay == query + diff
  {
    if query >= recordDay then query - recordDay else recordDay - query
  }

  /** The day difference does not care which side of the query a record lies on, and is zero only on the query day. */
  lemma DayCompSymmetric(query: Day, k: int)
    ensures DayComp(query, query - k) == DayComp(query, query + k)
    ensures DayComp(query, query + k) == 0 <==> k == 0
  {
  }

  // ---- specification of the two stages ----

  /** `s` is a station that `ORDER BY distance LIMIT 1` over the eligible stations may return. */
  ghost predicate IsNearestStation(s: StationInfo, stations: seq<StationInfo>, distance: DistanceKey, lat: real, lon: real)
  {
    && s in stations
    && StationEligible(s)
    && forall t :: t in stations && StationEligible(t) ==> DistanceLe(distance(s, lat, lon), distance(t, lat, lon))
  }

  /** `d` is a record that `ORDER BY day difference LIMIT 1` over the station's eligible records may return. */
  ghost predicate IsClosestRecord(d: Data, data: seq<Data>, station: StationInfo, query: Day, includeNullWdsp: bool)
  {
    && d in data
    && DataEligible(d, station, includeNullWdsp)
    && forall e :: e in data && DataEligible(e, station, includeNullWdsp) ==> DayComp(query, d.date) <= DayComp(query, e.date)
  }

  /** The outcomes the record stage allows: "No data found" exactly when no record qualifies, else a closest record. */
  ghost predicate IsDataOutcome(r: Result<Data, SearchError>, data: seq<Data>, station: StationInfo, query: Day, includeNullWdsp: bool)
  {
    if forall e :: e in data ==> !DataEligible(e, station, includeNullWdsp) then r == Failure(NoDataFound)
    else r.Success? && IsClosestRecord(r.value, data, station, query, includeNullWdsp)
  }

  /**
   * The outcomes `search` allows: "No station found" exactly when no station qualifies
   * (and the records are then never looked at), otherwise an outcome of the record stage
   * for some nearest station.
   */
  ghost predicate IsSearchOutcome(r: Result<Data, SearchError>, db: Database, distance: DistanceKey,
                                  lat: real, lon: real, query: Day, includeNullWdsp: bool)
  {
    if forall s :: s in db.stations ==> !StationEligible(s) then r == Failure(NoStationFound)
    else exists s :: IsNearestStation(s, db.stations, distance, lat, lon) && IsDataOutcome(r, db.data, s, query, includeNullWdsp)
  }

  // ---- the two stages ----

  /**
   * The station stage: filter the stations, then order them by distance and take the first.
   * A station whose distance is NULL sorts first; otherwise the smallest distance wins.
   */
  function SelectStation(stations: seq<StationInfo>, distance: DistanceKey, lat: real, lon: real): (r: Result<StationInfo, SearchError>)
    ensures r.Failure? <==> forall s :: s in stations ==> !StationEligible(s)
    ensures r.Failure? ==> r.error == NoStationFound
    ensures r.Success? ==> IsNearestStation(r.value, stations, distance, lat, lon)
  {
    var eligible := Filter(stations, StationEligible);
    var nulls := Filter(eligible, (t: StationInfo) => distance(t, lat, lon).None?);
    if eligible == [] then Failure(NoStationFound)
    else if nulls != [] then
      assert nulls[0] in nulls;
      Success(nulls[0])
    else
      var key := (t: StationInfo) => match distance(t, lat, lon) case Some(x) => x case None => 0.0;
      var s := ArgMin(eligible, key);
      assert s in eligible;
      assert forall t :: t in eligible ==> distance(t, lat, lon) == Some(key(t));
      Success(s)
  }

  /** The record stage: the station's records (with a wind speed unless told otherwise), nearest day first. */
  function SelectData(data: seq<Data>, station: StationInfo, query: Day, includeNullWdsp: bool): (r: Result<Data, SearchError>)
    ensures IsDataOutcome(r, data, station, query, includeNullWdsp)
  {
    var eligible := Filter(data, (d: Data) => DataEligible(d, station, includeNullWdsp));
    if eligible == [] then Failure(NoDataFound)
    else
      var d := ArgMin(eligible, (e: Data) => DayComp(query, e.date) as real);
      assert d in eligible;
      Success(d)
  }

  /** `search`, on the query coordinate and date an engine holds. */
  function Resolve(db: Database, distance: DistanceKey, lat: real, lon: real, query: Day, includeNullWdsp: bool): (r: Result<Data, SearchError>)
    ensures IsSearchOutcome(r, db, distance, lat, lon, query, includeNullWdsp)
  {
    match SelectStation(db.stations, distance, lat, lon)
    case Failure(e) => Failure(e)
    case Success(s) => SelectData(db.data, s, query, includeNullWdsp)
  }

  /**
   * `BaseSearchEngine`: the query coordinate and date, and the distance expression of the
   * concrete engine. The database engine it also opens is not part of this model.
   */
  class SearchEngine {
    var lat: real
    var lon: real
    var date: Day
    const distance: DistanceKey

    /** `__init__`: the coordinate is kept as given; a missing date means `today`. */
    constructor (distance: DistanceKey, lat: real, lon: real, date: Option<Day>, today: Day)
      ensures this.distance == distance
      ensures this.lat == lat && this.lon == lon
      ensures date.Some? ==> this.date == date.value
      ensures date.None? ==> this.date == today
    {
      this.distance := distance;
      this.lat := lat;
      this.lon := lon;
      this.date := if date.None? then today else date.value;
    }

    /** `search`: the nearest record of the nearest station, or one of the two errors. */
    method Search(db: Database, includeNullWdsp: bool) returns (r: Result<Data, SearchError>)
      ensures IsSearchOutcome(r, db, distance, lat, lon, date, includeNullWdsp)
      ensures r == Resolve(db, distance, lat, lon, date, includeNullWdsp)
    {
      r := Resolve(db, distance, lat, lon, date, includeNullWdsp);
    }
  }

  // ---- properties of the search ----

  /** The returned record is one of the picked station's, and has a wind speed unless null ones were allowed. */
  lemma ResolvedRecordOfNearestStation(db: Database, distance: DistanceKey, lat: real, lon: real, query: Day, includeNullWdsp: bool)
    requires Resolve(db, distance, lat, lon, query, includeNullWdsp).Success?
    ensures SelectStation(db.stations, distance, lat, lon).Success?
    ensures var s := SelectStation(db.stations, distance, lat, lon).value;
            var d := Resolve(db, distance, lat, lon, query, includeNullWdsp).value;
            && StationEligible(s)
            && d in db.data && d.station == s.stationId
            && (!includeNullWdsp ==> d.wdsp.Some?)
  {
  }

  /** When some eligible station's distance is NULL, the picked station's distance is NULL too. */
  lemma NullDistanceFirst(stations: seq<StationInfo>, distance: DistanceKey, lat: real, lon: real, t: StationInfo)
    requires t in stations && StationEligible(t) && distance(t, lat, lon).None?
    ensures SelectStation(stations, distance, lat, lon).Success?
    ensures distance(SelectStation(stations, distance, lat, lon).value, lat, lon).None?
  {
  }

  /**
   * Reordering the station table can change which of several equally near stations is
   * picked, but not whether one is found nor its distance.
   */
  lemma {:induction false} StationOrderIrrelevant(xs: seq<StationInfo>, ys: seq<StationInfo>, distance: DistanceKey, lat: real, lon: real)
    requires multiset(xs) == multiset(ys)
    ensures SelectStation(xs, distance, lat, lon).Success? == SelectStation(ys, distance, lat, lon).Success?
    ensures SelectStation(xs, distance, lat, lon).Success? ==>
              distance(SelectStation(xs, distance, lat, lon).value, lat, lon)
              == distance(SelectStation(ys, distance, lat, lon).value, lat, lon)
  {
    forall s | s in xs || s in ys ensures s in xs <==> s in ys {
      assert s in multiset(xs) <==> s in multiset(ys);
    }
    var rx := SelectStation(xs, distance, lat, lon);
    var ry := SelectStation(ys, distance, lat, lon);
    if rx.Success? && ry.Success? {
      var a, b := rx.value, ry.value;
      assert DistanceLe(distance(a, lat, lon), distance(b, lat, lon));
      assert DistanceLe(distance(b, lat, lon), distance(a, lat, lon));
    }
  }

  /**
   * Allowing records with a null wind speed only adds candidates: whenever the default search
   * finds a record, the permissive one finds one too, at most as many days away.
   */
  lemma IncludeNullWdspWidens(data: seq<Data>, station: StationInfo, query: Day,
                               strict: Result<Data, SearchError>, loose: Result<Data, SearchError>)
    requires IsDataOutcome(strict, data, station, query, false)
    requires IsDataOutcome(loose, data, station, query, true)
    requires strict.Success?
    ensures loose.Success?
    ensures DayComp(query, loose.value.date) <= DayComp(query, strict.value.date)
  {
  }

  /** `IncludeNullWdspWidens` for the whole search: the station stage does not depend on the flag. */
  lemma ResolveIncludeNullWdspWidens(db: Database, distance: DistanceKey, lat: real, lon: real, query: Day)
    requires Resolve(db, distance, lat, lon, query, false).Success?
    ensures Resolve(db, distance, lat, lon, query, true).Success?
    ensures DayComp(query, Resolve(db, distance, lat, lon, query, true).value.date)
            <= DayComp(query, Resolve(db, distance, lat, lon, query, false).value.date)
  {
  }

  /**
   * Two different closest records of one station can only be tied across the query day:
   * one before it and one after it, at the same distance.
   */
  lemma ClosestRecordTie(data: seq<Data>, station: StationInfo, query: Day, includeNullWdsp: bool, d1: Data, d2: Data)
    requires UniqueKeys(data)
    requires IsClosestRecord(d1, data, station, query, includeNullWdsp)
    requires IsClosestRecord(d2, data, station, query, includeNullWdsp)
    requires d1 != d2
    ensures d1.date != d2.date
    ensures d1.date + d2.date == 2 * query
  {
  }

  /** A record the same distance away on the other side of the query day is just as close. */
  lemma MirroredRecordAlsoClosest(data: seq<Data>, station: StationInfo, query: Day, includeNullWdsp: bool, d1: Data, d2: Data, k: int)
    requires IsClosestRecord(d1, data, station, query, includeNullWdsp)
    requires d2 in data && DataEligible(d2, station, includeNullWdsp)
    requires d1.date == query - k && d2.date == query + k
    ensures IsClosestRecord(d2, data, station, query, includeNullWdsp)
  {
  }

  // ---- a worked example ----

  /** An observation with only a wind speed. */
  function Observation(station: string, date: Day, wdsp: Option<real>): Data
  {
    Data(station, date, None, None, None, None, None, wdsp, None, None, None, None, None, None, None)
  }

  /**
   * Two Chinese stations near Shanghai and Beijing, a query near Shanghai, and two records of
   * the Shanghai station one day either side of the query day, the earlier without a wind
   * speed: the default search returns the later record; allowing null wind speeds lets the
   * earlier one tie with it.
   */
  lemma NearestMatchExample()
    ensures var a := StationInfo("A", None, Some(31.0), Some(121.0), Some(China), None, None, None);
            var b := StationInfo("B", None, Some(39.9), Some(116.4), Some(China), None, None, None);
            var early := Observation("A", 1, None);
            var late := Observation("A", 3, Some(12.3));
            var db := Database([b, a], [early, late]);
            var distance := (s: StationInfo, la: real, lo: real) =>
              if s.latitude.Some? && s.longitude.Some?
              then Some((s.latitude.value - la) * (s.latitude.value - la) + (s.longitude.value - lo) * (s.longitude.value - lo))
              else None;
            && SelectStation(db.stations, distance, 31.2, 121.5) == Success(a)
            && Resolve(db, distance, 31.2, 121.5, 2, false) == Success(late)
            && Resolve(db, distance, 31.2, 121.5, 2, true).Success?
            && IsClosestRecord(early, db.data, a, 2, true) && IsClosestRecord(late, db.data, a, 2, true)
  {
    var a := StationInfo("A", None, Some(31.0), Some(121.0), Some(China), None, None, None);
    var b := StationInfo("B", None, Some(39.9), Some(116.4), Some(China), None, None, None);
    var early := Observation("A", 1, None);
    var late := Observation("A", 3, Some(12.3));
    var distance := (s: StationInfo, la: real, lo: real) =>
      if s.latitude.Some? && s.longitude.Some?
      then Some((s.latitude.value - la) * (s.latitude.value - la) + (s.longitude.value - lo) * (s.longitude.value - lo))
      else None;
    assert distance(a, 31.2, 121.5).value < distance(b, 31.2, 121.5).value;
    assert StationEligible(a) && a in [b, a];
    var r := SelectData([early, late], a, 2, false);
    assert DataEligible(late, a, false) && !DataEligible(early, a, false);
    assert r.Success? && r.value in [early, late];
  }
}
