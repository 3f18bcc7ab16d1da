/**
 * The row shapes of the `info` (stations) and `data` (daily observations) tables, and the
 * text forms of a row: the human-readable summary of an observation and the two reprs.
 *
 * Float columns are exact reals. A calendar date is a day number. Formatting a float
 * (`str(float)`), a date under the locale (`%x`) and a date in ISO form (`isoformat()`)
 * are parameters of the text functions, since they are library behaviour.
 */
module ModelsBase {
  import opened Wrappers

  /** A calendar date as a day number, so that the difference of two dates is a number of days. */
  type Day = int

  /** A row of `info`: a weather station. Only `stationId` (the primary key) is non-null. */
  datatype StationInfo = StationInfo(
    stationId: string,
    name: Option<string>,
    latitude: Option<real>,
    longitude: Option<real>,
    country: Option<string>,
    province: Option<string>,
    city: Option<string>,
    district: Option<string>)

  /**
   * A row of `data`: one day of measurements of one station. The primary key is the pair
   * (station, date), both non-null; every measurement is nullable on its own.
   */
  datatype Data = Data(
    station: string,
    date: Day,
    temp: Option<real>,
    dewp: Option<real>,
    slp: Option<real>,
    stp: Option<real>,
    visib: Option<real>,
    wdsp: Option<real>,
    mxspd: Option<real>,
    gust: Option<real>,
    max: Option<real>,
    min: Option<real>,
    prcp: Option<real>,
    sndp: Option<real>,
    frshtt: Option<int>)

  /** Every pair of rows with the same (station, date) is the same row: the table's primary key. */
  ghost predicate UniqueKeys(data: seq<Data>)
  {
    forall d1, d2 :: d1 in data && d2 in data && d1.station == d2.station && d1.date == d2.date ==> d1 == d2
  }

  /** Python truthiness of a nullable string column: neither None nor empty. */
  predicate NonEmpty(s: Option<string>)
  {
    s.Some? && s.value != ""
  }

  const NotAvailable: string := "not available"
  const Closest: string := "closest"

  /** The wind-speed part of the summary. */
  function WdspText(d: Data, showFloat: real -> string): (t: string)
    ensures t == NotAvailable <==> d.wdsp.None? || showFloat(d.wdsp.value) == NotAvailable
    ensures d.wdsp.Some? ==> t == showFloat(d.wdsp.value)
  {
    if d.wdsp.None? then NotAvailable else showFloat(d.wdsp.value)
  }

  /**
   * The text is "not available" exactly when the wind speed is null, provided the float
   * formatter does not produce that text itself for the value (Python's `str(float)` never does).
   */
  lemma WdspTextNotAvailableIff(d: Data, showFloat: real -> string)
    requires d.wdsp.Some? ==> showFloat(d.wdsp.value) != NotAvailable
    ensures WdspText(d, showFloat) == NotAvailable <==> d.wdsp.None?
    ensures d.wdsp.Some? ==> WdspText(d, showFloat) == showFloat(d.wdsp.value)
  {
  }

  /**
   * The station label: `name or station or "closest"` with Python truthiness, so an
   * empty name falls through to the id and an empty id to "closest".
   */
  function StationLabel(info: StationInfo, d: Data): (shown: string)
    ensures shown != ""
    ensures NonEmpty(info.name) ==> shown == info.name.value
    ensures !NonEmpty(info.name) && d.station != "" ==> shown == d.station
    ensures !NonEmpty(info.name) && d.station == "" ==> shown == Closest
  {
    if NonEmpty(info.name) then info.name.value
    else if d.station != "" then d.station
    else Closest
  }

  const SummaryHead: string := "The wind speed is "

  /**
   * `DataMixin.human_str`: `info` is the row's `station_info` relationship, so its key is
   * the row's `station`.
   */
  function HumanStr(d: Data, info: StationInfo, showFloat: real -> string, showDate: Day -> string): (summary: string)
    requires info.stationId == d.station
    ensures var head := SummaryHead + WdspText(d, showFloat);
            && |summary| == |head| + |StationLabel(info, d)| + |showDate(d.date)| + 19
            && summary[..|head|] == head
            && summary[|summary| - |showDate(d.date)|..] == showDate(d.date)
            && summary[|head|..|head| + |StationLabel(info, d)| + 7] == " for \"" + StationLabel(info, d) + "\""
  {
    var head := SummaryHead + WdspText(d, showFloat);
    var quoted := " for \"" + StationLabel(info, d) + "\"";
    assert (head + quoted + " station on " + showDate(d.date))[|head|..|head| + |quoted|] == quoted;
    head + quoted + " station on " + showDate(d.date)
  }

  /** Index of the first `c` in `s`, or `|s|` when there is none. */
  function IndexOf(s: string, c: char): (i: nat)
    ensures i <= |s|
    ensures i < |s| ==> s[i] == c
    ensures forall k :: 0 <= k < i ==> s[k] != c
  {
    if s == [] then 0
    else if s[0] == c then 0
    else 1 + IndexOf(s[1..], c)
  }

  lemma {:induction false} IndexOfAfter(a: string, c: char, b: string)
    requires c !in a
    ensures IndexOf(a + [c] + b, c) == |a|
  {
    var s := a + [c] + b;
    assert s[|a|] == c;
    assert forall k :: 0 <= k < |a| ==> s[k] == a[k];
  }

  /** A field that holds no `c` and is followed by `c` is cut back out of the text unambiguously. */
  lemma {:induction false} FieldBeforeSeparator(a1: string, b1: string, a2: string, b2: string, c: char)
    requires c !in a1 && c !in a2
    requires a1 + [c] + b1 == a2 + [c] + b2
    ensures a1 == a2 && b1 == b2
  {
    var s := a1 + [c] + b1;
    IndexOfAfter(a1, c, b1);
    IndexOfAfter(a2, c, b2);
    assert a1 == s[..|a1|] && a2 == s[..|a2|];
    assert b1 == s[|a1| + 1..] && b2 == s[|a2| + 1..];
  }

  lemma CutCommonHead(head: string, u1: string, u2: string)
    requires head + u1 == head + u2
    ensures u1 == u2
  {
    assert u1 == (head + u1)[|head|..];
  }

  /** Reads back the text between the first pair of double quotes, if there is one. */
  function QuotedText(s: string): Option<string>
  {
    var i := IndexOf(s, '"');
    if i == |s| then None
    else
      var rest := s[i + 1..];
      var j := IndexOf(rest, '"');
      if j == |rest| then None else Some(rest[..j])
  }

  lemma HumanStrFields(d: Data, info: StationInfo, showFloat: real -> string, showDate: Day -> string)
    requires info.stationId == d.station
    ensures HumanStr(d, info, showFloat, showDate)
            == (SummaryHead + WdspText(d, showFloat) + " for ") + ['"'] + (StationLabel(info, d) + ['"'] + (" station on " + showDate(d.date)))
  {
  }

  lemma {:induction false} QuoteFreeHead(w: string)
    requires '"' !in w
    ensures '"' !in SummaryHead + w + " for "
  {
    var head := SummaryHead + w + " for ";
    forall k | 0 <= k < |head| ensures head[k] != '"' {
      if k < |SummaryHead| {
        assert head[k] == SummaryHead[k];
      } else if k < |SummaryHead| + |w| {
        assert head[k] == w[k - |SummaryHead|];
      }
    }
  }

  lemma CutHeadAndSeparator(head: string, c: char, rest: string)
    ensures (head + [c] + rest)[|head| + 1..] == rest
  {
  }

  /**
   * The summary quotes the station label, and the label can be read back from it: the text
   * between its first two double quotes is the label, as long as neither the wind-speed text
   * nor the label contains a double quote.
   */
  lemma {:induction false} HumanStrQuotesLabel(d: Data, info: StationInfo, showFloat: real -> string, showDate: Day -> string)
    requires info.stationId == d.station
    requires '"' !in WdspText(d, showFloat) && '"' !in StationLabel(info, d)
    ensures QuotedText(HumanStr(d, info, showFloat, showDate)) == Some(StationLabel(info, d))
  {
    var head := SummaryHead + WdspText(d, showFloat) + " for ";
    var lbl := StationLabel(info, d);
    var tail := " station on " + showDate(d.date);
    HumanStrFields(d, info, showFloat, showDate);
    QuoteFreeHead(WdspText(d, showFloat));
    IndexOfAfter(head, '"', lbl + ['"'] + tail);
    CutHeadAndSeparator(head, '"', lbl + ['"'] + tail);
    IndexOfAfter(lbl, '"', tail);
    assert (lbl + ['"'] + tail)[..|lbl|] == lbl;
  }

  /** Python's `str` of a nullable column: "None" for NULL. */
  function ShowOpt<T>(o: Option<T>, show: T -> string): string
  {
    if o.None? then "None" else show(o.value)
  }

  /** `DataMixin.__repr__`: the class name, the station id and the ISO form of the date. */
  function DataRepr(typeName: string, d: Data, isoDate: Day -> string): (r: string)
    ensures |r| == |typeName| + |d.station| + |isoDate(d.date)| + 17
    ensures r[..|typeName| + 9 + |d.station|] == typeName + "(station=" + d.station
    ensures r[|r| - |isoDate(d.date)| - 1..] == isoDate(d.date) + ")"
  {
    typeName + "(station=" + d.station + ", date=" + isoDate(d.date) + ")"
  }

  lemma DataReprFields(typeName: string, d: Data, isoDate: Day -> string)
    ensures DataRepr(typeName, d, isoDate) == typeName + "(station=" + (d.station + [','] + (" date=" + isoDate(d.date) + ")"))
  {
  }

  /**
   * The repr identifies the row: two rows of one class with the same repr have the same
   * (station, date) key, when station ids contain no comma and the ISO form tells the two
   * dates apart.
   */
  lemma {:induction false} DataReprIdentifies(typeName: string, d1: Data, d2: Data, isoDate: Day -> string)
    requires isoDate(d1.date) == isoDate(d2.date) ==> d1.date == d2.date
    requires ',' !in d1.station && ',' !in d2.station
    requires DataRepr(typeName, d1, isoDate) == DataRepr(typeName, d2, isoDate)
    ensures d1.station == d2.station && d1.date == d2.date
  {
    var t1 := " date=" + isoDate(d1.date) + ")";
    var t2 := " date=" + isoDate(d2.date) + ")";
    DataReprFields(typeName, d1, isoDate);
    DataReprFields(typeName, d2, isoDate);
    CutCommonHead(typeName + "(station=", d1.station + [','] + t1, d2.station + [','] + t2);
    FieldBeforeSeparator(d1.station, t1, d2.station, t2, ',');
    assert isoDate(d1.date) == t1[6..|t1| - 1] == t2[6..|t2| - 1] == isoDate(d2.date);
  }

  /** `StationInfoMixin.__repr__`: every column, NULL shown as "None". */
  function StationRepr(typeName: string, s: StationInfo, showFloat: real -> string): (r: string)
    ensures |r| > |typeName| + 12 + |s.stationId|
    ensures r[..|typeName| + 12 + |s.stationId|] == typeName + "(station_id=" + s.stationId
    ensures r[|r| - 1] == ')'
    ensures r[|typeName| + 12 + |s.stationId|..] == StationColumns(s, showFloat)
  {
    typeName + "(station_id=" + s.stationId + StationColumns(s, showFloat)
  }

  /** The columns after the id, each as `, column=value` with NULL as "None", then `)`. */
  function StationColumns(s: StationInfo, showFloat: real -> string): (cols: string)
    ensures |cols| > 7 && cols[..7] == ", name="
    ensures cols[|cols| - 1] == ')'
  {
    var id := (x: string) => x;
    ", name=" + ShowOpt(s.name, id)
    + ", lat=" + ShowOpt(s.latitude, showFloat) + ", lon=" + ShowOpt(s.longitude, showFloat)
    + ", country=" + ShowOpt(s.country, id) + ", province=" + ShowOpt(s.province, id)
    + ", city=" + ShowOpt(s.city, id) + ", district=" + ShowOpt(s.district, id) + ")"
  }

  lemma StationReprFields(typeName: string, s: StationInfo, showFloat: real -> string)
    ensures var cols := StationColumns(s, showFloat);
            StationRepr(typeName, s, showFloat) == typeName + "(station_id=" + (s.stationId + [','] + cols[1..])
  {
    var cols := StationColumns(s, showFloat);
    assert cols == [','] + cols[1..];
  }

  /**
   * The station repr identifies the station: two stations of one class with the same repr
   * have the same `station_id` (the table's key), when neither id contains a comma.
   */
  lemma {:induction false} StationReprIdentifies(typeName: string, s1: StationInfo, s2: StationInfo, showFloat: real -> string)
    requires ',' !in s1.stationId && ',' !in s2.stationId
    requires StationRepr(typeName, s1, showFloat) == StationRepr(typeName, s2, showFloat)
    ensures s1.stationId == s2.stationId
  {
    var c1, c2 := StationColumns(s1, showFloat), StationColumns(s2, showFloat);
    StationReprFields(typeName, s1, showFloat);
    StationReprFields(typeName, s2, showFloat);
    CutCommonHead(typeName + "(station_id=", s1.stationId + [','] + c1[1..], s2.stationId + [','] + c2[1..]);
    FieldBeforeSeparator(s1.stationId, c1[1..], s2.stationId, c2[1..], ',');
  }
}
