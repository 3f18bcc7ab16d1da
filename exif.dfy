/**
 * The decoders of `Exif`: the signed GPS latitude and longitude (EXIF 2.3, GPS IFD tags
 * GPSLatitude/GPSLatitudeRef and GPSLongitude/GPSLongitudeRef), and the photograph's
 * timestamp rewritten as an ISO 8601 string.
 *
 * The tag dictionary that exifread produces is a map from tag names to Python values. Its
 * `Ratio` items are exact fractions, kept as numerator and denominator.
 */
module Exif {
  import opened Wrappers

  /**
   * An item of a tag's value list. exifread's `Ratio` (a `Fraction`) keeps a zero denominator
   * instead of refusing it; arithmetic on such a ratio then raises `ZeroDivisionError`.
   */
  datatype Item = Ratio(num: int, den: int) | Int(i: int) | Text(s: string)

  /** The `values` attribute of an exifread `IfdTag`: a list, a string, or a single number. */
  datatype TagValues = List(items: seq<Item>) | Str(s: string) | Number(n: int)

  /**
   * A value of the tag dictionary: `None`, an `IfdTag`, or some other object, which may be
   * falsy (an `IfdTag` is always truthy).
   */
  datatype PyValue = PyNone | IfdTag(values: TagValues) | OtherObject(truthy: bool)

  type Tags = map<string, PyValue>

  /** `dict.get`: `None` for a missing key. */
  function Get(tags: Tags, key: string): PyValue
  {
    if key in tags then tags[key] else PyNone
  }

  predicate Truthy(v: PyValue)
  {
    match v
    case PyNone => false
    case IfdTag(_) => true
    case OtherObject(t) => t
  }

  /**
   * The `ValueError`s of the decoders, the `ZeroDivisionError` of a ratio with a zero
   * denominator, and the `IndexError` of an empty offset string.
   */
  datatype ExifError =
    | NotFound(axis: Axis)         // "No latitude is found" / "No longitude is found"
    | CannotParse(axis: Axis)      // "Cannot parse latitude ..." / "... longitude ..."
    | CannotParseRef(axis: Axis)   // "Cannot parse latitude reference ..." / "... longitude ..."
    | ZeroDenominator(axis: Axis)  // `deg + min / 60 + sec / 3600` on a ratio n/0
    | NoDatetime                   // "No datetime is found"
    | CannotParseDatetime          // "Cannot parse datetime ..."
    | CannotParseOffset            // "Cannot parse datetime offset ..."
    | OffsetIndexError             // `dt_offset_str[0]` on an empty offset string

  // ---- coordinates ----

  datatype Axis = Latitude | Longitude

  function ValueKey(axis: Axis): string
  {
    if axis == Latitude then "GPS GPSLatitude" else "GPS GPSLongitude"
  }

  function RefKey(axis: Axis): string
  {
    if axis == Latitude then "GPS GPSLatitudeRef" else "GPS GPSLongitudeRef"
  }

  /** The reference letter of the positive hemisphere: north, east. */
  function PositiveRef(axis: Axis): string
  {
    if axis == Latitude then "N" else "E"
  }

  /** The reference letter of the negative hemisphere: south, west. */
  function NegativeRef(axis: Axis): string
  {
    if axis == Latitude then "S" else "W"
  }

  /** Degrees, minutes and seconds as decimal degrees. */
  function Dms(deg: real, min: real, sec: real): (degrees: real)
    ensures 0.0 <= min && 0.0 <= sec ==> deg <= degrees
    ensures degrees * 3600.0 == deg * 3600.0 + min * 60.0 + sec
  {
    deg + min / 60.0 + sec / 3600.0
  }

  /** A value that unpacks into exactly three `Ratio`s. */
  predicate IsDmsValue(v: PyValue)
  {
    v.IfdTag? && v.values.List? && |v.values.items| == 3
    && v.values.items[0].Ratio? && v.values.items[1].Ratio? && v.values.items[2].Ratio?
  }

  /** The three ratios of a degrees/minutes/seconds value all have non-zero denominators. */
  predicate HasNonzeroDenominators(v: PyValue)
    requires IsDmsValue(v)
  {
    v.values.items[0].den != 0 && v.values.items[1].den != 0 && v.values.items[2].den != 0
  }

  function RatioValue(item: Item): real
    requires item.Ratio? && item.den != 0
  {
    item.num as real / item.den as real
  }

  /** The unsigned angle of a three-`Ratio` value. */
  function Magnitude(v: PyValue): real
    requires IsDmsValue(v) && HasNonzeroDenominators(v)
  {
    var items := v.values.items;
    Dms(RatioValue(items[0]), RatioValue(items[1]), RatioValue(items[2]))
  }

  /**
   * The `lat` and `lon` properties. A value that is a string or a number fails to unpack
   * into three `Ratio`s just as a list of the wrong length does, with the same error.
   */
  function Coordinate(tags: Tags, axis: Axis): (r: Result<real, ExifError>)
    ensures r.Success? <==>
              IsDmsValue(Get(tags, ValueKey(axis))) && HasNonzeroDenominators(Get(tags, ValueKey(axis)))
              && Get(tags, RefKey(axis)) in {IfdTag(Str(PositiveRef(axis))), IfdTag(Str(NegativeRef(axis)))}
    ensures r.Success? && Get(tags, RefKey(axis)) == IfdTag(Str(PositiveRef(axis))) ==>
              r.value == Magnitude(Get(tags, ValueKey(axis)))
    ensures r.Success? && Get(tags, RefKey(axis)) == IfdTag(Str(NegativeRef(axis))) ==>
              r.value == -Magnitude(Get(tags, ValueKey(axis)))
    ensures r.Failure? ==> r.error in {NotFound(axis), CannotParse(axis), CannotParseRef(axis), ZeroDenominator(axis)}
    ensures r == Failure(NotFound(axis)) <==> Get(tags, ValueKey(axis)) == PyNone || Get(tags, RefKey(axis)) == PyNone
    ensures r == Failure(ZeroDenominator(axis)) <==>
              IsDmsValue(Get(tags, ValueKey(axis))) && !HasNonzeroDenominators(Get(tags, ValueKey(axis)))
              && Get(tags, RefKey(axis)).IfdTag?
  {
    var value := Get(tags, ValueKey(axis));
    var ref := Get(tags, RefKey(axis));
    if value.PyNone? || ref.PyNone? then Failure(NotFound(axis))
    else if !value.IfdTag? then Failure(CannotParse(axis))
    else if !ref.IfdTag? then Failure(CannotParseRef(axis))
    else if !(value.values.List? && |value.values.items| == 3) then Failure(CannotParse(axis))
    else if !IsDmsValue(value) then Failure(CannotParse(axis))
    else if !HasNonzeroDenominators(value) then Failure(ZeroDenominator(axis))
    else if ref.values == Str(PositiveRef(axis)) then Success(Magnitude(value))
    else if ref.values == Str(NegativeRef(axis)) then Success(-Magnitude(value))
    else Failure(CannotParseRef(axis))
  }

  /** `Exif.lat`: north is positive, south negative. */
  function Lat(tags: Tags): (r: Result<real, ExifError>)
    ensures r == Failure(NotFound(Latitude)) <==>
              Get(tags, "GPS GPSLatitude") == PyNone || Get(tags, "GPS GPSLatitudeRef") == PyNone
    ensures var v := Get(tags, "GPS GPSLatitude");
            IsDmsValue(v) && HasNonzeroDenominators(v) ==>
              && (Get(tags, "GPS GPSLatitudeRef") == IfdTag(Str("N")) ==> r == Success(Magnitude(v)))
              && (Get(tags, "GPS GPSLatitudeRef") == IfdTag(Str("S")) ==> r == Success(-Magnitude(v)))
  {
    Coordinate(tags, Latitude)
  }

  /** `Exif.lon`: east is positive, west negative. */
  function Lon(tags: Tags): (r: Result<real, ExifError>)
    ensures r == Failure(NotFound(Longitude)) <==>
              Get(tags, "GPS GPSLongitude") == PyNone || Get(tags, "GPS GPSLongitudeRef") == PyNone
    ensures var v := Get(tags, "GPS GPSLongitude");
            IsDmsValue(v) && HasNonzeroDenominators(v) ==>
              && (Get(tags, "GPS GPSLongitudeRef") == IfdTag(Str("E")) ==> r == Success(Magnitude(v)))
              && (Get(tags, "GPS GPSLongitudeRef") == IfdTag(Str("W")) ==> r == Success(-Magnitude(v)))
  {
    Coordinate(tags, Longitude)
  }

  /**
   * For one degrees/minutes/seconds value, the two hemisphere letters give coordinates that
   * differ only in sign, and any other reference string is refused.
   */
  lemma HemisphereFlipsSign(tags: Tags, axis: Axis, other: string)
    requires IsDmsValue(Get(tags, ValueKey(axis))) && HasNonzeroDenominators(Get(tags, ValueKey(axis)))
    requires other != PositiveRef(axis) && other != NegativeRef(axis)
    ensures var pos := Coordinate(tags[RefKey(axis) := IfdTag(Str(PositiveRef(axis)))], axis);
            var neg := Coordinate(tags[RefKey(axis) := IfdTag(Str(NegativeRef(axis)))], axis);
            pos.Success? && neg.Success? && neg.value == -pos.value
    ensures Coordinate(tags[RefKey(axis) := IfdTag(Str(other))], axis) == Failure(CannotParseRef(axis))
  {
  }

  // ---- timestamp ----

  const DatetimeKeys: seq<string> := ["EXIF DateTimeOriginal", "Image DateTime", "EXIF DateTimeDigitized"]
  const OffsetKeys: seq<string> := ["EXIF OffsetTimeOriginal", "EXIF OffsetTime", "EXIF OffsetTimeDigitized"]

  /** The position of the first key with a truthy value, or of the last key when there is none. */
  function FirstTruthyIndex(tags: Tags, keys: seq<string>): (i: nat)
    requires keys != []
    ensures i < |keys|
    ensures forall j :: 0 <= j < i ==> !Truthy(Get(tags, keys[j]))
    ensures i < |keys| - 1 ==> Truthy(Get(tags, keys[i]))
  {
    if |keys| == 1 || Truthy(Get(tags, keys[0])) then 0
    else
      var i := FirstTruthyIndex(tags, keys[1..]);
      assert forall j :: 1 <= j < |keys| ==> keys[j] == keys[1..][j - 1];
      1 + i
  }

  /** `get(k0) or get(k1) or ...`: the value of the first key whose value is truthy, or else of the last key. */
  function FirstTruthy(tags: Tags, keys: seq<string>): (v: PyValue)
    requires keys != []
    ensures Truthy(v) <==> exists i :: 0 <= i < |keys| && Truthy(Get(tags, keys[i]))
    ensures forall i :: 0 <= i < |keys| && Truthy(Get(tags, keys[i])) && (forall j :: 0 <= j < i ==> !Truthy(Get(tags, keys[j])))
                        ==> v == Get(tags, keys[i])
    ensures !Truthy(v) ==> v == Get(tags, keys[|keys| - 1])
  {
    Get(tags, keys[FirstTruthyIndex(tags, keys)])
  }

  /** The characters for which Python's `str.isspace` holds. */
  const PythonWhitespace: set<char> := {
    '\t', '\n', '\U{0B}', '\U{0C}', '\r', '\U{1C}', '\U{1D}', '\U{1E}', '\U{1F}', ' ',
    '\U{85}', '\U{A0}', '\U{1680}', '\U{2000}', '\U{2001}', '\U{2002}', '\U{2003}', '\U{2004}',
    '\U{2005}', '\U{2006}', '\U{2007}', '\U{2008}', '\U{2009}', '\U{200A}', '\U{2028}', '\U{2029}',
    '\U{202F}', '\U{205F}', '\U{3000}'}

  predicate IsSpace(c: char)
  {
    c in PythonWhitespace
  }

  predicate NoSpace(s: string)
  {
    forall i :: 0 <= i < |s| ==> !IsSpace(s[i])
  }

  /** The length of the run of non-whitespace characters that starts `s`. */
  function WordLength(s: string): (n: nat)
    ensures n <= |s|
    ensures NoSpace(s[..n])
    ensures n < |s| ==> IsSpace(s[n])
  {
    if s == [] || IsSpace(s[0]) then 0 else 1 + WordLength(s[1..])
  }

  /** `str.split()` without arguments: the maximal runs of non-whitespace characters. */
  function SplitWhitespace(s: string): (words: seq<string>)
    ensures forall i :: 0 <= i < |words| ==> words[i] != "" && NoSpace(words[i])
    decreases |s|
  {
    if s == [] then []
    else if IsSpace(s[0]) then SplitWhitespace(s[1..])
    else
      var n := WordLength(s);
      [s[..n]] + SplitWhitespace(s[n..])
  }

  predicate AllSpace(s: string)
  {
    forall i :: 0 <= i < |s| ==> IsSpace(s[i])
  }

  /** `gaps[0] + words[0] + gaps[1] + ... + words[k-1] + gaps[k]`. */
  function Interleave(gaps: seq<string>, words: seq<string>): string
    requires |gaps| == |words| + 1
    decreases |words|
  {
    if words == [] then gaps[0] else gaps[0] + words[0] + Interleave(gaps[1..], words[1..])
  }

  /**
   * `words` laid out between `gaps` is a whitespace-separated text: the words are non-empty
   * and hold no whitespace, the gaps are whitespace only, and the inner gaps are non-empty.
   */
  predicate IsLayout(gaps: seq<string>, words: seq<string>)
  {
    && |gaps| == |words| + 1
    && (forall i :: 0 <= i < |gaps| ==> AllSpace(gaps[i]))
    && (forall i :: 0 < i < |words| ==> gaps[i] != "")
    && (forall i :: 0 <= i < |words| ==> words[i] != "" && NoSpace(words[i]))
  }

  /** Leading whitespace does not change the split. */
  lemma {:induction false} SplitSkipsSpace(g: string, t: string)
    requires AllSpace(g)
    ensures SplitWhitespace(g + t) == SplitWhitespace(t)
    decreases |g|
  {
    if g != [] {
      assert (g + t)[0] == g[0];
      assert (g + t)[1..] == g[1..] + t;
      SplitSkipsSpace(g[1..], t);
    } else {
      assert g + t == t;
    }
  }

  /** A word followed by nothing or by whitespace is the first word of the split. */
  lemma {:induction false} SplitWordFirst(w: string, t: string)
    requires w != "" && NoSpace(w)
    requires t == [] || IsSpace(t[0])
    ensures SplitWhitespace(w + t) == [w] + SplitWhitespace(t)
  {
    var s := w + t;
    assert s[0] == w[0];
    assert forall k :: 0 <= k < |w| ==> s[k] == w[k];
    assert t != [] ==> s[|w|] == t[0];
    assert WordLength(s) == |w|;
    assert s[..|w|] == w && s[|w|..] == t;
  }

  /** Splitting a whitespace-separated text gives back its words. */
  lemma {:induction false} SplitOfLayout(gaps: seq<string>, words: seq<string>)
    requires IsLayout(gaps, words)
    ensures SplitWhitespace(Interleave(gaps, words)) == words
    decreases |words|
  {
    if words == [] {
      SplitSkipsSpace(gaps[0], []);
      assert gaps[0] + [] == gaps[0];
    } else {
      var rest := Interleave(gaps[1..], words[1..]);
      assert IsLayout(gaps[1..], words[1..]) by {
        assert forall i :: 0 <= i < |gaps| - 1 ==> gaps[1..][i] == gaps[i + 1];
        assert forall i :: 0 <= i < |words| - 1 ==> words[1..][i] == words[i + 1];
      }
      if words[1..] == [] {
        assert rest == gaps[1];
      } else {
        assert gaps[1] != "";
        assert rest == gaps[1] + words[1] + Interleave(gaps[2..], words[2..]) by {
          assert gaps[1..][1..] == gaps[2..] && words[1..][1..] == words[2..];
        }
        assert rest[0] == gaps[1][0];
      }
      SplitWordFirst(words[0], rest);
      assert Interleave(gaps, words) == gaps[0] + (words[0] + rest);
      SplitSkipsSpace(gaps[0], words[0] + rest);
      SplitOfLayout(gaps[1..], words[1..]);
    }
  }

  /** Putting whitespace in front of a layout's first gap. */
  lemma InterleaveWidensFirstGap(x: string, gaps: seq<string>, words: seq<string>)
    requires |gaps| == |words| + 1
    ensures Interleave([x + gaps[0]] + gaps[1..], words) == x + Interleave(gaps, words)
  {
    var g := [x + gaps[0]] + gaps[1..];
    assert g[1..] == gaps[1..];
  }

  /** A whitespace character in front of a layout joins its first gap. */
  lemma LayoutAfterSpace(x: char, g: seq<string>, words: seq<string>)
    requires IsSpace(x) && IsLayout(g, words)
    ensures IsLayout([[x] + g[0]] + g[1..], words)
    ensures Interleave([[x] + g[0]] + g[1..], words) == [x] + Interleave(g, words)
  {
    var gaps := [[x] + g[0]] + g[1..];
    InterleaveWidensFirstGap([x], g, words);
    assert forall i :: 0 < i < |gaps| ==> gaps[i] == g[i];
    assert AllSpace(gaps[0]);
  }

  /** A word in front of a layout that starts with whitespace (or is empty) becomes its first word. */
  lemma LayoutAfterWord(w: string, g: seq<string>, words: seq<string>)
    requires w != "" && NoSpace(w) && IsLayout(g, words)
    requires Interleave(g, words) == [] || IsSpace(Interleave(g, words)[0])
    ensures IsLayout([[]] + g, [w] + words)
    ensures Interleave([[]] + g, [w] + words) == w + Interleave(g, words)
  {
    var gaps := [[]] + g;
    assert gaps[1..] == g && ([w] + words)[1..] == words;
    assert forall i :: 0 < i < |gaps| ==> gaps[i] == g[i - 1];
  }

  /** Every text is its split words laid out between whitespace gaps. */
  lemma {:induction false} SplitLayout(s: string)
    ensures exists gaps :: IsLayout(gaps, SplitWhitespace(s)) && Interleave(gaps, SplitWhitespace(s)) == s
    decreases |s|
  {
    var words := SplitWhitespace(s);
    if s == [] {
      assert IsLayout([[]], words) && Interleave([[]], words) == s;
    } else if IsSpace(s[0]) {
      SplitLayout(s[1..]);
      var g :| IsLayout(g, words) && Interleave(g, words) == s[1..];
      LayoutAfterSpace(s[0], g, words);
      assert [s[0]] + s[1..] == s;
      assert Interleave([[s[0]] + g[0]] + g[1..], words) == s;
    } else {
      var n := WordLength(s);
      var t := s[n..];
      var rest := SplitWhitespace(t);
      assert words == [s[..n]] + rest;
      SplitLayout(t);
      var g :| IsLayout(g, rest) && Interleave(g, rest) == t;
      LayoutAfterWord(s[..n], g, rest);
      assert s[..n] + t == s;
      assert Interleave([[]] + g, words) == s;
    }
  }

  /** `date_str.replace(':', '-')`. */
  function ReplaceColons(s: string): (r: string)
    ensures |r| == |s|
    ensures forall i :: 0 <= i < |s| ==> r[i] == if s[i] == ':' then '-' else s[i]
  {
    if s == [] then [] else [if s[0] == ':' then '-' else s[0]] + ReplaceColons(s[1..])
  }

  predicate Signed(s: string)
  {
    s != "" && (s[0] == '+' || s[0] == '-')
  }

  /** An offset without a sign gets a `+`; a signed one is kept. */
  function NormalizeOffset(s: string): (r: string)
    requires s != ""
    ensures Signed(r)
    ensures r == s || r == "+" + s
    ensures Signed(s) ==> r == s
  {
    if Signed(s) then s else "+" + s
  }

  lemma NormalizeOffsetIdempotent(s: string)
    requires s != ""
    ensures NormalizeOffset(NormalizeOffset(s)) == NormalizeOffset(s)
  {
  }

  /** The three parts of the ISO string. */
  datatype IsoParts = IsoParts(date: string, time: string, offset: string)

  function IsoString(p: IsoParts): string
  {
    p.date + "T" + p.time + p.offset
  }

  /**
   * The `datetime` property up to the string handed to `fromisoformat`: the date with dashes
   * for colons, the time, and an offset that carries a sign.
   */
  function DatetimeParts(tags: Tags): (r: Result<IsoParts, ExifError>)
    ensures r == Failure(NoDatetime) <==> FirstTruthy(tags, DatetimeKeys) == PyNone || FirstTruthy(tags, OffsetKeys) == PyNone
    ensures r.Success? ==> FirstTruthy(tags, DatetimeKeys).IfdTag? && FirstTruthy(tags, OffsetKeys).IfdTag?
    ensures r.Success? ==> ':' !in r.value.date && r.value.date != "" && NoSpace(r.value.date)
    ensures r.Success? ==> r.value.time != "" && NoSpace(r.value.time) && Signed(r.value.offset)
    ensures var dt := FirstTruthy(tags, DatetimeKeys);
            var offset := FirstTruthy(tags, OffsetKeys);
            dt.IfdTag? && dt.values.Str? && offset.IfdTag? && offset.values.Str? ==>
              && (|SplitWhitespace(dt.values.s)| != 2 ==> r == Failure(CannotParseDatetime))
              && (r.Success? <==> |SplitWhitespace(dt.values.s)| == 2 && offset.values.s != "")
              && (|SplitWhitespace(dt.values.s)| == 2 && offset.values.s == "" ==> r == Failure(OffsetIndexError))
    ensures r.Success? ==> DatetimeText(tags, r.value.date, r.value.time, r.value.offset)
  {
    var dt := FirstTruthy(tags, DatetimeKeys);
    var offset := FirstTruthy(tags, OffsetKeys);
    if dt.PyNone? || offset.PyNone? then Failure(NoDatetime)
    else if !dt.IfdTag? then Failure(CannotParseDatetime)
    else if !offset.IfdTag? then Failure(CannotParseOffset)
    else if !dt.values.Str? then Failure(CannotParseDatetime)
    else if !offset.values.Str? then Failure(CannotParseOffset)
    else
      var words := SplitWhitespace(dt.values.s);
      if |words| != 2 then Failure(CannotParseDatetime)
      else if offset.values.s == "" then Failure(OffsetIndexError)
      else Success(IsoParts(ReplaceColons(words[0]), words[1], NormalizeOffset(offset.values.s)))
  }

  /**
   * The ISO parts that the chosen tags spell: the timestamp tag's text is two whitespace-separated
   * words, the first with dashes for colons is `date` and the second is `time`, and the offset
   * tag's text, given a sign when it has none, is `offset`.
   */
  ghost predicate DatetimeText(tags: Tags, date: string, time: string, offset: string)
  {
    var dt := FirstTruthy(tags, DatetimeKeys);
    var off := FirstTruthy(tags, OffsetKeys);
    && dt.IfdTag? && dt.values.Str? && off.IfdTag? && off.values.Str? && off.values.s != ""
    && var words := SplitWhitespace(dt.values.s);
       |words| == 2 && date == ReplaceColons(words[0]) && time == words[1]
       && offset == NormalizeOffset(off.values.s)
  }

  /** `Exif.datetime`, as the ISO 8601 string it parses. */
  function Datetime(tags: Tags): (r: Result<string, ExifError>)
    ensures r.Failure? <==> DatetimeParts(tags).Failure?
    ensures r.Failure? ==> r.error == DatetimeParts(tags).error
    ensures r.Success? ==> exists date, time, offset :: DatetimeText(tags, date, time, offset) && r.value == date + "T" + time + offset
  {
    match DatetimeParts(tags)
    case Failure(e) => Failure(e)
    case Success(p) => Success(IsoString(p))
  }

  /** `Exif.date`, as the date part of that ISO string. */
  function Date(tags: Tags): (r: Result<string, ExifError>)
    ensures r.Failure? <==> DatetimeParts(tags).Failure?
    ensures r.Failure? ==> r.error == DatetimeParts(tags).error
    ensures r.Success? ==> exists time, offset :: DatetimeText(tags, r.value, time, offset)
  {
    match DatetimeParts(tags)
    case Failure(e) => Failure(e)
    case Success(p) => Success(p.date)
  }

  /** With none of the timestamp tags (or none of the offset tags) present, the error is "No datetime is found". */
  lemma DatetimeMissing(tags: Tags)
    requires (forall k :: k in DatetimeKeys ==> k !in tags) || (forall k :: k in OffsetKeys ==> k !in tags)
    ensures Datetime(tags) == Failure(NoDatetime) && Date(tags) == Failure(NoDatetime)
  {
  }

  /**
   * A timestamp tag "date time" (two words, with whitespace before, between and after them)
   * and a non-empty offset tag give the ISO string date-with-dashes, "T", time, signed offset.
   */
  lemma {:induction false} DatetimeOfWellFormedTags(tags: Tags, g0: string, date: string, g1: string, time: string, g2: string, offset: string)
    requires FirstTruthy(tags, DatetimeKeys) == IfdTag(Str(g0 + date + g1 + time + g2))
    requires FirstTruthy(tags, OffsetKeys) == IfdTag(Str(offset))
    requires date != "" && NoSpace(date) && time != "" && NoSpace(time)
    requires AllSpace(g0) && g1 != "" && AllSpace(g1) && AllSpace(g2)
    requires offset != ""
    ensures Datetime(tags) == Success(ReplaceColons(date) + "T" + time + NormalizeOffset(offset))
    ensures Date(tags) == Success(ReplaceColons(date))
  {
    var gaps, words := [g0, g1, g2], [date, time];
    assert IsLayout(gaps, words);
    assert Interleave(gaps, words) == g0 + date + g1 + time + g2 by {
      assert Interleave(gaps[2..], words[2..]) == g2;
      assert Interleave(gaps[1..], words[1..]) == g1 + time + g2;
    }
    SplitOfLayout(gaps, words);
  }

  /** The timestamp falls back from DateTimeOriginal to Image DateTime to DateTimeDigitized. */
  lemma {:induction false} DatetimeTagFallback(tags: Tags)
    ensures Get(tags, "EXIF DateTimeOriginal").IfdTag? ==> FirstTruthy(tags, DatetimeKeys) == Get(tags, "EXIF DateTimeOriginal")
    ensures Get(tags, "EXIF DateTimeOriginal").PyNone? && Get(tags, "Image DateTime").IfdTag? ==>
              FirstTruthy(tags, DatetimeKeys) == Get(tags, "Image DateTime")
    ensures Get(tags, "EXIF DateTimeOriginal").PyNone? && Get(tags, "Image DateTime").PyNone? ==>
              FirstTruthy(tags, DatetimeKeys) == Get(tags, "EXIF DateTimeDigitized")
  {
    var v := FirstTruthy(tags, DatetimeKeys);
    var k0, k1, k2 := DatetimeKeys[0], DatetimeKeys[1], DatetimeKeys[2];
    if Get(tags, k0).PyNone? && Get(tags, k1).PyNone? && Truthy(Get(tags, k2)) {
      assert forall j :: 0 <= j < 2 ==> !Truthy(Get(tags, DatetimeKeys[j]));
    }
  }

  /** `date` is the date part of the ISO string `datetime` parses, which holds no colon. */
  lemma DateIsIsoPrefix(tags: Tags)
    ensures Date(tags).Success? <==> Datetime(tags).Success?
    ensures Date(tags).Success? ==>
              var d := Date(tags).value;
              && ':' !in d
              && |Datetime(tags).value| > |d|
              && Datetime(tags).value[..|d| + 1] == d + "T"
  {
  }
}
