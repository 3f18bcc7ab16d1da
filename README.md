# noaa weather match — Dafny model

The program reads a photograph's EXIF metadata (GPS position and timestamp) and looks up the
NOAA daily weather observation that best matches that place and day. It does this in two
stages. First it picks the nearest station among the stations in China that have
coordinates. Then it picks that station's observation whose date is nearest to the
photograph's date. By default it skips observations without a wind speed.

This project models three parts of the program:

- the search of `BaseSearchEngine` (`base.dfy`, module `Base`, with the generic
  `WHERE` / `ORDER BY … LIMIT 1` shapes in `selection.dfy`, module `Selection`);
- the EXIF decoders of `Exif` (`exif.dfy`, module `Exif`): latitude, longitude and the
  ISO 8601 timestamp string;
- the row shapes of the `info` and `data` tables and the text forms of a row
  (`models_base.dfy`, module `ModelsBase`).

`wrappers.dfy` holds `Option` (SQL NULL, Python `None`) and `Result` (a value or a raised error).

How the program is represented:

- The tables are sequences of row datatypes, passed in as a `Database` value. Each SQL
  statement becomes a `Filter` followed by an `ArgMin`.
- `ORDER BY … LIMIT 1` has no secondary key, so SQL may return any of several tied rows. The
  specification is relational: the ghost predicates `IsNearestStation`, `IsClosestRecord`,
  `IsDataOutcome` and `IsSearchOutcome` accept every row the database could return. The
  functions pick the first minimal row and are proved to satisfy those predicates.
- The distance expression of a concrete engine (`get_distance_comp`) is a parameter
  `distance: (StationInfo, lat, lon) -> Option<real>`, since the column expression it builds
  is nullable. The database is SQLite (the day difference calls SQLite's `julianday`, utils/base.py:86), whose ascending order puts NULL
  before every number; `DistanceLe` is that order.
- Dates are integer day numbers, so `julianday(a) - julianday(b)` is integer subtraction.
- Float columns are exact reals. An EXIF `Ratio` is a numerator and a denominator, since
  exifread keeps a zero denominator; the arithmetic on such a ratio raises
  `ZeroDivisionError`, which the model returns as the error `ZeroDenominator`.
- "Today" is a constructor parameter.
- EXIF tags are a `map<string, PyValue>`. `PyValue` is `PyNone`, an `IfdTag` carrying its
  `values` (a list of items, a string or a number), or any other object with its truthiness.
  This covers `dict.get`, the `isinstance` checks and the `a or b or c` fallback chains. The
  fallback returns the first truthy value, or else the last value.
- Float and date formatting (`str(float)`, `%x`, `isoformat()`) are function parameters of the
  text functions.

Three facts about the code that shape the model:

- The station filter is the fixed country "中国" (China); no region is configurable.
- Neither `ORDER BY … LIMIT 1` has a tie-break key, so the model promises only "some minimal row".
- `BaseSearchEngine` does not compute a distance itself; each subclass supplies the SQL
  expression (see Left out).

## Model

| member | source | states |
|---|---|---|
| `Selection.Filter` | utils/base.py:61-65 | the `WHERE` result holds exactly the input rows that satisfy the condition, and is no longer than the input |
| `Selection.ArgMin` | utils/base.py:66-67 | `ORDER BY key LIMIT 1` on a non-empty table returns a row of the table whose key is at most every row's key |
| `Selection.MinimalKeysAgree` | utils/base.py:73 | for the record stage's `ORDER BY` day difference: any two rows that `ORDER BY … LIMIT 1` may return from tables with the same rows (in any order) have equal keys |
| `Selection.MinimalOfSuperset` | utils/base.py:71-73 | the minimum over a larger candidate set is at most the minimum over a smaller one |
| `Base.DayComp` | utils/base.py:84-86 | the day difference is the distance between the two days: the record's day is the query day minus it or plus it |
| `Base.DayCompSymmetric` | utils/base.py:84-86 | the absolute day difference is the same k days before and k days after the query, and is zero only on the query day |
| `Base.SelectStation` | utils/base.py:61-69 | fails with "No station found" exactly when no station has country "中国" and both coordinates; otherwise returns such a station whose distance comes first in SQLite's order (NULL first, then the smallest number) among the eligible stations |
| `Base.NullDistanceFirst` | utils/base.py:66-67 | if some eligible station's distance is NULL, a station is found and its distance is NULL |
| `Base.SelectData` | utils/base.py:70-76 | fails with "No data found" exactly when the station has no record (with non-null `wdsp` unless `include_null_wdsp`); otherwise returns such a record whose day difference is at most every other such record's |
| `Base.Resolve` | utils/base.py:58-77 | the result is "No station found" exactly when no station qualifies, and otherwise an outcome of the record stage for some nearest station |
| `Base.SearchEngine.constructor` | utils/base.py:44-49 | `lat` and `lon` are stored unchanged; `date` is the given date, or today when none is given |
| `Base.SearchEngine.Search` | utils/base.py:58-77 | the search on the engine's coordinate and date gives an outcome allowed by the two-stage specification |
| `Base.ResolvedRecordOfNearestStation` | utils/base.py:70-77 | a found record belongs to the picked station, that station is in China with both coordinates, and the record has a wind speed when `include_null_wdsp` is false |
| `Base.StationOrderIrrelevant` | utils/base.py:66-67 | permuting the station table never changes whether a station is found, nor the distance of the station found |
| `Base.IncludeNullWdspWidens` | utils/base.py:71-73 | if the default search finds a record for a station, then the search with `include_null_wdsp` also finds one, at most as many days away |
| `Base.ResolveIncludeNullWdspWidens` | utils/base.py:58-77 | the same as above for the whole search: setting `include_null_wdsp` never loses a match and never moves it further from the query day |
| `Base.ClosestRecordTie` | utils/base.py:73 | with (station, date) as the table key, two different closest records of a station lie on opposite sides of the query day at the same distance |
| `Base.MirroredRecordAlsoClosest` | utils/base.py:84-86 | a closest record k days before the query makes an eligible record k days after it closest too |
| `Base.NearestMatchExample` | utils/base.py:58-77 | worked case: the query near Shanghai picks the Shanghai station; the record without wind speed is skipped by default; with the flag both records one day away are closest |
| `ModelsBase.WdspText` | utils/models_base.py:51 | the wind-speed text is the formatted wind speed when there is one, and "not available" exactly when the wind speed is null or is formatted as that text |
| `ModelsBase.WdspTextNotAvailableIff` | utils/models_base.py:51 | the wind-speed text is "not available" exactly when `wdsp` is null, and otherwise the formatted wind speed |
| `ModelsBase.StationLabel` | utils/models_base.py:52 | the label is never empty: the station name if non-empty, else the record's station id if non-empty, else "closest" |
| `ModelsBase.HumanStr` | utils/models_base.py:48-53 | the summary starts with "The wind speed is " and the wind-speed text, ends with the formatted date, and is 19 characters longer than those three and the station label together; right after the wind-speed text comes ` for "`, the station label and a closing `"`, whatever characters the label holds |
| `ModelsBase.HumanStrQuotesLabel` | utils/models_base.py:48-53 | when neither the wind-speed text nor the station label contains a double quote, the text between the summary's first two double quotes is the label, so the label can be read back from it |
| `ModelsBase.DataRepr` | utils/models_base.py:42-46 | the repr starts with the class name, `(station=` and the station id, ends with the ISO date and `)`, and is 17 characters longer than those three |
| `ModelsBase.DataReprIdentifies` | utils/models_base.py:42-46 | when neither station id contains a comma and the ISO formatter gives different dates different texts, equal reprs of two rows imply equal (station, date) keys |
| `ModelsBase.StationRepr` | utils/models_base.py:72-77 | the station repr starts with the class name and `(station_id=<id>`, continues with the columns from `, name=` on, and ends with `)` |
| `ModelsBase.StationReprIdentifies` | utils/models_base.py:72-77 | when neither station id contains a comma, equal reprs of two stations imply equal `station_id`s (the table's key) |
| `Exif.Dms` | utils/exif.py:82 | degrees/minutes/seconds as decimal degrees: in seconds, `deg*3600 + min*60 + sec`; never below `deg` for non-negative minutes and seconds |
| `Exif.Coordinate` | utils/exif.py:61-117 | `lat`/`lon` succeed exactly when the value tag is three `Ratio`s with non-zero denominators and the reference is N/S (E/W); the result is +DMS for N/E and −DMS for S/W; a missing value or reference tag gives "No … is found"; a zero denominator (after both tags passed their type checks) gives the division error; every other failure is a parse error of the value or the reference |
| `Exif.Lat` | utils/exif.py:61-88 | "No latitude is found" exactly when GPS GPSLatitude or GPS GPSLatitudeRef is missing; for a value of three ratios with non-zero denominators, reference "N" gives +DMS and "S" gives −DMS |
| `Exif.Lon` | utils/exif.py:90-117 | "No longitude is found" exactly when GPS GPSLongitude or GPS GPSLongitudeRef is missing; for a value of three ratios with non-zero denominators, reference "E" gives +DMS and "W" gives −DMS |
| `Exif.HemisphereFlipsSign` | utils/exif.py:83-88 | for one DMS value, the two hemisphere letters give results that differ only in sign, and any other reference is refused |
| `Exif.FirstTruthyIndex` | utils/exif.py:122-131 | the position chosen by an `or` chain: every earlier value is falsy, and the chosen one is truthy unless it is the last |
| `Exif.FirstTruthy` | utils/exif.py:122-131 | an `or` chain of `dict.get`s is truthy exactly when some value is, is then the first truthy value, and is otherwise the last value |
| `Exif.DatetimeTagFallback` | utils/exif.py:122-126 | the timestamp tag is DateTimeOriginal if present, else Image DateTime if present, else DateTimeDigitized |
| `Exif.SplitWhitespace` | utils/exif.py:145 | `str.split()` yields non-empty words without whitespace (with the two lemmas below, exactly the maximal non-whitespace runs, in order) |
| `Exif.SplitOfLayout` | utils/exif.py:145 | words laid out between whitespace gaps (inner gaps non-empty) split back into exactly those words |
| `Exif.SplitLayout` | utils/exif.py:145 | every string is its split words laid out between whitespace gaps, so splitting loses nothing but whitespace |
| `Exif.ReplaceColons` | utils/exif.py:150 | `replace(':', '-')` keeps the length and changes every colon, and only colons, into a dash |
| `Exif.NormalizeOffset` | utils/exif.py:148-149 | the offset always starts with a sign; a signed offset is kept, an unsigned one gets `+` in front |
| `Exif.NormalizeOffsetIdempotent` | utils/exif.py:148-149 | normalising an offset twice gives the same result as once |
| `Exif.DatetimeParts` | utils/exif.py:119-150 | "No datetime is found" exactly when the chosen timestamp or offset value is `None`; for string tags, a timestamp that does not split into exactly two words is "Cannot parse datetime", success means two words and a non-empty offset, and two words with an empty offset give `OffsetIndexError`; on success the date is the first word of the timestamp text with dashes for colons, the time its second word, and the offset the offset text with a `+` added when it has no sign |
| `Exif.Datetime` | utils/exif.py:119-150 | fails exactly when the parts fail, with the same error; on success it is date + "T" + time + offset for the parts the tags spell |
| `Exif.Date` | utils/exif.py:159-162 | fails exactly when the parts fail, with the same error; on success it is the date part the tags spell (first word, colons as dashes) |
| `Exif.DatetimeMissing` | utils/exif.py:122-133 | with no timestamp tag, or no offset tag, present, `datetime` and `date` fail with "No datetime is found" |
| `Exif.DatetimeOfWellFormedTags` | utils/exif.py:119-150 | a timestamp "date time", with any whitespace before, between (at least one character) and after, and a non-empty offset gives `date-with-dashes + "T" + time + signed offset`, and `date` gives the date with dashes |
| `Exif.DateIsIsoPrefix` | utils/exif.py:159-162 | `date` succeeds exactly when `datetime` does, and is the part of the ISO string before the `T`, holding no colon |

## Left out

- Database sessions and the engine (`get_session`, `create_engine`, utils/base.py:50-56): the tables are values passed in; reading them is I/O.
- The distance computation: `get_distance`, which noaa_trig.py:22 calls, is not part of this model: neither utils/models_trig.py nor `StationInfoMixin` (utils/models_base.py:56-77) defines it; the haversine form is floating-point trigonometry, and the GIS engine's `get_distance_comp` only raises `NotImplementedError`. The distance is a nullable parameter, and no metric fact (symmetry, zero at coincidence) is proved about it.
- `julianday` and calendar conversion: dates are integer day numbers.
- `BaseRunner.run` (utils/base.py:94-102): command-line orchestration and printing.
- `Exif.tags`: the lazy file read through `exifread.process_file` and its cache; the tag map is a parameter of the decoders.
- The HEIC parser patch (utils/exif.py:17-39): library patching.
- `datetime.fromisoformat` and `.date()` (utils/exif.py:151-162): library parsing; `Exif.Datetime` and `Exif.Date` stop at the ISO string and its date part, so calendar validation and its "Cannot parse processed datetime" error are not modelled.
- Exif.Coordinate: the final `float(...)` rounding (utils/exif.py:82, 111) is not modelled; the result is the exact rational value.
- ModelsBase.StationRepr: its contract fixes the head up to the id, the `, name=` that opens the remaining columns and the closing `)`; the text of each later column is not stated.
- ModelsBase.HumanStr, ModelsBase.DataRepr, ModelsBase.StationRepr: `str(float)`, the locale's `%x` date format and `isoformat()` are parameters, not concrete formats.
- An empty offset string makes `dt_offset_str[0]` raise `IndexError` rather than `ValueError`; the model keeps this as its own error, `OffsetIndexError`.
- ORM relationship loading and schema declarations (utils/models.py, utils/models_gis.py, utils/models_trig.py, alembic migrations): only the column shapes of utils/models_base.py are modelled.
- utils/pic_parse.py, noaa.py, utils/config.py, utils/argparse.py: a stub, an unfinished search, and configuration and command-line plumbing.
