# World Weather Online client: location validation and request builders

This project models the core of a Java client for the World Weather Online
HTTP API.

- **The location check (`Location.validateLocation`).** Each of the six
  location types (city, IPv4 address, UK postcode, Canadian postcode, US ZIP
  code, latitude/longitude) has its own fixed regular expression. Each one is
  written here as a recogniser over `seq<char>`, and lemmas give what each
  accepts in plain terms.
- **The five request builders** (`Search`, `HistoricalWeather`, `SkiWeather`,
  `MarineWeather`, `TimeZone`). Each is a class that holds its query
  parameters as a `map<string, string>` and an API package (FREE or PREMIUM).
  - Its constructor validates the location and then seeds the map.
  - Each fluent setter overwrites one key and returns the same builder.
  - `BuildRequestAttributes` packs the map, the package's base path and the
    host into a `Request` value.

Modules:

- `Outcomes`: error kinds, `Option`, `Result`, pass/fail.
- `Decimal`: Java's `String.valueOf(int)` and a reader that undoes it.
- `Strings`: split and join at a separator.
- `Dates`: calendar days, their `yyyy-MM-dd` text and its reader, and the
  day order of `Date.before`.
- `Location`: the six recognisers and `ValidateLocation`.
- `Options`: package, yes/no, interval and language tables shared by
  several endpoints.
- `Formats`: the XML/JSON format shared by three endpoints.
- `Extras`: the value `includeExtraInformations` computes.
- `Requests`: the `Request` record and the host.
- One module per endpoint.

A throwing constructor becomes a static `New` that returns a `Result`. A
throwing setter returns a `Result` and leaves the map untouched on failure.
Every class carries a `Valid()` invariant: the mandatory keys are present,
the location is accepted for its type, and each optional key holds a text
its setter can write.

Where the code and its comments differ, the model follows the code:

- Once "extra" is present, `includeExtraInformations` leaves it unchanged.
  The merge loop only extends a local copy, which is then discarded.
- The first `includeExtraInformations` call keeps duplicate codes.
- Java reads `[A-Z-[CIKMOV]]` in the UK pattern as a union. The last two
  characters may be any capital letter or '-'.
- The dot in the latitude/longitude pattern is unescaped. It matches any
  character but a line terminator.
- `SkiWeather`'s number of days is never checked.
- `MarineWeather` always validates against LAT_AND_LONG.

## Model

| member | source | states |
|---|---|---|
| Location.ValidateLocation | src/main/java/com/example/wwo/Location.java:5-45 | the check either passes or fails with InvalidLocation (IllegalArgumentException); it has no other outcome |
| Location.TrailingSpaceRejected | src/main/java/com/example/wwo/Location.java:5-45 | matching is whole-string: appending a space makes every type but CITY reject the location |
| Location.SampleCities | src/main/java/com/example/wwo/Location.java:9-12 | CITY accepts the empty string and "New York, NY" and rejects "St. Louis" (a dot is not in its character set) |
| Location.OctetMeaning | src/main/java/com/example/wwo/Location.java:15-19 | a field matches the octet alternatives iff it is 1 to 3 decimal digits, leading zeros allowed, with value at most 255 |
| Location.IpAddressMeaning | src/main/java/com/example/wwo/Location.java:15-19 | IP_ADDRESS accepts a string iff it has exactly four dot-separated fields and each is a decimal octet |
| Location.IpAddressFromOctets | src/main/java/com/example/wwo/Location.java:15-19 | any four decimal octets joined by dots are accepted |
| Location.IpAddressFirstFieldRejected | src/main/java/com/example/wwo/Location.java:15-19 | a dot-free first field that is not an octet rejects the whole address |
| Location.SampleIpAddressAccepted | src/main/java/com/example/wwo/Location.java:15-19 | "195.56.119.209" is accepted |
| Location.SampleIpAddressLeadingZeros | src/main/java/com/example/wwo/Location.java:15-19 | "001.2.3.4" is accepted: leading zeros are allowed |
| Location.SampleIpAddressRejected | src/main/java/com/example/wwo/Location.java:15-19 | "256.1.1.1" is rejected |
| Location.UkInwardLetterIsUnion | src/main/java/com/example/wwo/Location.java:23 | the class of the last two UK characters is every capital letter and '-'; nothing is subtracted |
| Location.CanadaChars | src/main/java/com/example/wwo/Location.java:28-31 | an accepted Canadian postal code holds only digits, a space and capitals other than D, I, O, Q and U, so lower case is rejected |
| Location.SamplePostalCodes | src/main/java/com/example/wwo/Location.java:21-37 | US "90201" and "90201-1234", Canadian "K1A 0B1", UK "SW1A 1AA" and "SW1A 1CI" are accepted; Canadian "k1a 0b1" is rejected |
| Location.LatDegreesMeaning | src/main/java/com/example/wwo/Location.java:40 | the latitude degrees before an optional fraction are 0 to 89 without a leading zero (90 is its own alternative) |
| Location.LongDegreesMeaning | src/main/java/com/example/wwo/Location.java:40 | the longitude degrees before an optional fraction are 0 to 179 without a leading zero (180 is its own alternative) |
| Location.SampleLatAndLong | src/main/java/com/example/wwo/Location.java:39-42 | "48.834,2.394" is accepted, and so is "48x834,2.394", because the unescaped dot matches any character |
| Decimal.IntToString | src/main/java/com/example/wwo/search/Search.java:85 | String.valueOf writes a minus sign exactly for negative numbers, followed by decimal digits with no superfluous leading zero |
| Decimal.IntToStringRoundTrip | src/main/java/com/example/wwo/search/Search.java:85 | the decimal text of a number (String.valueOf) reads back as that number |
| Decimal.IntToStringInjective | src/main/java/com/example/wwo/search/Search.java:85 | distinct numbers are stored as distinct texts |
| Dates.FormatDate | src/main/java/com/example/wwo/historicalweather/HistoricalWeather.java:58 | the yyyy-MM-dd text: at least four year digits, a dash, two month digits, a dash and two day digits |
| Dates.ParseDate | src/main/java/com/example/wwo/historicalweather/HistoricalWeather.java:122 | reads year, month and day back from the yyyy-MM-dd text; month and day read back below 100 |
| Dates.ParseFormatDate | src/main/java/com/example/wwo/historicalweather/HistoricalWeather.java:122-138 | the yyyy-MM-dd text of a day parses back to that day, so the ParseException branch cannot be taken |
| Dates.FormatDateInjective | src/main/java/com/example/wwo/historicalweather/HistoricalWeather.java:138 | distinct days are stored as distinct texts |
| Dates.Before | src/main/java/com/example/wwo/historicalweather/HistoricalWeather.java:123 | on calendar days, a day is before another exactly when its (year, month, day) key is smaller |
| Dates.BeforeIsStrictTotalOrder | src/main/java/com/example/wwo/historicalweather/HistoricalWeather.java:123 | the day order used for Date.before is irreflexive, asymmetric, transitive and total |
| Options.YesNo | src/main/java/com/example/wwo/search/Search.java:99 | a boolean option is written "yes" exactly when it is true, and "no" otherwise |
| Options.YesNoFromCode | src/main/java/com/example/wwo/search/Search.java:98-101 | a boolean option is stored as "yes" or "no", and the text reads back as the boolean |
| Options.YesNoRoundTrip | src/main/java/com/example/wwo/search/Search.java:98-101 | reading back the text of a boolean gives the boolean |
| Options.PackagePrefix | src/main/java/com/example/wwo/search/Search.java:146-164 | each package names its base paths with a slash-delimited prefix, /premium/v1/ or /free/v2/, holding no dot |
| Options.PackagePrefixesDiffer | src/main/java/com/example/wwo/search/Search.java:150-154 | the premium and free prefixes differ, so the two packages never share a path |
| Options.IntervalHours | src/main/java/com/example/wwo/historicalweather/HistoricalWeather.java:256-287 | the text stored under "tp" for any interval is one of "1", "3", "6", "12", "24" |
| Options.IntervalFromHours | src/main/java/com/example/wwo/historicalweather/HistoricalWeather.java:256-287 | the hours read back to an interval with those hours |
| Options.IntervalCodeRoundTrip | src/main/java/com/example/wwo/historicalweather/HistoricalWeather.java:165-168 | the stored "tp" text reads back as the interval's hours and those as the interval: distinct intervals give distinct texts |
| Options.LanguageCode | src/main/java/com/example/wwo/skiweather/SkiWeather.java:287-306 | every language code is two letters or a Chinese variant written zh_ and a suffix |
| Options.LanguageFromCode | src/main/java/com/example/wwo/skiweather/SkiWeather.java:287-306 | a language code reads back to a language with that code |
| Options.LanguageFromLetters | src/main/java/com/example/wwo/skiweather/SkiWeather.java:288-296 | a two-letter code reads back to a language with that code |
| Options.LanguageCodeRoundTrip | src/main/java/com/example/wwo/skiweather/SkiWeather.java:287-306 | every language code reads back as its language: no two of the 39 languages share a code |
| Formats.FormatCode | src/main/java/com/example/wwo/timezone/TimeZone.java:122-141 | the XML/JSON format is sent as "xml" or "json" |
| Formats.FormatFromCode | src/main/java/com/example/wwo/timezone/TimeZone.java:122-141 | "xml" and "json" read back to the format with that code |
| Formats.FormatCodeRoundTrip | src/main/java/com/example/wwo/timezone/TimeZone.java:122-141 | every format code reads back as its format |
| Extras.Contains | src/main/java/com/example/wwo/historicalweather/HistoricalWeather.java:90 | String.contains: the empty string and the haystack itself are contained, and nothing longer than the haystack is |
| Extras.ExtraValue | src/main/java/com/example/wwo/historicalweather/HistoricalWeather.java:84-102 | with "extra" present its value is kept; otherwise the codes are joined by commas in order, and no codes fail with StringIndexOutOfBounds |
| Extras.JoinIsExtraList | src/main/java/com/example/wwo/historicalweather/HistoricalWeather.java:96-101 | the joined value splits at commas back into exactly the codes passed, each an allowed code |
| Extras.ExtraListIsJoin | src/main/java/com/example/wwo/historicalweather/HistoricalWeather.java:96-101 | every list of allowed extra codes is the comma join of its fields |
| Search.BaseUrl | src/main/java/com/example/wwo/search/Search.java:146-164 | the search path is the package prefix followed by search.ashx: /premium/v1/search.ashx or /free/v2/search.ashx |
| Search.FormatCode | src/main/java/com/example/wwo/search/Search.java:207-231 | the search format is sent as "xml", "json" or "tab"; there is no csv |
| Search.FormatFromCode | src/main/java/com/example/wwo/search/Search.java:207-231 | "xml", "json" and "tab" read back to their formats |
| Search.FormatCodeRoundTrip | src/main/java/com/example/wwo/search/Search.java:207-231 | every format code reads back as its format; there is no csv |
| Search.CategoryCode | src/main/java/com/example/wwo/search/Search.java:239-269 | the category is sent as "Ski", "Cricket", "Football", "Golf" or "Fishing" |
| Search.NumOfResultsAllowed | src/main/java/com/example/wwo/search/Search.java:76-83 | the guards of setNumOfResults: no package allows a number outside 1..50, and every package allows 1..3 |
| Search.CategoryFromCode | src/main/java/com/example/wwo/search/Search.java:239-269 | the five category names read back to their categories |
| Search.CategoryCodeRoundTrip | src/main/java/com/example/wwo/search/Search.java:239-269 | every category name reads back as its category |
| Search.Search.Seed | src/main/java/com/example/wwo/search/Search.java:43-46 | after validation the parameters are exactly {"key", "query"} |
| Search.Search.New | src/main/java/com/example/wwo/search/Search.java:39-47 | fails with InvalidLocation iff the location does not match its type; otherwise a fresh builder holds exactly {"key", "query"} and keeps its invariant |
| Search.Search.BuildRequestAttributes | src/main/java/com/example/wwo/search/Search.java:57-62 | changes nothing; the request holds the parameters, the tier's path (/premium/v1/search.ashx or /free/v2/search.ashx) and host api.worldweatheronline.com, and carries the key and a validated location |
| Search.Search.SetNumOfResults | src/main/java/com/example/wwo/search/Search.java:74-88 | stores the decimal number iff 1..3 (FREE) or 1..50 (PREMIUM); otherwise fails with NumOfResultsOutOfRange and nothing changes |
| Search.Search.NeedTimeZone | src/main/java/com/example/wwo/search/Search.java:98-101 | only "timezone" changes, to "yes" or "no"; returns the same builder |
| Search.Search.OnlyPopularLocations | src/main/java/com/example/wwo/search/Search.java:110-113 | only "popular" changes, to "yes" or "no"; returns the same builder |
| Search.Search.SetFormat | src/main/java/com/example/wwo/search/Search.java:123-126 | only "format" changes, to the format's code; returns the same builder |
| Search.Search.SetTypeOfCategory | src/main/java/com/example/wwo/search/Search.java:135-138 | only "wct" changes, to the category's name; returns the same builder |
| HistoricalWeather.ExtraCode | src/main/java/com/example/wwo/historicalweather/HistoricalWeather.java:227-248 | the extra codes are "isDayTime" and "utcDateTime", neither holding a comma |
| HistoricalWeather.BaseUrl | src/main/java/com/example/wwo/historicalweather/HistoricalWeather.java:201-219 | the path is the package prefix followed by past-weather.ashx |
| HistoricalWeather.FormatCode | src/main/java/com/example/wwo/historicalweather/HistoricalWeather.java:296-324 | the past-weather format is sent as "xml", "json", "csv" or "tab" |
| HistoricalWeather.FormatFromCode | src/main/java/com/example/wwo/historicalweather/HistoricalWeather.java:296-324 | "xml", "json", "csv" and "tab" read back to their formats |
| HistoricalWeather.FormatCodeRoundTrip | src/main/java/com/example/wwo/historicalweather/HistoricalWeather.java:296-324 | every format code reads back as its format |
| HistoricalWeather.CheckEndDate | src/main/java/com/example/wwo/historicalweather/HistoricalWeather.java:123-133 | the end day passes iff it lies in the start day's year and month and not before it; it fails with EndDateBeforeDate iff it is earlier |
| HistoricalWeather.HistoricalWeather.Seed | src/main/java/com/example/wwo/historicalweather/HistoricalWeather.java:54-58 | after validation the parameters are exactly {"key", "q", "date" as yyyy-MM-dd} |
| HistoricalWeather.HistoricalWeather.New | src/main/java/com/example/wwo/historicalweather/HistoricalWeather.java:50-59 | fails with InvalidLocation iff the location does not match its type; otherwise a fresh builder holds exactly {"key", "q", "date"} |
| HistoricalWeather.HistoricalWeather.BuildRequestAttributes | src/main/java/com/example/wwo/historicalweather/HistoricalWeather.java:69-74 | changes nothing; the request holds the parameters, the tier's past-weather path and the host, and its "date" reads back as the start day |
| HistoricalWeather.HistoricalWeather.IncludeExtraInformations | src/main/java/com/example/wwo/historicalweather/HistoricalWeather.java:83-105 | a present "extra" is left unchanged; otherwise "extra" becomes the comma join of the codes (duplicates kept), and no extras fail with nothing changed |
| HistoricalWeather.HistoricalWeather.SetEndDate | src/main/java/com/example/wwo/historicalweather/HistoricalWeather.java:120-141 | stores "enddate" iff CheckEndDate passes; otherwise fails with the first broken rule (before, month, year) and nothing changes |
| HistoricalWeather.HistoricalWeather.IsIncludeLocation | src/main/java/com/example/wwo/historicalweather/HistoricalWeather.java:152-155 | only "includeLocation" changes, to "yes" or "no" |
| HistoricalWeather.HistoricalWeather.SetForecastTimeInterval | src/main/java/com/example/wwo/historicalweather/HistoricalWeather.java:165-168 | only "tp" changes, to the decimal hours of the interval |
| HistoricalWeather.HistoricalWeather.SetFormat | src/main/java/com/example/wwo/historicalweather/HistoricalWeather.java:178-181 | only "format" changes, to the format's code |
| HistoricalWeather.HistoricalWeather.SetCallback | src/main/java/com/example/wwo/historicalweather/HistoricalWeather.java:190-193 | only "callback" changes, to the name as given |
| HistoricalWeather.RepeatedExtraKept | src/main/java/com/example/wwo/historicalweather/HistoricalWeather.java:96-101 | two IS_DAY_TIME extras give "isDayTime,isDayTime" |
| SkiWeather.ExtraCode | src/main/java/com/example/wwo/skiweather/SkiWeather.java:195-211 | the only extra code is "isDayTime" |
| SkiWeather.BaseUrl | src/main/java/com/example/wwo/skiweather/SkiWeather.java:169-187 | the path is the package prefix followed by ski.ashx |
| SkiWeather.SkiWeather.Seed | src/main/java/com/example/wwo/skiweather/SkiWeather.java:46-50 | after validation the parameters are exactly {"key", "q", "num_of_days" as decimal}, for any 32-bit number |
| SkiWeather.SkiWeather.New | src/main/java/com/example/wwo/skiweather/SkiWeather.java:42-51 | fails with InvalidLocation iff the location does not match its type; the number of days is stored unchecked |
| SkiWeather.SkiWeather.BuildRequestAttributes | src/main/java/com/example/wwo/skiweather/SkiWeather.java:61-66 | changes nothing; the request holds the parameters, the tier's ski path and the host |
| SkiWeather.SkiWeather.IncludeExtraInformations | src/main/java/com/example/wwo/skiweather/SkiWeather.java:75-97 | as in HistoricalWeather: joins the codes on the first call, leaves a present "extra" unchanged, fails on no extras |
| SkiWeather.SkiWeather.Date | src/main/java/com/example/wwo/skiweather/SkiWeather.java:106-110 | only "date" changes, to a yyyy-MM-dd text that reads back as the day |
| SkiWeather.SkiWeather.IsIncludeLocation | src/main/java/com/example/wwo/skiweather/SkiWeather.java:121-124 | only "includeLocation" changes, to "yes" or "no" |
| SkiWeather.SkiWeather.SetFormat | src/main/java/com/example/wwo/skiweather/SkiWeather.java:134-137 | only "format" changes, to "xml" or "json" |
| SkiWeather.SkiWeather.SetCallback | src/main/java/com/example/wwo/skiweather/SkiWeather.java:146-149 | only "callback" changes, to the name as given |
| SkiWeather.SkiWeather.SetOtherLanguage | src/main/java/com/example/wwo/skiweather/SkiWeather.java:158-161 | only "lang" changes, to the language's code |
| MarineWeather.BaseUrl | src/main/java/com/example/wwo/marineweather/MarineWeather.java:137-155 | the path is the package prefix followed by marine.ashx |
| MarineWeather.MarineWeather.Seed | src/main/java/com/example/wwo/marineweather/MarineWeather.java:35-38 | after validation the parameters are exactly {"key", "q"} |
| MarineWeather.MarineWeather.New | src/main/java/com/example/wwo/marineweather/MarineWeather.java:32-39 | fails with InvalidLocation iff the location is not a LAT_AND_LONG location, whatever the caller meant |
| MarineWeather.MarineWeather.BuildRequestAttributes | src/main/java/com/example/wwo/marineweather/MarineWeather.java:49-54 | changes nothing; the request holds the parameters, the tier's marine path and the host |
| MarineWeather.MarineWeather.NeedForecastOutput | src/main/java/com/example/wwo/marineweather/MarineWeather.java:63-66 | only "fx" changes, to "yes" or "no" |
| MarineWeather.MarineWeather.SetFormat | src/main/java/com/example/wwo/marineweather/MarineWeather.java:76-80 | only "format" changes, to "xml" or "json" |
| MarineWeather.MarineWeather.SetCallback | src/main/java/com/example/wwo/marineweather/MarineWeather.java:89-92 | only "callback" changes, to the name as given |
| MarineWeather.MarineWeather.SetForecastTimeInterval | src/main/java/com/example/wwo/marineweather/MarineWeather.java:102-105 | only "tp" changes, to the decimal hours of the interval |
| MarineWeather.MarineWeather.NeedTideData | src/main/java/com/example/wwo/marineweather/MarineWeather.java:114-117 | only "tide" changes, to "yes" or "no" |
| MarineWeather.MarineWeather.SetOtherLanguage | src/main/java/com/example/wwo/marineweather/MarineWeather.java:126-129 | only "lang" changes, to the language's code |
| TimeZone.BaseUrl | src/main/java/com/example/wwo/timezone/TimeZone.java:95-117 | the path is the package prefix followed by tz.ashx: /premium/v1/tz.ashx or /free/v2/tz.ashx |
| TimeZone.TimeZone.Seed | src/main/java/com/example/wwo/timezone/TimeZone.java:43-46 | after validation the parameters are exactly {"key", "q"} |
| TimeZone.TimeZone.New | src/main/java/com/example/wwo/timezone/TimeZone.java:39-47 | fails with InvalidLocation iff the location does not match its type; otherwise a fresh builder holds exactly {"key", "q"} |
| TimeZone.TimeZone.BuildRequestAttributes | src/main/java/com/example/wwo/timezone/TimeZone.java:57-62 | changes nothing; the request holds the parameters, /premium/v1/tz.ashx or /free/v2/tz.ashx, and the host |
| TimeZone.TimeZone.SetFormat | src/main/java/com/example/wwo/timezone/TimeZone.java:72-75 | only "format" changes, to "xml" or "json" |
| TimeZone.TimeZone.SetCallback | src/main/java/com/example/wwo/timezone/TimeZone.java:84-87 | only "callback" changes, to the name as given |

## Left out

- `Request.run` (Request.java, lines 29-42): HTTP I/O through Apache HttpClient.
- `App.main`: a demonstration with console output.
- `Request`: built as a value snapshot of the map. Java stores a reference to the builder's live map, so setters called after `BuildRequestAttributes` are visible through an earlier request. This model does not capture that aliasing.
- `java.util.Date`: modelled as a calendar day (year, month, day) of the proleptic Gregorian calendar, year 1 onward.
  - Time of day and time zones are not modelled. `Date.before` against the parsed midnight of the start day is the strict day order.
  - The Julian calendar before 1582 and years before 1 are not modelled.
- `SimpleDateFormat`: modelled as zero-padded `yyyy-MM-dd`. Its shared static instance is not thread-safe, and concurrency is not modelled.
- Null arguments, the NullPointerExceptions they cause, and exception message texts are not modelled. Errors are modelled as `Error` values.
- The `Extra` enum of `Search` (Search.java, lines 172-198) is declared but never used by any method, so it is not modelled.
- The `Interval` enum of `SkiWeather` (SkiWeather.java, lines 219-250) is declared but never used. No ski method writes "tp".
- The Java regular expression engine is not modelled. Each fixed pattern is written out as its own recogniser.
