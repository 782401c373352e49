/** The past weather endpoint: a builder of the query parameters of
    `past-weather.ashx`, for one day or for a span of days within a month. */
module HistoricalWeather {
  import opened Outcomes
  import opened Decimal
  import opened Strings
  import opened Dates
  import opened Location
  import opened Options
  import opened Extras
  import opened Requests

  /** The path of the endpoint in each package: the package's prefix and
      the endpoint's file. */
  function BaseUrl(p: PackageType): (path: string)
    ensures path == PackagePrefix(p) + "past-weather.ashx"
  {
    match p
    case Premium => "/premium/v1/past-weather.ashx"
    case Free => "/free/v2/past-weather.ashx"
  }

  /** Extra fields a response can be asked to include. */
  datatype Extra = IsDayTime | UtcDateTime

  const ExtraCodes: set<string> := {"isDayTime", "utcDateTime"}

  function ExtraCode(e: Extra): (c: string)
    ensures c in ExtraCodes && ',' !in c
  {
    match e
    case IsDayTime => "isDayTime"
    case UtcDateTime => "utcDateTime"
  }

  /** The codes of `extras`, in order. */
  function ExtraCodeList(extras: seq<Extra>): (codes: seq<string>)
    ensures |codes| == |extras|
    ensures forall i :: 0 <= i < |codes| ==> codes[i] in ExtraCodes && ',' !in codes[i]
  {
    seq(|extras|, i requires 0 <= i < |extras| => ExtraCode(extras[i]))
  }

  datatype Format = Xml | Json | Csv | Tab

  function FormatCode(f: Format): (s: string)
    ensures s in {"xml", "json", "csv", "tab"}
  {
    match f
    case Xml => "xml"
    case Json => "json"
    case Csv => "csv"
    case Tab => "tab"
  }

  function FormatFromCode(s: string): (r: Option<Format>)
    ensures r.Some? ==> FormatCode(r.value) == s
  {
    if s == "xml" then Some(Xml) else if s == "json" then Some(Json)
    else if s == "csv" then Some(Csv) else if s == "tab" then Some(Tab) else None
  }

  lemma FormatCodeRoundTrip(f: Format)
    ensures FormatFromCode(FormatCode(f)) == Some(f)
  {
  }

  /** The end-date rule checked against the day of the "date" parameter, in
      the source's order: not before the day, then the same month, then the
      same year.  It passes exactly for the days from `start` to the end of
      its month. */
  function CheckEndDate(start: Day, end: Day): (r: Outcome)
    ensures r.Pass? <==> end.year == start.year && end.month == start.month && start.day <= end.day
    ensures r == Fail(EndDateBeforeDate) <==> Before(end, start)
    ensures r.Fail? ==> r.error in {EndDateBeforeDate, EndDateMonthMismatch, EndDateYearMismatch}
  {
    if Before(end, start) then Fail(EndDateBeforeDate)
    else if end.month != start.month then Fail(EndDateMonthMismatch)
    else if end.year != start.year then Fail(EndDateYearMismatch)
    else Pass
  }

  /** Every parameter name the builder writes. */
  const Keys: set<string> :=
    {"key", "q", "date", "extra", "enddate", "includeLocation", "tp", "format", "callback"}

  class HistoricalWeather {
    var parameters: map<string, string>
    const packageType: PackageType
    /** The type the location was validated against. */
    ghost const locationType: LocationType
    /** The day given at construction. */
    ghost const startDate: Day

    /** The parameters hold the key, a location accepted for its type and
        the text of the start day; an end day, when present, lies in the
        start day's month and not before it; every other optional parameter
        holds a text its setter writes. */
    ghost predicate Valid()
      reads this
    {
      && parameters.Keys <= Keys
      && "key" in parameters && "q" in parameters && "date" in parameters
      && Accepts(locationType, parameters["q"])
      && parameters["date"] == FormatDate(startDate)
      && ("enddate" in parameters ==>
            var e := ParseDate(parameters["enddate"]);
            e.Some? && IsCalendarDay(e.value) && CheckEndDate(startDate, e.value).Pass?)
      && ("extra" in parameters ==> IsExtraList(parameters["extra"], ExtraCodes))
      && ("includeLocation" in parameters ==> IsYesNo(parameters["includeLocation"]))
      && ("tp" in parameters ==> parameters["tp"] in TpCodes)
      && ("format" in parameters ==> FormatFromCode(parameters["format"]).Some?)
    }

    /** The construction after the location check has passed. */
    constructor Seed(packageType: PackageType, key: string, locationType: LocationType, location: string,
                     date: Day)
      requires Accepts(locationType, location)
      ensures Valid()
      ensures this.packageType == packageType && this.locationType == locationType && startDate == date
      ensures parameters == map["key" := key, "q" := location, "date" := FormatDate(date)]
    {
      this.packageType := packageType;
      this.locationType := locationType;
      startDate := date;
      parameters := map["key" := key, "q" := location, "date" := FormatDate(date)];
    }

    /** `new HistoricalWeather(...)`: fails with InvalidLocation exactly
        when the location does not match its type. */
    static method New(packageType: PackageType, key: string, locationType: LocationType, location: string,
                      date: Day)
      returns (r: Result<HistoricalWeather>)
      ensures r.Err? <==> !Accepts(locationType, location)
      ensures r.Err? ==> r.error == InvalidLocation
      ensures r.Ok? ==> fresh(r.value) && r.value.Valid()
      ensures r.Ok? ==> r.value.packageType == packageType && r.value.locationType == locationType
                        && r.value.startDate == date
      ensures r.Ok? ==> r.value.parameters == map["key" := key, "q" := location, "date" := FormatDate(date)]
    {
      var check := ValidateLocation(locationType, location);
      if check.Fail? {
        return Err(check.error);
      }
      var h := new HistoricalWeather.Seed(packageType, key, locationType, location, date);
      r := Ok(h);
    }

    /** The request for the current parameters; a valid builder's request
        carries the key, a location accepted for its type and the day. */
    method BuildRequestAttributes(scheme: string) returns (request: Request)
      ensures request == Request(parameters, BaseUrl(packageType), HostUrl, scheme)
      ensures Valid() ==> ("key" in request.requestParams && "q" in request.requestParams
                           && Accepts(locationType, request.requestParams["q"])
                           && "date" in request.requestParams
                           && ParseDate(request.requestParams["date"]) == Some(startDate))
    {
      if Valid() {
        ParseFormatDate(startDate);
      }
      request := Request(parameters, BaseUrl(packageType), HostUrl, scheme);
    }

    /** Sets "extra" to the comma-joined codes of `extras`, unless "extra"
        is already set, in which case nothing changes.  With no extras and
        no "extra" yet it fails and nothing changes. */
    method IncludeExtraInformations(extras: seq<Extra>) returns (r: Result<HistoricalWeather>)
      requires Valid()
      modifies this
      ensures Valid()
      ensures "extra" in old(parameters) ==> r == Ok(this) && parameters == old(parameters)
      ensures "extra" !in old(parameters) && extras == [] ==>
                r == Err(StringIndexOutOfBounds) && parameters == old(parameters)
      ensures "extra" !in old(parameters) && extras != [] ==>
                r == Ok(this) && parameters == old(parameters)["extra" := Join(ExtraCodeList(extras), ',')]
    {
      var existing := if "extra" in parameters then Some(parameters["extra"]) else None;
      var codes := ExtraCodeList(extras);
      var value := ExtraValue(existing, codes);
      if value.Err? {
        return Err(value.error);
      }
      if existing.None? {
        JoinIsExtraList(codes, ExtraCodes);
      }
      parameters := parameters["extra" := value.value];
      r := Ok(this);
    }

    /** Sets "enddate" when `endDate` is in the month of the start day and
        not before it; otherwise fails with the first rule broken and changes
        nothing.  The rule is checked against the "date" parameter read back;
        were it unreadable the check would be skipped. */
    method SetEndDate(endDate: Day) returns (r: Result<HistoricalWeather>)
      requires Valid()
      modifies this
      ensures Valid()
      ensures r.Ok? <==> CheckEndDate(startDate, endDate).Pass?
      ensures r.Ok? ==> r.value == this && parameters == old(parameters)["enddate" := FormatDate(endDate)]
      ensures r.Err? ==> r.error == CheckEndDate(startDate, endDate).error && parameters == old(parameters)
    {
      ParseFormatDate(startDate);
      var parsed := ParseDate(parameters["date"]);
      if parsed.Some? {
        var date := parsed.value;
        if Before(endDate, date) {
          return Err(EndDateBeforeDate);
        } else if endDate.month != date.month {
          return Err(EndDateMonthMismatch);
        } else if endDate.year != date.year {
          return Err(EndDateYearMismatch);
        }
      }
      ParseFormatDate(endDate);
      parameters := parameters["enddate" := FormatDate(endDate)];
      r := Ok(this);
    }

    method IsIncludeLocation(includeLocation: bool) returns (r: HistoricalWeather)
      requires Valid()
      modifies this
      ensures Valid() && r == this
      ensures parameters == old(parameters)["includeLocation" := YesNo(includeLocation)]
    {
      parameters := parameters["includeLocation" := YesNo(includeLocation)];
      r := this;
    }

    method SetForecastTimeInterval(interval: Interval) returns (r: HistoricalWeather)
      requires Valid()
      modifies this
      ensures Valid() && r == this
      ensures parameters == old(parameters)["tp" := IntToString(IntervalHours(interval))]
    {
      parameters := parameters["tp" := IntToString(IntervalHours(interval))];
      r := this;
    }

    method SetFormat(format: Format) returns (r: HistoricalWeather)
      requires Valid()
      modifies this
      ensures Valid() && r == this
      ensures parameters == old(parameters)["format" := FormatCode(format)]
    {
      FormatCodeRoundTrip(format);
      parameters := parameters["format" := FormatCode(format)];
      r := this;
    }

    method SetCallback(functionName: string) returns (r: HistoricalWeather)
      requires Valid()
      modifies this
      ensures Valid() && r == this
      ensures parameters == old(parameters)["callback" := functionName]
    {
      parameters := parameters["callback" := functionName];
      r := this;
    }
  }

  /** Passing the same extra twice repeats its code. */
  lemma RepeatedExtraKept()
    ensures Join(ExtraCodeList([IsDayTime, IsDayTime]), ',') == "isDayTime,isDayTime"
  {
    assert ExtraCodeList([IsDayTime, IsDayTime]) == ["isDayTime", "isDayTime"];
  }
}
