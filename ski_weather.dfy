/** The ski and mountain weather endpoint: a builder of the query
    parameters of `ski.ashx`. */
module SkiWeather {
  import opened Outcomes
  import opened Decimal
  import opened Strings
  import Dates
  import opened Location
  import opened Options
  import opened Formats
  import opened Extras
  import opened Requests

  /** The path of the endpoint in each package: the package's prefix and
      the endpoint's file. */
  function BaseUrl(p: PackageType): (path: string)
    ensures path == PackagePrefix(p) + "ski.ashx"
  {
    match p
    case Premium => "/premium/v1/ski.ashx"
    case Free => "/free/v2/ski.ashx"
  }

  /** Extra fields a response can be asked to include. */
  datatype Extra = IsDayTime

  const ExtraCodes: set<string> := {"isDayTime"}

  function ExtraCode(e: Extra): (c: string)
    ensures c in ExtraCodes && ',' !in c
  {
    match e
    case IsDayTime => "isDayTime"
  }

  /** The codes of `extras`, in order. */
  function ExtraCodeList(extras: seq<Extra>): (codes: seq<string>)
    ensures |codes| == |extras|
    ensures forall i :: 0 <= i < |codes| ==> codes[i] in ExtraCodes && ',' !in codes[i]
  {
    seq(|extras|, i requires 0 <= i < |extras| => ExtraCode(extras[i]))
  }

  /** Every parameter name the builder writes; there is no "tp". */
  const Keys: set<string> :=
    {"key", "q", "num_of_days", "extra", "date", "includeLocation", "format", "callback", "lang"}

  class SkiWeather {
    var parameters: map<string, string>
    const packageType: PackageType
    /** The type the location was validated against. */
    ghost const locationType: LocationType

    /** The parameters hold the key, a location accepted for its type and
        the text of a 32-bit number of days; every optional parameter holds
        a text its setter writes. */
    ghost predicate Valid()
      reads this
    {
      && parameters.Keys <= Keys
      && "key" in parameters && "q" in parameters && "num_of_days" in parameters
      && Accepts(locationType, parameters["q"])
      && (var n := ParseInt(parameters["num_of_days"]);
          n.Some? && -0x8000_0000 <= n.value <= 0x7fff_ffff)
      && ("extra" in parameters ==> IsExtraList(parameters["extra"], ExtraCodes))
      && ("date" in parameters ==>
            var d := Dates.ParseDate(parameters["date"]);
            d.Some? && Dates.IsCalendarDay(d.value))
      && ("includeLocation" in parameters ==> IsYesNo(parameters["includeLocation"]))
      && ("format" in parameters ==> FormatFromCode(parameters["format"]).Some?)
      && ("lang" in parameters ==> LanguageFromCode(parameters["lang"]).Some?)
    }

    /** The construction after the location check has passed. */
    constructor Seed(packageType: PackageType, key: string, locationType: LocationType, location: string,
                     numberOfDays: Int32)
      requires Accepts(locationType, location)
      ensures Valid()
      ensures this.packageType == packageType && this.locationType == locationType
      ensures parameters == map["key" := key, "q" := location, "num_of_days" := IntToString(numberOfDays)]
    {
      IntToStringRoundTrip(numberOfDays);
      this.packageType := packageType;
      this.locationType := locationType;
      parameters := map["key" := key, "q" := location, "num_of_days" := IntToString(numberOfDays)];
    }

    /** `new SkiWeather(...)`: fails with InvalidLocation exactly when the
        location does not match its type; the number of days is not
        checked. */
    static method New(packageType: PackageType, key: string, locationType: LocationType, location: string,
                      numberOfDays: Int32)
      returns (r: Result<SkiWeather>)
      ensures r.Err? <==> !Accepts(locationType, location)
      ensures r.Err? ==> r.error == InvalidLocation
      ensures r.Ok? ==> fresh(r.value) && r.value.Valid()
      ensures r.Ok? ==> r.value.packageType == packageType && r.value.locationType == locationType
      ensures r.Ok? ==> r.value.parameters
                        == map["key" := key, "q" := location, "num_of_days" := IntToString(numberOfDays)]
    {
      var check := ValidateLocation(locationType, location);
      if check.Fail? {
        return Err(check.error);
      }
      var s := new SkiWeather.Seed(packageType, key, locationType, location, numberOfDays);
      r := Ok(s);
    }

    /** The request for the current parameters; a valid builder's request
        carries the key, a location accepted for its type and the number of
        days. */
    method BuildRequestAttributes(scheme: string) returns (request: Request)
      ensures request == Request(parameters, BaseUrl(packageType), HostUrl, scheme)
      ensures Valid() ==> ("key" in request.requestParams && "q" in request.requestParams
                           && Accepts(locationType, request.requestParams["q"])
                           && "num_of_days" in request.requestParams)
    {
      request := Request(parameters, BaseUrl(packageType), HostUrl, scheme);
    }

    /** Sets "extra" to the comma-joined codes of `extras`, unless "extra"
        is already set, in which case nothing changes.  With no extras and
        no "extra" yet it fails and nothing changes. */
    method IncludeExtraInformations(extras: seq<Extra>) returns (r: Result<SkiWeather>)
      requires Valid()
      modifies this
      ensures Valid()
      ensures "extra" in old(parameters) ==> r == Ok(this) && parameters == old(parameters)
      ensures "extra" !in old(parameters) && extras == [] ==>
                r == Err(StringIndexOutOfBounds) && parameters == old(parameters)
      ensures "extra" !in old(parameters) && extras != [] ==>
                r == Ok(this) && parameters == old(parameters)["extra" := Join(ExtraCodeList(extras), ',')]
    {
      var existing := if "extra" in parameters then Some(parameters["extra"]) else None;
      var codes := ExtraCodeList(extras);
      var value := ExtraValue(existing, codes);
      if value.Err? {
        return Err(value.error);
      }
      if existing.None? {
        JoinIsExtraList(codes, ExtraCodes);
      }
      parameters := parameters["extra" := value.value];
      r := Ok(this);
    }

    /** Sets "date" to the text of `date`; the text reads back as `date`. */
    method Date(date: Dates.Day) returns (r: SkiWeather)
      requires Valid()
      modifies this
      ensures Valid() && r == this
      ensures parameters == old(parameters)["date" := Dates.FormatDate(date)]
      ensures Dates.ParseDate(parameters["date"]) == Some(date)
    {
      Dates.ParseFormatDate(date);
      parameters := parameters["date" := Dates.FormatDate(date)];
      r := this;
    }

    method IsIncludeLocation(includeLocation: bool) returns (r: SkiWeather)
      requires Valid()
      modifies this
      ensures Valid() && r == this
      ensures parameters == old(parameters)["includeLocation" := YesNo(includeLocation)]
    {
      parameters := parameters["includeLocation" := YesNo(includeLocation)];
      r := this;
    }

    method SetFormat(format: Format) returns (r: SkiWeather)
      requires Valid()
      modifies this
      ensures Valid() && r == this
      ensures parameters == old(parameters)["format" := FormatCode(format)]
    {
      FormatCodeRoundTrip(format);
      parameters := parameters["format" := FormatCode(format)];
      r := this;
    }

    method SetCallback(functionName: string) returns (r: SkiWeather)
      requires Valid()
      modifies this
      ensures Valid() && r == this
      ensures parameters == old(parameters)["callback" := functionName]
    {
      parameters := parameters["callback" := functionName];
      r := this;
    }

    method SetOtherLanguage(language: Language) returns (r: SkiWeather)
      requires Valid()
      modifies this
      ensures Valid() && r == this
      ensures parameters == old(parameters)["lang" := LanguageCode(language)]
    {
      LanguageCodeRoundTrip(language);
      parameters := parameters["lang" := LanguageCode(language)];
      r := this;
    }
  }
}
