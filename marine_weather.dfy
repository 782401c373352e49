/** The marine weather endpoint: a builder of the query parameters of
    `marine.ashx`, for a latitude/longitude location only. */
module MarineWeather {
  import opened Outcomes
  import opened Decimal
  import opened Location
  import opened Options
  import opened Formats
  import opened Requests

  /** The path of the endpoint in each package: the package's prefix and
      the endpoint's file. */
  function BaseUrl(p: PackageType): (path: string)
    ensures path == PackagePrefix(p) + "marine.ashx"
  {
    match p
    case Premium => "/premium/v1/marine.ashx"
    case Free => "/free/v2/marine.ashx"
  }

  /** Every parameter name the builder writes. */
  const Keys: set<string> := {"key", "q", "fx", "format", "callback", "tp", "tide", "lang"}

  class MarineWeather {
    var parameters: map<string, string>
    const packageType: PackageType

    /** The parameters hold the key and a latitude/longitude location, and
        every optional parameter holds a text its setter writes. */
    ghost predicate Valid()
      reads this
    {
      && parameters.Keys <= Keys
      && "key" in parameters && "q" in parameters
      && Accepts(LatAndLong, parameters["q"])
      && ("fx" in parameters ==> IsYesNo(parameters["fx"]))
      && ("format" in parameters ==> FormatFromCode(parameters["format"]).Some?)
      && ("tp" in parameters ==> parameters["tp"] in TpCodes)
      && ("tide" in parameters ==> IsYesNo(parameters["tide"]))
      && ("lang" in parameters ==> LanguageFromCode(parameters["lang"]).Some?)
    }

    /** The construction after the location check has passed. */
    constructor Seed(packageType: PackageType, key: string, location: string)
      requires Accepts(LatAndLong, location)
      ensures Valid() && this.packageType == packageType
      ensures parameters == map["key" := key, "q" := location]
    {
      this.packageType := packageType;
      parameters := map["key" := key, "q" := location];
    }

    /** `new MarineWeather(...)`: fails with InvalidLocation exactly when
        the location is not a latitude/longitude pair. */
    static method New(packageType: PackageType, key: string, location: string)
      returns (r: Result<MarineWeather>)
      ensures r.Err? <==> !Accepts(LatAndLong, location)
      ensures r.Err? ==> r.error == InvalidLocation
      ensures r.Ok? ==> fresh(r.value) && r.value.Valid() && r.value.packageType == packageType
      ensures r.Ok? ==> r.value.parameters == map["key" := key, "q" := location]
    {
      var check := ValidateLocation(LatAndLong, location);
      if check.Fail? {
        return Err(check.error);
      }
      var m := new MarineWeather.Seed(packageType, key, location);
      r := Ok(m);
    }

    /** The request for the current parameters; a valid builder's request
        carries the key and a latitude/longitude location. */
    method BuildRequestAttributes(scheme: string) returns (request: Request)
      ensures request == Request(parameters, BaseUrl(packageType), HostUrl, scheme)
      ensures Valid() ==> ("key" in request.requestParams && "q" in request.requestParams
                           && Accepts(LatAndLong, request.requestParams["q"]))
    {
      request := Request(parameters, BaseUrl(packageType), HostUrl, scheme);
    }

    method NeedForecastOutput(fx: bool) returns (r: MarineWeather)
      requires Valid()
      modifies this
      ensures Valid() && r == this
      ensures parameters == old(parameters)["fx" := YesNo(fx)]
    {
      parameters := parameters["fx" := YesNo(fx)];
      r := this;
    }

    method SetFormat(format: Format) returns (r: MarineWeather)
      requires Valid()
      modifies this
      ensures Valid() && r == this
      ensures parameters == old(parameters)["format" := FormatCode(format)]
    {
      FormatCodeRoundTrip(format);
      parameters := parameters["format" := FormatCode(format)];
      r := this;
    }

    method SetCallback(functionName: string) returns (r: MarineWeather)
      requires Valid()
      modifies this
      ensures Valid() && r == this
      ensures parameters == old(parameters)["callback" := functionName]
    {
      parameters := parameters["callback" := functionName];
      r := this;
    }

    method SetForecastTimeInterval(interval: Interval) returns (r: MarineWeather)
      requires Valid()
      modifies this
      ensures Valid() && r == this
      ensures parameters == old(parameters)["tp" := IntToString(IntervalHours(interval))]
    {
      parameters := parameters["tp" := IntToString(IntervalHours(interval))];
      r := this;
    }

    method NeedTideData(tide: bool) returns (r: MarineWeather)
      requires Valid()
      modifies this
      ensures Valid() && r == this
      ensures parameters == old(parameters)["tide" := YesNo(tide)]
    {
      parameters := parameters["tide" := YesNo(tide)];
      r := this;
    }

    method SetOtherLanguage(language: Language) returns (r: MarineWeather)
      requires Valid()
      modifies this
      ensures Valid() && r == this
      ensures parameters == old(parameters)["lang" := LanguageCode(language)]
    {
      LanguageCodeRoundTrip(language);
      parameters := parameters["lang" := LanguageCode(language)];
      r := this;
    }
  }
}
