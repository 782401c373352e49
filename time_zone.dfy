/** The time zone endpoint: a builder of the query parameters of
    `tz.ashx`. */
module TimeZone {
  import opened Outcomes
  import opened Location
  import opened Options
  import opened Formats
  import opened Requests

  /** The path of the endpoint in each package: the package's prefix and
      the endpoint's file. */
  function BaseUrl(p: PackageType): (path: string)
    ensures path == PackagePrefix(p) + "tz.ashx"
  {
    match p
    case Premium => "/premium/v1/tz.ashx"
    case Free => "/free/v2/tz.ashx"
  }

  /** Every parameter name the builder writes. */
  const Keys: set<string> := {"key", "q", "format", "callback"}

  class TimeZone {
    var parameters: map<string, string>
    const packageType: PackageType
    /** The type the location was validated against. */
    ghost const locationType: LocationType

    /** The parameters hold the key and a location accepted for its type,
        and a format, when present, is one the endpoint offers. */
    ghost predicate Valid()
      reads this
    {
      && parameters.Keys <= Keys
      && "key" in parameters && "q" in parameters
      && Accepts(locationType, parameters["q"])
      && ("format" in parameters ==> FormatFromCode(parameters["format"]).Some?)
    }

    /** The construction after the location check has passed. */
    constructor Seed(packageType: PackageType, key: string, locationType: LocationType, location: string)
      requires Accepts(locationType, location)
      ensures Valid()
      ensures this.packageType == packageType && this.locationType == locationType
      ensures parameters == map["key" := key, "q" := location]
    {
      this.packageType := packageType;
      this.locationType := locationType;
      parameters := map["key" := key, "q" := location];
    }

    /** `new TimeZone(...)`: fails with InvalidLocation exactly when the
        location does not match its type. */
    static method New(packageType: PackageType, key: string, locationType: LocationType, location: string)
      returns (r: Result<TimeZone>)
      ensures r.Err? <==> !Accepts(locationType, location)
      ensures r.Err? ==> r.error == InvalidLocation
      ensures r.Ok? ==> fresh(r.value) && r.value.Valid()
      ensures r.Ok? ==> r.value.packageType == packageType && r.value.locationType == locationType
      ensures r.Ok? ==> r.value.parameters == map["key" := key, "q" := location]
    {
      var check := ValidateLocation(locationType, location);
      if check.Fail? {
        return Err(check.error);
      }
      var t := new TimeZone.Seed(packageType, key, locationType, location);
      r := Ok(t);
    }

    /** The request for the current parameters; a valid builder's request
        carries the key and a location accepted for its type. */
    method BuildRequestAttributes(scheme: string) returns (request: Request)
      ensures request == Request(parameters, BaseUrl(packageType), HostUrl, scheme)
      ensures Valid() ==> ("key" in request.requestParams && "q" in request.requestParams
                           && Accepts(locationType, request.requestParams["q"]))
    {
      request := Request(parameters, BaseUrl(packageType), HostUrl, scheme);
    }

    method SetFormat(format: Format) returns (r: TimeZone)
      requires Valid()
      modifies this
      ensures Valid() && r == this
      ensures parameters == old(parameters)["format" := FormatCode(format)]
    {
      FormatCodeRoundTrip(format);
      parameters := parameters["format" := FormatCode(format)];
      r := this;
    }

    method SetCallback(functionName: string) returns (r: TimeZone)
      requires Valid()
      modifies this
      ensures Valid() && r == this
      ensures parameters == old(parameters)["callback" := functionName]
    {
      parameters := parameters["callback" := functionName];
      r := this;
    }
  }
}
