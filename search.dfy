/** The location search endpoint: a builder of the query parameters of
    `search.ashx`. */
module Search {
  import opened Outcomes
  import opened Decimal
  import opened Location
  import opened Options
  import opened Requests

  /** The path of the endpoint in each package: the package's prefix and
      the endpoint's file. */
  function BaseUrl(p: PackageType): (path: string)
    ensures path == PackagePrefix(p) + "search.ashx"
  {
    match p
    case Premium => "/premium/v1/search.ashx"
    case Free => "/free/v2/search.ashx"
  }

  datatype Format = Xml | Json | Tab

  /** There is no csv. */
  function FormatCode(f: Format): (s: string)
    ensures s in {"xml", "json", "tab"}
  {
    match f
    case Xml => "xml"
    case Json => "json"
    case Tab => "tab"
  }

  function FormatFromCode(s: string): (r: Option<Format>)
    ensures r.Some? ==> FormatCode(r.value) == s
  {
    if s == "xml" then Some(Xml) else if s == "json" then Some(Json)
    else if s == "tab" then Some(Tab) else None
  }

  lemma FormatCodeRoundTrip(f: Format)
    ensures FormatFromCode(FormatCode(f)) == Some(f)
  {
  }

  /** Categories of nearby places ("wct"). */
  datatype Category = Ski | Cricket | Football | Golf | Fishing

  function CategoryCode(c: Category): (s: string)
    ensures s in {"Ski", "Cricket", "Football", "Golf", "Fishing"}
  {
    match c
    case Ski => "Ski"
    case Cricket => "Cricket"
    case Football => "Football"
    case Golf => "Golf"
    case Fishing => "Fishing"
  }

  function CategoryFromCode(s: string): (r: Option<Category>)
    ensures r.Some? ==> CategoryCode(r.value) == s
  {
    if s == "Ski" then Some(Ski) else if s == "Cricket" then Some(Cricket)
    else if s == "Football" then Some(Football) else if s == "Golf" then Some(Golf)
    else if s == "Fishing" then Some(Fishing) else None
  }

  lemma CategoryCodeRoundTrip(c: Category)
    ensures CategoryFromCode(CategoryCode(c)) == Some(c)
  {
  }

  /** The number of results a package lets a search ask for: 1 to 3 in
      the free package, 1 to 50 in the premium one. */
  predicate NumOfResultsAllowed(p: PackageType, n: int)
    ensures NumOfResultsAllowed(p, n) ==> 1 <= n <= 50
    ensures 1 <= n <= 3 ==> NumOfResultsAllowed(p, n)
  {
    match p
    case Free => 1 <= n <= 3
    case Premium => 1 <= n <= 50
  }

  /** Every parameter name the builder writes. */
  const Keys: set<string> := {"key", "query", "num_of_results", "timezone", "popular", "format", "wct"}

  class Search {
    var parameters: map<string, string>
    const packageType: PackageType
    /** The type the location was validated against. */
    ghost const locationType: LocationType

    /** The parameters hold the key and a location accepted for its type,
        and every optional parameter holds a text its setter writes. */
    ghost predicate Valid()
      reads this
    {
      && parameters.Keys <= Keys
      && "key" in parameters && "query" in parameters
      && Accepts(locationType, parameters["query"])
      && ("num_of_results" in parameters ==>
            var n := ParseInt(parameters["num_of_results"]);
            n.Some? && NumOfResultsAllowed(packageType, n.value))
      && ("timezone" in parameters ==> IsYesNo(parameters["timezone"]))
      && ("popular" in parameters ==> IsYesNo(parameters["popular"]))
      && ("format" in parameters ==> FormatFromCode(parameters["format"]).Some?)
      && ("wct" in parameters ==> CategoryFromCode(parameters["wct"]).Some?)
    }

    /** The construction after the location check has passed. */
    constructor Seed(packageType: PackageType, key: string, locationType: LocationType, location: string)
      requires Accepts(locationType, location)
      ensures Valid()
      ensures this.packageType == packageType && this.locationType == locationType
      ensures parameters == map["key" := key, "query" := location]
    {
      this.packageType := packageType;
      this.locationType := locationType;
      parameters := map["key" := key, "query" := location];
    }

    /** `new Search(...)`: fails with InvalidLocation exactly when the
        location does not match its type. */
    static method New(packageType: PackageType, key: string, locationType: LocationType, location: string)
      returns (r: Result<Search>)
      ensures r.Err? <==> !Accepts(locationType, location)
      ensures r.Err? ==> r.error == InvalidLocation
      ensures r.Ok? ==> fresh(r.value) && r.value.Valid()
      ensures r.Ok? ==> r.value.packageType == packageType && r.value.locationType == locationType
      ensures r.Ok? ==> r.value.parameters == map["key" := key, "query" := location]
    {
      var check := ValidateLocation(locationType, location);
      if check.Fail? {
        return Err(check.error);
      }
      var s := new Search.Seed(packageType, key, locationType, location);
      r := Ok(s);
    }

    /** The request for the current parameters; a valid builder's request
        carries the key and a location accepted for its type. */
    method BuildRequestAttributes(scheme: string) returns (request: Request)
      ensures request == Request(parameters, BaseUrl(packageType), HostUrl, scheme)
      ensures Valid() ==> ("key" in request.requestParams && "query" in request.requestParams
                           && Accepts(locationType, request.requestParams["query"]))
    {
      request := Request(parameters, BaseUrl(packageType), HostUrl, scheme);
    }

    /** Sets "num_of_results" when the package allows the number, and
        otherwise fails and leaves the parameters as they were. */
    method SetNumOfResults(numOfResults: Int32) returns (r: Result<Search>)
      requires Valid()
      modifies this
      ensures Valid()
      ensures r.Ok? <==> NumOfResultsAllowed(packageType, numOfResults)
      ensures r.Ok? ==> r.value == this && parameters == old(parameters)["num_of_results" := IntToString(numOfResults)]
      ensures r.Err? ==> r.error == NumOfResultsOutOfRange && parameters == old(parameters)
    {
      if packageType == Free && (numOfResults > 3 || numOfResults < 1) {
        r := Err(NumOfResultsOutOfRange);
      } else if packageType == Premium && (numOfResults > 50 || numOfResults < 1) {
        r := Err(NumOfResultsOutOfRange);
      } else {
        IntToStringRoundTrip(numOfResults);
        parameters := parameters["num_of_results" := IntToString(numOfResults)];
        r := Ok(this);
      }
    }

    method NeedTimeZone(timezone: bool) returns (r: Search)
      requires Valid()
      modifies this
      ensures Valid() && r == this
      ensures parameters == old(parameters)["timezone" := YesNo(timezone)]
    {
      parameters := parameters["timezone" := YesNo(timezone)];
      r := this;
    }

    method OnlyPopularLocations(popular: bool) returns (r: Search)
      requires Valid()
      modifies this
      ensures Valid() && r == this
      ensures parameters == old(parameters)["popular" := YesNo(popular)]
    {
      parameters := parameters["popular" := YesNo(popular)];
      r := this;
    }

    method SetFormat(format: Format) returns (r: Search)
      requires Valid()
      modifies this
      ensures Valid() && r == this
      ensures parameters == old(parameters)["format" := FormatCode(format)]
    {
      FormatCodeRoundTrip(format);
      parameters := parameters["format" := FormatCode(format)];
      r := this;
    }

    method SetTypeOfCategory(category: Category) returns (r: Search)
      requires Valid()
      modifies this
      ensures Valid() && r == this
      ensures parameters == old(parameters)["wct" := CategoryCode(category)]
    {
      CategoryCodeRoundTrip(category);
      parameters := parameters["wct" := CategoryCode(category)];
      r := this;
    }
  }
}
