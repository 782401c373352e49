/** Option tables shared by several endpoints.  Each Java endpoint class
    declares its own copy of these enums (PackageType in all five, Interval in
    HistoricalWeather, SkiWeather and MarineWeather, Language in SkiWeather
    and MarineWeather); the copies hold the same constants, so each is
    modelled once here.  The base path a PackageType stands for differs per
    endpoint and is given by that endpoint's `BaseUrl`. */
module Options {
  import opened Outcomes
  import opened Decimal

  /** The API package. */
  datatype PackageType = Premium | Free

  /** The part of every base path that names the package; each endpoint's
      path is this prefix followed by its own `.ashx` file. */
  function PackagePrefix(p: PackageType): (s: string)
    ensures |s| >= 2 && s[0] == '/' && s[|s| - 1] == '/'
    ensures '.' !in s
  {
    match p
    case Premium => "/premium/v1/"
    case Free => "/free/v2/"
  }

  /** The two packages have different prefixes. */
  lemma PackagePrefixesDiffer()
    ensures PackagePrefix(Premium) != PackagePrefix(Free)
  {
    assert PackagePrefix(Premium)[1] != PackagePrefix(Free)[1];
  }

  /** The text a boolean option is sent as: `b ? "yes" : "no"`. */
  function YesNo(b: bool): (s: string)
    ensures IsYesNo(s) && (s == "yes" <==> b)
  {
    if b then "yes" else "no"
  }

  predicate IsYesNo(s: string) {
    s == "yes" || s == "no"
  }

  /** Reads back the text of a boolean option. */
  function YesNoFromCode(s: string): (r: Option<bool>)
    ensures r.Some? <==> IsYesNo(s)
    ensures r.Some? ==> YesNo(r.value) == s
  {
    if s == "yes" then Some(true) else if s == "no" then Some(false) else None
  }

  lemma YesNoRoundTrip(b: bool)
    ensures YesNoFromCode(YesNo(b)) == Some(b)
  {
  }

  /** Forecast time intervals (TWELVE_HOURLE and DAY_AVARAGE in the source). */
  datatype Interval = OneHour | ThreeHourly | SixHourly | TwelveHourly | DayAverage

  /** The texts "tp" can hold. */
  const TpCodes: set<string> := {"1", "3", "6", "12", "24"}

  /** The interval's hours; the "tp" text is their `String.valueOf`. */
  function IntervalHours(i: Interval): (h: nat)
    ensures IntToString(h) in TpCodes
  {
    match i
    case OneHour => 1
    case ThreeHourly => 3
    case SixHourly => 6
    case TwelveHourly => assert NatToString(12) == NatToString(1) + [DigitChar(2)] == "12"; 12
    case DayAverage => assert NatToString(24) == NatToString(2) + [DigitChar(4)] == "24"; 24
  }

  /** Reads back the interval from its hours. */
  function IntervalFromHours(h: int): (r: Option<Interval>)
    ensures r.Some? ==> IntervalHours(r.value) == h
  {
    if h == 1 then Some(OneHour)
    else if h == 3 then Some(ThreeHourly)
    else if h == 6 then Some(SixHourly)
    else if h == 12 then Some(TwelveHourly)
    else if h == 24 then Some(DayAverage)
    else None
  }

  /** Distinct intervals are sent as distinct "tp" texts. */
  lemma IntervalCodeRoundTrip(i: Interval)
    ensures ParseInt(IntToString(IntervalHours(i))) == Some(IntervalHours(i) as int)
    ensures IntervalFromHours(IntervalHours(i)) == Some(i)
  {
    IntToStringRoundTrip(IntervalHours(i));
  }

  /** Languages of the weather description. */
  datatype Language =
    | Arabic
    | Bengali
    | Bulgarian
    | ChineseSimplified
    | ChineseTraditional
    | Czech
    | Dutch
    | Finnish
    | French
    | German
    | Greek
    | Hindi
    | Hungarian
    | Italian
    | Japanese
    | Javanese
    | Korean
    | Mandarin
    | Marathi
    | Polish
    | Portuguese
    | Punjabi
    | Romanian
    | Russian
    | Serbian
    | Sinhalese
    | Slovak
    | Spanish
    | Swedish
    | Tamil
    | Telugu
    | Turkish
    | Ukrainian
    | Urdu
    | Vietnamese
    | WuShanghainese
    | Xiang
    | YueCantonese
    | Zulu

  /** A two-letter code, or a Chinese variant written `zh_` and a suffix. */
  function LanguageCode(l: Language): (s: string)
    ensures |s| == 2 || (|s| > 3 && s[..3] == "zh_")
  {
    match l
    case Arabic => "ar"
    case Bengali => "bn"
    case Bulgarian => "bg"
    case ChineseSimplified => "zh"
    case ChineseTraditional => "zh_tw"
    case Czech => "cs"
    case Dutch => "nl"
    case Finnish => "fi"
    case French => "fr"
    case German => "de"
    case Greek => "el"
    case Hindi => "hi"
    case Hungarian => "hu"
    case Italian => "it"
    case Japanese => "ja"
    case Javanese => "jv"
    case Korean => "ko"
    case Mandarin => "zh_cmn"
    case Marathi => "mr"
    case Polish => "pl"
    case Portuguese => "pt"
    case Punjabi => "pa"
    case Romanian => "ro"
    case Russian => "ru"
    case Serbian => "sr"
    case Sinhalese => "si"
    case Slovak => "sk"
    case Spanish => "es"
    case Swedish => "sv"
    case Tamil => "ta"
    case Telugu => "te"
    case Turkish => "tr"
    case Ukrainian => "uk"
    case Urdu => "ur"
    case Vietnamese => "vi"
    case WuShanghainese => "zh_wuu"
    case Xiang => "zh_hsn"
    case YueCantonese => "zh_yue"
    case Zulu => "zu"
  }

  /** Reads back a language from its code. */
  function LanguageFromCode(s: string): (r: Option<Language>)
    ensures r.Some? ==> LanguageCode(r.value) == s
  {
    if |s| == 2 then LanguageFromLetters(s[0], s[1])
    else if s == "zh_tw" then Some(ChineseTraditional)
    else if s == "zh_cmn" then Some(Mandarin)
    else if s == "zh_wuu" then Some(WuShanghainese)
    else if s == "zh_hsn" then Some(Xiang)
    else if s == "zh_yue" then Some(YueCantonese)
    else None
  }

  /** The language of a two-letter code. */
  function LanguageFromLetters(a: char, b: char): (r: Option<Language>)
    ensures r.Some? ==> var c := LanguageCode(r.value); |c| == 2 && c[0] == a && c[1] == b
  {
    if a <= 'f' then LanguageFromLettersAToF(a, b)
    else if a <= 'p' then LanguageFromLettersGToP(a, b)
    else LanguageFromLettersQToZ(a, b)
  }

  /** Two-letter codes starting with a to f. */
  function LanguageFromLettersAToF(a: char, b: char): (r: Option<Language>)
    ensures r.Some? ==> var c := LanguageCode(r.value); |c| == 2 && c[0] == a && c[1] == b
  {
    if a == 'a' then if b == 'r' then Some(Arabic) else None
    else if a == 'b' then if b == 'n' then Some(Bengali) else if b == 'g' then Some(Bulgarian) else None
    else if a == 'c' then if b == 's' then Some(Czech) else None
    else if a == 'f' then if b == 'i' then Some(Finnish) else if b == 'r' then Some(French) else None
    else if a == 'd' then if b == 'e' then Some(German) else None
    else if a == 'e' then if b == 'l' then Some(Greek) else if b == 's' then Some(Spanish) else None
    else None
  }

  /** Two-letter codes starting with g to p. */
  function LanguageFromLettersGToP(a: char, b: char): (r: Option<Language>)
    ensures r.Some? ==> var c := LanguageCode(r.value); |c| == 2 && c[0] == a && c[1] == b
  {
    if a == 'n' then if b == 'l' then Some(Dutch) else None
    else if a == 'h' then if b == 'i' then Some(Hindi) else if b == 'u' then Some(Hungarian) else None
    else if a == 'i' then if b == 't' then Some(Italian) else None
    else if a == 'j' then if b == 'a' then Some(Japanese) else if b == 'v' then Some(Javanese) else None
    else if a == 'k' then if b == 'o' then Some(Korean) else None
    else if a == 'm' then if b == 'r' then Some(Marathi) else None
    else if a == 'p' then if b == 'l' then Some(Polish) else if b == 't' then Some(Portuguese) else if b == 'a' then Some(Punjabi) else None
    else None
  }

  /** Two-letter codes starting with q to z. */
  function LanguageFromLettersQToZ(a: char, b: char): (r: Option<Language>)
    ensures r.Some? ==> var c := LanguageCode(r.value); |c| == 2 && c[0] == a && c[1] == b
  {
    if a == 'z' then if b == 'h' then Some(ChineseSimplified) else if b == 'u' then Some(Zulu) else None
    else if a == 'r' then if b == 'o' then Some(Romanian) else if b == 'u' then Some(Russian) else None
    else if a == 's' then if b == 'r' then Some(Serbian) else if b == 'i' then Some(Sinhalese) else if b == 'k' then Some(Slovak) else if b == 'v' then Some(Swedish) else None
    else if a == 't' then if b == 'a' then Some(Tamil) else if b == 'e' then Some(Telugu) else if b == 'r' then Some(Turkish) else None
    else if a == 'u' then if b == 'k' then Some(Ukrainian) else if b == 'r' then Some(Urdu) else None
    else if a == 'v' then if b == 'i' then Some(Vietnamese) else None
    else None
  }

  /** Every language code reads back as its language: no two languages
      share a code. */
  lemma LanguageCodeRoundTrip(l: Language)
    ensures LanguageFromCode(LanguageCode(l)) == Some(l)
  {
  }
}

/** The XML/JSON output format that SkiWeather, MarineWeather and TimeZone
    each declare; Search and HistoricalWeather declare wider ones. */
module Formats {
  import opened Outcomes

  datatype Format = Xml | Json

  function FormatCode(f: Format): (s: string)
    ensures s in {"xml", "json"}
  {
    match f
    case Xml => "xml"
    case Json => "json"
  }

  function FormatFromCode(s: string): (r: Option<Format>)
    ensures r.Some? ==> FormatCode(r.value) == s
  {
    if s == "xml" then Some(Xml) else if s == "json" then Some(Json) else None
  }

  lemma FormatCodeRoundTrip(f: Format)
    ensures FormatFromCode(FormatCode(f)) == Some(f)
  {
  }
}
