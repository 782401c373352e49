/** `Location.validateLocation`: the location string a caller passes to an
    endpoint builder must match, as a whole (Java's `String.matches`), the
    fixed pattern of its location type.  Each pattern is written out below as
    a recogniser that follows the regular expression piece by piece. */
module Location {
  import opened Outcomes
  import opened Decimal
  import opened Strings

  datatype LocationType =
    | City
    | IpAddress
    | UkPostalCode
    | CanadaPostalCode
    | UsZipcode
    | LatAndLong

  predicate IsUpper(c: char) { 'A' <= c <= 'Z' }

  predicate IsLower(c: char) { 'a' <= c <= 'z' }

  // ---------------------------------------------------------------- CITY
  // Any number of ASCII letters, digits, commas and spaces.

  predicate IsCityChar(c: char) {
    IsLower(c) || IsUpper(c) || IsDigit(c) || c == ',' || c == ' '
  }

  predicate CityPattern(s: string) {
    forall i :: 0 <= i < |s| ==> IsCityChar(s[i])
  }

  // ---------------------------------------------------------- IP_ADDRESS
  // Four octets joined by literal dots; an octet is one of three alternatives.

  predicate OctetPattern(o: string) {
    // an optional 0 or 1, a digit and an optional digit
    || (|o| == 1 && IsDigit(o[0]))
    || (|o| == 2 && (o[0] in {'0', '1'} || IsDigit(o[0])) && IsDigit(o[1]))
    || (|o| == 3 && o[0] in {'0', '1'} && IsDigit(o[1]) && IsDigit(o[2]))
    // 2, a digit from 0 to 4, a digit
    || (|o| == 3 && o[0] == '2' && '0' <= o[1] <= '4' && IsDigit(o[2]))
    // 25 and a digit from 0 to 5
    || (|o| == 3 && o[0] == '2' && o[1] == '5' && '0' <= o[2] <= '5')
  }

  /** No octet contains a '.', so the dots of a match are exactly its three
      separators: the string matches iff it has four dot-free fields, each
      an octet. */
  predicate IpAddressPattern(s: string) {
    var f := Split(s, '.');
    |f| == 4 && OctetPattern(f[0]) && OctetPattern(f[1]) && OctetPattern(f[2]) && OctetPattern(f[3])
  }

  // ------------------------------------------------------ UK_POSTAL_CODE
  // One or two capitals, a digit or R, an optional digit or capital, an
  // optional space, a digit and two inward letters.

  /** Java reads `[A-Z-[CIKMOV]]` as the union of A-Z, '-', and C, I, K, M,
      O, V: nothing is subtracted. */
  predicate IsUkInwardLetter(c: char) {
    IsUpper(c) || c == '-' || c in {'C', 'I', 'K', 'M', 'O', 'V'}
  }

  /** The match with `n` leading letters, `o` optional digits-or-letters and
      `p` optional spaces. */
  predicate UkPostalCodeShape(s: string, n: int, o: int, p: int) {
    && 1 <= n <= 2 && 0 <= o <= 1 && 0 <= p <= 1
    && |s| == n + 1 + o + p + 3
    && (forall j :: 0 <= j < n ==> IsUpper(s[j]))
    && (IsDigit(s[n]) || s[n] == 'R')
    && (o == 1 ==> IsDigit(s[n + 1]) || IsUpper(s[n + 1]))
    && (p == 1 ==> s[n + 1 + o] == ' ')
    && IsDigit(s[|s| - 3])
    && IsUkInwardLetter(s[|s| - 2])
    && IsUkInwardLetter(s[|s| - 1])
  }

  predicate UkPostalCodePattern(s: string) {
    exists n, o, p | 1 <= n <= 2 && 0 <= o <= 1 && 0 <= p <= 1 :: UkPostalCodeShape(s, n, o, p)
  }

  // -------------------------------------------------- CANADA_POSTAL_CODE
  // Letter, digit, letter, an optional space, digit, letter, digit, from the
  // letter sets of the Canadian postal alphabet.

  predicate IsCanadaFirstLetter(c: char) {
    c in {'A', 'B', 'C', 'E', 'F', 'G', 'H', 'J', 'K', 'L', 'M', 'N', 'P', 'R', 'S', 'T', 'V', 'X', 'Y'}
  }

  predicate IsCanadaLetter(c: char) {
    c in {'A', 'B', 'C', 'E', 'F', 'G', 'H', 'J', 'K', 'L', 'M', 'N', 'P', 'R', 'S', 'T', 'V', 'W', 'X', 'Y', 'Z'}
  }

  /** The forward sortation area: letter, digit, letter. */
  predicate CanadaFsa(t: string) {
    |t| == 3 && IsCanadaFirstLetter(t[0]) && IsDigit(t[1]) && IsCanadaLetter(t[2])
  }

  /** The local delivery unit: digit, letter, digit. */
  predicate CanadaLdu(t: string) {
    |t| == 3 && IsDigit(t[0]) && IsCanadaLetter(t[1]) && IsDigit(t[2])
  }

  predicate CanadaPostalCodePattern(s: string) {
    || (|s| == 6 && CanadaFsa(s[..3]) && CanadaLdu(s[3..]))
    || (|s| == 7 && CanadaFsa(s[..3]) && s[3] == ' ' && CanadaLdu(s[4..]))
  }

  // ---------------------------------------------------------- US_ZIPCODE
  // Five digits, optionally followed by a dash and four digits.

  predicate UsZipcodePattern(s: string) {
    || (|s| == 5 && AllDigits(s))
    || (|s| == 10 && AllDigits(s[..5]) && s[5] == '-' && AllDigits(s[6..]))
  }

  // -------------------------------------------------------- LAT_AND_LONG
  // An optionally signed latitude, a comma, optional white space and an
  // optionally signed longitude.

  /** Java's unescaped `.`: any character but a line terminator. */
  predicate IsAnyChar(c: char) {
    c != '\n' && c != '\r' && c != '\U{85}' && c != '\U{2028}' && c != '\U{2029}'
  }

  /** The white space allowed after the comma: space, tab, line feed,
      backspace, carriage return and form feed. */
  predicate IsLatLongSpace(c: char) {
    c == ' ' || c == '\t' || c == '\n' || c == '\U{8}' || c == '\r' || c == '\U{C}'
  }

  predicate IsSign(c: char) { c == '-' || c == '+' }

  /** Latitude degrees: a digit, optionally preceded by a digit from 1 to 8. */
  predicate LatDegrees(t: string) {
    || (|t| == 1 && IsDigit(t[0]))
    || (|t| == 2 && '1' <= t[0] <= '8' && IsDigit(t[1]))
  }

  /** Longitude degrees: 1, a digit from 0 to 7 and a digit; or a digit
      optionally preceded by a digit from 1 to 9. */
  predicate LongDegrees(t: string) {
    || (|t| == 3 && t[0] == '1' && '0' <= t[1] <= '7' && IsDigit(t[2]))
    || (|t| == 1 && IsDigit(t[0]))
    || (|t| == 2 && '1' <= t[0] <= '9' && IsDigit(t[1]))
  }

  /** A fraction: any separator character, then exactly three digits. */
  predicate ThreeDecimals(t: string) {
    |t| == 4 && IsAnyChar(t[0]) && AllDigits(t[1..])
  }

  /** A zero fraction: any separator character, then one or more zeros. */
  predicate ZeroDecimals(t: string) {
    |t| >= 2 && IsAnyChar(t[0]) && forall i :: 1 <= i < |t| ==> t[i] == '0'
  }

  /** Latitude: degrees with an optional three-digit fraction, or 90 with an
      optional zero fraction. */
  predicate Latitude(t: string) {
    || LatDegrees(t)
    || (|t| >= 4 && LatDegrees(t[..|t| - 4]) && ThreeDecimals(t[|t| - 4..]))
    || t == "90"
    || (|t| >= 2 && t[..2] == "90" && ZeroDecimals(t[2..]))
  }

  /** Longitude: 180 with an optional zero fraction, or degrees with an
      optional three-digit fraction. */
  predicate Longitude(t: string) {
    || t == "180"
    || (|t| >= 3 && t[..3] == "180" && ZeroDecimals(t[3..]))
    || LongDegrees(t)
    || (|t| >= 4 && LongDegrees(t[..|t| - 4]) && ThreeDecimals(t[|t| - 4..]))
  }

  predicate SignedLatitude(t: string) {
    Latitude(t) || (|t| >= 1 && IsSign(t[0]) && Latitude(t[1..]))
  }

  predicate SignedLongitude(t: string) {
    Longitude(t) || (|t| >= 1 && IsSign(t[0]) && Longitude(t[1..]))
  }

  /** Any run of white space, then an optionally signed longitude. */
  predicate SpacedLongitude(t: string) {
    exists k | 0 <= k <= |t| ::
      (forall j :: 0 <= j < k ==> IsLatLongSpace(t[j])) && SignedLongitude(t[k..])
  }

  /** Since `.` also matches ',', the separating comma is any comma with a
      latitude before it and a longitude after it. */
  predicate LatAndLongPattern(s: string) {
    exists i | 0 <= i < |s| :: s[i] == ',' && SignedLatitude(s[..i]) && SpacedLongitude(s[i + 1..])
  }

  // ----------------------------------------------------------- validator

  /** `validateLocation`: it has no other effect than to return normally or
      to throw IllegalArgumentException. */
  function ValidateLocation(t: LocationType, location: string): (r: Outcome)
    ensures r == Pass || r == Fail(InvalidLocation)
  {
    var matches :=
      match t
      case City => CityPattern(location)
      case IpAddress => IpAddressPattern(location)
      case UkPostalCode => UkPostalCodePattern(location)
      case CanadaPostalCode => CanadaPostalCodePattern(location)
      case UsZipcode => UsZipcodePattern(location)
      case LatAndLong => LatAndLongPattern(location);
    if matches then Pass else Fail(InvalidLocation)
  }

  predicate Accepts(t: LocationType, location: string) {
    ValidateLocation(t, location).Pass?
  }

  // ------------------------------------------------------------ meaning

  lemma DigitsValue2(s: string)
    requires |s| == 2 && AllDigits(s)
    ensures DigitsValue(s) == 10 * DigitValue(s[0]) + DigitValue(s[1])
  {
    assert DigitsValue(s[..1]) == DigitValue(s[0]);
  }

  lemma DigitsValue3(s: string)
    requires |s| == 3 && AllDigits(s)
    ensures DigitsValue(s) == 100 * DigitValue(s[0]) + 10 * DigitValue(s[1]) + DigitValue(s[2])
  {
    DigitsValue2(s[..2]);
  }

  /** An IPv4 field: one to three decimal digits (leading zeros allowed)
      whose value is at most 255. */
  predicate IsDecimalOctet(o: string) {
    1 <= |o| <= 3 && AllDigits(o) && DigitsValue(o) <= 255
  }

  lemma OctetMeaning(o: string)
    ensures OctetPattern(o) <==> IsDecimalOctet(o)
  {
    if |o| == 1 && AllDigits(o) {
      assert o[..0] == [];
      assert DigitsValue(o) == DigitValue(o[0]);
    } else if |o| == 2 && AllDigits(o) {
      DigitsValue2(o);
    } else if |o| == 3 && AllDigits(o) {
      DigitsValue3(o);
    }
  }

  /** IP_ADDRESS accepts exactly four dot-separated decimal octets. */
  lemma IpAddressMeaning(s: string)
    ensures Accepts(IpAddress, s) <==>
      var f := Split(s, '.');
      |f| == 4 && IsDecimalOctet(f[0]) && IsDecimalOctet(f[1]) && IsDecimalOctet(f[2]) && IsDecimalOctet(f[3])
  {
    var f := Split(s, '.');
    if |f| == 4 {
      OctetMeaning(f[0]);
      OctetMeaning(f[1]);
      OctetMeaning(f[2]);
      OctetMeaning(f[3]);
    }
  }

  /** Any four decimal octets, dotted, are accepted as an IP address. */
  lemma IpAddressFromOctets(a: string, b: string, c: string, d: string)
    requires IsDecimalOctet(a) && IsDecimalOctet(b) && IsDecimalOctet(c) && IsDecimalOctet(d)
    ensures Accepts(IpAddress, a + "." + b + "." + c + "." + d)
  {
    var parts := [a, b, c, d];
    forall i | 0 <= i < 4
      ensures '.' !in parts[i]
    {
      assert AllDigits(parts[i]);
    }
    assert Join(parts, '.') == a + "." + b + "." + c + "." + d by {
      assert parts[1..] == [b, c, d];
      assert [b, c, d][1..] == [c, d];
      assert [c, d][1..] == [d];
      assert Join([c, d], '.') == c + "." + d;
      assert Join([b, c, d], '.') == b + "." + c + "." + d;
    }
    SplitJoin(parts, '.');
    IpAddressMeaning(a + "." + b + "." + c + "." + d);
  }

  /** The degrees of a latitude: 0 to 89 written without leading zeros. */
  lemma LatDegreesMeaning(t: string)
    ensures LatDegrees(t) <==> IsCanonical(t) && DigitsValue(t) <= 89
  {
    if IsCanonical(t) {
      if |t| == 1 {
        assert t[..0] == [];
      } else if |t| == 2 {
        DigitsValue2(t);
      } else {
        CanonicalAtLeast(t, 2);
      }
    }
  }

  /** The degrees of a longitude other than 180: 0 to 179 written without
      leading zeros. */
  lemma LongDegreesMeaning(t: string)
    ensures LongDegrees(t) <==> IsCanonical(t) && DigitsValue(t) <= 179
  {
    if IsCanonical(t) {
      if |t| == 1 {
        assert t[..0] == [];
      } else if |t| == 2 {
        DigitsValue2(t);
      } else if |t| == 3 {
        DigitsValue3(t);
      } else {
        CanonicalAtLeast(t, 3);
      }
    }
  }

  /** Java's `[A-Z-[CIKMOV]]` accepts every capital letter and '-'. */
  lemma UkInwardLetterIsUnion(c: char)
    ensures IsUkInwardLetter(c) <==> IsUpper(c) || c == '-'
  {
  }

  /** The characters a Canadian postal code may hold. */
  predicate IsCanadaChar(c: char) {
    IsDigit(c) || c == ' ' || (IsUpper(c) && c != 'D' && c != 'I' && c != 'O' && c != 'Q' && c != 'U')
  }

  /** Only digits, one space and the capitals other than D, I, O, Q, U:
      no lower-case letter is accepted. */
  lemma CanadaChars(s: string)
    requires Accepts(CanadaPostalCode, s)
    ensures forall i :: 0 <= i < |s| ==> IsCanadaChar(s[i])
  {
    forall c | IsCanadaLetter(c) || IsCanadaFirstLetter(c)
      ensures IsCanadaChar(c)
    {
    }
    assert IsCanadaChar(s[0]) && IsCanadaChar(s[1]) && IsCanadaChar(s[2]);
    if |s| == 6 {
      assert s[3..][0] == s[3] && s[3..][1] == s[4] && s[3..][2] == s[5];
    } else {
      assert s[4..][0] == s[4] && s[4..][1] == s[5] && s[4..][2] == s[6];
    }
  }

  // ----------------------------------------------- whole-string matching

  lemma LongitudeEndsInDigit(t: string)
    requires SignedLongitude(t)
    ensures |t| >= 1 && IsDigit(t[|t| - 1])
  {
  }

  lemma OctetEndsInDigit(o: string)
    requires OctetPattern(o)
    ensures |o| >= 1 && IsDigit(o[|o| - 1])
  {
  }

  /** Matching is whole-string: a trailing space is rejected by every type
      but CITY, whose character set holds the space. */
  lemma TrailingSpaceRejected(t: LocationType, s: string)
    requires t != City
    ensures !Accepts(t, s + " ")
  {
    var u := s + " ";
    assert u[|u| - 1] == ' ';
    match t
    case IpAddress =>
      var f := Split(u, '.');
      JoinSplit(u, '.');
      JoinEndsWithLast(f, '.');
      if |f| == 4 && OctetPattern(f[3]) {
        OctetEndsInDigit(f[3]);
      }
    case UkPostalCode =>
    case CanadaPostalCode =>
    case UsZipcode =>
    case LatAndLong =>
      forall i | 0 <= i < |u| && u[i] == ','
        ensures !SpacedLongitude(u[i + 1..])
      {
        var r := u[i + 1..];
        forall k | 0 <= k <= |r| && SignedLongitude(r[k..])
          ensures false
        {
          LongitudeEndsInDigit(r[k..]);
        }
      }
  }

  // ------------------------------------------------------------ examples

  lemma SampleCities()
    ensures Accepts(City, "") && Accepts(City, "New York, NY") && !Accepts(City, "St. Louis")
  {
    assert !IsCityChar("St. Louis"[2]);
  }

  lemma SampleIpAddressAccepted()
    ensures Accepts(IpAddress, "195.56.119.209")
  {
    DigitsValue3("195");
    DigitsValue2("56");
    DigitsValue3("119");
    DigitsValue3("209");
    IpAddressFromOctets("195", "56", "119", "209");
    assert "195" + "." + "56" + "." + "119" + "." + "209" == "195.56.119.209";
  }

  /** Leading zeros are allowed in an octet. */
  lemma SampleIpAddressLeadingZeros()
    ensures Accepts(IpAddress, "001.2.3.4")
  {
    DigitsValue3("001");
    assert DigitsValue("2") == 2 && DigitsValue("3") == 3 && DigitsValue("4") == 4;
    IpAddressFromOctets("001", "2", "3", "4");
    assert "001" + "." + "2" + "." + "3" + "." + "4" == "001.2.3.4";
  }

  /** A first field that is no octet rejects the whole address. */
  lemma IpAddressFirstFieldRejected(a: string, rest: string)
    requires '.' !in a && !OctetPattern(a)
    ensures !Accepts(IpAddress, a + "." + rest)
  {
    IndexOfPrefix(a, '.', rest);
    var s := a + "." + rest;
    assert s[..|a|] == a;
  }

  lemma SampleIpAddressRejected()
    ensures !Accepts(IpAddress, "256.1.1.1")
  {
    IpAddressFirstFieldRejected("256", "1.1.1");
    assert "256" + "." + "1.1.1" == "256.1.1.1";
  }

  lemma SamplePostalCodes()
    ensures Accepts(UsZipcode, "90201") && Accepts(UsZipcode, "90201-1234")
    ensures Accepts(CanadaPostalCode, "K1A 0B1") && !Accepts(CanadaPostalCode, "k1a 0b1")
    ensures Accepts(UkPostalCode, "SW1A 1AA") && Accepts(UkPostalCode, "SW1A 1CI")
  {
    assert UkPostalCodeShape("SW1A 1AA", 2, 1, 1);
    assert UkPostalCodeShape("SW1A 1CI", 2, 1, 1);
    assert "K1A 0B1"[..3] == "K1A" && "K1A 0B1"[4..] == "0B1";
    assert "k1a 0b1"[..3][0] == 'k';
  }

  /** The fraction separator is Java's `.`: an 'x' there is accepted too. */
  lemma SampleLatAndLong()
    ensures Accepts(LatAndLong, "48.834,2.394") && Accepts(LatAndLong, "48x834,2.394")
  {
    var s := "48.834,2.394";
    assert SignedLatitude(s[..6]) by { assert s[..6][..2] == "48"; }
    assert SignedLongitude(s[7..][0..]) by { assert s[7..][0..][..1] == "2"; }
    var odd := "48x834,2.394";
    assert SignedLatitude(odd[..6]) by { assert odd[..6][..2] == "48"; }
    assert SignedLongitude(odd[7..][0..]) by { assert odd[7..][0..][..1] == "2"; }
  }
}
