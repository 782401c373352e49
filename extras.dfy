/** The value of the "extra" parameter that `includeExtraInformations`
    computes in HistoricalWeather and SkiWeather (the two bodies are the
    same; only the enum of extra codes differs). */
module Extras {
  import opened Outcomes
  import opened Strings

  predicate OccursAt(haystack: string, needle: string, i: int) {
    0 <= i && i + |needle| <= |haystack| && haystack[i..i + |needle|] == needle
  }

  /** `haystack.contains(needle)`: the empty string is contained in every
      string, every string contains itself, and nothing longer than the
      haystack is contained in it. */
  predicate Contains(haystack: string, needle: string)
    ensures needle == [] ==> Contains(haystack, needle)
    ensures haystack == needle ==> Contains(haystack, needle)
    ensures Contains(haystack, needle) ==> |needle| <= |haystack|
  {
    assert needle == [] || haystack == needle ==> OccursAt(haystack, needle, 0);
    exists i | 0 <= i <= |haystack| :: OccursAt(haystack, needle, i)
  }

  /** A comma-separated list whose every field is one of `allowed`. */
  predicate IsExtraList(s: string, allowed: set<string>) {
    forall f | f in Split(s, ',') :: f in allowed
  }

  /** The value put under "extra", given the value already there and the
      codes of the extras passed in order.  An existing value is kept as it
      is: the merge loop of the source extends `equalsExtras`, but the value
      put back is the buffer filled before the loop.  With no existing value the codes are joined by commas;
      for no codes at all, removing the last character of the empty buffer
      fails. */
  method ExtraValue(existing: Option<string>, codes: seq<string>) returns (r: Result<string>)
    ensures existing.Some? ==> r == Ok(existing.value)
    ensures existing.None? && codes == [] ==> r == Err(StringIndexOutOfBounds)
    ensures existing.None? && codes != [] ==> r == Ok(Join(codes, ','))
  {
    if existing.Some? {
      var equalsExtras := existing.value;
      var sb := equalsExtras;
      for i := 0 to |codes| {
        if !Contains(equalsExtras, codes[i]) {
          equalsExtras := equalsExtras + "," + codes[i];
        }
      }
      r := Ok(sb);
    } else {
      var sb := "";
      for i := 0 to |codes|
        invariant i == 0 ==> sb == ""
        invariant i > 0 ==> sb == Join(codes[..i], ',') + ","
      {
        if i > 0 {
          JoinSnoc(codes[..i], ',', codes[i]);
          assert codes[..i + 1] == codes[..i] + [codes[i]];
        }
        sb := sb + codes[i] + ",";
      }
      if |sb| == 0 {
        r := Err(StringIndexOutOfBounds);
      } else {
        assert codes[..|codes|] == codes;
        r := Ok(sb[..|sb| - 1]);
      }
    }
  }

  /** A join of allowed, comma-free codes is a list of allowed extras whose
      fields are exactly those codes, in order. */
  lemma JoinIsExtraList(codes: seq<string>, allowed: set<string>)
    requires |codes| >= 1
    requires forall i :: 0 <= i < |codes| ==> codes[i] in allowed && ',' !in codes[i]
    ensures Split(Join(codes, ','), ',') == codes
    ensures IsExtraList(Join(codes, ','), allowed)
  {
    SplitJoin(codes, ',');
  }

  /** Conversely, every list of allowed extras is the join of its fields. */
  lemma ExtraListIsJoin(s: string, allowed: set<string>)
    requires IsExtraList(s, allowed)
    ensures var fields := Split(s, ',');
      s == Join(fields, ',') && forall i :: 0 <= i < |fields| ==> fields[i] in allowed
  {
    JoinSplit(s, ',');
  }
}
