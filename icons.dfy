/**
 * OpenWeather icon codes ("01d", "10n", ...) mapped to the names of the
 * local weather-icon assets.
 */
module Icons {
  import opened Wrappers
  import opened Strings

  /** The asset names the classifier can produce. */
  const IconNames: set<string> :=
    {"sun", "moon", "partly-cloudy-day", "partly-cloudy-night", "cloud", "rain", "thunder", "fog", "snow"}

  /**
   * `mapIcon`: exact matches for clear and few/scattered clouds, then
   * prefix tests by weather group, and "cloud" for everything else.
   * A missing or empty code is treated as "".
   */
  function MapIcon(code: Option<string>): (r: string)
    ensures r in IconNames
  {
    Classify(Lower(if code.Some? then code.value else ""))
  }

  /** The rule chain of `mapIcon`, on the already lower-cased code `c`. */
  function Classify(c: string): (r: string)
    ensures r in IconNames
  {
    if c == "01d" then "sun"
    else if c == "01n" then "moon"
    else if c == "02d" || c == "03d" then "partly-cloudy-day"
    else if c == "02n" || c == "03n" then "partly-cloudy-night"
    else if StartsWith(c, "04") then "cloud"
    else if StartsWith(c, "09") || StartsWith(c, "10") then "rain"
    else if StartsWith(c, "11") then "thunder"
    else if StartsWith(c, "13") then "snow"
    else if StartsWith(c, "50") then "fog"
    else "cloud"
  }

  /** The exact codes and their assets. */
  predicate IsExactCode(c: string) {
    c in {"01d", "01n", "02d", "03d", "02n", "03n"}
  }

  /** The codes that start with a group prefix other than "04". */
  predicate HasGroupPrefix(c: string) {
    StartsWith(c, "09") || StartsWith(c, "10") || StartsWith(c, "11") || StartsWith(c, "13") || StartsWith(c, "50")
  }

  lemma ExactCodeShape(c: string)
    requires IsExactCode(c)
    ensures |c| == 3 && c[0] == '0' && '1' <= c[1] <= '3' && c[2] in "dn"
  {
  }

  /** Letter case does not matter. */
  lemma {:induction false} MapIconCaseInsensitive(c: string)
    ensures MapIcon(Some(c)) == MapIcon(Some(Lower(c)))
  {
    LowerIdempotent(c);
  }

  /** No code, or an empty one, shows a cloud. */
  lemma MapIconMissing()
    ensures MapIcon(None) == "cloud"
    ensures MapIcon(Some("")) == "cloud"
  {
  }

  /** A code that is already lower case is classified as it stands. */
  lemma MapIconLowerCase(c: string)
    requires forall i :: 0 <= i < |c| ==> !('A' <= c[i] <= 'Z')
    ensures MapIcon(Some(c)) == Classify(c)
  {
    LowerFixed(c);
  }

  /** The exact matches. */
  lemma MapIconExact(c: string)
    requires IsExactCode(c)
    ensures MapIcon(Some(c)) ==
      if c == "01d" then "sun"
      else if c == "01n" then "moon"
      else if c == "02d" || c == "03d" then "partly-cloudy-day"
      else "partly-cloudy-night"
  {
    ExactCodeShape(c);
    LowerFixed(c);
  }

  /** Matches are exact: other codes of the clear and few-clouds groups show a cloud. */
  lemma MapIconExactOnly(c: string)
    requires |c| >= 2 && c[0] == '0' && '1' <= c[1] <= '3' && !IsExactCode(Lower(c))
    ensures MapIcon(Some(c)) == "cloud"
  {
    var l := Lower(c);
    assert l[0] == '0' && l[1] == c[1];
    StartsWithChars(l, "09");
    StartsWithChars(l, "10");
    StartsWithChars(l, "11");
    StartsWithChars(l, "13");
    StartsWithChars(l, "50");
    MapIconCloud(c);
  }

  /** The group prefixes decide the asset whatever follows them, in any letter case. */
  lemma MapIconPrefix(p: string, suffix: string)
    requires p in {"04", "09", "10", "11", "13", "50"}
    ensures MapIcon(Some(p + suffix)) ==
      if p == "04" then "cloud"
      else if p == "09" || p == "10" then "rain"
      else if p == "11" then "thunder"
      else if p == "13" then "snow"
      else "fog"
  {
    var c := Lower(p + suffix);
    LowerChars(p + suffix);
    assert c[0] == p[0] && c[1] == p[1] by {
      assert (p + suffix)[0] == p[0] && (p + suffix)[1] == p[1];
    }
    StartsWithChars(c, "04");
    StartsWithChars(c, "09");
    StartsWithChars(c, "10");
    StartsWithChars(c, "11");
    StartsWithChars(c, "13");
    StartsWithChars(c, "50");
    if IsExactCode(c) {
      ExactCodeShape(c);
    }
  }

  /** A sun is shown exactly for "01d", a moon exactly for "01n", in any letter case. */
  lemma MapIconClear(c: string)
    ensures MapIcon(Some(c)) == "sun" <==> Lower(c) == "01d"
    ensures MapIcon(Some(c)) == "moon" <==> Lower(c) == "01n"
  {
  }

  /** Rain is shown exactly for the drizzle and rain groups. */
  lemma MapIconRain(c: string)
    ensures MapIcon(Some(c)) == "rain" <==> StartsWith(Lower(c), "09") || StartsWith(Lower(c), "10")
  {
    var l := Lower(c);
    StartsWithChars(l, "04");
    StartsWithChars(l, "09");
    StartsWithChars(l, "10");
    if IsExactCode(l) {
      ExactCodeShape(l);
    }
  }

  /** A cloud is shown exactly for the "04" group and for every code no other rule knows. */
  lemma MapIconCloud(c: string)
    ensures MapIcon(Some(c)) == "cloud" <==> !IsExactCode(Lower(c)) && !HasGroupPrefix(Lower(c))
  {
    var l := Lower(c);
    StartsWithChars(l, "04");
    StartsWithChars(l, "09");
    StartsWithChars(l, "10");
    StartsWithChars(l, "11");
    StartsWithChars(l, "13");
    StartsWithChars(l, "50");
    if IsExactCode(l) {
      ExactCodeShape(l);
    }
  }

  /** `getIconPath`: the asset file for a code. */
  function IconPath(code: string): (r: string)
    ensures |r| > 25 && r[..21] == "assets/weather-icons/" && r[|r| - 4..] == ".svg"
    ensures r[21..|r| - 4] == MapIcon(Some(code)) && r[21..|r| - 4] in IconNames
  {
    "assets/weather-icons/" + MapIcon(Some(code)) + ".svg"
  }
}
