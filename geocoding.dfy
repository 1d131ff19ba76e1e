/**
 * The geocoding service: the coordinate-string validator and parser, the
 * minimum-length gate of autocompletion, and the exact-key result cache in
 * front of the geocoding server. The server itself is a parameter: the
 * response it would give, or a failure.
 */
module Geocoding {
  import opened Wrappers
  import opened JsStrings

  /** One geocoding hit; `placeId` is optional. */
  datatype GeocodingResult = GeocodingResult(lat: real, lon: real, displayName: string, placeId: Option<int>)

  // ---------------------------------------------------------------------------
  // The coordinate grammar
  //   ^[-+]?([1-8]?\d(\.\d+)?|90(\.0+)?),\s*[-+]?(180(\.0+)?|((1[0-7]\d)|([1-9]?\d))(\.\d+)?)$
  // ---------------------------------------------------------------------------

  /** Position of the first `c` in `s`, or -1. */
  function IndexOf(s: string, c: char): (i: int)
    ensures -1 <= i < |s|
    ensures i == -1 <==> forall k :: 0 <= k < |s| ==> s[k] != c
    ensures i != -1 ==> s[i] == c && forall k :: 0 <= k < i ==> s[k] != c
  {
    if s == [] then -1
    else if s[0] == c then 0
    else
      var j := IndexOf(s[1..], c);
      if j == -1 then -1 else j + 1
  }

  predicate AllZeros(s: string) {
    forall i :: 0 <= i < |s| ==> s[i] == '0'
  }

  /** `[1-8]?\d`: the whole degrees 0 to 89, without a leading zero. */
  predicate IsLatDegrees(d: string) {
    || (|d| == 1 && IsDigit(d[0]))
    || (|d| == 2 && '1' <= d[0] <= '8' && IsDigit(d[1]))
  }

  /** `1[0-7]\d|[1-9]?\d`: the whole degrees 0 to 179, without a leading zero. */
  predicate IsLonDegrees(d: string) {
    || (|d| == 1 && IsDigit(d[0]))
    || (|d| == 2 && '1' <= d[0] <= '9' && IsDigit(d[1]))
    || (|d| == 3 && d[0] == '1' && '0' <= d[1] <= '7' && IsDigit(d[2]))
  }

  predicate HasDot(m: string) {
    IndexOf(m, '.') != -1
  }

  /** What comes before the decimal point (all of `m` when there is none). */
  function IntegerPart(m: string): string {
    var i := IndexOf(m, '.');
    if i == -1 then m else m[..i]
  }

  /** What comes after the decimal point (empty when there is none). */
  function FractionPart(m: string): string {
    var i := IndexOf(m, '.');
    if i == -1 then [] else m[i + 1..]
  }

  /** `[1-8]?\d(\.\d+)?|90(\.0+)?` */
  predicate IsLatMagnitude(m: string) {
    var d, f := IntegerPart(m), FractionPart(m);
    || (IsLatDegrees(d) && (!HasDot(m) || (f != [] && AllDigits(f))))
    || (d == "90" && (!HasDot(m) || (f != [] && AllZeros(f))))
  }

  /** `180(\.0+)?|((1[0-7]\d)|([1-9]?\d))(\.\d+)?` */
  predicate IsLonMagnitude(m: string) {
    var d, f := IntegerPart(m), FractionPart(m);
    || (d == "180" && (!HasDot(m) || (f != [] && AllZeros(f))))
    || (IsLonDegrees(d) && (!HasDot(m) || (f != [] && AllDigits(f))))
  }

  predicate IsSign(c: char) {
    c == '-' || c == '+'
  }

  /** `t` without its optional leading sign. */
  function Unsigned(t: string): string {
    if t != [] && IsSign(t[0]) then t[1..] else t
  }

  /** `[-+]?` followed by a latitude magnitude. */
  predicate IsLatitude(t: string) {
    IsLatMagnitude(Unsigned(t))
  }

  /** `[-+]?` followed by a longitude magnitude. */
  predicate IsLongitude(t: string) {
    IsLonMagnitude(Unsigned(t))
  }

  /**
   * `isValidCoordinate`: the latitude runs up to the first comma; after the
   * comma and any whitespace comes the longitude, up to the end.
   */
  function IsValidCoordinate(input: string): bool {
    var c := IndexOf(input, ',');
    c != -1 && IsLatitude(input[..c]) && IsLongitude(TrimStart(input[c + 1..]))
  }

  /**
   * The regular expression read as a grammar: a latitude, one comma, any
   * whitespace, a longitude, and nothing around them.
   */
  ghost predicate CoordinateGrammar(s: string) {
    exists c, w ::
      0 <= c < w <= |s| && s[c] == ',' && IsLatitude(s[..c])
      && AllWhitespace(s[c + 1..w]) && IsLongitude(s[w..])
  }

  /** The characters a signed numeral may contain: digits, a point, and a sign in front; it ends in a digit. */
  predicate IsNumeralText(t: string) {
    && t != []
    && IsDigit(t[|t| - 1])
    && forall i :: 0 <= i < |t| ==> IsDigit(t[i]) || t[i] == '.' || (i == 0 && IsSign(t[i]))
  }

  lemma MagnitudeShape(m: string)
    requires IsLatMagnitude(m) || IsLonMagnitude(m)
    ensures m != [] && IsDigit(m[|m| - 1])
    ensures forall i :: 0 <= i < |m| ==> IsDigit(m[i]) || m[i] == '.'
  {
    var i := IndexOf(m, '.');
    if i != -1 {
      assert m == m[..i] + "." + m[i + 1..];
    }
  }

  lemma NumeralShape(t: string)
    requires IsLatitude(t) || IsLongitude(t)
    ensures IsNumeralText(t)
  {
    MagnitudeShape(Unsigned(t));
    if t != [] && IsSign(t[0]) {
      forall i | 1 <= i < |t| ensures IsDigit(t[i]) || t[i] == '.' {
        assert t[i] == Unsigned(t)[i - 1];
      }
    }
  }

  /** A numeral holds neither a comma nor whitespace. */
  lemma NumeralCharacters(t: string)
    requires IsNumeralText(t)
    ensures forall k :: 0 <= k < |t| ==> t[k] != ',' && !IsWhitespace(t[k])
  {
  }

  /** Cutting `s` after position `c` and then after the whitespace that follows. */
  lemma CutAfterWhitespace(s: string, c: nat) returns (w: nat)
    requires c < |s|
    ensures c < w <= |s|
    ensures s[w..] == TrimStart(s[c + 1..])
    ensures AllWhitespace(s[c + 1..w])
  {
    var rest := s[c + 1..];
    var t := TrimStart(rest);
    var n := |rest| - |t|;
    w := c + 1 + n;
    assert t == rest[n..] == s[w..];
    assert rest[..n] == s[c + 1..w];
  }

  lemma GrammarWitness(s: string, c: int, w: int)
    requires 0 <= c < w <= |s| && s[c] == ',' && IsLatitude(s[..c])
    requires AllWhitespace(s[c + 1..w]) && IsLongitude(s[w..])
    ensures CoordinateGrammar(s)
  {
  }

  lemma ValidImpliesGrammar(s: string)
    requires IsValidCoordinate(s)
    ensures CoordinateGrammar(s)
  {
    var c := IndexOf(s, ',');
    var w := CutAfterWhitespace(s, c);
    GrammarWitness(s, c, w);
  }

  /** `c` is where the first `ch` is when no earlier character is `ch`. */
  lemma FirstOccurrence(s: string, c: nat, ch: char)
    requires c < |s| && s[c] == ch
    requires forall k :: 0 <= k < c ==> s[..c][k] != ch
    ensures IndexOf(s, ch) == c
  {
    assert forall k :: 0 <= k < c ==> s[k] == s[..c][k];
  }

  /** The whitespace after the comma is exactly what `trimStart` drops in front of a longitude. */
  lemma TrimAfterCut(s: string, c: nat, w: nat)
    requires c < w < |s|
    requires AllWhitespace(s[c + 1..w]) && !IsWhitespace(s[w])
    ensures TrimStart(s[c + 1..]) == s[w..]
  {
    assert s[c + 1..] == s[c + 1..w] + s[w..];
    TrimStartAfterWhitespace(s[c + 1..w], s[w..]);
  }

  lemma GrammarImpliesValid(s: string, c: int, w: int)
    requires 0 <= c < w <= |s| && s[c] == ',' && IsLatitude(s[..c])
    requires AllWhitespace(s[c + 1..w]) && IsLongitude(s[w..])
    ensures IsValidCoordinate(s)
  {
    NumeralShape(s[..c]);
    NumeralShape(s[w..]);
    NumeralCharacters(s[..c]);
    NumeralCharacters(s[w..]);
    FirstOccurrence(s, c, ',');
    assert s[w..][0] == s[w];
    TrimAfterCut(s, c, w);
  }

  /** `isValidCoordinate` accepts exactly the strings of the grammar. */
  lemma ValidCoordinateIffGrammar(s: string)
    ensures IsValidCoordinate(s) <==> CoordinateGrammar(s)
  {
    if IsValidCoordinate(s) {
      ValidImpliesGrammar(s);
    }
    if CoordinateGrammar(s) {
      var c, w :| 0 <= c < w <= |s| && s[c] == ',' && IsLatitude(s[..c])
        && AllWhitespace(s[c + 1..w]) && IsLongitude(s[w..]);
      GrammarImpliesValid(s, c, w);
    }
  }

  // ---------------------------------------------------------------------------
  // Numeric values: `parseFloat` on the validated parts
  // ---------------------------------------------------------------------------

  /** The value of the digits after a decimal point, `0.f`. */
  function FractionValue(f: string): real
    decreases |f|
  {
    if f == [] then 0.0 else (DigitValue(f[0]) as real + FractionValue(f[1..])) / 10.0
  }

  lemma {:induction false} FractionBelowOne(f: string)
    ensures 0.0 <= FractionValue(f) < 1.0
    decreases |f|
  {
    if f != [] {
      FractionBelowOne(f[1..]);
    }
  }

  lemma {:induction false} FractionOfZeros(f: string)
    requires AllZeros(f)
    ensures FractionValue(f) == 0.0
    decreases |f|
  {
    if f != [] {
      FractionOfZeros(f[1..]);
    }
  }

  /** The value of an unsigned decimal numeral. */
  function MagnitudeValue(m: string): real {
    DigitsValue(IntegerPart(m)) as real + FractionValue(FractionPart(m))
  }

  /** `parseFloat` on a signed decimal numeral (exact, before rounding to a double). */
  function NumeralValue(t: string): real {
    if t != [] && t[0] == '-' then -MagnitudeValue(t[1..]) else MagnitudeValue(Unsigned(t))
  }

  lemma TwoDigitsValue(d: string)
    requires |d| == 2
    ensures DigitsValue(d) == 10 * DigitValue(d[0]) + DigitValue(d[1])
  {
    var p := d[..1];
    assert p[..0] == [] && p[0] == d[0];
    assert DigitsValue(p) == DigitValue(d[0]);
    assert d[..|d| - 1] == p;
  }

  lemma ThreeDigitsValue(d: string)
    requires |d| == 3
    ensures DigitsValue(d) == 100 * DigitValue(d[0]) + 10 * DigitValue(d[1]) + DigitValue(d[2])
  {
    TwoDigitsValue(d[..2]);
    assert d[..2][0] == d[0] && d[..2][1] == d[1];
  }

  lemma LatDegreesValue(d: string)
    requires IsLatDegrees(d) || d == "90"
    ensures DigitsValue(d) <= 90
    ensures d != "90" ==> DigitsValue(d) <= 89
  {
    if |d| == 2 {
      TwoDigitsValue(d);
    } else {
      assert d[..0] == [];
    }
  }

  lemma LonDegreesValue(d: string)
    requires IsLonDegrees(d) || d == "180"
    ensures DigitsValue(d) <= 180
    ensures d != "180" ==> DigitsValue(d) <= 179
  {
    if |d| == 3 {
      ThreeDigitsValue(d);
    } else if |d| == 2 {
      TwoDigitsValue(d);
    } else {
      assert d[..0] == [];
    }
  }

  /** Every accepted latitude lies between -90 and 90. */
  lemma LatitudeBounds(t: string)
    requires IsLatitude(t)
    ensures -90.0 <= NumeralValue(t) <= 90.0
  {
    var m := Unsigned(t);
    assert NumeralValue(t) == MagnitudeValue(m) || NumeralValue(t) == -MagnitudeValue(m);
    var d, f := IntegerPart(m), FractionPart(m);
    FractionBelowOne(f);
    LatDegreesValue(d);
    if d == "90" && HasDot(m) {
      FractionOfZeros(f);
    }
  }

  /** Every accepted longitude lies between -180 and 180. */
  lemma LongitudeBounds(t: string)
    requires IsLongitude(t)
    ensures -180.0 <= NumeralValue(t) <= 180.0
  {
    var m := Unsigned(t);
    assert NumeralValue(t) == MagnitudeValue(m) || NumeralValue(t) == -MagnitudeValue(m);
    var d, f := IntegerPart(m), FractionPart(m);
    FractionBelowOne(f);
    LonDegreesValue(d);
    if d == "180" && HasDot(m) {
      FractionOfZeros(f);
    }
  }

  /** The whole degrees of an accepted part have no leading zero. */
  lemma NoLeadingZero(t: string)
    requires IsLatitude(t) || IsLongitude(t)
    ensures var d := IntegerPart(Unsigned(t)); |d| == 1 || d[0] != '0'
  {
  }

  /** A string of digits has no decimal point and no sign, so it is its own integer part. */
  lemma DigitsAreWhole(d: string)
    requires d != [] && AllDigits(d)
    ensures Unsigned(d) == d && !HasDot(d) && IntegerPart(d) == d
  {
  }

  /** Every whole latitude from 0 to 89, written as `toString` writes it, is an accepted latitude. */
  lemma LatDegreesAccepted(n: nat)
    requires n <= 89
    ensures IsLatDegrees(NatToString(n)) && IsLatitude(NatToString(n))
  {
    if n >= 10 {
      assert NatToString(n) == [DigitChar(n / 10)] + [DigitChar(n % 10)];
    }
    DigitsAreWhole(NatToString(n));
  }

  /** Every whole longitude from 0 to 179, written as `toString` writes it, is an accepted longitude. */
  lemma LonDegreesAccepted(n: nat)
    requires n <= 179
    ensures IsLonDegrees(NatToString(n)) && IsLongitude(NatToString(n))
  {
    if n >= 100 {
      assert NatToString(n / 10) == [DigitChar(1)] + [DigitChar(n / 10 % 10)];
      assert NatToString(n) == [DigitChar(1)] + [DigitChar(n / 10 % 10)] + [DigitChar(n % 10)];
    } else if n >= 10 {
      assert NatToString(n) == [DigitChar(n / 10)] + [DigitChar(n % 10)];
    }
    DigitsAreWhole(NatToString(n));
  }

  // ---------------------------------------------------------------------------
  // parseCoordinates
  // ---------------------------------------------------------------------------

  /** `s.split(sep)`: the pieces between separators, in order. */
  function Split(s: string, sep: char): (parts: seq<string>)
    ensures |parts| >= 1
    ensures IndexOf(s, sep) == -1 ==> parts == [s]
    decreases |s|
  {
    var i := IndexOf(s, sep);
    if i == -1 then [s] else [s[..i]] + Split(s[i + 1..], sep)
  }

  lemma SplitWithoutSeparator(s: string, sep: char)
    requires sep !in s
    ensures Split(s, sep) == [s]
  {
  }

  /** Splitting at the only separator gives the two sides. */
  lemma SplitAtOnly(s: string, c: nat, sep: char)
    requires c < |s| && IndexOf(s, sep) == c && sep !in s[c + 1..]
    ensures Split(s, sep) == [s[..c], s[c + 1..]]
  {
    var t := s[c + 1..];
    SplitWithoutSeparator(t, sep);
    assert Split(s, sep) == [s[..c]] + Split(t, sep);
  }

  /** Whitespace followed by comma-free text is comma-free. */
  lemma NoCommaAfterCut(s: string, c: nat, w: nat)
    requires c < w <= |s|
    requires AllWhitespace(s[c + 1..w]) && ',' !in s[w..]
    ensures ',' !in s[c + 1..]
  {
    assert s[c + 1..] == s[c + 1..w] + s[w..];
    assert !IsWhitespace(',');
  }

  /** A numeral holds neither a comma nor whitespace, as membership facts. */
  lemma NumeralExcludes(t: string)
    requires IsNumeralText(t)
    ensures ',' !in t
    ensures !IsWhitespace(t[0]) && !IsWhitespace(t[|t| - 1])
  {
    NumeralCharacters(t);
  }

  /** `AcceptedShape`, for an accepted string already cut into its pieces. */
  lemma AcceptedShapeAt(s: string, c: nat, w: nat)
    requires c < w <= |s| && IndexOf(s, ',') == c
    requires IsNumeralText(s[..c]) && IsNumeralText(s[w..])
    requires AllWhitespace(s[c + 1..w])
    ensures Split(s, ',') == [s[..c], s[c + 1..]]
    ensures forall k :: 0 <= k < c ==> !IsWhitespace(s[k])
    ensures !IsWhitespace(s[0]) && !IsWhitespace(s[|s| - 1])
  {
    NumeralExcludes(s[w..]);
    NoCommaAfterCut(s, c, w);
    SplitAtOnly(s, c, ',');
    NumeralCharacters(s[..c]);
    assert s[0] == s[..c][0];
    assert forall k :: 0 <= k < c ==> s[k] == s[..c][k];
    assert s[|s| - 1] == s[w..][|s| - w - 1];
  }

  /** An accepted string, cut into the latitude, the whitespace after the comma and the longitude. */
  lemma CutAccepted(s: string) returns (c: nat, w: nat)
    requires IsValidCoordinate(s)
    ensures c == IndexOf(s, ',') && c < w <= |s|
    ensures IsNumeralText(s[..c]) && IsNumeralText(s[w..])
    ensures AllWhitespace(s[c + 1..w]) && s[w..] == TrimStart(s[c + 1..])
  {
    c := IndexOf(s, ',');
    w := CutAfterWhitespace(s, c);
    NumeralShape(s[..c]);
    NumeralShape(s[w..]);
  }

  /**
   * The shape of an accepted string: exactly two pieces around the comma, no
   * whitespace before the comma or at either end.
   */
  lemma AcceptedShape(s: string)
    requires IsValidCoordinate(s)
    ensures Split(s, ',') == [s[..IndexOf(s, ',')], s[IndexOf(s, ',') + 1..]]
    ensures forall k :: 0 <= k < IndexOf(s, ',') ==> !IsWhitespace(s[k])
    ensures !IsWhitespace(s[0]) && !IsWhitespace(s[|s| - 1])
  {
    var c, w := CutAccepted(s);
    AcceptedShapeAt(s, c, w);
  }

  /** A latitude and a longitude. */
  datatype LatLon = LatLon(lat: real, lon: real)

  /** Splitting an accepted string at the comma and trimming gives back the latitude and longitude texts. */
  lemma TrimmedParts(s: string)
    requires IsValidCoordinate(s)
    ensures |Split(s, ',')| == 2
    ensures Trim(Split(s, ',')[0]) == s[..IndexOf(s, ',')]
    ensures Trim(Split(s, ',')[1]) == TrimStart(s[IndexOf(s, ',') + 1..])
  {
    var c, w := CutAccepted(s);
    AcceptedShapeAt(s, c, w);
    TrimmedPartsAt(s, c, w);
  }

  /** `TrimmedParts`, for an accepted string already cut into its pieces. */
  lemma TrimmedPartsAt(s: string, c: nat, w: nat)
    requires c < w <= |s|
    requires IsNumeralText(s[..c]) && IsNumeralText(s[w..])
    requires s[w..] == TrimStart(s[c + 1..])
    ensures Trim(s[..c]) == s[..c]
    ensures Trim(s[c + 1..]) == TrimStart(s[c + 1..])
  {
    TrimOfNumeral(s[..c]);
    TrimOfNumeral(s[w..]);
    TrimEndOfTrimStart(s[c + 1..]);
  }

  /** `trim` is `trimStart` when the text after the leading whitespace is a numeral. */
  lemma TrimEndOfTrimStart(t: string)
    requires Trim(TrimStart(t)) == TrimStart(t)
    ensures Trim(t) == TrimStart(t)
  {
    TrimStartIdempotent(t);
  }

  /** Trimming a numeral leaves it as it is. */
  lemma TrimOfNumeral(t: string)
    requires IsNumeralText(t)
    ensures Trim(t) == t
  {
    NumeralCharacters(t);
  }

  /** `parseCoordinates`: null unless valid, otherwise the two parts after `trim`, read as numbers. */
  function ParseCoordinates(input: string): (r: Option<LatLon>)
    ensures r.Some? <==> IsValidCoordinate(input)
    ensures r.Some? ==>
      var c := IndexOf(input, ',');
      && r.value.lat == NumeralValue(input[..c])
      && r.value.lon == NumeralValue(TrimStart(input[c + 1..]))
      && -90.0 <= r.value.lat <= 90.0
      && -180.0 <= r.value.lon <= 180.0
  {
    if !IsValidCoordinate(input) then
      None
    else
      TrimmedParts(input);
      LatitudeBounds(input[..IndexOf(input, ',')]);
      LongitudeBounds(TrimStart(input[IndexOf(input, ',') + 1..]));
      var parts := Split(input, ',');
      Some(LatLon(NumeralValue(Trim(parts[0])), NumeralValue(Trim(parts[1]))))
  }

  // ---------------------------------------------------------------------------
  // Autocompletion and the cache
  // ---------------------------------------------------------------------------

  /** What the geocoding server does with one request: a list of results, or an error. */
  datatype HttpResponse = Received(results: seq<GeocodingResult>) | Failed

  /** The outcome of one lookup: the results emitted, the cache afterwards, and whether a request went out. */
  datatype Lookup = Lookup(results: seq<GeocodingResult>, cache: map<string, seq<GeocodingResult>>, requested: bool)

  /** Entries once in the cache stay there unchanged. */
  ghost predicate NeverEvicts(before: map<string, seq<GeocodingResult>>, after: map<string, seq<GeocodingResult>>) {
    forall a :: a in before ==> a in after && after[a] == before[a]
  }

  /** `geocodeAddress`: answer from the cache, or ask the server and cache a successful answer. */
  function Geocode(cache: map<string, seq<GeocodingResult>>, address: string, response: HttpResponse): (r: Lookup)
    ensures address in cache ==> r == Lookup(cache[address], cache, false)
    ensures address !in cache ==> r.requested
    ensures NeverEvicts(cache, r.cache) && r.cache.Keys <= cache.Keys + {address}
    ensures r.cache != cache ==> response.Received? && r.cache == cache[address := response.results]
    ensures address !in cache && response.Failed? ==> r.results == [] && r.cache == cache
    ensures address !in cache && response.Received? ==> r.results == response.results && address in r.cache && r.cache[address] == r.results
  {
    if address in cache then
      Lookup(cache[address], cache, false)
    else
      match response
      case Received(results) => Lookup(results, cache[address := results], true)
      case Failed => Lookup([], cache, true)
  }

  /** The shortest search text that is sent to the server. */
  const MinSearchLength := 3

  /** `getAutocompleteSuggestions`: nothing for short text, otherwise a geocoding lookup. */
  function Suggest(cache: map<string, seq<GeocodingResult>>, searchText: string, response: HttpResponse): (r: Lookup)
    ensures |searchText| < MinSearchLength ==> r == Lookup([], cache, false)
    ensures |searchText| >= MinSearchLength ==> r == Geocode(cache, searchText, response)
  {
    if searchText == [] || |searchText| < MinSearchLength then Lookup([], cache, false) else Geocode(cache, searchText, response)
  }

  /** A second lookup of an address the server answered is a cache hit with the same results and no request. */
  lemma RepeatedLookupHitsCache(cache: map<string, seq<GeocodingResult>>, address: string, first: HttpResponse, second: HttpResponse)
    requires first.Received?
    ensures var r1 := Geocode(cache, address, first);
            var r2 := Geocode(r1.cache, address, second);
            r2.results == r1.results && !r2.requested && r2.cache == r1.cache
  {
  }

  class GeocodingService {
    var autocompleteCache: map<string, seq<GeocodingResult>>
    /** The addresses sent to the geocoding server, oldest first. */
    var requests: seq<string>

    constructor()
      ensures autocompleteCache == map[] && requests == []
    {
      autocompleteCache := map[];
      requests := [];
    }

    method GeocodeAddress(address: string, response: HttpResponse) returns (results: seq<GeocodingResult>)
      modifies this
      ensures var r := Geocode(old(autocompleteCache), address, response);
              && results == r.results && autocompleteCache == r.cache
              && requests == old(requests) + (if r.requested then [address] else [])
    {
      if address in autocompleteCache {
        results := autocompleteCache[address];
        return;
      }
      requests := requests + [address];
      match response
      case Received(formatted) =>
        autocompleteCache := autocompleteCache[address := formatted];
        results := formatted;
      case Failed =>
        results := [];
    }

    method GetAutocompleteSuggestions(searchText: string, response: HttpResponse) returns (results: seq<GeocodingResult>)
      modifies this
      ensures var r := Suggest(old(autocompleteCache), searchText, response);
              && results == r.results && autocompleteCache == r.cache
              && requests == old(requests) + (if r.requested then [searchText] else [])
    {
      if searchText == [] || |searchText| < MinSearchLength {
        return [];
      }
      results := GeocodeAddress(searchText, response);
    }
  }
}
