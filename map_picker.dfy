/**
 * The reverse-geocoding step of `GoogleMapPicker`: the first geocoder
 * result's address components are folded, one at a time, into address
 * fields, and a missing first line falls back to the formatted address.
 * The Google call itself is given as its outcome.
 */
module MapPicker {
  import opened Wrappers
  import opened JsText

  /** One address component: its type tags and its `long_name`. */
  datatype Component = Component(types: seq<string>, longName: string)

  /** The address fields the picker hands to its caller; a field never assigned stays absent. */
  datatype AddressDetails = AddressDetails(
    addressLine1: Option<string>,
    addressLine2: Option<string>,
    landmark: Option<string>,
    city: Option<string>,
    state: Option<string>,
    pincode: Option<string>,
    country: Option<string>)

  const NoDetails := AddressDetails(None, None, None, None, None, None, None)

  /** Which branch of the `if`/`else if` chain a component takes. */
  datatype Rule = StreetNumber | Route | Area | Landmark | City | State | Pincode | Country | Ignored

  /** The first rule whose type tags the component carries, in the chain's order. */
  function Classify(types: seq<string>): (r: Rule)
    ensures r == StreetNumber <==> "street_number" in types
    ensures r == Route <==> "street_number" !in types && "route" in types
    ensures r == Ignored <==>
      "street_number" !in types && "route" !in types && "sublocality_level_1" !in types &&
      "neighborhood" !in types && "point_of_interest" !in types && "establishment" !in types &&
      "locality" !in types && "administrative_area_level_2" !in types &&
      "administrative_area_level_1" !in types && "postal_code" !in types && "country" !in types
  {
    if "street_number" in types then StreetNumber
    else if "route" in types then Route
    else if "sublocality_level_1" in types || "neighborhood" in types then Area
    else if "point_of_interest" in types || "establishment" in types then Landmark
    else if "locality" in types || "administrative_area_level_2" in types then City
    else if "administrative_area_level_1" in types then State
    else if "postal_code" in types then Pincode
    else if "country" in types then Country
    else Ignored
  }

  /** The field a rule other than the two street rules assigns. */
  function Field(d: AddressDetails, r: Rule): Option<string>
    requires r !in {StreetNumber, Route, Ignored}
  {
    match r
    case Area => d.addressLine2
    case Landmark => d.landmark
    case City => d.city
    case State => d.state
    case Pincode => d.pincode
    case Country => d.country
  }

  /** One step of the `forEach`. */
  function Apply(d: AddressDetails, c: Component): AddressDetails {
    match Classify(c.types)
    case StreetNumber => d.(addressLine1 := Some(c.longName))
    case Route =>
      d.(addressLine1 := Some(if TruthyOpt(d.addressLine1) then d.addressLine1.value + " " + c.longName else c.longName))
    case Area => d.(addressLine2 := Some(c.longName))
    case Landmark => d.(landmark := Some(c.longName))
    case City => d.(city := Some(c.longName))
    case State => d.(state := Some(c.longName))
    case Pincode => d.(pincode := Some(c.longName))
    case Country => d.(country := Some(c.longName))
    case Ignored => d
  }

  /** The whole `forEach`, from empty details, one component after another. */
  function Extract(cs: seq<Component>): AddressDetails {
    if cs == [] then NoDetails else Apply(Extract(cs[..|cs| - 1]), cs[|cs| - 1])
  }

  /** The `long_name` of the last component the rule classifies, if any. */
  function LastOf(cs: seq<Component>, r: Rule): Option<string> {
    if cs == [] then None
    else if Classify(cs[|cs| - 1].types) == r then Some(cs[|cs| - 1].longName)
    else LastOf(cs[..|cs| - 1], r)
  }

  /** Every field but the first line holds the last matching component's name. */
  lemma {:induction false} LastMatchWins(cs: seq<Component>, r: Rule)
    requires r !in {StreetNumber, Route, Ignored}
    ensures Field(Extract(cs), r) == LastOf(cs, r)
  {
    if cs != [] {
      LastMatchWins(cs[..|cs| - 1], r);
    }
  }

  /** Does any component of `cs` carry `street_number`? */
  predicate HasStreetNumber(cs: seq<Component>) {
    exists i :: 0 <= i < |cs| && Classify(cs[i].types) == StreetNumber
  }

  /**
   * `street_number` overwrites the first line, so whatever came before the
   * last street number (a route included) does not reach it.
   */
  lemma {:induction false} StreetNumberResetsLine1(before: seq<Component>, c: Component, rest: seq<Component>)
    requires Classify(c.types) == StreetNumber
    requires !HasStreetNumber(rest)
    ensures Extract(before + [c] + rest).addressLine1 == Extract([c] + rest).addressLine1
    decreases |rest|
  {
    if rest == [] {
      var s := before + [c];
      assert s[..|s| - 1] == before;
      assert ([c] + rest)[..0] == [];
    } else {
      var s := before + [c] + rest;
      var t := [c] + rest;
      var last := rest[|rest| - 1];
      var rest' := rest[..|rest| - 1];
      assert s[..|s| - 1] == before + [c] + rest';
      assert t[..|t| - 1] == [c] + rest';
      assert s[|s| - 1] == last && t[|t| - 1] == last;
      assert !HasStreetNumber(rest') by {
        forall i | 0 <= i < |rest'| ensures Classify(rest'[i].types) != StreetNumber {
          assert rest'[i] == rest[i];
        }
      }
      StreetNumberResetsLine1(before, c, rest');
    }
  }

  /** A route appends to a street number seen before it, and is lost when the street number comes after. */
  lemma StreetAndRouteOrder(n: string, r: string)
    requires n != ""
    ensures Extract([Component(["street_number"], n), Component(["route"], r)]).addressLine1 == Some(n + " " + r)
    ensures Extract([Component(["route"], r), Component(["street_number"], n)]).addressLine1 == Some(n)
  {
    var a := [Component(["street_number"], n), Component(["route"], r)];
    assert a[..1] == [a[0]];
    assert Extract([a[0]]).addressLine1 == Some(n) by {
      assert [a[0]][..0] == [];
    }
    var b := [Component(["route"], r), Component(["street_number"], n)];
    assert b[..1] == [b[0]];
  }

  /**
   * The imperative `forEach`: the details object is updated in place, one
   * component at a time.
   */
  method ExtractComponents(cs: seq<Component>) returns (d: AddressDetails)
    ensures d == Extract(cs)
  {
    d := NoDetails;
    for i := 0 to |cs|
      invariant d == Extract(cs[..i])
    {
      var types := cs[i].types;
      if "street_number" in types {
        d := d.(addressLine1 := Some(cs[i].longName));
      } else if "route" in types {
        d := d.(addressLine1 := Some(if TruthyOpt(d.addressLine1) then d.addressLine1.value + " " + cs[i].longName else cs[i].longName));
      } else if "sublocality_level_1" in types || "neighborhood" in types {
        d := d.(addressLine2 := Some(cs[i].longName));
      } else if "point_of_interest" in types || "establishment" in types {
        d := d.(landmark := Some(cs[i].longName));
      } else if "locality" in types || "administrative_area_level_2" in types {
        d := d.(city := Some(cs[i].longName));
      } else if "administrative_area_level_1" in types {
        d := d.(state := Some(cs[i].longName));
      } else if "postal_code" in types {
        d := d.(pincode := Some(cs[i].longName));
      } else if "country" in types {
        d := d.(country := Some(cs[i].longName));
      }
      assert cs[..i + 1][..i] == cs[..i];
    }
    assert cs[..|cs|] == cs;
  }

  /** When the first line is still falsy and there is a formatted address, its trimmed text before the first comma. */
  function WithFallback(d: AddressDetails, formatted: Option<string>): (r: AddressDetails)
    ensures r.(addressLine1 := d.addressLine1) == d
    ensures TruthyOpt(d.addressLine1) || !TruthyOpt(formatted) ==> r == d
    ensures !TruthyOpt(d.addressLine1) && TruthyOpt(formatted) ==>
      r.addressLine1.Some? && ',' !in r.addressLine1.value &&
      (r.addressLine1.value == "" || (!IsWhitespace(r.addressLine1.value[0]) && !IsWhitespace(r.addressLine1.value[|r.addressLine1.value| - 1])))
  {
    if !TruthyOpt(d.addressLine1) && TruthyOpt(formatted) then
      var first := Split(formatted.value, ',')[0];
      TrimKeepsAbsent(first, ',');
      d.(addressLine1 := Some(Trim(first)))
    else d
  }

  /** Line 1 falls back to the trimmed text before the first comma, or to the whole trimmed text when it has no comma. */
  lemma FallbackTakesFirstPiece(d: AddressDetails, head: string, tail: string)
    requires !TruthyOpt(d.addressLine1) && ',' !in head
    ensures WithFallback(d, Some(head + "," + tail)).addressLine1 == Some(Trim(head))
    ensures head != "" ==> WithFallback(d, Some(head)).addressLine1 == Some(Trim(head))
  {
    SplitFirst(head, ',', tail);
    assert head + "," + tail == head + [','] + tail;
    SplitNoSep(head, ',');
  }

  /** One geocoder result: its components (possibly missing) and its formatted address. */
  datatype GeocodeResult = GeocodeResult(components: Option<seq<Component>>, formattedAddress: Option<string>)

  /** What the geocoder call ended in: its result list, or a rejection (`status` other than `OK`). */
  datatype GeocodeOutcome = Results(results: seq<GeocodeResult>) | GeocodeFailed

  /**
   * `reverseGeocode`: empty details without the Maps library, on a failed
   * call or an empty result list; otherwise the first result's components
   * folded and the fallback applied.
   */
  method ReverseGeocode(mapsLoaded: bool, outcome: GeocodeOutcome) returns (d: AddressDetails)
    ensures !mapsLoaded || outcome.GeocodeFailed? || outcome.results == [] ==> d == NoDetails
    ensures mapsLoaded && outcome.Results? && outcome.results != [] ==>
      d == WithFallback(Extract(outcome.results[0].components.GetOr([])), outcome.results[0].formattedAddress)
  {
    if !mapsLoaded {
      return NoDetails;
    }
    match outcome
    case GeocodeFailed =>
      d := NoDetails;
    case Results(results) =>
      if |results| > 0 {
        var result := results[0];
        d := ExtractComponents(result.components.GetOr([]));
        d := WithFallback(d, result.formattedAddress);
      } else {
        d := NoDetails;
      }
  }
}
