/**
 * `LocationSearchBar`: when the autocomplete reports a chosen place, its
 * address components are folded into address fields, the first line falls
 * back to the place name or the formatted address, and the caller receives
 * a location result; a place without geometry only raises an error toast.
 */
module SearchBar {
  import opened Wrappers
  import opened JsText
  import MapPicker

  type Component = MapPicker.Component

  /** `LocationResult['addressComponents']`: no landmark field here. */
  datatype Components = Components(
    addressLine1: Option<string>,
    addressLine2: Option<string>,
    city: Option<string>,
    state: Option<string>,
    pincode: Option<string>,
    country: Option<string>)

  const NoComponents := Components(None, None, None, None, None, None)

  /** Which branch of the chain a component takes: street number and route share the first. */
  datatype Rule = StreetPart | Area | City | State | Pincode | Country | Ignored

  function Classify(types: seq<string>): (r: Rule)
    ensures r == StreetPart <==> "street_number" in types || "route" in types
    ensures r == City <==>
      "street_number" !in types && "route" !in types && "sublocality" !in types &&
      "neighborhood" !in types && "locality" in types
  {
    if "street_number" in types || "route" in types then StreetPart
    else if "sublocality" in types || "neighborhood" in types then Area
    else if "locality" in types then City
    else if "administrative_area_level_1" in types then State
    else if "postal_code" in types then Pincode
    else if "country" in types then Country
    else Ignored
  }

  function Field(a: Components, r: Rule): Option<string>
    requires r !in {StreetPart, Ignored}
  {
    match r
    case Area => a.addressLine2
    case City => a.city
    case State => a.state
    case Pincode => a.pincode
    case Country => a.country
  }

  /** One step of the `forEach`: a street part starts the first line when it is falsy and is appended after a space otherwise. */
  function Step(a: Components, c: Component): Components {
    match Classify(c.types)
    case StreetPart =>
      a.(addressLine1 := Some(if !TruthyOpt(a.addressLine1) then c.longName else a.addressLine1.value + " " + c.longName))
    case Area => a.(addressLine2 := Some(c.longName))
    case City => a.(city := Some(c.longName))
    case State => a.(state := Some(c.longName))
    case Pincode => a.(pincode := Some(c.longName))
    case Country => a.(country := Some(c.longName))
    case Ignored => a
  }

  /** The whole `forEach`, one component after another. */
  function Collect(cs: seq<Component>): Components {
    if cs == [] then NoComponents else Step(Collect(cs[..|cs| - 1]), cs[|cs| - 1])
  }

  /** The names of the street-number and route components, in arrival order. */
  function StreetParts(cs: seq<Component>): seq<string> {
    if cs == [] then []
    else if Classify(cs[|cs| - 1].types) == StreetPart then StreetParts(cs[..|cs| - 1]) + [cs[|cs| - 1].longName]
    else StreetParts(cs[..|cs| - 1])
  }

  function LastOf(cs: seq<Component>, r: Rule): Option<string> {
    if cs == [] then None
    else if Classify(cs[|cs| - 1].types) == r then Some(cs[|cs| - 1].longName)
    else LastOf(cs[..|cs| - 1], r)
  }

  /** `parts.join(" ")` over a non-empty list. */
  lemma JoinAppend(parts: seq<string>, x: string)
    requires parts != []
    ensures Join(parts + [x], " ") == Join(parts, " ") + " " + x
    decreases |parts|
  {
    if |parts| == 1 {
      assert (parts + [x])[1..] == [x];
    } else {
      assert (parts + [x])[1..] == parts[1..] + [x];
      JoinAppend(parts[1..], x);
    }
  }

  /**
   * With non-empty names, the first line is the street-number and route
   * names joined by single spaces in arrival order, or absent when there
   * are none.
   */
  lemma {:induction false} Line1JoinsStreetParts(cs: seq<Component>)
    requires forall i :: 0 <= i < |cs| ==> cs[i].longName != ""
    ensures Collect(cs).addressLine1 == (if StreetParts(cs) == [] then None else Some(Join(StreetParts(cs), " ")))
  {
    if cs != [] {
      var init := cs[..|cs| - 1];
      assert forall i :: 0 <= i < |init| ==> init[i].longName != "" by {
        forall i | 0 <= i < |init| ensures init[i].longName != "" {
          assert init[i] == cs[i];
        }
      }
      Line1JoinsStreetParts(init);
      var c := cs[|cs| - 1];
      if Classify(c.types) == StreetPart && StreetParts(init) != [] {
        JoinAppend(StreetParts(init), c.longName);
        Line1Truthy(init);
      }
    }
  }

  /** A first line built from non-empty names is itself non-empty. */
  lemma {:induction false} Line1Truthy(cs: seq<Component>)
    requires forall i :: 0 <= i < |cs| ==> cs[i].longName != ""
    ensures Collect(cs).addressLine1.Some? ==> Collect(cs).addressLine1.value != ""
  {
    if cs != [] {
      var init := cs[..|cs| - 1];
      assert forall i :: 0 <= i < |init| ==> init[i].longName != "" by {
        forall i | 0 <= i < |init| ensures init[i].longName != "" {
          assert init[i] == cs[i];
        }
      }
      Line1Truthy(init);
    }
  }

  /** Every other field holds the last matching component's name. */
  lemma {:induction false} LastMatchWins(cs: seq<Component>, r: Rule)
    requires r !in {StreetPart, Ignored}
    ensures Field(Collect(cs), r) == LastOf(cs, r)
  {
    if cs != [] {
      LastMatchWins(cs[..|cs| - 1], r);
    }
  }

  /** The imperative `forEach` over the place's components. */
  method CollectComponents(cs: seq<Component>) returns (a: Components)
    ensures a == Collect(cs)
  {
    a := NoComponents;
    for i := 0 to |cs|
      invariant a == Collect(cs[..i])
    {
      var types := cs[i].types;
      if "street_number" in types || "route" in types {
        if !TruthyOpt(a.addressLine1) {
          a := a.(addressLine1 := Some(cs[i].longName));
        } else {
          a := a.(addressLine1 := Some(a.addressLine1.value + " " + cs[i].longName));
        }
      } else if "sublocality" in types || "neighborhood" in types {
        a := a.(addressLine2 := Some(cs[i].longName));
      } else if "locality" in types {
        a := a.(city := Some(cs[i].longName));
      } else if "administrative_area_level_1" in types {
        a := a.(state := Some(cs[i].longName));
      } else if "postal_code" in types {
        a := a.(pincode := Some(cs[i].longName));
      } else if "country" in types {
        a := a.(country := Some(cs[i].longName));
      }
      assert cs[..i + 1][..i] == cs[..i];
    }
    assert cs[..|cs|] == cs;
  }

  /**
   * The first-line fallback: with a falsy first line and a truthy name or
   * formatted address, the name, else the untrimmed text before the first
   * comma of the formatted address, else the empty string.
   */
  function WithFallback(a: Components, name: Option<string>, formatted: Option<string>): (r: Components)
    ensures r.(addressLine1 := a.addressLine1) == a
    ensures TruthyOpt(a.addressLine1) || (!TruthyOpt(name) && !TruthyOpt(formatted)) ==> r == a
    ensures !TruthyOpt(a.addressLine1) && TruthyOpt(name) ==> r.addressLine1 == name
    ensures !TruthyOpt(a.addressLine1) && !TruthyOpt(name) && TruthyOpt(formatted) ==>
      r.addressLine1.Some? && ',' !in r.addressLine1.value && StartsWith(formatted.value, r.addressLine1.value)
  {
    if !TruthyOpt(a.addressLine1) && (TruthyOpt(name) || TruthyOpt(formatted)) then
      a.(addressLine1 := Some(
        if TruthyOpt(name) then name.value
        else if formatted.Some? then FirstPiece(formatted.value)
        else ""))
    else a
  }

  /** `s.split(',')[0]`: the text before the first comma, which `s` starts with. */
  function FirstPiece(s: string): (p: string)
    ensures ',' !in p && StartsWith(s, p)
  {
    if s == [] || s[0] == ',' then "" else [s[0]] + FirstPiece(s[1..])
  }

  lemma {:induction false} FirstPieceIsSplitHead(s: string)
    ensures FirstPiece(s) == Split(s, ',')[0]
  {
    if s != [] && s[0] != ',' {
      FirstPieceIsSplitHead(s[1..]);
    }
  }

  /** A place as the autocomplete reports it; `hasLocation` is `place.geometry && place.geometry.location`. */
  datatype Place = Place(
    hasLocation: bool,
    lat: real,
    lng: real,
    name: Option<string>,
    formattedAddress: Option<string>,
    placeId: Option<string>,
    components: Option<seq<Component>>)

  datatype LocationResult = LocationResult(lat: real, lng: real, address: string, placeId: Option<string>, components: Components)

  /** `place.formatted_address || place.name || ''`: the address passed on and the text left in the search box. */
  function DisplayAddress(p: Place): (s: string)
    ensures TruthyOpt(p.formattedAddress) ==> s == p.formattedAddress.value
    ensures !TruthyOpt(p.formattedAddress) && TruthyOpt(p.name) ==> s == p.name.value
    ensures !TruthyOpt(p.formattedAddress) && !TruthyOpt(p.name) ==> s == ""
  {
    OrOpt(p.formattedAddress, OrOpt(p.name, ""))
  }

  /** The result handed to `onLocationSelect` for a place with geometry. */
  function ResultFor(p: Place): LocationResult {
    LocationResult(p.lat, p.lng, DisplayAddress(p),
      p.placeId,
      WithFallback(Collect(p.components.GetOr([])), p.name, p.formattedAddress))
  }

  const NoDetailsMessage := "Unable to get location details for the selected place"

  /** The search box's state and what it has told the outside world. */
  class SearchBox {
    var searchValue: string
    /** The text of the input element, when it is mounted. */
    var inputValue: Option<string>
    /** Every `onLocationSelect` call so far. */
    var selections: seq<LocationResult>
    /** Every error toast so far. */
    var toasts: seq<string>

    constructor(mounted: bool)
      ensures searchValue == "" && selections == [] && toasts == []
      ensures inputValue == (if mounted then Some("") else None)
    {
      searchValue := "";
      inputValue := if mounted then Some("") else None;
      selections := [];
      toasts := [];
    }

    /**
     * `onPlaceChanged`; `place` is none while the autocomplete has not
     * loaded. A place with geometry sets the search text and is reported;
     * one without only raises the error toast.
     */
    method OnPlaceChanged(place: Option<Place>)
      modifies this
      ensures inputValue == old(inputValue)
      ensures place.None? ==> searchValue == old(searchValue) && selections == old(selections) && toasts == old(toasts)
      ensures place.Some? && place.value.hasLocation ==>
        searchValue == DisplayAddress(place.value) &&
        selections == old(selections) + [ResultFor(place.value)] && toasts == old(toasts)
      ensures place.Some? && !place.value.hasLocation ==>
        searchValue == old(searchValue) && selections == old(selections) && toasts == old(toasts) + [NoDetailsMessage]
    {
      if place.Some? {
        var p := place.value;
        if p.hasLocation {
          searchValue := OrOpt(p.formattedAddress, OrOpt(p.name, ""));
          var components := NoComponents;
          if p.components.Some? {
            components := CollectComponents(p.components.value);
          }
          assert components == Collect(p.components.GetOr([]));
          components := WithFallback(components, p.name, p.formattedAddress);
          selections := selections + [LocationResult(p.lat, p.lng, OrOpt(p.formattedAddress, OrOpt(p.name, "")), p.placeId, components)];
        } else {
          toasts := toasts + [NoDetailsMessage];
        }
      }
    }

    /** `clearSearch`: empty the search text and, when mounted, the input. */
    method ClearSearch()
      modifies this
      ensures searchValue == ""
      ensures inputValue == (if old(inputValue).Some? then Some("") else None)
      ensures selections == old(selections) && toasts == old(toasts)
    {
      searchValue := "";
      if inputValue.Some? {
        inputValue := Some("");
      }
    }
  }
}
