/**
 * The order draft of the dashboard's "Create New Order" dialog: its
 * fields, the field-by-field updates its inputs make (with the partial
 * resets some of them perform), the choices derived from the fetched
 * catalog, the composed address text and the create button's enablement.
 */
module OrderForm {
  import opened Wrappers
  import opened JsText
  import opened Seqs

  datatype OrderForm = OrderForm(
    categoryId: string,
    subcategoryId: string,
    description: string,
    filterAttributeId: string,
    address: string,
    addressId: string,
    preferredDate: string,
    preferredTime: string,
    priority: string,
    filterOption: string,
    segmentOption: string,
    serviceAddress: string,
    locationZone: string,
    cityZone: string)

  /** The draft the dialog starts with. */
  const InitialOrderForm := OrderForm("", "", "", "", "", "", "", "", "normal", "", "", "", "", "")

  /** The draft after a created order: every field empty, `priority` included. */
  const ClearedOrderForm := OrderForm("", "", "", "", "", "", "", "", "", "", "", "", "", "")

  datatype FormField =
    | CategoryId | SubcategoryId | Description | FilterAttributeId | Address | AddressId
    | PreferredDate | PreferredTime | Priority | FilterOption | SegmentOption | ServiceAddress
    | LocationZone | CityZone

  function FieldOf(f: OrderForm, k: FormField): string {
    match k
    case CategoryId => f.categoryId
    case SubcategoryId => f.subcategoryId
    case Description => f.description
    case FilterAttributeId => f.filterAttributeId
    case Address => f.address
    case AddressId => f.addressId
    case PreferredDate => f.preferredDate
    case PreferredTime => f.preferredTime
    case Priority => f.priority
    case FilterOption => f.filterOption
    case SegmentOption => f.segmentOption
    case ServiceAddress => f.serviceAddress
    case LocationZone => f.locationZone
    case CityZone => f.cityZone
  }

  /** Every field outside `changed` has the same value in both drafts. */
  ghost predicate SameExcept(a: OrderForm, b: OrderForm, changed: set<FormField>) {
    forall k :: k !in changed ==> FieldOf(a, k) == FieldOf(b, k)
  }

  /** Only `priority` tells the cleared draft from the initial one. */
  lemma ClearedDiffersOnlyInPriority()
    ensures SameExcept(InitialOrderForm, ClearedOrderForm, {Priority})
    ensures InitialOrderForm.priority == "normal" && ClearedOrderForm.priority == ""
  {
  }

  // ---------------------------------------------------------------------
  // Field updates

  /** An input that sets its own field and nothing else (`{...prev, field: value}`). */
  function SetField(f: OrderForm, k: FormField, v: string): (r: OrderForm)
    ensures FieldOf(r, k) == v
    ensures SameExcept(f, r, {k})
  {
    match k
    case CategoryId => f.(categoryId := v)
    case SubcategoryId => f.(subcategoryId := v)
    case Description => f.(description := v)
    case FilterAttributeId => f.(filterAttributeId := v)
    case Address => f.(address := v)
    case AddressId => f.(addressId := v)
    case PreferredDate => f.(preferredDate := v)
    case PreferredTime => f.(preferredTime := v)
    case Priority => f.(priority := v)
    case FilterOption => f.(filterOption := v)
    case SegmentOption => f.(segmentOption := v)
    case ServiceAddress => f.(serviceAddress := v)
    case LocationZone => f.(locationZone := v)
    case CityZone => f.(cityZone := v)
  }

  /** Choosing a category clears the subcategory and the segment, and nothing else: the filter attribute and option stay. */
  function SelectCategory(f: OrderForm, v: string): (r: OrderForm)
    ensures r.categoryId == v && r.subcategoryId == "" && r.segmentOption == ""
    ensures SameExcept(f, r, {CategoryId, SubcategoryId, SegmentOption})
  {
    f.(categoryId := v, subcategoryId := "", segmentOption := "")
  }

  /** Choosing a subcategory clears the filter attribute and the segment, and nothing else: the filter option stays. */
  function SelectSubcategory(f: OrderForm, v: string): (r: OrderForm)
    ensures r.subcategoryId == v && r.filterAttributeId == "" && r.segmentOption == ""
    ensures SameExcept(f, r, {SubcategoryId, FilterAttributeId, SegmentOption})
  {
    f.(subcategoryId := v, filterAttributeId := "", segmentOption := "")
  }

  // ---------------------------------------------------------------------
  // The catalog

  datatype Subcategory = Subcategory(id: string, name: string)

  datatype OptionValue = TextValue(text: string) | NumberValue(n: int)

  /** An attribute option: an optional numeric id and a string or numeric value. */
  datatype AttrOption = AttrOption(id: Option<int>, value: OptionValue)

  /** `subcategoryId` none is an attribute of the whole category (`subcategory_id === null`). */
  datatype Attribute = Attribute(id: string, name: string, subcategoryId: Option<string>, options: seq<AttrOption>)

  datatype Segment = Segment(id: string, categoryId: string, subcategoryId: string, name: string)

  datatype Category = Category(
    id: string,
    name: string,
    subcategories: seq<Subcategory>,
    attributes: seq<Attribute>,
    segments: seq<Segment>)

  /** One dropdown entry. */
  datatype Choice = Choice(value: string, caption: string)

  /** `categories.find(cat => cat.id === id)`. */
  function FindCategory(cats: seq<Category>, id: string): (r: Option<Category>)
    ensures r.None? <==> forall i :: 0 <= i < |cats| ==> cats[i].id != id
    ensures r.Some? ==> (exists i :: 0 <= i < |cats| && cats[i] == r.value && r.value.id == id &&
                               forall j :: 0 <= j < i ==> cats[j].id != id)
  {
    if cats == [] then None
    else if cats[0].id == id then Some(cats[0])
    else
      var r := FindCategory(cats[1..], id);
      assert r.Some? ==> (exists i :: 0 <= i < |cats| - 1 && cats[1..][i] == r.value && r.value.id == id &&
                                forall j :: 0 <= j < i ==> cats[1..][j].id != id);
      if r.Some? then
        var i :| 0 <= i < |cats| - 1 && cats[1..][i] == r.value && r.value.id == id &&
          forall j :: 0 <= j < i ==> cats[1..][j].id != id;
        assert cats[i + 1] == r.value;
        assert forall j :: 1 <= j < i + 1 ==> cats[j].id != id by {
          forall j | 1 <= j < i + 1 ensures cats[j].id != id {
            assert cats[j] == cats[1..][j - 1];
          }
        }
        r
      else
        assert forall i :: 1 <= i < |cats| ==> cats[i].id != id by {
          forall i | 1 <= i < |cats| ensures cats[i].id != id {
            assert cats[i] == cats[1..][i - 1];
          }
        }
        r
  }

  /** Attribute scope: the chosen subcategory's own attributes and the category-wide ones. */
  predicate InScope(a: Attribute, sub: string) {
    a.subcategoryId == Some(sub) || a.subcategoryId.None?
  }

  predicate CategoryWide(a: Attribute) {
    a.subcategoryId.None?
  }

  function AttributeChoice(a: Attribute): Choice {
    Choice(a.id, a.name)
  }

  /** `option.value.toString()`. */
  function ValueText(v: OptionValue): string {
    match v
    case TextValue(s) => s
    case NumberValue(n) => IntToString(n)
  }

  /** `option.id?.toString() || option.value.toString()`: a present id always wins, since its text is never empty. */
  function OptionKey(o: AttrOption): (k: string)
    ensures o.id.Some? ==> k == IntToString(o.id.value)
    ensures o.id.None? ==> k == ValueText(o.value)
  {
    Or(if o.id.Some? then IntToString(o.id.value) else "", ValueText(o.value))
  }

  function OptionChoice(o: AttrOption): Choice {
    Choice(OptionKey(o), ValueText(o.value))
  }

  // ---------------------------------------------------------------------
  // Derived choices

  /** The subcategory dropdown: the chosen category's subcategories, nothing while loading or without a (known) category. */
  function SubcategoryChoices(loading: bool, cats: seq<Category>, f: OrderForm): (r: seq<Choice>)
    ensures loading || f.categoryId == "" || FindCategory(cats, f.categoryId).None? ==> r == []
    ensures !loading && f.categoryId != "" && FindCategory(cats, f.categoryId).Some? ==>
      var subs := FindCategory(cats, f.categoryId).value.subcategories;
      |r| == |subs| && forall i :: 0 <= i < |subs| ==> r[i] == Choice(subs[i].id, subs[i].name)
  {
    if loading || f.categoryId == "" then []
    else match FindCategory(cats, f.categoryId)
      case Some(c) => Map(c.subcategories, (s: Subcategory) => Choice(s.id, s.name))
      case None => []
  }

  /** The filter-attribute dropdown. */
  function AttributeChoices(cats: seq<Category>, f: OrderForm): (r: seq<Choice>)
    ensures f.categoryId == "" || FindCategory(cats, f.categoryId).None? ==> r == []
  {
    if f.categoryId == "" then []
    else match FindCategory(cats, f.categoryId)
      case None => []
      case Some(c) =>
        if f.subcategoryId != "" then Map(Filter(c.attributes, (a: Attribute) => InScope(a, f.subcategoryId)), AttributeChoice)
        else Map(Filter(c.attributes, CategoryWide), AttributeChoice)
  }

  /**
   * With a category and a subcategory the attribute choices are exactly the
   * in-scope attributes; with only a category, exactly the category-wide ones.
   */
  lemma AttributeChoicesScope(cats: seq<Category>, f: OrderForm, ch: Choice)
    requires f.categoryId != "" && FindCategory(cats, f.categoryId).Some?
    ensures var attrs := FindCategory(cats, f.categoryId).value.attributes;
      ch in AttributeChoices(cats, f) <==>
        exists a :: a in attrs && ch == AttributeChoice(a) &&
          (if f.subcategoryId != "" then InScope(a, f.subcategoryId) else CategoryWide(a))
  {
    var attrs := FindCategory(cats, f.categoryId).value.attributes;
    if f.subcategoryId != "" {
      MapFilterMembers(attrs, (a: Attribute) => InScope(a, f.subcategoryId), AttributeChoice, ch);
    } else {
      MapFilterMembers(attrs, CategoryWide, AttributeChoice, ch);
    }
  }

  /** The filter-option dropdown; with only a category it lists the category-wide attributes instead of options. */
  function FilterOptionChoices(cats: seq<Category>, f: OrderForm): (r: seq<Choice>)
    ensures f.categoryId == "" || FindCategory(cats, f.categoryId).None? ==> r == []
    ensures f.categoryId != "" && f.subcategoryId == "" ==> r == AttributeChoices(cats, f)
  {
    if f.categoryId == "" then []
    else match FindCategory(cats, f.categoryId)
      case None => []
      case Some(c) =>
        if f.subcategoryId != "" then
          FlatMap(
            Filter(Filter(c.attributes, (a: Attribute) => InScope(a, f.subcategoryId)), (a: Attribute) => a.id == f.filterAttributeId),
            (a: Attribute) => Map(a.options, OptionChoice))
        else Map(Filter(c.attributes, CategoryWide), AttributeChoice)
  }

  /** The choices of every option of every attribute listed. */
  lemma {:induction false} OptionChoicesOf(attrs: seq<Attribute>, ch: Choice)
    ensures ch in FlatMap(attrs, (a: Attribute) => Map(a.options, OptionChoice)) <==>
      exists a :: a in attrs && exists o :: o in a.options && ch == OptionChoice(o)
  {
    var f := (a: Attribute) => Map(a.options, OptionChoice);
    if ch in FlatMap(attrs, f) {
      var a :| a in attrs && ch in f(a);
      var i :| 0 <= i < |a.options| && f(a)[i] == ch;
      assert a.options[i] in a.options;
    }
    if exists a :: a in attrs && exists o :: o in a.options && ch == OptionChoice(o) {
      var a :| a in attrs && exists o :: o in a.options && ch == OptionChoice(o);
      var o :| o in a.options && ch == OptionChoice(o);
      var i :| 0 <= i < |a.options| && a.options[i] == o;
      assert f(a)[i] == ch;
    }
  }

  /**
   * With a category and a subcategory, the filter options are exactly the
   * options of the chosen attribute, and only while that attribute is in scope.
   */
  lemma FilterOptionsOfChosenAttribute(cats: seq<Category>, f: OrderForm, ch: Choice)
    requires f.categoryId != "" && f.subcategoryId != "" && FindCategory(cats, f.categoryId).Some?
    ensures var attrs := FindCategory(cats, f.categoryId).value.attributes;
      ch in FilterOptionChoices(cats, f) <==>
        exists a :: a in attrs && a.id == f.filterAttributeId && InScope(a, f.subcategoryId) &&
          exists o :: o in a.options && ch == OptionChoice(o)
  {
    var attrs := FindCategory(cats, f.categoryId).value.attributes;
    var chosen := Filter(Filter(attrs, (a: Attribute) => InScope(a, f.subcategoryId)), (a: Attribute) => a.id == f.filterAttributeId);
    assert FilterOptionChoices(cats, f) == FlatMap(chosen, (a: Attribute) => Map(a.options, OptionChoice));
    OptionChoicesOf(chosen, ch);
    assert forall a :: a in chosen <==> a in attrs && a.id == f.filterAttributeId && InScope(a, f.subcategoryId);
  }

  /** The segments of the chosen category that belong to the chosen category and subcategory. */
  function MatchingSegments(cats: seq<Category>, f: OrderForm): (r: seq<Segment>)
    ensures FindCategory(cats, f.categoryId).None? ==> r == []
    ensures FindCategory(cats, f.categoryId).Some? ==>
      forall s :: s in r <==>
        (s in FindCategory(cats, f.categoryId).value.segments && s.categoryId == f.categoryId && s.subcategoryId == f.subcategoryId)
  {
    match FindCategory(cats, f.categoryId)
    case Some(c) => Filter(c.segments, (s: Segment) => s.categoryId == f.categoryId && s.subcategoryId == f.subcategoryId)
    case None => []
  }

  /** The segment dropdown is shown only with both ids set and a matching segment. */
  function SegmentVisible(cats: seq<Category>, f: OrderForm): (b: bool)
    ensures b <==> (f.categoryId != "" && f.subcategoryId != "" &&
      FindCategory(cats, f.categoryId).Some? &&
      exists s :: s in FindCategory(cats, f.categoryId).value.segments &&
        s.categoryId == f.categoryId && s.subcategoryId == f.subcategoryId)
  {
    var r := MatchingSegments(cats, f);
    if f.categoryId != "" && f.subcategoryId != "" && |r| > 0 then
      assert r[0] in r;
      true
    else false
  }

  function SegmentChoices(cats: seq<Category>, f: OrderForm): (r: seq<Choice>)
    ensures |r| == |MatchingSegments(cats, f)|
    ensures forall i :: 0 <= i < |r| ==> r[i] == Choice(MatchingSegments(cats, f)[i].id, MatchingSegments(cats, f)[i].name)
  {
    Map(MatchingSegments(cats, f), (s: Segment) => Choice(s.id, s.name))
  }

  // ---------------------------------------------------------------------
  // Addresses

  /** A saved address; `addressLine2` and `landmark` may be null. */
  datatype SavedAddress = SavedAddress(
    id: string,
    storeName: string,
    addressLine1: string,
    addressLine2: Option<string>,
    landmark: Option<string>,
    city: string,
    state: string,
    pincode: string)

  /** `addresses.find(addr => addr.id === id)`. */
  function FindAddress(addresses: seq<SavedAddress>, id: string): (r: Option<SavedAddress>)
    ensures r.None? <==> forall i :: 0 <= i < |addresses| ==> addresses[i].id != id
    ensures r.Some? ==> (exists i :: 0 <= i < |addresses| && addresses[i] == r.value && r.value.id == id &&
                               forall j :: 0 <= j < i ==> addresses[j].id != id)
  {
    if addresses == [] then None
    else if addresses[0].id == id then Some(addresses[0])
    else
      var r := FindAddress(addresses[1..], id);
      assert forall i :: 1 <= i < |addresses| ==> addresses[i] == addresses[1..][i - 1];
      if r.Some? then
        var i :| 0 <= i < |addresses| - 1 && addresses[1..][i] == r.value && r.value.id == id &&
          forall j :: 0 <= j < i ==> addresses[1..][j].id != id;
        assert addresses[i + 1] == r.value;
        r
      else
        r
  }

  /** `store, line1[, line2], [landmark, ]city, state - pincode`. */
  function AddressText(a: SavedAddress): (s: string)
    ensures StartsWith(s, a.storeName + ", " + a.addressLine1)
  {
    var head := a.storeName + ", " + a.addressLine1;
    var s := head
      + (if TruthyOpt(a.addressLine2) then ", " + a.addressLine2.value else "")
      + ", "
      + (if TruthyOpt(a.landmark) then a.landmark.value + ", " else "")
      + a.city + ", " + a.state + " - " + a.pincode;
    assert s[..|head|] == head;
    s
  }

  /** What the address dropdown puts in `address`: the composed text, or empty when the id is not in the list. */
  function ComposedAddress(addresses: seq<SavedAddress>, id: string): (s: string)
    ensures s == "" <==> FindAddress(addresses, id).None?
  {
    match FindAddress(addresses, id)
    case Some(a) => AddressText(a)
    case None => ""
  }

  /**
   * The composed text ends with the city, the state and the pincode; line 2
   * and the landmark each appear, followed by `, `, exactly when they are
   * non-empty, and otherwise leave no trace.
   */
  lemma AddressTextShape(a: SavedAddress)
    ensures var tail := a.city + ", " + a.state + " - " + a.pincode;
      |tail| <= |AddressText(a)| && AddressText(a)[|AddressText(a)| - |tail|..] == tail
    ensures !TruthyOpt(a.addressLine2) && !TruthyOpt(a.landmark) ==>
      AddressText(a) == a.storeName + ", " + a.addressLine1 + ", " + a.city + ", " + a.state + " - " + a.pincode
    ensures TruthyOpt(a.addressLine2) && !TruthyOpt(a.landmark) ==>
      AddressText(a) == a.storeName + ", " + a.addressLine1 + ", " + a.addressLine2.value + ", " + a.city + ", " + a.state + " - " + a.pincode
    ensures !TruthyOpt(a.addressLine2) && TruthyOpt(a.landmark) ==>
      AddressText(a) == a.storeName + ", " + a.addressLine1 + ", " + a.landmark.value + ", " + a.city + ", " + a.state + " - " + a.pincode
    ensures TruthyOpt(a.addressLine2) && TruthyOpt(a.landmark) ==>
      AddressText(a) == a.storeName + ", " + a.addressLine1 + ", " + a.addressLine2.value + ", " + a.landmark.value + ", " +
        a.city + ", " + a.state + " - " + a.pincode
  {
    var store := a.storeName + ", " + a.addressLine1;
    var tail := a.city + ", " + a.state + " - " + a.pincode;
    var line2 := if TruthyOpt(a.addressLine2) then ", " + a.addressLine2.value else "";
    var mark := if TruthyOpt(a.landmark) then a.landmark.value + ", " else "";
    AddressTextParts(a, store, line2, mark, tail);
    var t := AddressText(a);
    if TruthyOpt(a.addressLine2) && TruthyOpt(a.landmark) {
      assert t == store + ", " + a.addressLine2.value + ", " + a.landmark.value + ", " + tail;
    } else if TruthyOpt(a.addressLine2) {
      assert t == store + ", " + a.addressLine2.value + ", " + tail;
    } else if TruthyOpt(a.landmark) {
      assert t == store + ", " + a.landmark.value + ", " + tail;
    } else {
      assert t == store + ", " + tail;
    }
  }

  /** The composed text in four parts: store and line 1, the optional line 2, the optional landmark, and the tail. */
  lemma AddressTextParts(a: SavedAddress, store: string, line2: string, mark: string, tail: string)
    requires store == a.storeName + ", " + a.addressLine1
    requires line2 == (if TruthyOpt(a.addressLine2) then ", " + a.addressLine2.value else "")
    requires mark == (if TruthyOpt(a.landmark) then a.landmark.value + ", " else "")
    requires tail == a.city + ", " + a.state + " - " + a.pincode
    ensures AddressText(a) == store + line2 + ", " + mark + tail
  {
  }

  /** The address dropdown's change: the id and its composed text. */
  function SelectAddress(f: OrderForm, addresses: seq<SavedAddress>, id: string): (r: OrderForm)
    ensures r.addressId == id && r.address == ComposedAddress(addresses, id)
    ensures SameExcept(f, r, {AddressId, Address})
  {
    f.(addressId := id, address := ComposedAddress(addresses, id))
  }

  // ---------------------------------------------------------------------
  // Create button

  /** The create button is enabled with a category, a subcategory and an address, while nothing is being created or loaded. */
  predicate CreateEnabled(f: OrderForm, creating: bool, loadingCategories: bool) {
    f.categoryId != "" && f.subcategoryId != "" && f.address != "" && !creating && !loadingCategories
  }

  /**
   * Changing the category always disables create until a subcategory is
   * chosen again, and create is only enabled for an address id that is in
   * the list.
   */
  lemma CreateEnabledAfterChanges(f: OrderForm, c: string, s: string, addresses: seq<SavedAddress>, id: string, creating: bool, loading: bool)
    ensures !CreateEnabled(SelectCategory(f, c), creating, loading)
    ensures CreateEnabled(SelectAddress(f, addresses, id), creating, loading) ==> FindAddress(addresses, id).Some?
    ensures CreateEnabled(SelectSubcategory(SelectCategory(f, c), s), creating, loading) <==>
      c != "" && s != "" && f.address != "" && !creating && !loading
  {
  }
}
