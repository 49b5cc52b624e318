/**
 * The dashboard page's own state and handlers: the order dialog (field
 * changes, order creation), the add-address dialog (validation, filling
 * from the map picker, submission) and the approval dialog with its
 * mandatory remark. Server calls are given as their outcomes.
 */
module Dashboard {
  import opened Wrappers
  import opened JsText
  import opened Http
  import opened OrderForm
  import MapPicker


  // ---------------------------------------------------------------------
  // The add-address dialog

  /** `AddAddressRequest` as the dialog fills it. */
  datatype AddressForm = AddressForm(
    addressType: string,
    storeName: string,
    storeCode: string,
    contactPerson: string,
    contactPhone: string,
    addressLine1: string,
    addressLine2: string,
    landmark: string,
    city: string,
    state: string,
    pincode: string,
    latitude: string,
    longitude: string,
    isPrimary: bool,
    isActive: bool,
    b2bCustomerId: string)

  /** The empty dialog: a primary-less, active store address of the signed-in customer (`user?.id || ''`). */
  function EmptyAddressForm(userId: Option<string>): (a: AddressForm)
    ensures a.addressType == "store" && !a.isPrimary && a.isActive
    ensures a.b2bCustomerId == (if TruthyOpt(userId) then userId.value else "")
    ensures a.storeName == a.storeCode == a.contactPerson == a.contactPhone == ""
    ensures a.addressLine1 == a.addressLine2 == a.landmark == a.city == a.state == a.pincode == ""
    ensures a.latitude == a.longitude == ""
  {
    AddressForm("store", "", "", "", "", "", "", "", "", "", "", "", "", false, true, OrOpt(userId, ""))
  }

  const Line1Required := "Address Line 1 is required"
  const CityRequired := "City is required"
  const StateRequired := "State is required"
  const PincodeRequired := "Pincode is required"

  /**
   * The submit handler's checks, in order: the first of line 1, city,
   * state and pincode that is blank (`!field.trim()`, see
   * `ValidationOrder`) names the error.
   */
  function ValidateAddress(a: AddressForm): (r: Option<string>)
    ensures r.Some? ==> r.value in {Line1Required, CityRequired, StateRequired, PincodeRequired}
    ensures r.None? <==> !IsBlank(a.addressLine1) && !IsBlank(a.city) && !IsBlank(a.state) && !IsBlank(a.pincode)
  {
    if IsBlank(a.addressLine1) then Some(Line1Required)
    else if IsBlank(a.city) then Some(CityRequired)
    else if IsBlank(a.state) then Some(StateRequired)
    else if IsBlank(a.pincode) then Some(PincodeRequired)
    else None
  }

  /**
   * In the handler's own terms: a form passes exactly when none of the four
   * fields trims to empty, and otherwise fails on the first that does, in
   * the order line 1, city, state, pincode.
   */
  lemma ValidationOrder(a: AddressForm)
    ensures ValidateAddress(a).None? <==> Trim(a.addressLine1) != "" && Trim(a.city) != "" && Trim(a.state) != "" && Trim(a.pincode) != ""
    ensures Trim(a.addressLine1) == "" ==> ValidateAddress(a) == Some(Line1Required)
    ensures Trim(a.addressLine1) != "" && Trim(a.city) == "" ==> ValidateAddress(a) == Some(CityRequired)
    ensures Trim(a.addressLine1) != "" && Trim(a.city) != "" && Trim(a.state) == "" ==> ValidateAddress(a) == Some(StateRequired)
    ensures Trim(a.addressLine1) != "" && Trim(a.city) != "" && Trim(a.state) != "" && Trim(a.pincode) == "" ==>
      ValidateAddress(a) == Some(PincodeRequired)
  {
    TrimEmptyIffBlank(a.addressLine1);
    TrimEmptyIffBlank(a.city);
    TrimEmptyIffBlank(a.state);
    TrimEmptyIffBlank(a.pincode);
  }

  /** The dialog's submit button: six fields non-empty, untrimmed. */
  predicate AddAddressEnabled(a: AddressForm) {
    a.storeName != "" && a.contactPerson != "" && a.addressLine1 != "" && a.city != "" && a.state != "" && a.pincode != ""
  }

  /** A form the handler accepts has its four checked fields non-empty. */
  lemma ValidAddressIsFilled(a: AddressForm)
    requires ValidateAddress(a).None?
    ensures a.addressLine1 != "" && a.city != "" && a.state != "" && a.pincode != ""
  {
  }

  /** A whitespace-only line 1 enables the button and is then refused by the handler. */
  lemma BlankLine1PassesButton()
    ensures exists a :: AddAddressEnabled(a) && ValidateAddress(a) == Some(Line1Required)
  {
    var blank := AddressForm("store", "S", "", "P", "", " ", "", "", "C", "T", "1", "", "", false, true, "");
    assert IsBlank(blank.addressLine1);
    assert AddAddressEnabled(blank);
  }

  /** A form without a store name or contact person passes the handler's checks, yet the button stays disabled. */
  lemma NamelessFormPassesChecks(x: string)
    requires !IsBlank(x)
    ensures exists a :: !AddAddressEnabled(a) && ValidateAddress(a).None?
  {
    var nameless := AddressForm("store", "", "", "", "", x, "", "", x, x, x, "", "", false, true, "");
    assert !AddAddressEnabled(nameless) && ValidateAddress(nameless).None?;
  }

  /** `detail || current`: a picked detail replaces a field only when it is a non-empty string. */
  function Fill(detail: Option<string>, current: string): (r: string)
    ensures TruthyOpt(detail) ==> r == detail.value
    ensures !TruthyOpt(detail) ==> r == current
  {
    OrOpt(detail, current)
  }

  /**
   * `handleLocationSelect`: the coordinates are always taken; each of line
   * 1, line 2, landmark, city, state and pincode is taken from the picked
   * details only when that detail is truthy; the country is never taken.
   */
  function LocationSelect(a: AddressForm, lat: string, lng: string, details: Option<MapPicker.AddressDetails>): (r: AddressForm)
    ensures r.latitude == lat && r.longitude == lng
    ensures details.None? ==> r == a.(latitude := lat, longitude := lng)
    ensures details.Some? ==>
      r.addressLine1 == Fill(details.value.addressLine1, a.addressLine1) &&
      r.addressLine2 == Fill(details.value.addressLine2, a.addressLine2) &&
      r.landmark == Fill(details.value.landmark, a.landmark) &&
      r.city == Fill(details.value.city, a.city) &&
      r.state == Fill(details.value.state, a.state) &&
      r.pincode == Fill(details.value.pincode, a.pincode)
    ensures r.(addressLine1 := a.addressLine1, addressLine2 := a.addressLine2, landmark := a.landmark,
               city := a.city, state := a.state, pincode := a.pincode, latitude := a.latitude, longitude := a.longitude) == a
  {
    match details
    case None => a.(latitude := lat, longitude := lng)
    case Some(d) =>
      a.(latitude := lat, longitude := lng,
         addressLine1 := Fill(d.addressLine1, a.addressLine1),
         addressLine2 := Fill(d.addressLine2, a.addressLine2),
         landmark := Fill(d.landmark, a.landmark),
         city := Fill(d.city, a.city),
         state := Fill(d.state, a.state),
         pincode := Fill(d.pincode, a.pincode))
  }

  /**
   * Picking the same spot twice is the same as picking it once, and a pick
   * never empties a field the dialog already had.
   */
  lemma LocationSelectIdempotent(a: AddressForm, lat: string, lng: string, details: Option<MapPicker.AddressDetails>)
    ensures LocationSelect(LocationSelect(a, lat, lng, details), lat, lng, details) == LocationSelect(a, lat, lng, details)
    ensures var r := LocationSelect(a, lat, lng, details);
      (a.addressLine1 != "" ==> r.addressLine1 != "") && (a.city != "" ==> r.city != "") &&
      (a.state != "" ==> r.state != "") && (a.pincode != "" ==> r.pincode != "")
  {
  }

  /** A pick the geocoder found nothing for (empty details) only moves the coordinates. */
  lemma EmptyDetailsOnlyMoveCoordinates(a: AddressForm, lat: string, lng: string)
    ensures LocationSelect(a, lat, lng, Some(MapPicker.NoDetails)) == a.(latitude := lat, longitude := lng)
  {
  }

  // ---------------------------------------------------------------------
  // The approval dialog

  datatype ApprovalAction = Approve | Reject

  /** The action's wire name. */
  function ActionName(action: ApprovalAction): string {
    match action
    case Approve => "approve"
    case Reject => "reject"
  }

  datatype ApprovalTarget = ApprovalTarget(id: string, action: ApprovalAction)

  /** The body posted to `take-approval-action`. */
  datatype ApprovalRequest = ApprovalRequest(approvalId: string, action: ApprovalAction, remarks: string)

  /** The dialog's submit button: enabled with a remark that is not blank (`approvalRemarks.trim()` non-empty). */
  predicate ApprovalSubmitEnabled(remarks: string) {
    !IsBlank(remarks)
  }

  /**
   * The button is enabled exactly when the remark trims to something, and
   * the remark then sent neither starts nor ends with whitespace.
   */
  lemma SubmitEnabledIffRemarkTrims(remarks: string)
    ensures ApprovalSubmitEnabled(remarks) <==> Trim(remarks) != ""
    ensures ApprovalSubmitEnabled(remarks) ==>
      var t := Trim(remarks); t != "" && !IsWhitespace(t[0]) && !IsWhitespace(t[|t| - 1])
  {
    TrimEmptyIffBlank(remarks);
    if Trim(remarks) != "" {
      TrimmedEnds(remarks);
    }
  }

  /** The toast texts around the word naming what happened to the request. */
  function SuccessFor(word: string): string {
    "Successfully " + word + " the request!"
  }

  function ErrorFor(word: string): string {
    "Error " + word + " request. Please try again."
  }

  /** Two texts built around different words differ. */
  lemma {:induction false} WordsDecideText(p: string, w1: string, w2: string, q: string)
    ensures p + w1 + q == p + w2 + q <==> w1 == w2
  {
    if p + w1 + q == p + w2 + q {
      assert |w1| == |w2|;
      assert w1 == (p + w1 + q)[|p|..|p| + |w1|];
      assert w2 == (p + w2 + q)[|p|..|p| + |w2|];
    }
  }

  /** The texts as the handler builds them, and as the dialog below shows them: the wire name with `d` or `ing` appended. */
  function SuccessTextAsWritten(action: ApprovalAction): string {
    SuccessFor(ActionName(action) + "d")
  }

  function ErrorTextAsWritten(action: ApprovalAction): string {
    ErrorFor(ActionName(action) + "ing")
  }

  function PastTense(action: ApprovalAction): string {
    match action
    case Approve => "approved"
    case Reject => "rejected"
  }

  function Gerund(action: ApprovalAction): string {
    match action
    case Approve => "approving"
    case Reject => "rejecting"
  }

  /** The texts with the action's proper past tense and gerund: what the handler's texts evidently mean to say. */
  function SuccessText(action: ApprovalAction): string {
    SuccessFor(PastTense(action))
  }

  function ErrorText(action: ApprovalAction): string {
    ErrorFor(Gerund(action))
  }

  /**
   * Appending the suffix spells the success text right for an approval
   * only, and the error text right for a rejection only: the handler shows
   * "rejectd" and "approveing".
   */
  lemma SuffixedTextsMisspell(action: ApprovalAction)
    ensures SuccessTextAsWritten(action) == SuccessText(action) <==> action == Approve
    ensures ErrorTextAsWritten(action) == ErrorText(action) <==> action == Reject
  {
    WordsDecideText("Successfully ", ActionName(action) + "d", PastTense(action), " the request!");
    WordsDecideText("Error ", ActionName(action) + "ing", Gerund(action), " request. Please try again.");
    if action == Approve {
      assert ActionName(action) + "d" == PastTense(action);
      assert |ActionName(action) + "ing"| != |Gerund(action)|;
    } else {
      assert |ActionName(action) + "d"| != |PastTense(action)|;
      assert ActionName(action) + "ing" == Gerund(action);
    }
  }

  /** The corrected texts name the two actions distinctly. */
  lemma CorrectedTextsDistinguishActions()
    ensures SuccessText(Approve) != SuccessText(Reject)
    ensures ErrorText(Approve) != ErrorText(Reject)
  {
    WordsDecideText("Successfully ", PastTense(Approve), PastTense(Reject), " the request!");
    WordsDecideText("Error ", Gerund(Approve), Gerund(Reject), " request. Please try again.");
    assert PastTense(Approve)[0] != PastTense(Reject)[0];
    assert Gerund(Approve)[0] != Gerund(Reject)[0];
  }

  const AddAddressError := "Error adding address. Please try again."
  const AddressAdded := "Address added successfully!"
  const AddAddressFailed := "Failed to add address: "
  const OrderCreated := "Order created successfully!"
  const CreateOrderFailed := "Failed to create order: "
  const CreateOrderError := "Error creating order"
  const RemarksMandatory := "Remarks are mandatory for both approve and reject actions"

  // ---------------------------------------------------------------------
  // Server responses

  datatype CreateOrderResponse = CreateOrderResponse(success: bool, message: string)
  datatype AddAddressResponse = AddAddressResponse(status: bool, message: string)
  datatype AddressListResponse = AddressListResponse(status: bool, data: seq<SavedAddress>)
  datatype ApprovalResponse = ApprovalResponse(success: bool)

  /** The order plain inputs set without touching other fields: filter attribute, filter option, segment, date, time, zones. */
  const PlainFields: set<FormField> := {FilterAttributeId, FilterOption, SegmentOption, PreferredDate, PreferredTime, LocationZone, CityZone}

  /** The page's state, and the requests and toasts it has issued. */
  class DashboardPage {
    /** `user?.id` of the signed-in customer. */
    const userId: Option<string>

    var orderForm: OrderForm
    var isCreateOrderModalOpen: bool
    var isCreatingOrder: bool
    var isLoadingCategories: bool
    var addresses: seq<SavedAddress>
    /** Every draft posted to `create-order`. */
    var orderRequests: seq<OrderForm>

    var addressForm: AddressForm
    var isAddAddressModalOpen: bool
    /** Every form posted to `add-address`. */
    var addressRequests: seq<AddressForm>

    var isApprovalModalOpen: bool
    var currentApproval: Option<ApprovalTarget>
    var approvalRemarks: string
    /** Every approval action posted. */
    var approvalRequests: seq<ApprovalRequest>
    /** How many times an accepted action asked for the pending approvals again (`loadApprovalFlow`). */
    var approvalFlowReloads: nat

    var toasts: seq<Toast>

    /** The approval dialog is never open without an approval to act on. */
    ghost predicate Valid()
      reads this
    {
      isApprovalModalOpen ==> currentApproval.Some?
    }

    constructor(userId: Option<string>)
      ensures Valid()
      ensures this.userId == userId
      ensures orderForm == InitialOrderForm && !isCreateOrderModalOpen && !isCreatingOrder && !isLoadingCategories
      ensures addresses == [] && orderRequests == [] && addressRequests == [] && approvalRequests == [] && toasts == []
      ensures addressForm == EmptyAddressForm(userId) && !isAddAddressModalOpen
      ensures !isApprovalModalOpen && currentApproval.None? && approvalRemarks == "" && approvalFlowReloads == 0
    {
      this.userId := userId;
      orderForm := InitialOrderForm;
      isCreateOrderModalOpen := false;
      isCreatingOrder := false;
      isLoadingCategories := false;
      addresses := [];
      orderRequests := [];
      addressForm := EmptyAddressForm(userId);
      isAddAddressModalOpen := false;
      addressRequests := [];
      isApprovalModalOpen := false;
      currentApproval := None;
      approvalRemarks := "";
      approvalRequests := [];
      approvalFlowReloads := 0;
      toasts := [];
    }

    // ----- order dialog -----

    method ChangeCategory(v: string)
      modifies this`orderForm
      ensures orderForm == SelectCategory(old(orderForm), v)
    {
      orderForm := orderForm.(categoryId := v, subcategoryId := "", segmentOption := "");
    }

    method ChangeSubcategory(v: string)
      modifies this`orderForm
      ensures orderForm == SelectSubcategory(old(orderForm), v)
    {
      orderForm := orderForm.(subcategoryId := v, filterAttributeId := "", segmentOption := "");
    }

    /** One of the inputs that set only their own field. */
    method ChangeField(k: FormField, v: string)
      requires k in PlainFields
      modifies this`orderForm
      ensures orderForm == SetField(old(orderForm), k, v)
    {
      orderForm := SetField(orderForm, k, v);
    }

    /** The address dropdown: the id and the composed text of that saved address. */
    method ChangeAddress(id: string)
      modifies this`orderForm
      ensures orderForm == SelectAddress(old(orderForm), addresses, id)
    {
      var selected := FindAddress(addresses, id);
      var text := if selected.Some? then AddressText(selected.value) else "";
      orderForm := orderForm.(addressId := id, address := text);
    }

    /**
     * `handleCreateOrder`: the draft is posted; on success the dialog
     * closes and the draft is cleared, otherwise both stay and an error is
     * shown. The creating flag is off again on every path.
     */
    method HandleCreateOrder(o: Outcome<CreateOrderResponse>)
      requires Valid()
      modifies this`isCreatingOrder, this`orderRequests, this`toasts, this`isCreateOrderModalOpen, this`orderForm
      ensures Valid()
      ensures orderRequests == old(orderRequests) + [old(orderForm)]
      ensures !isCreatingOrder
      ensures o.Response? && o.body.success ==>
        !isCreateOrderModalOpen && orderForm == ClearedOrderForm &&
        toasts == old(toasts) + [SuccessToast(OrderCreated)]
      ensures o.Response? && !o.body.success ==>
        isCreateOrderModalOpen == old(isCreateOrderModalOpen) && orderForm == old(orderForm) &&
        toasts == old(toasts) + [ErrorToast(CreateOrderFailed + o.body.message)]
      ensures o.Thrown? ==>
        isCreateOrderModalOpen == old(isCreateOrderModalOpen) && orderForm == old(orderForm) &&
        toasts == old(toasts) + [ErrorToast(CreateOrderError)]
    {
      isCreatingOrder := true;
      orderRequests := orderRequests + [orderForm];
      match o {
        case Thrown(_) =>
          toasts := toasts + [ErrorToast(CreateOrderError)];
        case Response(body) =>
          if !body.success {
            toasts := toasts + [ErrorToast(CreateOrderFailed + body.message)];
          } else {
            isCreateOrderModalOpen := false;
            orderForm := ClearedOrderForm;
            toasts := toasts + [SuccessToast(OrderCreated)];
          }
      }
      isCreatingOrder := false;
    }

    // ----- add-address dialog -----

    method HandleLocationSelect(lat: string, lng: string, details: Option<MapPicker.AddressDetails>)
      modifies this`addressForm
      ensures addressForm == LocationSelect(old(addressForm), lat, lng, details)
    {
      addressForm := LocationSelect(addressForm, lat, lng, details);
    }

    /**
     * `handleAddAddress`: a form failing a check only raises that check's
     * error; any other form is posted.
     */
    method HandleAddAddress(add: Outcome<AddAddressResponse>, reload: Outcome<AddressListResponse>)
      requires Valid()
      modifies this`addressRequests, this`toasts, this`isAddAddressModalOpen, this`addressForm, this`addresses
      ensures Valid()
      ensures ValidateAddress(old(addressForm)).Some? ==>
        toasts == old(toasts) + [ErrorToast(ValidateAddress(old(addressForm)).value)] &&
        addressRequests == old(addressRequests) && addressForm == old(addressForm) &&
        isAddAddressModalOpen == old(isAddAddressModalOpen) && addresses == old(addresses)
      ensures ValidateAddress(old(addressForm)).None? ==> PostedAddress(old(addressForm), old(isAddAddressModalOpen), old(addresses), old(addressRequests), old(toasts), add, reload)
    {
      var problem := ValidateAddress(addressForm);
      if problem.Some? {
        toasts := toasts + [ErrorToast(problem.value)];
      } else {
        PostAddress(add, reload);
      }
    }

    /**
     * The state after posting a form: an accepted address closes and
     * empties the dialog and reloads the list, which replaces the saved
     * addresses when the reload succeeds; a reload that throws is reported
     * by the same catch as a failed post. A refused or failed post leaves
     * the dialog as it was.
     */
    ghost predicate PostedAddress(form: AddressForm, wasOpen: bool, saved: seq<SavedAddress>, requests: seq<AddressForm>, shown: seq<Toast>,
                                  add: Outcome<AddAddressResponse>, reload: Outcome<AddressListResponse>)
      reads this
    {
      addressRequests == requests + [form] &&
      (if add.Response? && add.body.status then
        addressForm == EmptyAddressForm(userId) && !isAddAddressModalOpen &&
        addresses == (if reload.Response? && reload.body.status then reload.body.data else saved) &&
        toasts == shown + [SuccessToast(AddressAdded)] + (if reload.Thrown? then [ErrorToast(AddAddressError)] else [])
      else
        addressForm == form && isAddAddressModalOpen == wasOpen && addresses == saved &&
        toasts == shown + [ErrorToast(if add.Thrown? then AddAddressError else AddAddressFailed + add.body.message)])
    }

    /** The `try` block of `handleAddAddress`, once the checks have passed. */
    method PostAddress(add: Outcome<AddAddressResponse>, reload: Outcome<AddressListResponse>)
      modifies this`addressRequests, this`toasts, this`isAddAddressModalOpen, this`addressForm, this`addresses
      ensures PostedAddress(old(addressForm), old(isAddAddressModalOpen), old(addresses), old(addressRequests), old(toasts), add, reload)
    {
      addressRequests := addressRequests + [addressForm];
      match add {
        case Thrown(_) =>
          toasts := toasts + [ErrorToast(AddAddressError)];
        case Response(response) =>
          if response.status {
            toasts := toasts + [SuccessToast(AddressAdded)];
            isAddAddressModalOpen := false;
            addressForm := EmptyAddressForm(userId);
            match reload {
              case Thrown(_) =>
                toasts := toasts + [ErrorToast(AddAddressError)];
              case Response(list) =>
                if list.status {
                  addresses := list.data;
                }
            }
          } else {
            toasts := toasts + [ErrorToast(AddAddressFailed + response.message)];
          }
      }
    }

    // ----- approval dialog -----

    method OpenApprovalModal(id: string, action: ApprovalAction)
      modifies this`currentApproval, this`approvalRemarks, this`isApprovalModalOpen
      ensures Valid()
      ensures isApprovalModalOpen && currentApproval == Some(ApprovalTarget(id, action)) && approvalRemarks == ""
    {
      currentApproval := Some(ApprovalTarget(id, action));
      approvalRemarks := "";
      isApprovalModalOpen := true;
    }

    method ChangeRemarks(v: string)
      requires Valid()
      modifies this`approvalRemarks
      ensures Valid()
      ensures approvalRemarks == v
    {
      approvalRemarks := v;
    }

    /** The dialog's own close (overlay or ×): only hides it, keeping the approval and the remark. */
    method CloseApprovalModal()
      requires Valid()
      modifies this`isApprovalModalOpen
      ensures Valid()
      ensures !isApprovalModalOpen
    {
      isApprovalModalOpen := false;
    }

    /** The Cancel button: hides the dialog and forgets the approval and the remark. */
    method CancelApproval()
      modifies this`isApprovalModalOpen, this`currentApproval, this`approvalRemarks
      ensures Valid()
      ensures !isApprovalModalOpen && currentApproval.None? && approvalRemarks == ""
    {
      isApprovalModalOpen := false;
      currentApproval := None;
      approvalRemarks := "";
    }

    /**
     * `handleApprovalActionSubmit`: nothing without an approval; a blank
     * remark only raises the mandatory-remarks error; otherwise the action
     * is posted with the trimmed remark.
     */
    method HandleApprovalActionSubmit(o: Outcome<ApprovalResponse>) returns (sent: Option<ApprovalRequest>)
      requires Valid()
      modifies this`approvalRequests, this`toasts, this`isApprovalModalOpen, this`currentApproval, this`approvalRemarks, this`approvalFlowReloads
      ensures Valid()
      ensures sent.Some? <==> old(currentApproval).Some? && ApprovalSubmitEnabled(old(approvalRemarks))
      ensures sent.None? ==>
        approvalRequests == old(approvalRequests) &&
        isApprovalModalOpen == old(isApprovalModalOpen) && currentApproval == old(currentApproval) && approvalRemarks == old(approvalRemarks) &&
        toasts == old(toasts) + (if old(currentApproval).Some? then [ErrorToast(RemarksMandatory)] else [])
      ensures sent.Some? ==>
        sent.value == ApprovalRequest(old(currentApproval).value.id, old(currentApproval).value.action, Trim(old(approvalRemarks))) &&
        SentApproval(sent.value, old(isApprovalModalOpen), old(currentApproval), old(approvalRemarks), old(approvalRequests), old(toasts), old(approvalFlowReloads), o)
      ensures sent.None? ==> approvalFlowReloads == old(approvalFlowReloads)
    {
      sent := None;
      if currentApproval.None? {
        return;
      }
      var target := currentApproval.value;
      if !ApprovalSubmitEnabled(approvalRemarks) {
        toasts := toasts + [ErrorToast(RemarksMandatory)];
        return;
      }
      sent := Some(ApprovalRequest(target.id, target.action, Trim(approvalRemarks)));
      SendApproval(sent.value, o);
    }

    /**
     * The state after posting an approval action: an accepted action shows
     * the success text as the handler spells it, closes the dialog, forgets
     * the approval and the remark and reloads the pending approvals; a
     * refused or failed one leaves the dialog as it was.
     */
    ghost predicate SentApproval(request: ApprovalRequest, wasOpen: bool, target: Option<ApprovalTarget>, remarks: string, requests: seq<ApprovalRequest>, shown: seq<Toast>,
                                 reloads: nat, o: Outcome<ApprovalResponse>)
      reads this
    {
      approvalRequests == requests + [request] &&
      (if o.Response? && o.body.success then
        !isApprovalModalOpen && currentApproval.None? && approvalRemarks == "" &&
        toasts == shown + [SuccessToast(SuccessTextAsWritten(request.action))] &&
        approvalFlowReloads == reloads + 1
      else
        isApprovalModalOpen == wasOpen && currentApproval == target && approvalRemarks == remarks &&
        toasts == shown + [ErrorToast(if o.Thrown? then ErrorTextAsWritten(request.action) else "Failed to " + ActionName(request.action) + " the request")] &&
        approvalFlowReloads == reloads)
    }

    /** The `try` block of `handleApprovalActionSubmit`, once the remark has passed. */
    method SendApproval(request: ApprovalRequest, o: Outcome<ApprovalResponse>)
      modifies this`approvalRequests, this`toasts, this`isApprovalModalOpen, this`currentApproval, this`approvalRemarks, this`approvalFlowReloads
      ensures SentApproval(request, old(isApprovalModalOpen), old(currentApproval), old(approvalRemarks), old(approvalRequests), old(toasts), old(approvalFlowReloads), o)
    {
      approvalRequests := approvalRequests + [request];
      match o {
        case Thrown(_) =>
          toasts := toasts + [ErrorToast(ErrorTextAsWritten(request.action))];
        case Response(response) =>
          if response.success {
            toasts := toasts + [SuccessToast(SuccessTextAsWritten(request.action))];
            isApprovalModalOpen := false;
            currentApproval := None;
            approvalRemarks := "";
            approvalFlowReloads := approvalFlowReloads + 1;
          } else {
            toasts := toasts + [ErrorToast("Failed to " + ActionName(request.action) + " the request")];
          }
      }
    }
  }

  /**
   * The approval dialog, opened and submitted with a remark, posts that
   * remark trimmed; a blank remark posts nothing and leaves the dialog
   * open.
   */
  method ApprovalScenario(page: DashboardPage, id: string, action: ApprovalAction, remarks: string, o: Outcome<ApprovalResponse>)
    returns (sent: Option<ApprovalRequest>)
    modifies page
    ensures ApprovalSubmitEnabled(remarks) ==> sent == Some(ApprovalRequest(id, action, Trim(remarks)))
    ensures !ApprovalSubmitEnabled(remarks) ==> sent.None? && page.isApprovalModalOpen && page.currentApproval == Some(ApprovalTarget(id, action))
  {
    page.OpenApprovalModal(id, action);
    page.ChangeRemarks(remarks);
    sent := page.HandleApprovalActionSubmit(o);
  }
}
