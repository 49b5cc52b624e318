/**
 * `QuotationsTable`: the list of the company's quotations, with one item
 * expanded at a time, and the approve/reject dialog. Submitting the dialog
 * posts the action with the remark (mandatory only for a rejection), then
 * refetches the list and closes the dialog; every failure is turned into a
 * message by a fixed precedence of sources.
 */
module Quotations {
  import opened Wrappers
  import opened JsText
  import opened Http

  /** The fields of `B2BQuotationItem` the table's logic reads; amounts and dates are only displayed. */
  datatype Quotation = Quotation(id: string, quotationNumber: string, status: string)

  datatype Action = Approve | Reject

  /** The action as it is written into requests and texts: `'approve' | 'reject'`. */
  function ActionName(a: Action): (r: string)
    ensures |r| == (if a == Approve then 7 else 6)
  {
    if a == Approve then "approve" else "reject"
  }

  /** `currentAction`: the quotation the dialog was opened for and the action chosen. */
  datatype ActionTarget = ActionTarget(quotationId: string, quotationNumber: string, action: Action)

  /** The call `quotationAction(id, { action, remarks })`; an absent remark is `undefined`. */
  datatype ActionRequest = ActionRequest(quotationId: string, action: Action, remarks: Option<string>)

  /** What `getQuotations` resolves to. */
  datatype QuotationsResponse = QuotationsResponse(success: bool, data: seq<Quotation>)

  /** What `quotationAction` resolves to; a missing `message` prints as `undefined`. */
  datatype ActionResponse = ActionResponse(success: bool, message: Option<string>)

  // ---------------------------------------------------------------------
  // Error messages
  // ---------------------------------------------------------------------

  const FetchDefault := "Error loading quotations"
  const FetchRefused := "Failed to fetch quotations"
  const ServerErrorText := "Internal server error. Please try again later."

  /** The fixed texts the list fetch uses for an error carrying no message. */
  function FetchStatusText(status: Option<int>): (r: Option<string>)
    ensures r.Some? <==> status == Some(500) || status == Some(401) || status == Some(403)
    ensures status == Some(500) ==> r == Some(ServerErrorText)
  {
    match status
    case Some(500) => Some(ServerErrorText)
    case Some(401) => Some("You are not authorized to view quotations.")
    case Some(403) => Some("You do not have permission to view quotations.")
    case _ => None
  }

  /** The fixed texts an action uses for an error carrying no message. */
  function ActionStatusText(status: Option<int>): (r: Option<string>)
    ensures r.Some? <==> status.Some? && status.value in {500, 400, 401, 403, 404}
    ensures status == Some(500) ==> r == Some(ServerErrorText)
    ensures r.Some? ==> r.value != ""
  {
    match status
    case Some(500) => Some(ServerErrorText)
    case Some(400) => Some("Invalid request. Please check your input and try again.")
    case Some(401) => Some("You are not authorized to perform this action.")
    case Some(403) => Some("You do not have permission to perform this action.")
    case Some(404) => Some("Quotation not found.")
    case _ => None
  }

  /** The default text of a failed action: `Failed to <action> quotation. Please try again.` */
  function ActionDefault(a: Action): (r: string)
    ensures StartsWith(r, "Failed to " + ActionName(a))
  {
    "Failed to " + ActionName(a) + " quotation. Please try again."
  }

  /** The `catch` of the list fetch: server message, then `err.message`, then a status text, then the default. */
  function FetchErrorMessage(e: HttpError): (m: string)
    ensures TruthyOpt(e.serverMessage) ==> m == e.serverMessage.value
    ensures !TruthyOpt(e.serverMessage) && TruthyOpt(e.message) ==> m == e.message.value
    ensures !TruthyOpt(e.serverMessage) && !TruthyOpt(e.message) ==> m == FetchStatusText(e.status).GetOr(FetchDefault)
  {
    if TruthyOpt(e.serverMessage) then e.serverMessage.value
    else if TruthyOpt(e.message) then e.message.value
    else if e.status == Some(500) then ServerErrorText
    else if e.status == Some(401) then "You are not authorized to view quotations."
    else if e.status == Some(403) then "You do not have permission to view quotations."
    else FetchDefault
  }

  /** The `catch` of an action: server message, then `error.message`, then a status text, then the default. */
  function ActionErrorMessage(a: Action, e: HttpError): (m: string)
    ensures TruthyOpt(e.serverMessage) ==> m == e.serverMessage.value
    ensures !TruthyOpt(e.serverMessage) && TruthyOpt(e.message) ==> m == e.message.value
    ensures !TruthyOpt(e.serverMessage) && !TruthyOpt(e.message) ==> m == ActionStatusText(e.status).GetOr(ActionDefault(a))
  {
    if TruthyOpt(e.serverMessage) then e.serverMessage.value
    else if TruthyOpt(e.message) then e.message.value
    else if e.status == Some(500) then ServerErrorText
    else if e.status == Some(400) then "Invalid request. Please check your input and try again."
    else if e.status == Some(401) then "You are not authorized to perform this action."
    else if e.status == Some(403) then "You do not have permission to perform this action."
    else if e.status == Some(404) then "Quotation not found."
    else ActionDefault(a)
  }

  /**
   * Both chains are the common `server message || error message || fallback`
   * rule, with the status text (or the default) as the fallback.
   */
  lemma ChainsAreServerThenError(a: Action, e: HttpError)
    ensures ActionErrorMessage(a, e) == ServerThenErrorMessage(e, ActionStatusText(e.status).GetOr(ActionDefault(a)))
    ensures FetchErrorMessage(e) == ServerThenErrorMessage(e, FetchStatusText(e.status).GetOr(FetchDefault))
  {
  }

  /** A failed action always shows a non-empty message. */
  lemma ActionErrorNeverEmpty(a: Action, e: HttpError)
    ensures ActionErrorMessage(a, e) != ""
  {
    if !TruthyOpt(e.serverMessage) && !TruthyOpt(e.message) && ActionStatusText(e.status).None? {
      assert StartsWith(ActionDefault(a), "Failed to " + ActionName(a));
    }
  }

  /** A status code takes effect only when the error carries no message at all. */
  lemma MessagesOutrankStatus(a: Action, e: HttpError, status: Option<int>)
    requires TruthyOpt(e.serverMessage) || TruthyOpt(e.message)
    ensures ActionErrorMessage(a, e.(status := status)) == ActionErrorMessage(a, e)
    ensures FetchErrorMessage(e.(status := status)) == FetchErrorMessage(e)
  {
  }

  /** A 400 or a 404 has its own text for an action but falls to the default for the list fetch. */
  lemma FetchAndActionTextsDiffer(a: Action, status: int)
    requires status == 400 || status == 404
    ensures ActionErrorMessage(a, HttpError(Some(status), None, None)) != ActionDefault(a)
    ensures FetchErrorMessage(HttpError(Some(status), None, None)) == FetchDefault
  {
    var m := ActionErrorMessage(a, HttpError(Some(status), None, None));
    assert m == ActionStatusText(Some(status)).value;
    assert |m| != |ActionDefault(a)|;
  }

  /** The error toast for an action the server refused: `Failed to <action> quotation: <message>`. */
  function RefusedText(a: Action, message: Option<string>): (r: string)
    ensures StartsWith(r, "Failed to " + ActionName(a) + " quotation: ")
  {
    "Failed to " + ActionName(a) + " quotation: " + message.GetOr("undefined")
  }

  /** The success toast: `Quotation approved successfully!` or `Quotation rejected successfully!`. */
  function AcceptedText(a: Action): string {
    "Quotation " + (if a == Approve then "approved" else "rejected") + " successfully!"
  }

  lemma AcceptedTextsDiffer()
    ensures AcceptedText(Approve) != AcceptedText(Reject)
  {
    assert AcceptedText(Approve)[10] == 'a';
    assert AcceptedText(Reject)[10] == 'r';
  }

  const RejectNeedsRemarks := "Remarks are mandatory when rejecting a quotation"

  // ---------------------------------------------------------------------
  // The remark, the submit rule and the buttons
  // ---------------------------------------------------------------------

  /** `remarks.trim() || undefined`: absent exactly when the remark is blank. */
  function RemarkPayload(remarks: string): (r: Option<string>)
    ensures r.None? <==> IsBlank(remarks)
  {
    if IsBlank(remarks) then None else Some(Trim(remarks))
  }

  /** The payload is the trimmed remark when that is non-empty, and `undefined` otherwise. */
  lemma RemarkPayloadIsTrimOrUndefined(remarks: string)
    ensures RemarkPayload(remarks) == (if Trim(remarks) == "" then None else Some(Trim(remarks)))
  {
    TrimEmptyIffBlank(remarks);
  }

  /** A remark that is sent is non-empty and has no whitespace at either end. */
  lemma {:induction false} SentRemarkIsTrimmed(remarks: string)
    ensures RemarkPayload(remarks).Some? ==>
      var t := RemarkPayload(remarks).value;
      t != "" && !IsWhitespace(t[0]) && !IsWhitespace(t[|t| - 1])
  {
    if !IsBlank(remarks) {
      TrimEmptyIffBlank(remarks);
      var s := TrimStart(remarks);
      var t := TrimEnd(s);
      assert t == s[..|t|];
      assert t[0] == s[0];
    }
  }

  /** The handler's own validation: a rejection needs a non-blank remark; an approval needs none. */
  predicate SubmitAllowed(a: Action, remarks: string) {
    !(a == Reject && IsBlank(remarks))
  }

  lemma ApproveNeedsNoRemark(remarks: string)
    ensures SubmitAllowed(Approve, remarks)
    ensures SubmitAllowed(Reject, remarks) <==> Trim(remarks) != ""
  {
    TrimEmptyIffBlank(remarks);
  }

  /** The dialog's Submit button: disabled while an action is in flight, or for a rejection with a blank remark. */
  predicate SubmitDisabled(actionLoading: Option<string>, current: Option<ActionTarget>, remarks: string) {
    actionLoading.Some? || (current.Some? && current.value.action == Reject && IsBlank(remarks))
  }

  /** With a target and nothing in flight, the button is enabled exactly when the handler would send. */
  lemma SubmitButtonMatchesHandler(current: ActionTarget, remarks: string)
    ensures !SubmitDisabled(None, Some(current), remarks) <==> SubmitAllowed(current.action, remarks)
  {
  }

  /** The Cancel button is disabled while an action is in flight. */
  predicate CancelDisabled(actionLoading: Option<string>) {
    actionLoading.Some?
  }

  /** Approve and Reject are offered only for a quotation whose status is `sent`. */
  predicate ShowsActions(q: Quotation) {
    q.status == "sent"
  }

  /** The Approve and Reject buttons of a quotation are disabled while its own action is in flight. */
  predicate ActionButtonsDisabled(q: Quotation, actionLoading: Option<string>) {
    actionLoading == Some(q.id)
  }

  /** The badge text: the status with its first character upper-cased. */
  function StatusLabel(status: string): (r: string)
    ensures |r| == |status|
    ensures status != "" ==> r[0] == UpperAscii(status[0]) && r[1..] == status[1..]
  {
    UpperFirst(status)
  }

  /** Lower-case ASCII statuses such as `sent` are shown capitalised and otherwise unchanged. */
  lemma StatusLabelCapitalises(status: string)
    requires status != "" && 'a' <= status[0] <= 'z'
    ensures 'A' <= StatusLabel(status)[0] <= 'Z'
    ensures StatusLabel(status)[1..] == status[1..]
  {
  }

  /** `toggleExpanded`: clicking the expanded item collapses it; clicking another expands that one instead. */
  function Toggle(expanded: Option<string>, id: string): (r: Option<string>)
    ensures r == Some(id) <==> expanded != Some(id)
    ensures r.None? <==> expanded == Some(id)
  {
    if expanded == Some(id) then None else Some(id)
  }

  /** Two clicks on the same item leave it collapsed, whatever was expanded before. */
  lemma ToggleTwice(expanded: Option<string>, id: string)
    ensures Toggle(Toggle(expanded, id), id) == (if expanded == Some(id) then Some(id) else None)
  {
  }

  // ---------------------------------------------------------------------
  // The component
  // ---------------------------------------------------------------------

  class QuotationsTable {
    var quotations: seq<Quotation>
    var loading: bool
    var error: Option<string>
    /** The quotation whose action is in flight. */
    var actionLoading: Option<string>
    /** The single expanded quotation, if any. */
    var expanded: Option<string>
    var isActionModalOpen: bool
    var currentAction: Option<ActionTarget>
    var remarks: string
    /** Every `quotationAction` call so far. */
    var requests: seq<ActionRequest>
    /** Every toast so far. */
    var toasts: seq<Toast>

    /** The dialog is only open with a target to act on. */
    ghost predicate Valid()
      reads this
    {
      isActionModalOpen ==> currentAction.Some?
    }

    constructor()
      ensures Valid()
      ensures quotations == [] && loading && error.None? && actionLoading.None? && expanded.None?
      ensures !isActionModalOpen && currentAction.None? && remarks == "" && requests == [] && toasts == []
    {
      quotations := [];
      loading := true;
      error := None;
      actionLoading := None;
      expanded := None;
      isActionModalOpen := false;
      currentAction := None;
      remarks := "";
      requests := [];
      toasts := [];
    }

    /**
     * `fetchQuotations` on mount: the list on success; a refusal sets the
     * error text without a toast; a failure sets and toasts its message.
     */
    method LoadQuotations(o: Outcome<QuotationsResponse>)
      requires Valid()
      modifies this`quotations, this`loading, this`error, this`toasts
      ensures Valid()
      ensures !loading
      ensures o.Response? && o.body.success ==> quotations == o.body.data && error == old(error) && toasts == old(toasts)
      ensures o.Response? && !o.body.success ==> quotations == old(quotations) && error == Some(FetchRefused) && toasts == old(toasts)
      ensures o.Thrown? ==>
        quotations == old(quotations) && error == Some(FetchErrorMessage(o.error)) &&
        toasts == old(toasts) + [ErrorToast(FetchErrorMessage(o.error))]
    {
      loading := true;
      match o {
        case Response(response) =>
          if response.success {
            quotations := response.data;
          } else {
            error := Some(FetchRefused);
          }
        case Thrown(e) =>
          var message := FetchErrorMessage(e);
          error := Some(message);
          toasts := toasts + [ErrorToast(message)];
      }
      loading := false;
    }

    method ToggleExpanded(id: string)
      modifies this`expanded
      ensures expanded == Toggle(old(expanded), id)
    {
      expanded := if expanded == Some(id) then None else Some(id);
    }

    /** `openActionModal`: records the target, clears the remark and shows the dialog. */
    method OpenActionModal(id: string, number: string, action: Action)
      modifies this`currentAction, this`remarks, this`isActionModalOpen
      ensures Valid()
      ensures currentAction == Some(ActionTarget(id, number, action)) && remarks == "" && isActionModalOpen
    {
      currentAction := Some(ActionTarget(id, number, action));
      remarks := "";
      isActionModalOpen := true;
    }

    method ChangeRemarks(v: string)
      requires Valid()
      modifies this`remarks
      ensures Valid()
      ensures remarks == v
    {
      remarks := v;
    }

    /** `closeActionModal` (Cancel, the dialog's own close, and after a success): hides it and forgets target and remark. */
    method CloseActionModal()
      modifies this`isActionModalOpen, this`currentAction, this`remarks
      ensures Valid()
      ensures !isActionModalOpen && currentAction.None? && remarks == ""
    {
      isActionModalOpen := false;
      currentAction := None;
      remarks := "";
    }

    /**
     * The part of `handleActionSubmit` before the call resolves: nothing
     * without a target; a rejection with a blank remark only raises its
     * error toast; otherwise the quotation is marked in flight and the
     * request is sent.
     */
    method BeginActionSubmit() returns (sent: Option<ActionRequest>)
      requires Valid()
      modifies this`actionLoading, this`requests, this`toasts
      ensures Valid()
      ensures sent.Some? <==> old(currentAction).Some? && SubmitAllowed(old(currentAction).value.action, remarks)
      ensures sent.None? ==>
        actionLoading == old(actionLoading) && requests == old(requests) &&
        toasts == old(toasts) + (if old(currentAction).Some? then [ErrorToast(RejectNeedsRemarks)] else [])
      ensures sent.Some? ==>
        sent.value == ActionRequest(currentAction.value.quotationId, currentAction.value.action, RemarkPayload(remarks)) &&
        actionLoading == Some(currentAction.value.quotationId) &&
        requests == old(requests) + [sent.value] && toasts == old(toasts)
    {
      sent := None;
      if currentAction.None? {
        return;
      }
      var target := currentAction.value;
      if target.action == Reject && IsBlank(remarks) {
        toasts := toasts + [ErrorToast(RejectNeedsRemarks)];
        return;
      }
      actionLoading := Some(target.quotationId);
      sent := Some(ActionRequest(target.quotationId, target.action, RemarkPayload(remarks)));
      requests := requests + [sent.value];
    }

    /**
     * The state once the call for the captured action has resolved. An accepted action refetches the
     * list (kept unless that fetch succeeds) and then closes the dialog; a
     * failing refetch is reported like a failed action and leaves the
     * dialog open. A refused or failed action leaves the dialog as it is.
     * Nothing is in flight afterwards, on every path.
     */
    ghost predicate FinishedAction(a: Action, o: Outcome<ActionResponse>, refetch: Outcome<QuotationsResponse>,
                                   listed: seq<Quotation>, wasOpen: bool, target: Option<ActionTarget>, typed: string, shown: seq<Toast>)
      reads this
    {
      actionLoading.None? &&
      if o.Response? && o.body.success then
        quotations == (if refetch.Response? && refetch.body.success then refetch.body.data else listed) &&
        (if refetch.Response? then
           !isActionModalOpen && currentAction.None? && remarks == "" &&
           toasts == shown + [SuccessToast(AcceptedText(a))]
         else
           isActionModalOpen == wasOpen && currentAction == target && remarks == typed &&
           toasts == shown + [SuccessToast(AcceptedText(a)), ErrorToast(ActionErrorMessage(a, refetch.error))])
      else
        quotations == listed &&
        isActionModalOpen == wasOpen && currentAction == target && remarks == typed &&
        toasts == shown + [ErrorToast(if o.Thrown? then ActionErrorMessage(a, o.error) else RefusedText(a, o.body.message))]
    }

    /** The part of `handleActionSubmit` after the call resolves. */
    method FinishActionSubmit(a: Action, o: Outcome<ActionResponse>, refetch: Outcome<QuotationsResponse>)
      requires Valid()
      modifies this`actionLoading, this`toasts, this`quotations, this`isActionModalOpen, this`currentAction, this`remarks
      ensures Valid()
      ensures FinishedAction(a, o, refetch, old(quotations), old(isActionModalOpen), old(currentAction), old(remarks), old(toasts))
    {
      match o {
        case Thrown(e) =>
          toasts := toasts + [ErrorToast(ActionErrorMessage(a, e))];
        case Response(response) =>
          if response.success {
            toasts := toasts + [SuccessToast(AcceptedText(a))];
            match refetch {
              case Thrown(e) =>
                toasts := toasts + [ErrorToast(ActionErrorMessage(a, e))];
              case Response(updated) =>
                if updated.success {
                  quotations := updated.data;
                }
                CloseActionModal();
            }
          } else {
            toasts := toasts + [ErrorToast(RefusedText(a, response.message))];
          }
      }
      actionLoading := None;
    }

    /**
     * `handleActionSubmit` as one step: the request sent, if any, carries
     * the remark trimmed or left out; once the call has resolved nothing
     * is in flight, and a refusal before the call leaves the in-flight
     * marker as it was.
     */
    method HandleActionSubmit(o: Outcome<ActionResponse>, refetch: Outcome<QuotationsResponse>) returns (sent: Option<ActionRequest>)
      requires Valid()
      modifies this`actionLoading, this`requests, this`toasts, this`quotations, this`isActionModalOpen, this`currentAction, this`remarks
      ensures Valid()
      ensures sent.Some? <==> old(currentAction).Some? && SubmitAllowed(old(currentAction).value.action, old(remarks))
      ensures sent.Some? ==>
        sent.value == ActionRequest(old(currentAction).value.quotationId, old(currentAction).value.action, RemarkPayload(old(remarks))) &&
        requests == old(requests) + [sent.value] &&
        FinishedAction(sent.value.action, o, refetch, old(quotations), old(isActionModalOpen), old(currentAction), old(remarks), old(toasts))
      ensures sent.None? ==>
        requests == old(requests) && actionLoading == old(actionLoading) && quotations == old(quotations) &&
        isActionModalOpen == old(isActionModalOpen) && currentAction == old(currentAction) && remarks == old(remarks) &&
        toasts == old(toasts) + (if old(currentAction).Some? then [ErrorToast(RejectNeedsRemarks)] else [])
    {
      sent := BeginActionSubmit();
      if sent.Some? {
        FinishActionSubmit(sent.value.action, o, refetch);
      }
    }
  }

  /**
   * Approving with an empty remark sends the request without a remark,
   * while rejecting with it sends nothing and keeps the dialog open.
   */
  method ApproveAndRejectWithoutRemark(t: QuotationsTable, q: Quotation, o: Outcome<ActionResponse>, refetch: Outcome<QuotationsResponse>)
    returns (approved: Option<ActionRequest>, rejected: Option<ActionRequest>)
    modifies t
    ensures approved == Some(ActionRequest(q.id, Approve, None))
    ensures rejected.None? && t.isActionModalOpen && t.currentAction == Some(ActionTarget(q.id, q.quotationNumber, Reject))
  {
    t.OpenActionModal(q.id, q.quotationNumber, Approve);
    approved := t.HandleActionSubmit(o, refetch);
    t.OpenActionModal(q.id, q.quotationNumber, Reject);
    rejected := t.HandleActionSubmit(o, refetch);
  }
}
