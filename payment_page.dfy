/** The payment page of app/payment/page.tsx: the purpose labels sent with
    the payment request, the request itself, and what the page does with
    the answer. The amount conversion of services/payment.service.ts is
    included; its HTTP call is not. */
module PaymentPage {
  import opened Wrappers
  import opened Types
  import opened Constants
  import PurposePage

  /** `purposeLabels`. */
  const PurposeLabels: map<string, string> := map[
    "employment" := "Employment Verification",
    "loan" := "Loan Application",
    "credit_check" := "Personal Credit Check",
    "tenant" := "Tenant Verification",
    "business" := "Business Purpose",
    "other" := "Other"
  ]

  /** `purposeLabels[purposeId] || purposeId`. */
  function LabelOf(id: string): (text: string)
    ensures id in PurposeLabels ==> text == PurposeLabels[id]
    ensures id !in PurposeLabels ==> text == id
  {
    if id in PurposeLabels && PurposeLabels[id] != "" then PurposeLabels[id] else id
  }

  /** `ids.map(...)`, labelling element by element. */
  function Labels(ids: seq<string>): (labels: seq<string>)
    ensures |labels| == |ids|
    ensures forall i :: 0 <= i < |ids| ==> labels[i] == LabelOf(ids[i])
  {
    if ids == [] then [] else [LabelOf(ids[0])] + Labels(ids[1..])
  }

  /** `(userData?.purposes || []).map(...)`: a missing document or purposes
      field gives no labels. */
  function PurposeLabelsArray(purposes: Option<seq<string>>): (labels: seq<string>)
    ensures purposes.None? ==> labels == []
    ensures purposes.Some? ==> labels == Labels(purposes.value)
  {
    Labels(purposes.GetOr([]))
  }

  /** Every purpose the purpose page offers has a label here, though not
      always the same one: "employment" is shown as "Employment" there and
      sent as "Employment Verification". */
  lemma EveryOfferedPurposeLabelled()
    ensures forall i :: 0 <= i < |PurposePage.Purposes| ==> PurposePage.Purposes[i].id in PurposeLabels
    ensures LabelOf("employment") == "Employment Verification" != PurposePage.Purposes[0].title
  {
  }

  /** An unknown id is sent as it is. */
  lemma UnknownIdPassesThrough()
    ensures Labels(["employment", "gardening"]) == ["Employment Verification", "gardening"]
  {
  }

  /** `Math.floor(amount * 100)` of `initiatePayment`. */
  function AmountInSmallestUnit(amount: real): (cents: int)
    ensures cents as real <= amount * 100.0 < cents as real + 1.0
  {
    (amount * 100.0).Floor
  }

  /** The body `initiatePayment` posts. */
  datatype PaymentRequest = PaymentRequest(uid: string, email: string, amount: int, currency: string, purpose: seq<string>)

  /** The request for a user: always the base dollar price in USD, whatever
      the user's country or stored currency. */
  function BuildRequest(u: User, purposes: Option<seq<string>>): (req: PaymentRequest)
    ensures req.uid == u.uid && req.email == u.email
    ensures req.amount == 100 && req.currency == "USD"
    ensures req.purpose == PurposeLabelsArray(purposes)
  {
    PaymentRequest(u.uid, u.email, AmountInSmallestUnit(BasePriceUsd as real), "USD", PurposeLabelsArray(purposes))
  }

  /** How the page's awaited calls end: reading the user document fails, or
      it yields the stored purposes and the payment call then fails or
      answers with its `paymentUrl` field. */
  datatype PaymentOutcome =
    | DocReadFailed(message: string)
    | RequestFailed(purposes: Option<seq<string>>, message: string)
    | Answered(purposes: Option<seq<string>>, paymentUrl: Option<string>)

  /** What the handler ends with. */
  datatype PaymentAction = NoAction | GoTo(url: string) | ShowError(message: string)

  /** `error.message || 'Payment initiation failed'`. */
  function ErrorMessage(message: string): (m: string)
    ensures m != ""
    ensures message != "" ==> m == message
  {
    if message != "" then message else "Payment initiation failed"
  }

  /** The request `handlePayment` sends, if it gets that far. */
  function SentRequest(user: Option<User>, outcome: PaymentOutcome): (req: Option<PaymentRequest>)
    ensures req.Some? <==> user.Some? && !outcome.DocReadFailed?
    ensures req.Some? ==> req.value == BuildRequest(user.value, outcome.purposes)
  {
    if user.None? || outcome.DocReadFailed? then None else Some(BuildRequest(user.value, outcome.purposes))
  }

  /** What `handlePayment` does: nothing without a user; redirect only to a
      non-empty `paymentUrl`; an error toast otherwise. */
  function PaymentResult(user: Option<User>, outcome: PaymentOutcome): (a: PaymentAction)
    ensures user.None? ==> a == NoAction
    ensures a.GoTo? <==> user.Some? && outcome.Answered? && outcome.paymentUrl.Some? && outcome.paymentUrl.value != ""
    ensures a.GoTo? ==> a.url == outcome.paymentUrl.value
    ensures user.Some? && !a.GoTo? ==> a.ShowError? && a.message != ""
  {
    if user.None? then NoAction
    else
      match outcome
      case DocReadFailed(message) => ShowError(ErrorMessage(message))
      case RequestFailed(_, message) => ShowError(ErrorMessage(message))
      case Answered(_, paymentUrl) =>
        if paymentUrl.Some? && paymentUrl.value != "" then GoTo(paymentUrl.value)
        else ShowError("Failed to initiate payment")
  }

  /** The page's `loading` flag around the handler. */
  class PaymentPage {
    var loading: bool

    constructor ()
      ensures !loading
    {
      loading := false;
    }

    method HandlePayment(user: Option<User>, outcome: PaymentOutcome) returns (req: Option<PaymentRequest>, action: PaymentAction)
      modifies this
      ensures req == SentRequest(user, outcome)
      ensures action == PaymentResult(user, outcome)
      ensures user.None? ==> loading == old(loading)
      ensures user.Some? ==> !loading
    {
      if user.None? {
        return None, NoAction;
      }
      loading := true;
      match outcome {
        case DocReadFailed(message) =>
          req, action := None, ShowError(ErrorMessage(message));
        case RequestFailed(purposes, message) =>
          req := Some(BuildRequest(user.value, purposes));
          action := ShowError(ErrorMessage(message));
        case Answered(purposes, paymentUrl) =>
          req := Some(BuildRequest(user.value, purposes));
          if paymentUrl.Some? && paymentUrl.value != "" {
            action := GoTo(paymentUrl.value);
          } else {
            action := ShowError("Failed to initiate payment");
          }
      }
      loading := false;
    }
  }
}
