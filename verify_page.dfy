/** The payment-verification page of app/verify/page.tsx: a three-valued
    status moved by its effect and by the answer of the verification call. */
module VerifyPage {
  import opened Wrappers
  import opened Types

  datatype Status = Loading | Success | Failed

  /** How the verification call ends: an answer with its `success` field
      (truthy or not), or a thrown error. */
  datatype VerifyOutcome = Answered(success: bool) | Threw

  /** The verification request the effect sends. */
  datatype VerifyRequest = VerifyRequest(reference: string, uid: string)

  /** `!reference`: the query parameter is missing or empty. */
  predicate MissingReference(reference: Option<string>) {
    reference.None? || reference.value == ""
  }

  /** The request the effect makes, if any. */
  function EffectRequest(reference: Option<string>, user: Option<User>): (req: Option<VerifyRequest>)
    ensures req.Some? <==> !MissingReference(reference) && user.Some?
    ensures req.Some? ==> req.value == VerifyRequest(reference.value, user.value.uid)
  {
    if MissingReference(reference) || user.None? then None
    else Some(VerifyRequest(reference.value, user.value.uid))
  }

  /** The status after one run of the effect, and the answer to its request
      when one is made. */
  function AfterEffect(status: Status, reference: Option<string>, user: Option<User>, outcome: VerifyOutcome): (next: Status)
    ensures MissingReference(reference) ==> next == Failed
    ensures !MissingReference(reference) && user.None? ==> next == status
    ensures EffectRequest(reference, user).Some? ==> (next == Success <==> outcome == Answered(true))
  {
    if MissingReference(reference) || user.None? then
      if MissingReference(reference) then Failed else status
    else
      match outcome
      case Answered(success) => if success then Success else Failed
      case Threw => Failed
  }

  /** The link offered under each status. */
  function NextLink(status: Status): (link: Option<string>)
    ensures status == Success ==> link == Some("/dashboard")
    ensures status == Failed ==> link == Some("/payment")
    ensures status == Loading ==> link == None
  {
    match status
    case Loading => None
    case Success => Some("/dashboard")
    case Failed => Some("/payment")
  }

  /** The page's state: the `status` variable. */
  class VerifyPage {
    var status: Status

    constructor ()
      ensures status == Loading
    {
      status := Loading;
    }

    /** One run of the effect (on mount and whenever the query or the user
        changes); `outcome` is the answer to the request if one is made. */
    method RunEffect(reference: Option<string>, user: Option<User>, outcome: VerifyOutcome) returns (req: Option<VerifyRequest>)
      modifies this
      ensures req == EffectRequest(reference, user)
      ensures status == AfterEffect(old(status), reference, user, outcome)
    {
      if reference.None? || reference.value == "" || user.None? {
        if reference.None? || reference.value == "" {
          status := Failed;
        }
        return None;
      }
      req := Some(VerifyRequest(reference.value, user.value.uid));
      match outcome
      case Answered(success) =>
        if success {
          status := Success;
        } else {
          status := Failed;
        }
      case Threw =>
        status := Failed;
    }
  }

  /** Once the user has been loaded the status has left `Loading` forever:
      every later run of the effect sets Success or Failed. */
  lemma SettledAfterUserKnown(status: Status, reference: Option<string>, u: User, outcome: VerifyOutcome)
    ensures AfterEffect(status, reference, Some(u), outcome) != Loading
  {
  }
}
