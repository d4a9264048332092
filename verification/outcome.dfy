/**
 * Outcome classification: what the handler leaves in the page state once a
 * dispatched request has settled, as a function of the network and of what
 * the fetch produced.
 */
module Outcome {
  import opened Wrappers
  import opened ResponseBody

  /** The `FundingResult` record shown in the result panel. */
  datatype FundingResult = FundingResult(success: bool, message: string, transactionId: Option<Value>)

  /** What `fetch` produced: a transport-level failure (it threw) or an HTTP response. */
  datatype Fetched = Unreachable | Responded(response: Response)

  /** The settled values of the `error`, `success` and `result` state fields. */
  datatype Settled = Settled(error: string, success: string, result: FundingResult)

  const EmptyAddress := "Please enter a Stellar address"
  const PleaseTryAgain := "Please try again."
  const TransactionCompleted := "Transaction completed"

  function FailedOn(network: string): string {
    "Failed to fund account on " + network + "."
  }

  function FundedOn(network: string): string {
    "Successfully funded account on " + network + "!"
  }

  function ConnectingTo(network: string): string {
    "Error connecting to " + network + " Friendbot."
  }

  /**
   * The funder's explanation of a rejection, chosen by the handler's
   * if/else-if over `detail` and `text`: it is what the expression
   * `detail || text || 'Please try again.'` renders to.
   */
  function FailureReason(b: Body): (reason: string)
    requires !b.NullBody?
    ensures reason == Render(Or(Or(Prop(b, "detail"), Prop(b, "text")), Some(Str(PleaseTryAgain))).value)
  {
    if Truthy(Prop(b, "detail")) then Render(Prop(b, "detail").value)
    else if Truthy(Prop(b, "text")) then Render(Prop(b, "text").value)
    else PleaseTryAgain
  }

  /**
   * `hash || id || 'Transaction completed'`: the first truthy of the two
   * identifiers, else the placeholder; so it is never falsy.
   */
  function TransactionId(b: Body): (id: Value)
    requires !b.NullBody?
    ensures Truthy(Some(id))
    ensures Truthy(Prop(b, "hash")) ==> Some(id) == Prop(b, "hash")
    ensures !Truthy(Prop(b, "hash")) && Truthy(Prop(b, "id")) ==> Some(id) == Prop(b, "id")
    ensures !Truthy(Prop(b, "hash")) && !Truthy(Prop(b, "id")) ==> id == Str(TransactionCompleted)
  {
    Or(Or(Prop(b, "hash"), Prop(b, "id")), Some(Str(TransactionCompleted))).value
  }

  /** The funder answered with a non-2xx status and a readable body. */
  function Rejected(network: string, b: Body): Settled
    requires !b.NullBody?
  {
    Settled(FailedOn(network) + " " + FailureReason(b), "", FundingResult(false, FailedOn(network), None))
  }

  /** The funder answered with a 2xx status and a readable body. */
  function Funded(network: string, b: Body): Settled
    requires !b.NullBody?
  {
    Settled("", FundedOn(network), FundingResult(true, FundedOn(network), Some(TransactionId(b))))
  }

  /** The catch-all for anything thrown after dispatch. */
  function ConnectionFailure(network: string): Settled {
    Settled(FailedOn(network) + " " + PleaseTryAgain, "", FundingResult(false, ConnectingTo(network), None))
  }

  /**
   * The body whose fields the handler reads, or None when something throws
   * first: the transport fails, `response.json()` rejects a declared-JSON
   * body, or the body is JSON `null` (reading any field of it is a TypeError).
   */
  function ReadableBody(f: Fetched): (b: Option<Body>)
    ensures b.Some? ==> f.Responded? && !b.value.NullBody? && Normalize(f.response) == b
    ensures f.Responded? && Normalize(f.response).Some? && !Normalize(f.response).value.NullBody?
      ==> b == Normalize(f.response)
  {
    match f
    case Unreachable => None
    case Responded(r) =>
      match Normalize(r)
      case None => None
      case Some(body) => if body.NullBody? then None else Some(body)
  }

  /** The transaction-ID panel is shown: `result?.success && result.transactionId`. */
  predicate PanelVisible(result: Option<FundingResult>) {
    result.Some? && result.value.success && Truthy(result.value.transactionId)
  }

  /**
   * The settled state of a dispatched submission, with every exception
   * raised before any state is written (see SettleAsWritten for the one case
   * where the handler writes `success` first). Exactly one of the two
   * alert texts is non-empty; it is the success text exactly when the funder
   * answered 2xx with a readable body, and then the panel is shown.
   */
  function Settle(network: string, f: Fetched): (s: Settled)
    ensures (s.error != "") != (s.success != "")
    ensures s.result.success <==> s.success != ""
    ensures s.result.success <==> f.Responded? && f.response.ok && ReadableBody(f).Some?
    ensures s.result.success ==> s.result.message == s.success && PanelVisible(Some(s.result))
    ensures !s.result.success ==> FailedOn(network) <= s.error && s.result.transactionId.None?
  {
    match f
    case Unreachable => ConnectionFailure(network)
    case Responded(r) =>
      match Normalize(r)
      case None => ConnectionFailure(network)
      case Some(body) =>
        if body.NullBody? then ConnectionFailure(network)
        else if r.ok then Funded(network, body)
        else Rejected(network, body)
  }

  /**
   * The settled state as the handler is written: on a 2xx response whose body
   * is JSON `null`, `setSuccess` has already run when reading `hash` throws,
   * and the catch-all does not clear it.
   */
  function SettleAsWritten(network: string, f: Fetched): (s: Settled)
    ensures s.result == Settle(network, f).result && s.error == Settle(network, f).error
  {
    match f
    case Unreachable => ConnectionFailure(network)
    case Responded(r) =>
      match Normalize(r)
      case None => ConnectionFailure(network)
      case Some(body) =>
        if !r.ok then
          if body.NullBody? then ConnectionFailure(network) else Rejected(network, body)
        else if body.NullBody? then
          ConnectionFailure(network).(success := FundedOn(network))
        else
          Funded(network, body)
  }

  /** A non-2xx answer with a readable body: the funder's reason goes to `error`, not to the result message. */
  lemma RejectionOutcome(network: string, r: Response, b: Body)
    requires !r.ok && Normalize(r) == Some(b) && !b.NullBody?
    ensures var s := Settle(network, Responded(r));
      && s.error == "Failed to fund account on " + network + ". " + FailureReason(b)
      && s.success == ""
      && s.result == FundingResult(false, "Failed to fund account on " + network + ".", None)
  {
  }

  /** A 2xx answer with a readable body: the success text in both places and an identifier that is never empty. */
  lemma FundedOutcome(network: string, r: Response, b: Body)
    requires r.ok && Normalize(r) == Some(b) && !b.NullBody?
    ensures var s := Settle(network, Responded(r));
      && s.error == ""
      && s.success == "Successfully funded account on " + network + "!"
      && s.result.success && s.result.message == s.success
      && s.result.transactionId == Some(TransactionId(b))
      && Truthy(s.result.transactionId)
  {
  }

  /**
   * The catch-all outcome occurs exactly when something throws before the
   * body's fields are read, and it is told apart from a rejection by the
   * result message alone: a rejection without `detail` or `text` has the same
   * `error` text.
   */
  lemma ConnectionOutcome(network: string, f: Fetched)
    ensures Settle(network, f) == ConnectionFailure(network) <==> ReadableBody(f).None?
    ensures Settle(network, f).result.message == ConnectingTo(network) <==> ReadableBody(f).None?
  {
    var s := Settle(network, f);
    if ReadableBody(f).Some? {
      assert s.result.message[0] != ConnectingTo(network)[0];
    }
  }

  /** A transport failure is caught and ends in the connection messages. */
  lemma TransportFailureIsCaught(network: string)
    ensures Settle(network, Unreachable).error == "Failed to fund account on " + network + ". Please try again."
    ensures Settle(network, Unreachable).result == FundingResult(false, "Error connecting to " + network + " Friendbot.", None)
  {
  }

  /** A declared-JSON body that does not parse is an exception too, not a rejection. */
  lemma DeclaredJsonParseFailureIsCaught(network: string, r: Response)
    requires DeclaresJson(r.contentType) && r.parsed.None?
    ensures Settle(network, Responded(r)) == ConnectionFailure(network)
  {
  }

  /** The panel is shown for a settled result exactly when it is a success. */
  lemma PanelShownExactlyOnSuccess(network: string, f: Fetched)
    ensures PanelVisible(Some(Settle(network, f).result)) <==> Settle(network, f).result.success
  {
  }

  /** The network changes only the wording of the outcome, never its polarity, identifier or which alert is shown. */
  lemma NetworkOnlyChangesWording(n1: string, n2: string, f: Fetched)
    ensures Settle(n1, f).result.success == Settle(n2, f).result.success
    ensures Settle(n1, f).result.transactionId == Settle(n2, f).result.transactionId
    ensures (Settle(n1, f).error == "") == (Settle(n2, f).error == "")
  {
  }

  /** A 2xx answer `{"hash": "abc123"}` yields that hash as the transaction identifier. */
  lemma HashBecomesTransactionId(network: string, contentType: Option<string>, raw: string)
    ensures var r := Response(true, contentType, raw, Some(Object(map["hash" := Str("abc123")])));
      Settle(network, Responded(r)).result == FundingResult(true, FundedOn(network), Some(Str("abc123")))
  {
  }

  /** A 2xx answer `{}` yields the placeholder identifier. */
  lemma EmptyBodyGetsPlaceholder(network: string, contentType: Option<string>, raw: string)
    ensures var r := Response(true, contentType, raw, Some(Object(map[])));
      Settle(network, Responded(r)).result.transactionId == Some(Str("Transaction completed"))
  {
  }

  /** A rejection `{"detail": "createAccountAlreadyExist"}` carries the detail in the error text. */
  lemma DetailReachesErrorText(network: string, contentType: Option<string>, raw: string)
    ensures var r := Response(false, contentType, raw, Some(Object(map["detail" := Str("createAccountAlreadyExist")])));
      var s := Settle(network, Responded(r));
      !s.result.success && s.error == FailedOn(network) + " " + "createAccountAlreadyExist"
  {
    var b := Object(map["detail" := Str("createAccountAlreadyExist")]);
    var r := Response(false, contentType, raw, Some(b));
    assert Normalize(r) == Some(b);
    assert Prop(b, "detail") == Some(Str("createAccountAlreadyExist"));
    assert FailureReason(b) == "createAccountAlreadyExist";
    assert Settle(network, Responded(r)) == Rejected(network, b);
  }

  /** A rejection whose undeclared body is the plain text "Forbidden" carries that text in the error text. */
  lemma PlainTextReachesErrorText(network: string)
    ensures var r := Response(false, None, "Forbidden", None);
      var s := Settle(network, Responded(r));
      !s.result.success && s.error == FailedOn(network) + " Forbidden"
  {
    var r := Response(false, None, "Forbidden", None);
    assert Normalize(r) == Some(TextWrapper("Forbidden"));
  }

  /**
   * The handler as written shows both alerts for a 2xx answer whose body is
   * JSON `null`: the success text and the connection error.
   */
  lemma AsWrittenShowsBothAlerts(network: string)
    ensures var r := Response(true, Some("application/json"), "null", Some(NullBody));
      var s := SettleAsWritten(network, Responded(r));
      s.error != "" && s.success != ""
  {
    var r := Response(true, Some("application/json"), "null", Some(NullBody));
    assert Normalize(r) == Some(NullBody);
  }

  /** Apart from that case, the handler as written settles exactly as Settle does. */
  lemma AsWrittenDiffersOnlyOnNullFunding(network: string, f: Fetched)
    ensures SettleAsWritten(network, f) != Settle(network, f)
        <==> f.Responded? && f.response.ok && Normalize(f.response) == Some(NullBody)
  {
  }
}
