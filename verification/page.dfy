/**
 * The faucet page's component state and its submit handler. The handler runs
 * to completion in one call here: the await on the funder becomes a call of
 * the `fetch` parameter, and the state it passes through while waiting is
 * the one BeginRequest establishes.
 */
module Page {
  import opened Wrappers
  import opened JsBuiltins
  import opened Endpoint
  import opened ResponseBody
  import opened Outcome

  class Home {
    var address: string
    var loading: bool
    var error: string
    var success: string
    var network: string
    var result: Option<FundingResult>
    /** The URLs requested from the funder so far, oldest first. */
    ghost var requests: seq<string>

    constructor ()
      ensures address == "" && !loading && error == "" && success == ""
      ensures network == "testnet" && result == None && requests == []
    {
      address := "";
      loading := false;
      error := "";
      success := "";
      network := "testnet";
      result := None;
      requests := [];
    }

    /** The transaction-ID panel is on screen. */
    predicate TransactionPanelShown()
      reads this
    {
      PanelVisible(result)
    }

    /** The pending state: loading, with the previous alerts and result cleared. */
    method BeginRequest()
      modifies this`loading, this`error, this`success, this`result
      ensures loading && error == "" && success == "" && result == None
    {
      loading := true;
      error := "";
      success := "";
      result := None;
    }

    /**
     * `handleSubmit`. A blank address only sets the validation error: no
     * request is made and the rest of the state is left as it was. Otherwise
     * exactly one request goes to the network's Friendbot URL and the state
     * settles to what Settle gives for the answer: not loading, a result
     * present, and exactly one of the two alert texts non-empty.
     * `encode` stands for `encodeURIComponent`, `fetch` for the transport.
     */
    method HandleSubmit(encode: string -> string, fetch: string -> Fetched)
      modifies this`loading, this`error, this`success, this`result, this`requests
      ensures AllWhitespace(address) ==>
        && error == EmptyAddress
        && loading == old(loading) && success == old(success) && result == old(result)
        && requests == old(requests)
      ensures !AllWhitespace(address) ==>
        var url := FriendbotUrl(network, address, encode);
        var s := Settle(network, fetch(url));
        && requests == old(requests) + [url]
        && !loading && error == s.error && success == s.success && result == Some(s.result)
      ensures !AllWhitespace(address) ==> result.Some? && (error != "") != (success != "")
    {
      var blank := IsBlank(address);
      if blank {
        error := EmptyAddress;
        return;
      }
      Dispatch(encode, fetch);
    }

    /**
     * A submission that passed the input gate: the pending state, one request
     * to the network's Friendbot URL, the outcome, and `loading` cleared in the
     * `finally`.
     */
    method Dispatch(encode: string -> string, fetch: string -> Fetched)
      modifies this`loading, this`error, this`success, this`result, this`requests
      ensures var url := FriendbotUrl(network, address, encode);
        var s := Settle(network, fetch(url));
        && requests == old(requests) + [url]
        && !loading && error == s.error && success == s.success && result == Some(s.result)
    {
      BeginRequest();
      var url := FriendbotUrl(network, address, encode);
      requests := requests + [url];
      var fetched := fetch(url);
      Resolve(fetched);
      loading := false;
    }

    /**
     * The `try`/`catch` of `handleSubmit` once the funder has answered (or
     * failed to): the alerts and the result settle to what Settle gives.
     */
    method Resolve(fetched: Fetched)
      requires error == "" && success == "" && result == None
      modifies this`error, this`success, this`result
      ensures error == Settle(network, fetched).error
      ensures success == Settle(network, fetched).success
      ensures result == Some(Settle(network, fetched).result)
    {
      var thrown := false;
      match fetched {
        case Unreachable =>
          thrown := true;
        case Responded(response) =>
          var responseData := Normalize(response);
          if responseData.None? || responseData.value.NullBody? {
            // `response.json()` rejected, or a field of a JSON null is read
            thrown := true;
          } else if !response.ok {
            var errorMessage := FailureReason(responseData.value);
            error := FailedOn(network) + " " + errorMessage;
            result := Some(FundingResult(false, FailedOn(network), None));
          } else {
            // the identifier is read before any state is written
            var transactionId := TransactionId(responseData.value);
            success := FundedOn(network);
            result := Some(FundingResult(true, FundedOn(network), Some(transactionId)));
          }
      }

      if thrown {
        error := FailedOn(network) + " " + PleaseTryAgain;
        result := Some(FundingResult(false, ConnectingTo(network), None));
      }
    }
  }

  /** A session: a successful submission shows the panel; a later blank submission leaves it and the success text in place. */
  method BlankResubmitAfterSuccess(encode: string -> string, fetch: string -> Fetched, addr: string)
    requires !AllWhitespace(addr)
    requires var r := fetch(FriendbotUrl("testnet", addr, encode));
      r.Responded? && r.response.ok && ReadableBody(r).Some?
  {
    var home := new Home();
    home.address := addr;
    home.HandleSubmit(encode, fetch);
    assert home.success == FundedOn("testnet") && home.TransactionPanelShown();
    assert |home.requests| == 1;
    home.address := " ";
    assert AllWhitespace(home.address);
    home.HandleSubmit(encode, fetch);
    assert home.error == EmptyAddress && home.success == FundedOn("testnet");
    assert home.TransactionPanelShown() && |home.requests| == 1;
  }
}
