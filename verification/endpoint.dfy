/**
 * Endpoint choice: which Friendbot instance a funding request goes to. The
 * network is the string held in the page state; the `Network` type only
 * names "testnet" and "futurenet", but the code tests for "testnet" alone
 * and sends every other value to Futurenet.
 */
module Endpoint {
  import opened Wrappers

  const TestnetFriendbot := "https://friendbot.stellar.org?addr="
  const FuturenetFriendbot := "https://friendbot-futurenet.stellar.org?addr="

  /** The URL is a request to the testnet Friendbot. */
  predicate AimsAtTestnet(url: string) {
    TestnetFriendbot <= url
  }

  /** The `addr` query value of a Friendbot request URL, or None for any other URL. */
  function AddrParam(url: string): Option<string> {
    if TestnetFriendbot <= url then Some(url[|TestnetFriendbot|..])
    else if FuturenetFriendbot <= url then Some(url[|FuturenetFriendbot|..])
    else None
  }

  /**
   * The request URL for `address` on `network`; `encode` stands for
   * `encodeURIComponent` and is applied to the untrimmed address. The URL aims
   * at testnet exactly when the network is "testnet", at Futurenet otherwise,
   * and its `addr` parameter gives back the encoded address.
   */
  function FriendbotUrl(network: string, address: string, encode: string -> string): (url: string)
    ensures AimsAtTestnet(url) <==> network == "testnet"
    ensures !AimsAtTestnet(url) ==> FuturenetFriendbot <= url
    ensures AddrParam(url) == Some(encode(address))
  {
    if network == "testnet" then
      TestnetFriendbot + encode(address)
    else
      var url := FuturenetFriendbot + encode(address);
      assert url[17] != TestnetFriendbot[17];
      url
  }
}
