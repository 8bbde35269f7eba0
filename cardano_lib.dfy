/** The wallet helpers (frontend/cardano_frontend/lib/cardano.ts) over a
    CIP-30 wallet. A wallet, and the `window.cardano` object that lists the
    installed ones, are values here: each call the page makes on them is
    given as what it resolves to or rejects with. The bech32 encoding of a
    hexadecimal address is a function parameter. */
module CardanoLib {
  import opened Wrappers
  import opened Strings
  import opened Json

  /** A value thrown in JavaScript: an `Error` object, or any other value (a
      CIP-30 wallet rejects with plain `{code, info}` objects). */
  datatype Reason = Raised(error: JsError) | RaisedValue(value: Value)

  /** What a call on the wallet settles to. */
  datatype Async<T> = Resolved(value: T) | Rejected(reason: Reason)

  /** What `signData` resolves to. */
  datatype SignedData = SignedData(signature: string, key: string)

  /** The CIP-30 API of an enabled wallet, call by call. */
  datatype WalletApi = WalletApi(
    networkId: Async<int>,
    changeAddress: Async<string>,
    rewardAddresses: Async<seq<string>>,
    usedAddresses: Async<seq<string>>,
    unusedAddresses: Async<seq<string>>,
    signData: (string, string) -> Async<SignedData>)

  /** An entry of `window.cardano`. */
  datatype CardanoWallet = CardanoWallet(name: string, icon: string, enable: Async<WalletApi>, isEnabled: Async<bool>)

  /** `window.cardano`: absent, or the installed wallets by key. */
  type Cardano = Option<map<string, CardanoWallet>>

  datatype WalletInfo = WalletInfo(id: string, name: string, icon: string, isInstalled: bool, website: Option<string>)

  /** `KNOWN_WALLETS`, in declaration order (which `Object.values` keeps). */
  const KNOWN_WALLETS: seq<(string, WalletInfo)> := [
    ("lace", WalletInfo("lace", "Lace wallet", "https://lace.io/favicon-32x32.png", false, Some("https://lace.io"))),
    ("eternl", WalletInfo("eternl", "Eternl", "https://eternl.io/favicon.ico", false, Some("https://eternl.io"))),
    ("yoroi", WalletInfo("yoroi", "Yoroi", "https://yoroi-wallet.com/assets/logo.png", false,
                         Some("https://yoroi-wallet.com"))),
    ("typhon", WalletInfo("typhoncip30", "Typhon", "https://typhonwallet.io/assets/typhon.svg", false,
                          Some("https://typhonwallet.io")))
  ]

  /** `Object.values(KNOWN_WALLETS)`. */
  function KnownWalletValues(): (r: seq<WalletInfo>)
    ensures |r| == |KNOWN_WALLETS|
    ensures forall i :: 0 <= i < |r| ==> r[i] == KNOWN_WALLETS[i].1
  {
    seq(|KNOWN_WALLETS|, i requires 0 <= i < |KNOWN_WALLETS| => KNOWN_WALLETS[i].1)
  }

  /** Four wallets, none marked installed, with distinct keys and ids; only
      Typhon's id differs from its key. */
  lemma KnownWalletsShape()
    ensures |KNOWN_WALLETS| == 4
    ensures forall i :: 0 <= i < 4 ==> !KNOWN_WALLETS[i].1.isInstalled
    ensures forall i, j :: 0 <= i < j < 4 ==> KNOWN_WALLETS[i].0 != KNOWN_WALLETS[j].0
    ensures forall i, j :: 0 <= i < j < 4 ==> KNOWN_WALLETS[i].1.id != KNOWN_WALLETS[j].1.id
    ensures forall i :: 0 <= i < 3 ==> KNOWN_WALLETS[i].1.id == KNOWN_WALLETS[i].0
    ensures KNOWN_WALLETS[3].0 == "typhon" && KNOWN_WALLETS[3].1.id == "typhoncip30"
  {
  }

  /** `enableWallet(walletId)`. */
  function EnableWallet(cardano: Cardano, walletId: string): (r: Result<WalletApi, JsError>)
    ensures cardano.None? ==> r == Err(Thrown("Cardano wallets not available"))
    ensures cardano.Some? && walletId !in cardano.value ==> r == Err(Thrown("Wallet " + walletId + " not found"))
    ensures cardano.Some? && walletId in cardano.value && cardano.value[walletId].enable.Rejected? ==>
      r == Err(Thrown("Failed to enable wallet " + walletId))
    ensures r.Ok? <==> cardano.Some? && walletId in cardano.value && cardano.value[walletId].enable.Resolved?
    ensures r.Ok? ==> r.value == cardano.value[walletId].enable.value
  {
    match cardano
    case None => Err(Thrown("Cardano wallets not available"))
    case Some(wallets) =>
      if walletId !in wallets then Err(Thrown("Wallet " + walletId + " not found"))
      else
        match wallets[walletId].enable
        case Resolved(api) => Ok(api)
        case Rejected(_) => Err(Thrown("Failed to enable wallet " + walletId))
  }

  /** `isWalletEnabled(walletId)`: never throws; true only when the wallet
      is installed and says it is enabled. */
  function IsWalletEnabled(cardano: Cardano, walletId: string): (r: bool)
    ensures r <==> cardano.Some? && walletId in cardano.value && cardano.value[walletId].isEnabled == Resolved(true)
  {
    match cardano
    case None => false
    case Some(wallets) =>
      if walletId !in wallets then false
      else
        match wallets[walletId].isEnabled
        case Resolved(enabled) => enabled
        case Rejected(_) => false
  }

  /** The test `getWalletAddress` puts the first two sources to. */
  predicate LooksBech32(a: string) {
    StartsWith(a, "addr") || StartsWith(a, "stake")
  }

  /** Neither the change address nor the first reward address is taken:
      each failed, was missing or does not look like bech32. */
  predicate BothPreferredFail(api: WalletApi) {
    && !(api.changeAddress.Resolved? && LooksBech32(api.changeAddress.value))
    && !(api.rewardAddresses.Resolved? && |api.rewardAddresses.value| > 0 && LooksBech32(api.rewardAddresses.value[0]))
  }

  /** `getWalletAddress(api)`: the change address, else the first reward
      address, when either looks like bech32 (their failures are
      swallowed), else the bech32 form of the first used address, else of
      the first unused address; else an error. A failure of the used or
      unused address query is passed on. */
  function GetWalletAddress(api: WalletApi, bech32: string -> string): (r: Result<string, Reason>)
    ensures api.changeAddress.Resolved? && LooksBech32(api.changeAddress.value) ==> r == Ok(api.changeAddress.value)
    ensures (&& !(api.changeAddress.Resolved? && LooksBech32(api.changeAddress.value))
             && api.rewardAddresses.Resolved? && |api.rewardAddresses.value| > 0
             && LooksBech32(api.rewardAddresses.value[0])) ==> r == Ok(api.rewardAddresses.value[0])
    ensures BothPreferredFail(api) && api.usedAddresses.Rejected? ==> r == Err(api.usedAddresses.reason)
    ensures BothPreferredFail(api) && api.usedAddresses.Resolved? && |api.usedAddresses.value| > 0 ==>
      r == Ok(bech32(api.usedAddresses.value[0]))
    ensures (&& BothPreferredFail(api) && api.usedAddresses.Resolved? && |api.usedAddresses.value| == 0
             && api.unusedAddresses.Rejected?) ==> r == Err(api.unusedAddresses.reason)
    ensures (&& BothPreferredFail(api) && api.usedAddresses.Resolved? && |api.usedAddresses.value| == 0
             && api.unusedAddresses.Resolved? && |api.unusedAddresses.value| > 0) ==>
      r == Ok(bech32(api.unusedAddresses.value[0]))
    ensures (&& BothPreferredFail(api) && api.usedAddresses.Resolved? && |api.usedAddresses.value| == 0
             && api.unusedAddresses.Resolved? && |api.unusedAddresses.value| == 0) ==>
      r == Err(Raised(Thrown("No addresses found in wallet")))
    ensures r.Err? ==> (
      || r == Err(Raised(Thrown("No addresses found in wallet")))
      || (api.usedAddresses.Rejected? && r.error == api.usedAddresses.reason)
      || (api.unusedAddresses.Rejected? && r.error == api.unusedAddresses.reason))
    ensures r.Ok? ==> (
      || (api.changeAddress.Resolved? && r.value == api.changeAddress.value)
      || (api.rewardAddresses.Resolved? && |api.rewardAddresses.value| > 0 && r.value == api.rewardAddresses.value[0])
      || (api.usedAddresses.Resolved? && |api.usedAddresses.value| > 0 && r.value == bech32(api.usedAddresses.value[0]))
      || (api.unusedAddresses.Resolved? && |api.unusedAddresses.value| > 0
          && r.value == bech32(api.unusedAddresses.value[0])))
  {
    if api.changeAddress.Resolved? && LooksBech32(api.changeAddress.value) then Ok(api.changeAddress.value)
    else if api.rewardAddresses.Resolved? && |api.rewardAddresses.value| > 0 && LooksBech32(api.rewardAddresses.value[0]) then
      Ok(api.rewardAddresses.value[0])
    else
      match api.usedAddresses
      case Rejected(reason) => Err(reason)
      case Resolved(used) =>
        if |used| > 0 then Ok(bech32(used[0]))
        else
          match api.unusedAddresses
          case Rejected(reason) => Err(reason)
          case Resolved(unused) =>
            if |unused| > 0 then Ok(bech32(unused[0]))
            else Err(Raised(Thrown("No addresses found in wallet")))
  }

  /** A hexadecimal address never passes the bech32 test ('r' and 's' are
      not hexadecimal digits), so a CIP-30 wallet, whose change and reward
      addresses are hexadecimal, is always asked for its used addresses. */
  lemma HexAddressFallsThrough(api: WalletApi, bech32: string -> string)
    requires api.changeAddress.Resolved? && forall k :: 0 <= k < |api.changeAddress.value| ==> IsHexDigit(api.changeAddress.value[k])
    requires api.rewardAddresses.Resolved? && forall a <- api.rewardAddresses.value :: forall k :: 0 <= k < |a| ==> IsHexDigit(a[k])
    requires api.usedAddresses.Resolved? && |api.usedAddresses.value| > 0
    ensures GetWalletAddress(api, bech32) == Ok(bech32(api.usedAddresses.value[0]))
  {
    HexNotBech32(api.changeAddress.value);
    if |api.rewardAddresses.value| > 0 {
      assert api.rewardAddresses.value[0] in api.rewardAddresses.value;
      HexNotBech32(api.rewardAddresses.value[0]);
    }
  }

  lemma HexNotBech32(a: string)
    requires forall k :: 0 <= k < |a| ==> IsHexDigit(a[k])
    ensures !LooksBech32(a)
  {
    assert !IsHexDigit('r') && !IsHexDigit('s');
    if |a| >= 4 {
      assert a[3] == a[..4][3];
    }
  }

  /** `error?.message || error` inside a template literal. */
  function ReasonText(reason: Reason): string {
    match reason
    case Raised(e) => if e.message != "" then e.message else e.name
    case RaisedValue(v) =>
      var message := if v.Null? then None else Get(v, "message");
      if Truthy(message) then ToJsString(message) else ValueToJsString(v)
  }

  /** The payload `signMessage` asks the wallet to sign: the message's UTF-8
      bytes in lower-case hexadecimal. */
  function MessagePayload(message: string): (r: string)
    ensures |r| == 2 * |Utf8(message)|
  {
    HexEncode(Utf8(message))
  }

  /** The payload decodes back to the message's bytes. */
  lemma PayloadDecodes(message: string)
    ensures HexDecode(MessagePayload(message)) == Some(Utf8(message))
  {
    HexRoundTrip(Utf8(message));
  }

  /** `signMessage(api, address, message)`: the wallet signs the payload
      for the given address; a refusal becomes "Failed to sign message: …". */
  function SignMessage(api: WalletApi, address: string, message: string): (r: Result<SignedData, JsError>)
    ensures r.Ok? <==> api.signData(address, MessagePayload(message)).Resolved?
    ensures r.Ok? ==> r.value == api.signData(address, MessagePayload(message)).value
    ensures r.Err? ==> r.error == Thrown("Failed to sign message: " + ReasonText(api.signData(address, MessagePayload(message)).reason))
  {
    match api.signData(address, MessagePayload(message))
    case Resolved(signed) => Ok(signed)
    case Rejected(reason) => Err(Thrown("Failed to sign message: " + ReasonText(reason)))
  }

  /** A wallet that refuses with a plain `{code, info}` object yields the
      text "[object Object]" in the message. */
  lemma PlainRefusalText(info: Value)
    ensures ReasonText(RaisedValue(Obj(map["code" := Num(2), "info" := info]))) == "[object Object]"
  {
  }

  datatype Network = Mainnet | Testnet

  /** The default of `isCorrectNetwork`'s second argument. */
  const DEFAULT_NETWORK: Network := Testnet

  /** `isCorrectNetwork(api, expected)`: network id 1 for mainnet, 0
      otherwise; a failing query is passed on. */
  function IsCorrectNetwork(api: WalletApi, expected: Network): (r: Result<bool, Reason>)
    ensures r.Err? <==> api.networkId.Rejected?
    ensures r.Err? ==> r.error == api.networkId.reason
    ensures r.Ok? ==> (r.value <==> api.networkId.value == (if expected == Mainnet then 1 else 0))
  {
    match api.networkId
    case Rejected(reason) => Err(reason)
    case Resolved(id) => Ok(id == (if expected == Mainnet then 1 else 0))
  }
}
