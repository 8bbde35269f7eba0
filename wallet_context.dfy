/** The wallet context (frontend/cardano_frontend/context/WalletContext.tsx):
    the detected wallets, the connected wallet, the connecting flag and the
    last error, kept in the provider and changed by its actions. The
    browser storage is the one the API client shares. */
module WalletContext {
  import opened Wrappers
  import opened Strings
  import opened Json
  import opened Browser
  import opened CardanoLib

  /** The key under which the last connected wallet's id is remembered. */
  const LAST_WALLET_KEY: string := "last_connected_wallet"

  datatype ConnectedWallet = ConnectedWallet(id: string, name: string, icon: string, api: WalletApi, address: string,
                                             networkId: int)

  /** `Object.values(KNOWN_WALLETS)`, with `isInstalled` set from
      `window.cardano` when it exists (looked up by the wallet's id). */
  function Detected(cardano: Cardano): (r: seq<WalletInfo>)
    ensures |r| == |KNOWN_WALLETS|
    ensures cardano.None? ==> r == KnownWalletValues()
    ensures cardano.Some? ==> forall i :: 0 <= i < |r| ==>
      r[i] == KNOWN_WALLETS[i].1.(isInstalled := KNOWN_WALLETS[i].1.id in cardano.value)
  {
    match cardano
    case None => KnownWalletValues()
    case Some(wallets) =>
      seq(|KNOWN_WALLETS|, i requires 0 <= i < |KNOWN_WALLETS| =>
        KNOWN_WALLETS[i].1.(isInstalled := KNOWN_WALLETS[i].1.id in wallets))
  }

  /** `availableWallets.find(w => w.id === walletId)`: the first wallet
      with the id. */
  function FindWallet(wallets: seq<WalletInfo>, walletId: string): (r: Option<WalletInfo>)
    ensures r.Some? ==> r.value in wallets && r.value.id == walletId
    ensures r.Some? ==>
      exists i :: (0 <= i < |wallets| && wallets[i] == r.value &&
                   forall j :: 0 <= j < i ==> wallets[j].id != walletId)
    ensures r.None? ==> forall w <- wallets :: w.id != walletId
  {
    if |wallets| == 0 then None
    else if wallets[0].id == walletId then Some(wallets[0])
    else FindWallet(wallets[1..], walletId)
  }

  /** What `connectWallet(walletId)` settles to: enable, check the network
      (testnet), read the address and the network id, and describe the
      wallet with the detected name and icon. */
  function Connect(cardano: Cardano, walletId: string, bech32: string -> string, available: seq<WalletInfo>)
    : (r: Result<ConnectedWallet, Reason>)
    ensures EnableWallet(cardano, walletId).Err? ==> r == Err(Raised(EnableWallet(cardano, walletId).error))
    ensures (&& EnableWallet(cardano, walletId).Ok?
             && EnableWallet(cardano, walletId).value.networkId.Resolved?
             && EnableWallet(cardano, walletId).value.networkId.value != 0) ==>
      r == Err(Raised(Thrown("Please switch to PreProd testnet")))
    ensures EnableWallet(cardano, walletId).Ok? && EnableWallet(cardano, walletId).value.networkId.Rejected? ==>
      r == Err(EnableWallet(cardano, walletId).value.networkId.reason)
    ensures (&& EnableWallet(cardano, walletId).Ok?
             && EnableWallet(cardano, walletId).value.networkId == Resolved(0)
             && GetWalletAddress(EnableWallet(cardano, walletId).value, bech32).Err?) ==>
      r == Err(GetWalletAddress(EnableWallet(cardano, walletId).value, bech32).error)
    ensures (&& EnableWallet(cardano, walletId).Ok?
             && EnableWallet(cardano, walletId).value.networkId == Resolved(0)
             && GetWalletAddress(EnableWallet(cardano, walletId).value, bech32).Ok?) ==> r.Ok?
    ensures r.Ok? ==>
      && EnableWallet(cardano, walletId).Ok?
      && r.value.id == walletId
      && r.value.api == EnableWallet(cardano, walletId).value
      && r.value.networkId == 0
      && GetWalletAddress(r.value.api, bech32) == Ok(r.value.address)
      && r.value.name == (if FindWallet(available, walletId).Some? && FindWallet(available, walletId).value.name != ""
                          then FindWallet(available, walletId).value.name else walletId)
      && r.value.icon == (if FindWallet(available, walletId).Some? then FindWallet(available, walletId).value.icon else "")
  {
    match EnableWallet(cardano, walletId)
    case Err(e) => Err(Raised(e))
    case Ok(api) =>
      match IsCorrectNetwork(api, Testnet)
      case Err(reason) => Err(reason)
      case Ok(onCorrectNetwork) =>
        if !onCorrectNetwork then Err(Raised(Thrown("Please switch to PreProd testnet")))
        else
          match GetWalletAddress(api, bech32)
          case Err(reason) => Err(reason)
          case Ok(address) =>
            var info := FindWallet(available, walletId);
            var name := if info.Some? && info.value.name != "" then info.value.name else walletId;
            var icon := if info.Some? && info.value.icon != "" then info.value.icon else "";
            Ok(ConnectedWallet(walletId, name, icon, api, address, api.networkId.value))
  }

  /** `err.message || fallback` in a catch block: reading `message` of a
      thrown `null` or `undefined` is itself a `TypeError`. */
  function CaughtMessage(reason: Reason, fallback: string): (r: Result<string, JsError>)
    ensures r.Err? <==> reason == RaisedValue(Null)
    ensures reason.Raised? ==> r == Ok(if reason.error.message != "" then reason.error.message else fallback)
  {
    match reason
    case Raised(e) => Ok(if e.message != "" then e.message else fallback)
    case RaisedValue(v) =>
      match ReadMember(Some(v), "message")
      case Err(typeError) => Err(typeError)
      case Ok(message) => Ok(if Truthy(message) then ToJsString(message) else fallback)
  }

  class WalletProvider {
    var availableWallets: seq<WalletInfo>
    var connectedWallet: Option<ConnectedWallet>
    var isConnecting: bool
    var error: Option<string>
    const storage: LocalStorage

    /** The state when the provider mounts. */
    constructor(storage: LocalStorage)
      ensures this.storage == storage
      ensures availableWallets == [] && connectedWallet == None && !isConnecting && error == None
    {
      this.storage := storage;
      availableWallets := [];
      connectedWallet := None;
      isConnecting := false;
      error := None;
    }

    /** `refreshWallets()`. */
    method RefreshWallets(cardano: Cardano)
      modifies this
      ensures availableWallets == Detected(cardano)
      ensures connectedWallet == old(connectedWallet) && isConnecting == old(isConnecting) && error == old(error)
    {
      match cardano {
        case None =>
          availableWallets := KnownWalletValues();
        case Some(wallets) =>
          availableWallets := seq(|KNOWN_WALLETS|, i requires 0 <= i < |KNOWN_WALLETS| =>
            KNOWN_WALLETS[i].1.(isInstalled := KNOWN_WALLETS[i].1.id in wallets));
      }
    }

    /** `connectWallet(walletId)`: the error cleared first; on success the
        wallet is connected and its id remembered; on failure the error is
        set (unless reading it throws) and the failure passed on, with the
        connected wallet and the remembered id as they were. The
        connecting flag is down afterwards either way. */
    method ConnectWallet(cardano: Cardano, walletId: string, bech32: string -> string) returns (r: Result<(), Reason>)
      modifies this, storage
      ensures !isConnecting && availableWallets == old(availableWallets)
      ensures var outcome := Connect(cardano, walletId, bech32, old(availableWallets));
        && (outcome.Ok? ==>
              && r == Ok(())
              && connectedWallet == Some(outcome.value)
              && error == None
              && storage.items == old(storage.items)[LAST_WALLET_KEY := walletId])
        && (outcome.Err? ==>
              && connectedWallet == old(connectedWallet)
              && storage.items == old(storage.items)
              && (CaughtMessage(outcome.error, "Failed to connect wallet").Ok? ==>
                    r == Err(outcome.error) && error == Some(CaughtMessage(outcome.error, "Failed to connect wallet").value))
              && (CaughtMessage(outcome.error, "Failed to connect wallet").Err? ==>
                    r == Err(Raised(CaughtMessage(outcome.error, "Failed to connect wallet").error)) && error == None))
    {
      isConnecting := true;
      error := None;
      var outcome := Connect(cardano, walletId, bech32, availableWallets);
      match outcome {
        case Ok(connected) =>
          connectedWallet := Some(connected);
          storage.SetItem(LAST_WALLET_KEY, walletId);
          r := Ok(());
        case Err(reason) =>
          var message := CaughtMessage(reason, "Failed to connect wallet");
          if message.Ok? {
            error := Some(message.value);
            r := Err(reason);
          } else {
            r := Err(Raised(message.error));
          }
      }
      isConnecting := false;
    }

    /** `disconnectWallet()`. */
    method DisconnectWallet()
      modifies this, storage
      ensures connectedWallet == None
      ensures storage.items == old(storage.items) - {LAST_WALLET_KEY}
      ensures availableWallets == old(availableWallets) && isConnecting == old(isConnecting) && error == old(error)
    {
      connectedWallet := None;
      storage.RemoveItem(LAST_WALLET_KEY);
    }

    /** `signMessageWithWallet(message)`: the connected wallet signs for its
        own address. */
    method SignMessageWithWallet(message: string) returns (r: Result<SignedData, JsError>)
      ensures connectedWallet.None? ==> r == Err(Thrown("No wallet connected"))
      ensures connectedWallet.Some? ==>
        r == SignMessage(connectedWallet.value.api, connectedWallet.value.address, message)
    {
      match connectedWallet {
        case None =>
          r := Err(Thrown("No wallet connected"));
        case Some(wallet) =>
          r := SignMessage(wallet.api, wallet.address, message);
      }
    }

    /** The auto-reconnect effect: with a remembered id and no connected
        wallet, connect; a failure forgets the id. */
    method AutoReconnect(cardano: Cardano, bech32: string -> string)
      modifies this, storage
      ensures var remembered := old(storage.items);
        !(LAST_WALLET_KEY in remembered && remembered[LAST_WALLET_KEY] != "" && old(connectedWallet).None?) ==>
          && connectedWallet == old(connectedWallet) && storage.items == old(storage.items)
          && isConnecting == old(isConnecting) && error == old(error)
      ensures var remembered := old(storage.items);
        (LAST_WALLET_KEY in remembered && remembered[LAST_WALLET_KEY] != "" && old(connectedWallet).None?) ==>
          var outcome := Connect(cardano, remembered[LAST_WALLET_KEY], bech32, old(availableWallets));
          && (outcome.Ok? ==> connectedWallet == Some(outcome.value) && storage.items == remembered)
          && (outcome.Err? ==> connectedWallet == None && storage.items == remembered - {LAST_WALLET_KEY})
      ensures availableWallets == old(availableWallets)
    {
      var last := storage.GetItem(LAST_WALLET_KEY);
      if last.Some? && last.value != "" && connectedWallet.None? {
        var r := ConnectWallet(cardano, last.value, bech32);
        if r.Err? {
          storage.RemoveItem(LAST_WALLET_KEY);
        }
      }
    }
  }

  /** A connected wallet is on the testnet, and it is the wallet the id
      names. */
  lemma ConnectedOnTestnet(cardano: Cardano, walletId: string, bech32: string -> string, available: seq<WalletInfo>)
    requires Connect(cardano, walletId, bech32, available).Ok?
    ensures cardano.Some? && walletId in cardano.value && cardano.value[walletId].enable.Resolved?
    ensures Connect(cardano, walletId, bech32, available).value.api.networkId == Resolved(0)
  {
  }

  /** A wallet the detection found installed, that enables, is on the
      testnet and has a used address, connects under its own name. */
  lemma DetectedWalletConnects(cardano: Cardano, i: nat, bech32: string -> string)
    requires i < |KNOWN_WALLETS|
    requires cardano.Some? && KNOWN_WALLETS[i].1.id in cardano.value
    requires var api := cardano.value[KNOWN_WALLETS[i].1.id].enable;
      && api.Resolved? && api.value.networkId == Resolved(0)
      && api.value.changeAddress.Rejected? && api.value.rewardAddresses.Rejected?
      && api.value.usedAddresses.Resolved? && |api.value.usedAddresses.value| > 0
    ensures var id := KNOWN_WALLETS[i].1.id;
      var c := Connect(cardano, id, bech32, Detected(cardano));
      && c.Ok? && c.value.name == KNOWN_WALLETS[i].1.name
      && c.value.address == bech32(cardano.value[id].enable.value.usedAddresses.value[0])
  {
    var id := KNOWN_WALLETS[i].1.id;
    var found := FindWallet(Detected(cardano), id);
    KnownWalletsShape();
    FirstWithId(Detected(cardano), i, id);
  }

  /** Among wallets with distinct ids, the one found for `w[i].id` is
      `w[i]`. */
  lemma FirstWithId(w: seq<WalletInfo>, i: nat, id: string)
    requires i < |w| && w[i].id == id
    requires forall a, b :: 0 <= a < b < |w| ==> w[a].id != w[b].id
    ensures FindWallet(w, id) == Some(w[i])
  {
    if i > 0 {
      FirstWithId(w[1..], i - 1, id);
    }
  }
}
