/** The read endpoints over the chain state (src/api/blocks.rs,
    src/api/transactions.rs, src/api/user_transactions.rs).

    Each handler reads one of the two windows of `BlockChainState`, given
    here as the window's current contents, and the query string as a map
    from parameter to value. */
module ReadApi {
  import opened Wrappers
  import opened Strings
  import opened Http
  import opened Jwt
  import opened Middleware
  import opened OuraStream

  /** One `per_address` entry of the balance answer. */
  datatype AddressBalance = AddressBalance(address: string, adaBalance: string, tokens: seq<string>)

  /** The JSON bodies of the read endpoints. */
  datatype Body =
    | Error(error: string)
    | Blocks(blocks: seq<Block>, count: nat)
    | LatestBlock(block: Block)
    | Transactions(transactions: seq<Transaction>, count: nat)
    | UserTransactions(userTransactions: seq<Transaction>, userCount: nat, userAddresses: seq<string>, note: string)
    | Balance(addresses: seq<string>, totalAda: string, perAddress: seq<AddressBalance>, balanceNote: string)
    | Wallets(primaryAddress: string, allAddresses: seq<string>, walletCount: nat)

  /** `query.get("limit").and_then(parse::<usize>).unwrap_or(default).min(cap)`. */
  function Limit(query: map<string, string>, default: nat, cap: nat): (r: nat)
    ensures r <= cap
    ensures "limit" in query && ParseU64(query["limit"]).Some? ==> r == Min(ParseU64(query["limit"]).value, cap)
    ensures !("limit" in query && ParseU64(query["limit"]).Some?) ==> r == Min(default, cap)
  {
    var requested := if "limit" in query then ParseU64(query["limit"]).GetOr(default) else default;
    Min(requested, cap)
  }

  // ---------------------------------------------------------------------------
  // blocks.rs and transactions.rs
  // ---------------------------------------------------------------------------

  /** `get_blocks`: the newest blocks, 20 unless asked otherwise, at most 100. */
  function GetBlocks(blocks: seq<Block>, query: map<string, string>): (r: Response<Body>)
    ensures r.status == OK && r.body.Blocks?
    ensures r.body.count == |r.body.blocks| <= 100
    ensures r.body.blocks == Take(blocks, Limit(query, 20, 100))
  {
    var page := Take(blocks, Limit(query, 20, 100));
    Response(OK, Blocks(page, |page|))
  }

  /** `get_latest_block`: the newest block, or 404 when none is stored. */
  function GetLatestBlock(blocks: seq<Block>): (r: Response<Body>)
    ensures r.status == OK <==> |blocks| > 0
    ensures |blocks| > 0 ==> r.body == LatestBlock(blocks[0])
    ensures |blocks| == 0 ==> r == Response(NOT_FOUND, Error("no blocks avilanble"))
  {
    var first := Take(blocks, 1);
    if |first| > 0 then Response(OK, LatestBlock(first[0]))
    else Response(NOT_FOUND, Error("no blocks avilanble"))
  }

  /** `get_transactions`: the newest transactions, 50 unless asked
      otherwise, at most 200. */
  function GetTransactions(transactions: seq<Transaction>, query: map<string, string>): (r: Response<Body>)
    ensures r.status == OK && r.body.Transactions?
    ensures r.body.count == |r.body.transactions| <= 200
    ensures r.body.transactions == Take(transactions, Limit(query, 50, 200))
  {
    var page := Take(transactions, Limit(query, 50, 200));
    Response(OK, Transactions(page, |page|))
  }

  /** Without a usable "limit" the defaults apply; an explicit 0 gives an
      empty page. */
  lemma DefaultsAndZero(blocks: seq<Block>, transactions: seq<Transaction>)
    ensures GetBlocks(blocks, map[]).body.count == Min(20, |blocks|)
    ensures GetTransactions(transactions, map[]).body.count == Min(50, |transactions|)
    ensures GetTransactions(transactions, map["limit" := "0"]).body == Transactions([], 0)
    ensures GetBlocks(blocks, map["limit" := "ten"]).body.count == Min(20, |blocks|)
  {
    assert ParseDigits("0") == Some(0);
    assert ParseU64("0") == Some(0);
    assert ParseDigits("ten").None? by { assert !IsDigit("ten"[0]); }
  }

  /** The latest block is the first block of the block list. */
  lemma LatestIsFirstOfList(blocks: seq<Block>, query: map<string, string>)
    requires |blocks| > 0 && Limit(query, 20, 100) > 0
    ensures GetLatestBlock(blocks).body.block == GetBlocks(blocks, query).body.blocks[0]
  {
  }

  // ---------------------------------------------------------------------------
  // user_transactions.rs
  // ---------------------------------------------------------------------------

  const NOT_AUTHENTICATED: Response<Body> := Response(UNAUTHORIZED, Error("Authentication required"))

  const TRANSACTIONS_NOTE: string :=
    "Filtering by address will be implemented when transaction details include full input/output addresses"

  const BALANCE_NOTE: string := "Balance queries require integration with Blockfrost or direct node queries"

  /** `get_user_transactions`: the first thousand transactions, cut to the
      limit, with no filtering by address, and the token's addresses. */
  function GetUserTransactions(req: Request, transactions: seq<Transaction>, query: map<string, string>)
    : (r: Response<Body>)
    ensures GetClaims(req).None? ==> r == NOT_AUTHENTICATED
    ensures GetClaims(req).Some? ==>
      && r.status == OK && r.body.UserTransactions?
      && r.body.userTransactions == Take(Take(transactions, 1000), Limit(query, 50, 200))
      && r.body.userCount == |r.body.userTransactions|
      && r.body.userAddresses == GetClaims(req).value.addresses
  {
    match GetClaims(req)
    case None => NOT_AUTHENTICATED
    case Some(claims) =>
      var all := Take(transactions, 1000);
      var page := Take(all, Limit(query, 50, 200));
      Response(OK, UserTransactions(page, |page|, claims.addresses, TRANSACTIONS_NOTE))
  }

  /** The user's page is the same page the public endpoint gives for the
      same query: nothing is filtered by the user's addresses. */
  lemma UserTransactionsUnfiltered(req: Request, transactions: seq<Transaction>, query: map<string, string>)
    requires GetClaims(req).Some?
    ensures GetUserTransactions(req, transactions, query).body.userTransactions
         == GetTransactions(transactions, query).body.transactions
  {
    var limit := Limit(query, 50, 200);
    var a := Take(Take(transactions, 1000), limit);
    var b := Take(transactions, limit);
    assert |a| == |b|;
    assert forall i :: 0 <= i < |a| ==> a[i] == b[i];
  }

  /** One zero balance per address, in the token's order. */
  function ZeroBalances(addresses: seq<string>): (r: seq<AddressBalance>)
    ensures |r| == |addresses|
    ensures forall i :: 0 <= i < |r| ==> r[i] == AddressBalance(addresses[i], "0", [])
  {
    seq(|addresses|, i requires 0 <= i < |addresses| => AddressBalance(addresses[i], "0", []))
  }

  /** `get_user_balance`: a placeholder answer of zero for every address. */
  function GetUserBalance(req: Request): (r: Response<Body>)
    ensures GetClaims(req).None? ==> r == NOT_AUTHENTICATED
    ensures GetClaims(req).Some? ==>
      && r.status == OK && r.body.Balance?
      && r.body.addresses == GetClaims(req).value.addresses
      && r.body.totalAda == "0"
      && |r.body.perAddress| == |GetClaims(req).value.addresses|
      && forall i :: 0 <= i < |r.body.perAddress| ==>
           r.body.perAddress[i].address == GetClaims(req).value.addresses[i] && r.body.perAddress[i].adaBalance == "0"
  {
    match GetClaims(req)
    case None => NOT_AUTHENTICATED
    case Some(claims) =>
      Response(OK, Balance(claims.addresses, "0", ZeroBalances(claims.addresses), BALANCE_NOTE))
  }

  /** `get_user_wallets`: the token's subject and addresses. */
  function GetUserWallets(req: Request): (r: Response<Body>)
    ensures GetClaims(req).None? ==> r == NOT_AUTHENTICATED
    ensures GetClaims(req).Some? ==>
      r == Response(OK, Wallets(GetClaims(req).value.sub, GetClaims(req).value.addresses,
                                |GetClaims(req).value.addresses|))
  {
    match GetClaims(req)
    case None => NOT_AUTHENTICATED
    case Some(claims) => Response(OK, Wallets(claims.sub, claims.addresses, |claims.addresses|))
  }

  /** Behind the middleware, the user endpoints answer from the claims of
      the token that was let through. */
  lemma UserEndpointsSeeTokenClaims(req: Request, codec: Codec, revoked: set<string>, now: int)
    requires Authenticate(req, codec, revoked, now).Forward?
    ensures var fwd := Authenticate(req, codec, revoked, now).request;
      var claims := VerifyToken(codec, BearerToken(req).value, now).value;
      GetUserWallets(fwd) == Response(OK, Wallets(claims.sub, claims.addresses, |claims.addresses|))
  {
  }
}
