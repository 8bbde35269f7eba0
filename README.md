# Cardano live explorer: a verified model of its core

The explorer is made of two parts.

- **The backend** is a Rust actix server. It reads the Cardano chain through an Oura stream and keeps the 100 most recent blocks and 500 most recent transactions in memory. It serves them over a small REST API. Its source also holds a sign-in layer built on CIP-30 wallet signatures and JSON Web Tokens (src/auth and src/api/user_transactions.rs), but src/main.rs does not mount it.
- **The frontend** is a Next.js application. It shows a live feed of blocks and transactions pushed over WebSockets, plus session statistics. It connects CIP-30 browser wallets and keeps the login tokens in `localStorage`.

This project models the parts of both that carry logic:

- the CBOR reader and the COSE_Sign1 signature check of the wallet login;
- the challenge text and its timestamp check;
- the session store, the JWT helpers, the authentication middleware and the auth routes, as written, although src/main.rs does not mount them;
- the Oura event handler and the read endpoints;
- the frontend API client and its token storage;
- the wallet helpers and the wallet and auth providers;
- the live block and transaction lists, the statistics panel, and the two WebSocket clients.

Each source file becomes one Dafny module. Code that computes a value becomes functions and lemmas. Code that updates state step by step becomes a class whose methods are proved to follow a step function on a state datatype. The properties the system relies on are then proved about those step functions. Examples:

- a signature produced by a wallet round-trips through the server's COSE parser;
- a challenge is accepted exactly while it is fresh;
- a revoked token stays revoked;
- an issued token passes the middleware until it expires;
- the live lists never show one block twice;
- the reconnect timers of the per-component hook survive unmount.

External code is not modelled but passed in as parameters or oracles:

- Ed25519, Blake2b and `PublicKey::try_from`;
- JWT encoding and decoding;
- bech32;
- `fetch`, the wallet's CIP-30 API, and `JSON.parse` and `JSON.stringify`;
- the clock and random UUIDs.

| file | module | models |
|---|---|---|
| wrappers.dfy | Wrappers | `Option` and `Result` |
| strings.dfy | Strings | text helpers of Rust and JavaScript: search, trimming, ASCII case, decimal, UTF-8, hex |
| cbor.dfy | Cbor | `read_cbor_item` and the CBOR header writers of src/auth/verification.rs |
| verification.dfy | Verification | `verify_sign`, `verify_address_ownership`, `generate_challenge`, `verify_challenge_timestamp` |
| sessions.dfy | Sessions | the session store of src/auth/mod.rs |
| jwt.dfy | Jwt | src/auth/jwt.rs |
| http.dfy, auth_types.dfy | Http, AuthTypes | requests, responses and the JSON bodies of the auth routes |
| middleware.dfy | Middleware | src/auth/middleware.rs |
| routes.dfy | Routes | src/auth/routes.rs |
| json.dfy | Json | JSON values as both the server and the browser see them |
| oura_stream.dfy | OuraStream | src/oura_stream.rs |
| read_api.dfy | ReadApi | src/api/blocks.rs, src/api/transactions.rs, src/api/user_transactions.rs |
| browser.dfy | Browser | `localStorage` |
| api_client.dfy | ApiClient | frontend/cardano_frontend/lib/api.ts |
| cardano_lib.dfy | CardanoLib | frontend/cardano_frontend/lib/cardano.ts |
| wallet_context.dfy | WalletContext | frontend/cardano_frontend/context/WalletContext.tsx |
| auth_context.dfy | AuthContext | frontend/cardano_frontend/context/AuthContext.tsx |
| live_feed.dfy | LiveFeed | BlockList.tsx and TransactionList.tsx |
| stats.dfy | SessionStats | Stats.tsx |
| sockets.dfy | Sockets | browser WebSocket ready states |
| ws_context.dfy | WebsocketContext | frontend/cardano_frontend/context/WebSocketContext.tsx |
| ws_hook.dfy | WebsocketHook | frontend/cardano_frontend/hooks/websocket.ts |

## Model

| member | source | states |
|---|---|---|
| Cbor.ReadU16 | src/auth/verification.rs:13-15 | two bytes read as a value below 2^16 |
| Cbor.ReadU32 | src/auth/verification.rs:16-21 | four bytes read as a value below 2^32 |
| Cbor.ReadUIsBigEndian | src/auth/verification.rs:13-21 | the two shift-and-or readers compute the big-endian value of the bytes they read (section 3 of RFC 8949) |
| Cbor.ReadHeader | src/auth/verification.rs:22-36 | a header that reads has the major type of its first byte and a size of at least one byte that stays inside the input |
| Cbor.HeaderRule | src/auth/verification.rs:28-36 | additional information 0..23 is the length itself; 24, 25 and 26 read 1, 2 and 4 big-endian bytes when they are there and fail otherwise; 27, 31 and 28..30 fail, each with its own error |
| Cbor.ReadItem | src/auth/verification.rs:22-71 | an item that reads takes at least one byte and ends inside the input |
| Cbor.ItemBody | src/auth/verification.rs:37-70 | the same bound for byte strings, text strings, arrays, maps, tags and the header-only major types 0, 1 and 7 |
| Cbor.ReadItems | src/auth/verification.rs:49-62 | reading n items moves the cursor forward inside the input, strictly when n > 0 |
| Cbor.ReadItemsSplit | src/auth/verification.rs:56-62 | reading a + b items is reading a items and then b items, so the map loop reads two items per entry |
| Cbor.ReadItemExtend | src/auth/verification.rs:22-71 | bytes after an item do not change how it reads |
| Cbor.ReadItemShift | src/auth/verification.rs:22-71 | bytes before an item only shift where it starts |
| Cbor.ReadItemLocal | src/auth/verification.rs:22-71 | an item read inside a larger buffer reads the same as on its own |
| Cbor.ReadItemHeader | src/auth/verification.rs:23-36 | the header code, which moves a cursor past the length bytes, computes `ReadHeader` |
| Cbor.ReadCborItem | src/auth/verification.rs:22-71 | the recursive reader with its loops computes `ReadItem` |
| Cbor.ReadArrayElements | src/auth/verification.rs:48-55 | the array loop reads `length` items one after the other |
| Cbor.ReadMapEntries | src/auth/verification.rs:56-63 | the map loop reads a key and a value per entry, 2 * length items |
| Cbor.BstrPrefix | src/auth/verification.rs:72-82 | a byte-string header is one to three bytes |
| Cbor.TextPrefix | src/auth/verification.rs:83-95 | a text-string header is one to three bytes |
| Cbor.CborEncodeText | src/auth/verification.rs:83-98 | the encoding is the header followed by exactly the UTF-8 bytes of the text |
| Cbor.HeaderRoundTrip | src/auth/verification.rs:72-95 | a header written for a length up to 0xFFFF reads back with that major type, length and size |
| Cbor.ReadBstrAt | src/auth/verification.rs:38-42 | a byte string reads as exactly its content, and its size is header plus length |
| Cbor.BstrRoundTrip | src/auth/verification.rs:72-82 | a byte string of up to 0xFFFF bytes, written with its header, reads back as the same bytes and uses the whole encoding |
| Cbor.TextRoundTrip | src/auth/verification.rs:83-98 | an encoded text of up to 0xFFFF bytes reads back as one text item that uses the whole encoding |
| Cbor.BstrBetween | src/auth/verification.rs:72-82 | the same holds for an encoded byte string with any bytes before and after it |
| Cbor.TextBetween | src/auth/verification.rs:83-98 | the same holds for an encoded text with any bytes before and after it |
| Cbor.BstrPrefixTruncates | src/auth/verification.rs:79-81 | above 0xFFFF only the low 16 bits of the length are written: 65536 bytes read back as an empty byte string |
| Verification.CoseFirstElement | src/auth/verification.rs:105-107 | the first element starts 1 to 5 bytes in, and the array header is refused exactly when its additional information is 27 |
| Verification.ParseCoseSign1 | src/auth/verification.rs:103-123 | a COSE_Sign1 split (section 4.2 of RFC 9052) always yields a 64-byte signature |
| Verification.ReadCoseSign1 | src/auth/verification.rs:105-123 | the cursor code that reads the four items one after the other computes `ParseCoseSign1` |
| Verification.SplitSignature | src/auth/verification.rs:100-129 | a split signature has 64 bytes; a 64-byte field is a bare signature over the message as a CBOR text with an empty protected header; a shorter field, or a longer one that is not an array, is refused with its size |
| Verification.SplitSignatureField | src/auth/verification.rs:102-129 | the size dispatch of the source computes `SplitSignature` |
| Verification.BuildSigStructure | src/auth/verification.rs:136-144 | the buffer filled one append at a time is the Sig_structure ["Signature1", protected, empty external_aad, payload] of section 4.4 of RFC 9052 |
| Verification.VerifySignSpec | src/auth/verification.rs:100-159 | a verdict needs both hex inputs to decode after trimming, a valid public key and a signature that splits; the verdict is true exactly when Ed25519 accepts the signature over the Sig_structure, over the message bytes or over the Blake2b-256 hash of the Sig_structure |
| Verification.VerifySign | src/auth/verification.rs:8-160 | `verify_sign` as written, with its three verification attempts in order, computes `VerifySignSpec` |
| Verification.EncodeCoseSign1 | src/auth/verification.rs:103 | a wallet's COSE_Sign1 (CIP-8) is longer than 64 bytes and starts with an array header, so the server takes its COSE branch |
| Verification.CoseRoundTrip | src/auth/verification.rs:103-123 | splitting a COSE_Sign1 encoding gives back exactly the protected header, the payload and the signature that were encoded |
| Verification.CoseParses | src/auth/verification.rs:109-123 | the COSE branch of the signature reader returns exactly the protected header, payload and signature of any COSE_Sign1 encoding whose byte strings are at most 0xFFFF long |
| Verification.CoseFromItems | src/auth/verification.rs:109-123 | the COSE branch depends only on what its four item reads return |
| Verification.SigStructureIsOneItem | src/auth/verification.rs:136-144 | the Sig_structure the server builds is well-formed CBOR: one array of four items that uses the whole buffer |
| Verification.RawSignatureVerdict | src/auth/verification.rs:124-159 | a bare 64-byte signature is checked against the Sig_structure whose payload is the message as a CBOR text, with an empty protected header |
| Verification.BadSignatureSizeReported | src/auth/verification.rs:127-131 | a signature field of the wrong size is refused before the public key is looked at: a bad key cannot mask the error and a good key cannot rescue it |
| Verification.VerifyAddressOwnership | src/auth/verification.rs:163-181 | the answer is never false; it is true exactly when the untrimmed hex decodes to a valid public key; undecodable hex is its own error |
| Verification.OwnershipIgnoresAddress | src/auth/verification.rs:163-181 | the verdict does not depend on the address |
| Verification.GenerateChallenge | src/auth/verification.rs:185-191 | the challenge starts with the sign-in preamble, holds the address right after it and ends with the nonce |
| Verification.WrapI64 | src/auth/verification.rs:210 | the age `now - timestamp` wraps as a release build computes it: equal modulo 2^64, and unchanged when it fits in an `i64` |
| Verification.WrapOverflowIsNegative | src/auth/verification.rs:210 | an age that overflows wraps to a negative number |
| Verification.ChallengeTimestamp | src/auth/verification.rs:198-208 | a timestamp is only read from a message that holds "Timestamp: ", and a message without it gives the not-found error |
| Verification.VerifyChallengeTimestamp | src/auth/verification.rs:195-221 | the answer is never false; it is true exactly when the timestamp reads and the wrapped age lies between 0 and the maximum; a timestamp that does not read passes its error on |
| Verification.AcceptedChallengeIsFresh | src/auth/verification.rs:209-220 | with a clock at or after 1970, an accepted challenge is really at most `maxAge` seconds old and not from the future, in spite of the wrap-around |
| Verification.ChallengeTimestampAt | src/auth/verification.rs:187-199 | the first "Timestamp: " of a challenge is the one the generator wrote, provided the address followed by a space holds none |
| Verification.ChallengeTimestampRoundTrip | src/auth/verification.rs:185-208 | a challenge reads back the timestamp it was generated with |
| Verification.VerdictForTimestamp | src/auth/verification.rs:209-220 | for a message whose timestamp reads, the verdict is the expired error above the maximum age, the not-possible error below zero and true otherwise |
| Verification.ChallengeRoundTrip | src/auth/verification.rs:185-221 | a generated challenge checked later is accepted exactly when the time passed is between zero and the maximum age, and is otherwise refused with the error the source gives |
| Strings.IntToStringParses | src/auth/verification.rs:186-189 | an `i64` written in decimal, as `format!` writes it, parses back as the same `i64` |
| Strings.HexRoundTrip | src/auth/verification.rs:100 | hex-encoding bytes and decoding the text gives back the bytes |
| Sessions.CreatedSession | src/auth/mod.rs:69-78 | the session left under the address holds that address and is active now; a new address gets a fresh session of its own created now; an existing session keeps its primary address and creation time and gains the address |
| Sessions.AddedWallet | src/auth/mod.rs:80-91 | a missing primary is exactly the error "Session not found"; otherwise only the primary's session changes: it gains the new address and is active now |
| Sessions.Unexpired | src/auth/mod.rs:104-111 | a session is kept, unchanged, exactly when it was active less than `max_age` seconds before now |
| Sessions.StepKeepsWellKeyed | src/auth/mod.rs:69-111 | every operation keeps each session filed under its own primary address, which is one of its wallet addresses |
| Sessions.RunKeepsWellKeyed | src/auth/mod.rs:69-111 | that invariant holds after any sequence of operations |
| Sessions.RevocationIsPermanent | src/auth/mod.rs:96-103 | no operation removes a revocation: a revoked token stays revoked after any sequence of operations |
| Sessions.OnlyRevokeRevokes | src/auth/mod.rs:96-99 | only `revoked_token` changes the revoked set, and it adds exactly its identifier |
| Sessions.CreatedSessionIsOwn | src/auth/mod.rs:69-78 | in a well-keyed store the created session's primary address is the address asked for, and it keeps every wallet address it had |
| Sessions.AddWalletIdempotent | src/auth/mod.rs:80-91 | adding the same wallet twice at the same time is the same as adding it once |
| Sessions.CleanupIdempotent | src/auth/mod.rs:104-111 | cleaning up twice with the same clock reading removes nothing more |
| Sessions.CleanupLaterKeepsFewer | src/auth/mod.rs:104-111 | a later cleanup keeps no session that an earlier one removed |
| Sessions.SessionStore.constructor | src/auth/mod.rs:64-68 | a new store has no sessions and no revoked tokens |
| Sessions.SessionStore.CreateSession | src/auth/mod.rs:69-78 | returns and stores `CreatedSession` under the address, leaves every other session and the revoked set alone, and keeps the store well keyed |
| Sessions.SessionStore.AddWallet | src/auth/mod.rs:80-91 | fails, changing nothing, exactly when the primary has no session; otherwise the sessions become `AddedWallet`; the revoked set is untouched |
| Sessions.SessionStore.GetSession | src/auth/mod.rs:92-95 | returns the stored session exactly when there is one, and it is filed under its own address |
| Sessions.SessionStore.RevokeToken | src/auth/mod.rs:96-99 | the revoked set gains the identifier and the sessions are untouched |
| Sessions.SessionStore.IsTokenRevoked | src/auth/mod.rs:100-103 | true exactly when the identifier has been revoked |
| Sessions.SessionStore.CleanupExpired | src/auth/mod.rs:104-111 | the sessions become `Unexpired` and the revoked set is untouched |
| Jwt.AccessClaims | src/auth/jwt.rs:23-32 | access claims name the address as subject, carry the addresses and the identifier, are issued now and expire 900 seconds later |
| Jwt.RefreshClaims | src/auth/jwt.rs:42-51 | refresh claims are the same but expire 604800 seconds (seven days) later |
| Jwt.VerifyToken | src/auth/jwt.rs:61-68 | a token verifies exactly when the library decodes it and its `exp` is at most 60 seconds (the default leeway of `Validation`) before the clock reading, and then to the decoded claims |
| Jwt.AccessTokenRoundTrip | src/auth/jwt.rs:23-68 | with a codec that decodes what it encoded (RFC 7519), an issued access token verifies to its subject and addresses with expiry 900 seconds after issue at every clock reading up to 960 seconds after issue, and is refused at every later one |
| Jwt.RefreshTokenRoundTrip | src/auth/jwt.rs:42-68 | the same for a refresh token, which verifies up to seven days and 60 seconds after issue and is refused afterwards |
| Jwt.ExtractTokenFromHeader | src/auth/jwt.rs:71-77 | a token is found exactly when the header starts with "Bearer ", and the header is "Bearer " followed by the token |
| Jwt.ExtractBearer | src/auth/jwt.rs:71-77 | a header built from a token gives that token back |
| Jwt.LowerCaseSchemeRefused | src/auth/jwt.rs:72 | the scheme is matched case-sensitively, so a "bearer " header is refused although section 2.1 of RFC 6750 makes the scheme name case-insensitive |
| Middleware.HeaderText | src/auth/middleware.rs:59-62 | the header reads as text exactly when every byte is visible ASCII or a tab, and the text has the same characters |
| Middleware.Authenticate | src/auth/middleware.rs:53-107 | a request is passed on exactly when it has a bearer token that verifies, at the request's clock reading, to claims whose identifier is not revoked, and it is passed on with those claims attached; otherwise the 401 says "Authentication required", "Invalid or expired token" or "Token has been revoked", in that order of checks |
| Middleware.ForwardedClaims | src/auth/middleware.rs:80-84 | the request the route sees carries exactly the verified, unrevoked claims and the same header, and the route's answer is the middleware's answer (with lines 111-113 of the same file) |
| Middleware.RejectedIgnoresService | src/auth/middleware.rs:71-105 | a rejected request never reaches the route: the answer is a 401 whatever the route would do |
| Middleware.PrefixCheckedFirst | src/auth/middleware.rs:64-66 | without a bearer token the verdict depends neither on the token library nor on the revoked set (with lines 99-105 of the same file) |
| Middleware.VerificationBeforeRevocation | src/auth/middleware.rs:68-94 | a token that does not verify gets the same answer whatever has been revoked |
| Middleware.IssuedTokenAccepted | src/auth/middleware.rs:59-84 | an access token the server issued, sent as "Bearer <token>" and not revoked, is passed on with the claims it was issued with until 960 seconds after issue, and refused as "Invalid or expired token" afterwards |
| Routes.GetChallenge | src/auth/routes.rs:18-26 | a 200 that echoes the address, with a challenge that starts with the sign-in preamble and holds the address right after it |
| Routes.LoginGate | src/auth/routes.rs:36-61 | login goes on exactly when the challenge is fresh and the signature verifies; a stale or unreadable challenge is a 400, a signature that does not verify a 401 "invalid sign", and a verification error a 400 |
| Routes.LoginTokens | src/auth/routes.rs:63-97 | a 200 exactly when both tokens are issued, carrying both tokens, "Bearer", 900 and the user record with the session's addresses and creation time; otherwise the 500 of the token that failed first |
| Routes.Login | src/auth/routes.rs:29-99 | a refused login answers at once and leaves the store alone; otherwise the session is created or refreshed, even when a token then fails, and the answer is `LoginTokens`; revocations are untouched |
| Routes.IssuedChallengePassesGate | src/auth/routes.rs:18-61 | a challenge the server issued, signed acceptably and sent back within 300 seconds, passes the login checks |
| Routes.StaleChallengeRefusedFirst | src/auth/routes.rs:36-42 | a stale challenge is a 400 whatever the signature and the key are |
| Routes.LoginTokenVerifies | src/auth/routes.rs:63-97 | both tokens of a successful login verify to the logged-in address and the listed addresses, the access token exactly until 960 seconds and the refresh token exactly until seven days and 60 seconds after the login, and the logged-in address is among the listed ones |
| Routes.Logout | src/auth/routes.rs:101-119 | with claims attached, their identifier is revoked and the answer is 200; without, nothing changes and the answer is 401; sessions are untouched |
| Routes.LoggedOutTokenRefused | src/auth/routes.rs:101-115 | after a logout, the same token is refused by the middleware with "Token has been revoked" for as long as it has not expired |
| Routes.RefereshToken | src/auth/routes.rs:127-155 | a 401 exactly when the token does not verify; otherwise a new access token for its subject and addresses, or a 500 when issuing fails |
| Routes.RefreshKeepsIdentity | src/auth/routes.rs:127-155 | refreshing within seven days and 60 seconds of issue with an issued refresh token gives a 200 and an access token for the same subject and addresses, which verifies at the refresh and expires 900 seconds later |
| Routes.ExpiredRefreshRefused | src/auth/routes.rs:127-155 | a refresh token more than seven days and 60 seconds old is answered with the 401 "invalid or expired refereh" |
| Routes.AccessTokenAlsoRefreshes | src/auth/routes.rs:127-138 | the endpoint does not tell the kinds of token apart: an access token is accepted as a refresh token, exactly until 960 seconds after it was issued |
| Routes.CurrentUser | src/auth/routes.rs:157-178 | a 200 exactly when claims are attached and their subject has a session, carrying the subject, the session's addresses and its creation time; otherwise the 401 "Not authenticated" |
| Routes.GetCurrentUser | src/auth/routes.rs:157-178 | the handler reads the store and answers `CurrentUser` |
| Routes.MeAfterLogin | src/auth/routes.rs:63-97 | right after a login, asking who is logged in with the issued token's claims gives back the user record the login returned (with lines 157-178 of the same file) |
| Routes.AddWalletOutcome | src/auth/routes.rs:189-233 | a 200 exactly when claims are attached, the signature verifies and the subject has a session, and only then do the sessions change, by `AddedWallet`; no claims is a 401, a bad signature a 400, a missing session a 500 |
| Routes.AddWallet | src/auth/routes.rs:189-233 | the handler answers and updates the store as `AddWalletOutcome` says, without checking the message's age; revocations are untouched |
| Routes.AddedWalletListed | src/auth/routes.rs:189-233 | a linked wallet shows up in the next `get_current_user` answer (with lines 157-178 of the same file) |
| OuraStream.Prepend | src/oura_stream.rs:17-35 | `insert(0, x)` followed by `truncate(cap)`: `x` comes first, then the earlier entries in their order, and the length is the old length plus one, at most the cap |
| OuraStream.PrependShifts | src/oura_stream.rs:17-35 | each insertion moves an entry one place back, so after k insertions it sits k places further back while that place is within the cap |
| OuraStream.CoinTotalAppend | src/oura_stream.rs:175-185 | the coin total adds up over the outputs, and an output whose coin is missing or not a decimal string adds nothing |
| OuraStream.DecodeEvent | src/oura_stream.rs:140-196 | an event yields a transaction exactly when it is "apply" and has a point and a record whose record carries a "hash"; the block hash, slot, transaction hash, fee, input and output counts (wrapped to 32 bits) and total output (wrapped to 64 bits) are read as the source reads them, with "" or 0 for anything missing; block number and timestamp are 0 |
| OuraStream.Apply | src/oura_stream.rs:140-231 | any other event changes nothing; a transaction event puts the transaction first in the capped transaction window and adds a placeholder block first in the capped block window, unless a block with the same hash and slot is stored |
| OuraStream.ApplyKeepsCaps | src/oura_stream.rs:22-34 | the windows never hold more than 100 blocks and 500 transactions (with lines 206-228 of the same file) |
| OuraStream.BlockPresentAfterEvent | src/oura_stream.rs:208-229 | after a transaction event a block with the event's hash and slot is stored |
| OuraStream.ApplyKeepsUniqueBlocks | src/oura_stream.rs:210-229 | no hash and slot pair ever gets a second block entry |
| OuraStream.ApplyNeverUpdatesBlocks | src/oura_stream.rs:208-229 | stored blocks are never updated in place: each block after an event was stored before, or is the new placeholder in first place |
| OuraStream.ApplyAsWritten | src/oura_stream.rs:198-228 | `process_event` including its two log lines: when it panics with a changed state, the block hash does not have 16 bytes to slice and the transaction has already been stored |
| OuraStream.MissingBlockHashPanics | src/oura_stream.rs:227 | an "apply" event whose point has no hash panics after storing the transaction and before storing the block entry (with line 155 of the same file) |
| OuraStream.AsWrittenAgreesOnLongAsciiHashes | src/oura_stream.rs:198-228 | for ASCII hashes with a block hash of at least 16 characters the log lines do not panic and the source does what `Apply` says |
| OuraStream.BlockChainState.constructor | src/oura_stream.rs:13-16 | both windows start empty |
| OuraStream.BlockChainState.AddBlock | src/oura_stream.rs:17-25 | the blocks become `Prepend(blocks, block, 100)`; the transactions are untouched |
| OuraStream.BlockChainState.AddTransactions | src/oura_stream.rs:27-35 | the transactions become `Prepend(transactions, tx, 500)`; the blocks are untouched |
| OuraStream.BlockChainState.GetBlocks | src/oura_stream.rs:37-40 | the newest `limit` blocks, newest first |
| OuraStream.BlockChainState.GetTransactions | src/oura_stream.rs:42-45 | the newest `limit` transactions, newest first |
| OuraStream.BlockChainState.ProcessEvent | src/oura_stream.rs:140-231 | the state after the event is `Apply` of the state before, and the caps still hold |
| ReadApi.Limit | src/api/blocks.rs:11 | the limit never exceeds the cap; a "limit" that parses is used, capped; anything else gives the default, capped |
| ReadApi.GetBlocks | src/api/blocks.rs:6-18 | always 200; the newest blocks up to the limit (20 unless asked, at most 100), with a count equal to their number |
| ReadApi.GetLatestBlock | src/api/blocks.rs:20-32 | 200 with the newest block exactly when a block is stored, and otherwise the 404 "no blocks avilanble" |
| ReadApi.GetTransactions | src/api/transactions.rs:7-19 | always 200; the newest transactions up to the limit (50 unless asked, at most 200), with their count |
| ReadApi.DefaultsAndZero | src/api/transactions.rs:12 | without a usable "limit" the defaults of 20 and 50 apply, and an explicit 0 gives an empty page |
| ReadApi.LatestIsFirstOfList | src/api/blocks.rs:11-32 | the latest block is the first block of the block list |
| ReadApi.GetUserTransactions | src/api/user_transactions.rs:9-57 | without claims the 401 "Authentication required"; otherwise 200 with the first thousand transactions cut to the limit, their count and the token's addresses |
| ReadApi.UserTransactionsUnfiltered | src/api/user_transactions.rs:31-49 | nothing is filtered by the user's addresses: the user's page is the public page for the same query |
| ReadApi.ZeroBalances | src/api/user_transactions.rs:83-89 | one zero balance with no tokens per address, in the token's order |
| ReadApi.GetUserBalance | src/api/user_transactions.rs:62-93 | without claims a 401; otherwise the token's addresses, a total of "0" and a "0" balance for each address in order |
| ReadApi.GetUserWallets | src/api/user_transactions.rs:100-116 | without claims a 401; otherwise the token's subject, its addresses and their number |
| ReadApi.UserEndpointsSeeTokenClaims | src/api/user_transactions.rs:100-116 | behind the middleware, the user endpoints answer from the claims of the token that was let through |
| ApiClient.StripHexPrefix | frontend/cardano_frontend/lib/api.ts:9 | `replace(/^0x/i, '')` leaves the text alone or removes exactly one leading "0x" or "0X" |
| ApiClient.ExtractHex | frontend/cardano_frontend/lib/api.ts:15-40 | the result is always 2n characters taken from the text: those after the first `58 20` / `58 40` marker when enough follow, else the whole text when it has exactly 2n characters, else its last 2n; it throws, with the source's message, exactly when no usable marker exists and the text is shorter than 2n |
| ApiClient.CleanHexNoop | frontend/cardano_frontend/lib/api.ts:9 | cleaning leaves lower-case hexadecimal text unchanged |
| ApiClient.ExactHexUnchanged | frontend/cardano_frontend/lib/api.ts:28-32 | text of exactly 2n lower-case hex digits comes back unchanged |
| ApiClient.NormalizeIdempotent | frontend/cardano_frontend/lib/api.ts:8-49 | normalising a normalised key or signature changes nothing |
| ApiClient.CleanHexIsLower | frontend/cardano_frontend/lib/api.ts:9 | cleaned text holds no upper-case letter |
| ApiClient.CoseKeyNormalizes | frontend/cardano_frontend/lib/api.ts:8-45 | the COSE_Key a CIP-30 wallet returns normalises to the raw 32-byte key in hex |
| ApiClient.CoseKeyMarker | frontend/cardano_frontend/lib/api.ts:15-24 | in a COSE_Key the first `5820` is where the key's byte string begins, and 64 hex digits follow it |
| ApiClient.RequestHeaders | frontend/cardano_frontend/lib/api.ts:70-88 | every request sends the JSON content type, and a "Bearer" Authorization header exactly when the access token is truthy; no other header is set |
| ApiClient.Answer | frontend/cardano_frontend/lib/api.ts:90-103 | a request succeeds exactly on a 2xx answer with a JSON body, returning that body; a network failure is a TypeError, an unparsable 2xx body a SyntaxError, and an unparsable refusal "HTTP <status>: <statusText>" |
| ApiClient.ServerErrorSurfaces | frontend/cardano_frontend/lib/api.ts:96-101 | a refusal whose body has a non-empty `error` text throws that text, and one without `error` throws "API request failed" |
| ApiClient.EncodeUriComponent | frontend/cardano_frontend/lib/api.ts:111 | text of unreserved characters is left as it is, and the encoding holds only unreserved characters and '%' (section 19.2.6.5 of ECMA-262) |
| ApiClient.PercentBytes | frontend/cardano_frontend/lib/api.ts:111 | byte k becomes characters 3k to 3k+2: '%' followed by the upper-case hex digits of its high and low halves |
| ApiClient.PercentBytesDecode | frontend/cardano_frontend/lib/api.ts:111 | escaped bytes decode back to exactly those bytes, ahead of whatever text follows |
| ApiClient.EncodeUriComponentDecodes | frontend/cardano_frontend/lib/api.ts:111 | decoding the encoding of any text (as `decodeURIComponent` reads escapes and ASCII characters) gives exactly that text's UTF-8 bytes, so the address reaches the server unchanged |
| ApiClient.Cleared | frontend/cardano_frontend/lib/api.ts:254-260 | after `clearTokens` the token is null and not truthy, both stored tokens are gone, and every other stored item is kept |
| ApiClient.LoginStep | frontend/cardano_frontend/lib/api.ts:114-148 | a key that does not normalise throws before anything is sent; a failure changes nothing; success needs a non-null 2xx answer and then sets the access token and stores the answer's `referesh_token` under "refresh_token" |
| ApiClient.MisnamedRefreshTokenStoredAsUndefined | frontend/cardano_frontend/lib/api.ts:144 | the server's answer names the token `refresh_token`, so the client stores the text "undefined", which is truthy, and a later refresh posts it instead of failing with "No refresh token available" |
| ApiClient.LogoutStep | frontend/cardano_frontend/lib/api.ts:150-156 | the tokens are cleared whether or not the request succeeds, and the request's failure is passed on |
| ApiClient.RefreshStep | frontend/cardano_frontend/lib/api.ts:158-177 | without a truthy stored refresh token it throws "No refresh token available" before any request; a failure changes nothing; success keeps the new access token in the field and in storage |
| ApiClient.AddWalletStep | frontend/cardano_frontend/lib/api.ts:183-202 | the key and then the signature are normalised, and the first failure throws before anything is sent; otherwise the answer is the request's |
| ApiClient.LogoutForgetsTokens | frontend/cardano_frontend/lib/api.ts:150-177 | after a logout, whatever the server answered, the client is not authenticated, sends no Authorization header and cannot refresh (with lines 254-264 of the same file) |
| ApiClient.LoginAuthenticates | frontend/cardano_frontend/lib/api.ts:131-148 | after a successful login the client is authenticated exactly when the answer carried a truthy `access_token`, and later requests carry it (with lines 85-88 of the same file) |
| ApiClient.APIClient.constructor | frontend/cardano_frontend/lib/api.ts:55-62 | the client loads the stored access token, or null |
| ApiClient.APIClient.Request | frontend/cardano_frontend/lib/api.ts:64-104 | the request goes to base URL plus endpoint with `RequestHeaders`, and its outcome is `Answer` |
| ApiClient.APIClient.GetChallenge | frontend/cardano_frontend/lib/api.ts:110-112 | the challenge request carries the address through `encodeURIComponent` |
| ApiClient.APIClient.GetCurrentUser | frontend/cardano_frontend/lib/api.ts:179-181 | the outcome of asking the server who is logged in |
| ApiClient.APIClient.SetAccessToken | frontend/cardano_frontend/lib/api.ts:243-248 | the field and the stored "access_token" both take the token, which is stored as its string form |
| ApiClient.APIClient.GetAccessToken | frontend/cardano_frontend/lib/api.ts:250-252 | returns the field |
| ApiClient.APIClient.ClearTokens | frontend/cardano_frontend/lib/api.ts:254-260 | the client's state becomes `Cleared` |
| ApiClient.APIClient.IsAuthenticated | frontend/cardano_frontend/lib/api.ts:262-264 | true exactly when the token is truthy, which is exactly when requests carry an Authorization header |
| ApiClient.APIClient.Login | frontend/cardano_frontend/lib/api.ts:114-148 | the outcome and the new state are `LoginStep` |
| ApiClient.APIClient.Logout | frontend/cardano_frontend/lib/api.ts:150-156 | the outcome and the new state are `LogoutStep` |
| ApiClient.APIClient.RefreshToken | frontend/cardano_frontend/lib/api.ts:158-177 | the outcome and the new state are `RefreshStep` |
| ApiClient.APIClient.AddWallet | frontend/cardano_frontend/lib/api.ts:183-202 | the outcome is `AddWalletStep`, and no state changes |
| Browser.LocalStorage.GetItem | frontend/cardano_frontend/lib/api.ts:60 | the stored string exactly when the key is stored, and null otherwise |
| Browser.LocalStorage.SetItem | frontend/cardano_frontend/lib/api.ts:246 | the key now holds the value and nothing else changes |
| Browser.LocalStorage.RemoveItem | frontend/cardano_frontend/lib/api.ts:257-258 | the key is gone and nothing else changes |
| CardanoLib.KnownWalletValues | frontend/cardano_frontend/lib/cardano.ts:15-45 | `Object.values(KNOWN_WALLETS)` lists the four wallet records in declaration order |
| CardanoLib.KnownWalletsShape | frontend/cardano_frontend/lib/cardano.ts:15-45 | four wallets, none marked installed, with distinct keys and distinct ids; only Typhon's id ("typhoncip30") differs from its key |
| CardanoLib.EnableWallet | frontend/cardano_frontend/lib/cardano.ts:47-63 | without `window.cardano` it throws "Cardano wallets not available", for an unknown id "Wallet <id> not found", and when the wallet refuses "Failed to enable wallet <id>"; it succeeds exactly when the wallet's `enable` resolves, with that API |
| CardanoLib.IsWalletEnabled | frontend/cardano_frontend/lib/cardano.ts:67-83 | never throws; true exactly when the wallet is installed and its `isEnabled` resolves to true |
| CardanoLib.GetWalletAddress | frontend/cardano_frontend/lib/cardano.ts:86-122 | a change address that starts with "addr" or "stake" wins, then such a first reward address, with their failures swallowed; otherwise a rejected used-address query is the error even when unused addresses exist, a non-empty used list gives the bech32 form of its first address, and only an empty used list leads to the unused query, whose rejection is the error and whose first address is the answer; with both lists empty the error is "No addresses found in wallet" |
| CardanoLib.HexAddressFallsThrough | frontend/cardano_frontend/lib/cardano.ts:86-114 | a wallet whose change and reward addresses are hexadecimal, as CIP-30 returns them, always ends up with the bech32 form of its first used address |
| CardanoLib.MessagePayload | frontend/cardano_frontend/lib/cardano.ts:164 | the payload is two hex digits per UTF-8 byte of the message |
| CardanoLib.PayloadDecodes | frontend/cardano_frontend/lib/cardano.ts:164 | the payload decodes back to the message's UTF-8 bytes |
| CardanoLib.SignMessage | frontend/cardano_frontend/lib/cardano.ts:159-172 | succeeds exactly when the wallet signs the payload for the address, returning what it signed; a refusal becomes "Failed to sign message: " followed by its message or its string form |
| CardanoLib.PlainRefusalText | frontend/cardano_frontend/lib/cardano.ts:170 | a wallet that refuses with a plain CIP-30 `{code, info}` object yields the text "[object Object]" |
| CardanoLib.IsCorrectNetwork | frontend/cardano_frontend/lib/cardano.ts:175-187 | fails exactly when the network query fails, with its reason; otherwise true exactly when the network id is 1 for mainnet, or 0 for anything else |
| WalletContext.Detected | frontend/cardano_frontend/context/WalletContext.tsx:66-79 | one entry per known wallet, in order; without `window.cardano` the records as declared, otherwise each record with `isInstalled` true exactly when `window.cardano` has its id |
| WalletContext.FindWallet | frontend/cardano_frontend/context/WalletContext.tsx:101 | the wallet found is the first in the list with the id, every earlier one having another id; nothing is found only when no wallet has the id |
| WalletContext.FirstWithId | frontend/cardano_frontend/context/WalletContext.tsx:101 | among wallets with distinct ids, the one found for an id is the one with that id |
| WalletContext.Connect | frontend/cardano_frontend/context/WalletContext.tsx:81-115 | an `enableWallet` failure is passed on, and so are a rejected network query and a `getWalletAddress` failure; a wallet that is not on network 0 is refused with "Please switch to PreProd testnet"; a wallet that enables, is on network 0 and yields an address connects, and a connected wallet has the id asked for, the enabled API, network 0 and the address `getWalletAddress` gives, with the detected name (or the id) and the detected icon (or "") |
| WalletContext.ConnectedOnTestnet | frontend/cardano_frontend/context/WalletContext.tsx:89-99 | a connected wallet is installed, enabled and on the testnet |
| WalletContext.DetectedWalletConnects | frontend/cardano_frontend/context/WalletContext.tsx:66-115 | a wallet that detection found installed, that enables, is on the testnet and has a used address connects under its own name with the bech32 form of that address |
| WalletContext.CaughtMessage | frontend/cardano_frontend/context/WalletContext.tsx:116-118 | `err.message || fallback` gives the error's message, or the fallback when it is empty, and itself throws a TypeError exactly when `null` was thrown |
| WalletContext.WalletProvider.constructor | frontend/cardano_frontend/context/WalletContext.tsx:42-45 | no wallets, none connected, not connecting, no error |
| WalletContext.WalletProvider.RefreshWallets | frontend/cardano_frontend/context/WalletContext.tsx:66-79 | the available wallets become `Detected` and nothing else changes |
| WalletContext.WalletProvider.ConnectWallet | frontend/cardano_frontend/context/WalletContext.tsx:81-123 | on success the wallet is connected, the error cleared and its id remembered; on failure the connected wallet and the remembered id are as they were, the error is set to `CaughtMessage` and the failure is passed on; the connecting flag is down afterwards either way |
| WalletContext.WalletProvider.DisconnectWallet | frontend/cardano_frontend/context/WalletContext.tsx:125-129 | no wallet is connected and the remembered id is gone; nothing else changes |
| WalletContext.WalletProvider.SignMessageWithWallet | frontend/cardano_frontend/context/WalletContext.tsx:131-147 | without a connected wallet it throws "No wallet connected"; otherwise the connected wallet signs for its own address |
| WalletContext.WalletProvider.AutoReconnect | frontend/cardano_frontend/context/WalletContext.tsx:55-64 | only with a remembered id and no connected wallet is anything done: it connects, and a failure forgets the remembered id |
| AuthContext.LoginFlow | frontend/cardano_frontend/context/AuthContext.tsx:73-92 | the challenge for the wallet's address is fetched first; a failure leaves the client's tokens as they were; a successful login has read a string `message` from a non-null challenge answer and then signed and logged in with exactly that message |
| AuthContext.SignAndLogin | frontend/cardano_frontend/context/AuthContext.tsx:80-92 | the wallet is asked to sign exactly the challenge message for its own address; on success the key normalises, the login request carries the same address and message, the wallet's signature and its normalised key, and the user is the answer's `user` |
| AuthContext.RestoreFlow | frontend/cardano_frontend/context/AuthContext.tsx:40-63 | without a token nothing is sent or changed; with one, the first request asks who is logged in, at most three requests go out and only the second can be a refresh; a non-null answer is the user at once; when the refresh fails too, the tokens are cleared |
| AuthContext.AuthProvider.constructor | frontend/cardano_frontend/context/AuthContext.tsx:27-29 | no user, loading, no error |
| AuthContext.AuthProvider.IsAuthenticated | frontend/cardano_frontend/context/AuthContext.tsx:33 | true exactly when a user is set and the client holds a truthy token, in which case requests carry it |
| AuthContext.AuthProvider.RestoreSession | frontend/cardano_frontend/context/AuthContext.tsx:40-63 | the user and the client's state become what `RestoreFlow` says, and loading ends |
| AuthContext.AuthProvider.Login | frontend/cardano_frontend/context/AuthContext.tsx:65-104 | without a connected wallet it throws "Please connect your wallet first" and changes nothing; otherwise the client's state follows `LoginFlow`, success sets the user and clears the error, failure sets the error and passes the failure on, and loading ends |
| AuthContext.AuthProvider.LoginSteps | frontend/cardano_frontend/context/AuthContext.tsx:73-100 | the try block and its catch: the user on success, the error text on failure, as `LoginFlow` decides |
| AuthContext.AuthProvider.Authenticate | frontend/cardano_frontend/context/AuthContext.tsx:76-90 | challenge, signature and login in that order compute `LoginFlow` |
| AuthContext.AuthProvider.Logout | frontend/cardano_frontend/context/AuthContext.tsx:106-115 | the user is gone and the tokens are cleared whatever the server answered, so `isAuthenticated` is false afterwards |
| AuthContext.AuthProvider.RefreshUser | frontend/cardano_frontend/context/AuthContext.tsx:117-125 | the user becomes the server's answer, or null when the request fails |
| AuthContext.LoginSignsTheChallenge | frontend/cardano_frontend/context/AuthContext.tsx:76-90 | a successful login signed a payload that decodes to the UTF-8 bytes of the challenge's own message, and posted that message with the wallet's address |
| AuthContext.SignAndLoginSigns | frontend/cardano_frontend/context/AuthContext.tsx:80-90 | once the message is known, a successful sign-and-login signs that message's UTF-8 bytes and posts the message together with the wallet's address |
| LiveFeed.FindIndex | frontend/cardano_frontend/components/BlockList.tsx:23 | `findIndex` gives -1 exactly when no item has the key, and otherwise the first index whose item has it |
| LiveFeed.UniqueIsFirstSeen | frontend/cardano_frontend/components/BlockList.tsx:21-24 | the `index === findIndex` filter keeps exactly what a single pass that drops already-seen hashes keeps |
| LiveFeed.UniqueFromIsFirstSeen | frontend/cardano_frontend/components/BlockList.tsx:21-24 | the same from any index on, with the hashes before it seen |
| LiveFeed.FirstSeenKeys | frontend/cardano_frontend/components/BlockList.tsx:21-24 | the filter keeps each hash of the list exactly once and nothing else |
| LiveFeed.FirstSeenAppend | frontend/cardano_frontend/components/BlockList.tsx:19-24 | filtering a concatenation filters the first part, then the second with the first part's hashes seen |
| LiveFeed.FirstSeenKeepsFirst | frontend/cardano_frontend/components/BlockList.tsx:21-24 | an item the filter keeps is the first item of the list with its hash |
| LiveFeed.Merge | frontend/cardano_frontend/components/BlockList.tsx:18-26 | the merged list has at most `cap` items, no hash twice, and only hashes from the message or the earlier list |
| LiveFeed.MergeSplits | frontend/cardano_frontend/components/BlockList.tsx:19-24 | the merged list is the message's items without repeats, then the earlier items whose hash the message does not have |
| LiveFeed.IncomingLeads | frontend/cardano_frontend/components/BlockList.tsx:19-25 | the message's items, without repeats and in their order, lead the merged list |
| LiveFeed.IncomingCopyWins | frontend/cardano_frontend/components/BlockList.tsx:19-24 | for a hash the message carries, the list holds the message's first copy, not an earlier one |
| LiveFeed.MergeIdempotent | frontend/cardano_frontend/components/BlockList.tsx:18-26 | merging the same message twice gives what merging it once gives |
| LiveFeed.BlockListUpdate | frontend/cardano_frontend/components/BlockList.tsx:16-28 | only an update with a `blocks` array changes the list, by the merge with cap 20, and the list keeps at most 20 items with distinct hashes |
| LiveFeed.TransactionListUpdate | frontend/cardano_frontend/components/TransactionList.tsx:30-41 | only an update with a `transactions` array changes the list, by the merge with cap 50, and the list keeps at most 50 items with distinct hashes |
| LiveFeed.ListUpdatesIdempotent | frontend/cardano_frontend/components/BlockList.tsx:16-28 | the same message delivered twice changes nothing the second time, in both lists |
| LiveFeed.RenderedBlocks | frontend/cardano_frontend/components/BlockList.tsx:54-56 | the first ten blocks are shown in order, and only the first is flagged latest |
| LiveFeed.RenderedTransactions | frontend/cardano_frontend/components/TransactionList.tsx:62-64 | the first ten transactions are shown, in order |
| SessionStats.StringToNumber | frontend/cardano_frontend/components/Stats.tsx:21 | `Number` of blank text is 0, and a finite result came from an optional sign followed by decimal digits only |
| SessionStats.ToNumber | frontend/cardano_frontend/components/Stats.tsx:21-22 | `undefined` is not finite, `null` is 0, a number is itself and a string is read as decimal text |
| SessionStats.DecimalTextIsItsNumber | frontend/cardano_frontend/components/Stats.tsx:21-22 | a block number sent as its decimal text reads as that number |
| SessionStats.WordIsNotFinite | frontend/cardano_frontend/components/Stats.tsx:21-22 | a word that is not a number fails `Number.isFinite` and so leaves the latest block as it was |
| SessionStats.StatsStep | frontend/cardano_frontend/components/Stats.tsx:18-31 | a message that is not an update changes nothing; the block count grows by the length of a `blocks` array, the transaction count by the length of a `transactions` array, and the latest block becomes the first block's `number` when that is finite |
| SessionStats.RunCounts | frontend/cardano_frontend/components/Stats.tsx:18-31 | after any sequence of messages the counters are the initial ones plus every block and transaction of every message, repeats included |
| SessionStats.RunLatest | frontend/cardano_frontend/components/Stats.tsx:19-24 | the latest block is the number carried by the most recent message that carried a finite one |
| SessionStats.CountersNeverDecrease | frontend/cardano_frontend/components/Stats.tsx:25-29 | the counters after a prefix of the messages are never above the counters after all of them |
| SessionStats.LatestIsNotTheMaximum | frontend/cardano_frontend/components/Stats.tsx:21-24 | block 10 followed by block 5 shows 5: the latest block is the last one sent, not the highest |
| SessionStats.StatsPanel.constructor | frontend/cardano_frontend/components/Stats.tsx:12-14 | no latest block, both counters 0 |
| SessionStats.StatsPanel.OnMessage | frontend/cardano_frontend/components/Stats.tsx:18-31 | the cells follow `StatsStep` |
| Sockets.CloseCalled | frontend/cardano_frontend/hooks/websocket.ts:58-60 | `close()` turns a connecting or open socket into a closing one and leaves every other socket as it was; whether a close event is still due does not change |
| WebsocketContext.Coalesce | frontend/cardano_frontend/context/WebSocketContext.tsx:46 | `a ?? b` is `a` unless it is `undefined` or `null`, and `b` otherwise |
| WebsocketContext.ContextCounters | frontend/cardano_frontend/context/WebSocketContext.tsx:44-53 | only an update counts; a non-empty `blocks` array adds its length and moves the latest block to the first block's `number ?? block_no ?? block_number` when finite; a `transactions` array adds its length |
| WebsocketContext.CountersAgreeWithPanel | frontend/cardano_frontend/context/WebSocketContext.tsx:44-53 | the provider's counters grow exactly as the statistics panel's do, and its latest block agrees with the panel's whenever the first block has a `number` |
| WebsocketContext.MountStep | frontend/cardano_frontend/context/WebSocketContext.tsx:27-33 | with a socket referenced nothing happens; otherwise a new socket with handlers becomes the referenced one and the one the cleanup will close |
| WebsocketContext.OpenStep | frontend/cardano_frontend/context/WebSocketContext.tsx:33 | the flag rises exactly when a connecting socket with handlers opens |
| WebsocketContext.MessageStep | frontend/cardano_frontend/context/WebSocketContext.tsx:34-54 | frames on a socket without handlers or not open change nothing; a frame that does not parse becomes the last message as raw text and leaves the counters; a parsed frame becomes the last message and the counters become `ContextCounters` of it, so both counts grow by the blocks and transactions it carries; nothing else changes |
| WebsocketContext.CloseStep | frontend/cardano_frontend/context/WebSocketContext.tsx:56-66 | a close marks exactly that socket closed; on a socket with handlers it also lowers the flag, forgets the reference, whichever socket it names, and sets exactly one timer, leaving the last message, the counters and the sent frames as they were; any other close changes only the socket's state |
| WebsocketContext.TimerStep | frontend/cardano_frontend/context/WebSocketContext.tsx:60-65 | a firing timer is spent; with no socket referenced it creates exactly one new connecting socket and references it, and with one referenced the reference and the sockets stay; nothing else changes |
| WebsocketContext.UnmountStep | frontend/cardano_frontend/context/WebSocketContext.tsx:68-71 | the cleanup calls `close()` on the socket its own effect created, so a connecting or open one starts closing, forgets the reference, and leaves every other socket as it was |
| WebsocketContext.SendStep | frontend/cardano_frontend/context/WebSocketContext.tsx:74-81 | data is written exactly when the referenced socket is open, to that socket, a string as it is and anything else as its JSON text; otherwise it is dropped and nothing changes |
| WebsocketContext.EventsKeepValid | frontend/cardano_frontend/context/WebSocketContext.tsx:24-81 | every event keeps the references naming sockets that exist |
| WebsocketContext.OneSocketPerMount | frontend/cardano_frontend/context/WebSocketContext.tsx:28 | running the effect again while a socket is referenced opens no second socket |
| WebsocketContext.UnhandledSocketUnseen | frontend/cardano_frontend/context/WebSocketContext.tsx:33-66 | events of a socket without handlers change nothing the page sees and start no reconnect |
| WebsocketContext.ReconnectIsUnseen | frontend/cardano_frontend/context/WebSocketContext.tsx:56-66 | the socket a reconnect creates gets no handlers, so after the first close the provider stays disconnected and its counters stop, whatever the new socket receives |
| WebsocketContext.WebsocketProvider.constructor | frontend/cardano_frontend/context/WebSocketContext.tsx:18-24 | disconnected, no message, no latest block, counters 0, no socket referenced |
| WebsocketContext.WebsocketProvider.Mount | frontend/cardano_frontend/context/WebSocketContext.tsx:27-33 | the state follows `MountStep` |
| WebsocketContext.WebsocketProvider.OnOpen | frontend/cardano_frontend/context/WebSocketContext.tsx:33 | the state follows `OpenStep` |
| WebsocketContext.WebsocketProvider.OnMessage | frontend/cardano_frontend/context/WebSocketContext.tsx:34-54 | the state follows `MessageStep` |
| WebsocketContext.WebsocketProvider.OnClose | frontend/cardano_frontend/context/WebSocketContext.tsx:56-59 | the state follows `CloseStep` |
| WebsocketContext.WebsocketProvider.OnTimer | frontend/cardano_frontend/context/WebSocketContext.tsx:60-65 | the state follows `TimerStep` |
| WebsocketContext.WebsocketProvider.Unmount | frontend/cardano_frontend/context/WebSocketContext.tsx:68-71 | the state follows `UnmountStep` |
| WebsocketContext.WebsocketProvider.Send | frontend/cardano_frontend/context/WebSocketContext.tsx:74-81 | the state follows `SendStep` |
| WebsocketHook.ConnectStep | frontend/cardano_frontend/hooks/websocket.ts:16-19 | `connect()` appends one connecting socket and makes it the referenced one; nothing else changes |
| WebsocketHook.OpenStep | frontend/cardano_frontend/hooks/websocket.ts:20-23 | the flag rises exactly when a connecting socket opens; every socket the hook made has handlers |
| WebsocketHook.MessageStep | frontend/cardano_frontend/hooks/websocket.ts:24-32 | a frame on an open socket that parses becomes the last message; a frame that does not parse changes nothing |
| WebsocketHook.CloseStep | frontend/cardano_frontend/hooks/websocket.ts:37-45 | a close of a socket not yet closed marks exactly that socket closed, lowers the flag and sets a new timer, which becomes `reconnectInterval`; nothing else changes |
| WebsocketHook.TimerStep | frontend/cardano_frontend/hooks/websocket.ts:41-44 | a pending timer firing is spent and runs `connect()`; any other timer changes nothing |
| WebsocketHook.UnmountStep | frontend/cardano_frontend/hooks/websocket.ts:54-61 | only the timer named by `reconnectInterval` is cleared, every other pending timer stays pending, and only the referenced socket starts closing |
| WebsocketHook.EventsKeepValid | frontend/cardano_frontend/hooks/websocket.ts:13-61 | every event keeps the references naming sockets and timers that exist |
| WebsocketHook.EveryCloseReconnects | frontend/cardano_frontend/hooks/websocket.ts:37-45 | there is no retry limit: every close sets a timer whose firing opens a new socket |
| WebsocketHook.UnmountStillReconnects | frontend/cardano_frontend/hooks/websocket.ts:37-61 | unmounting does not stop the hook: the close it causes runs the still attached handler, whose timer opens another socket |
| WebsocketHook.EarlierTimerSurvivesUnmount | frontend/cardano_frontend/hooks/websocket.ts:41-57 | after two closes, unmounting clears only the later timer, and the earlier one still opens a socket |
| WebsocketHook.Connection.constructor | frontend/cardano_frontend/hooks/websocket.ts:11-14 | disconnected, no message, no socket and no timer |
| WebsocketHook.Connection.Connect | frontend/cardano_frontend/hooks/websocket.ts:16-19 | the state follows `ConnectStep` |
| WebsocketHook.Connection.OnOpen | frontend/cardano_frontend/hooks/websocket.ts:20-23 | the state follows `OpenStep` |
| WebsocketHook.Connection.OnMessage | frontend/cardano_frontend/hooks/websocket.ts:24-32 | the state follows `MessageStep` |
| WebsocketHook.Connection.OnClose | frontend/cardano_frontend/hooks/websocket.ts:37-45 | the state follows `CloseStep` |
| WebsocketHook.Connection.OnTimer | frontend/cardano_frontend/hooks/websocket.ts:41-44 | the state follows `TimerStep` |
| WebsocketHook.Connection.Unmount | frontend/cardano_frontend/hooks/websocket.ts:54-61 | the state follows `UnmountStep` |

## Left out

- Logging (`log::info!`, `console.log`, `console.error`, `console.warn`) is not modelled, except where formatting a log line can panic (see Findings).
- Concurrency is not modelled: the `RwLock`s and `Mutex`es around the session store and the chain state, and the interleaving of asynchronous handlers. Every operation runs on its own.
- `start_oura` in src/oura_stream.rs (it spawns the `oura` subprocess and reads its lines) is not modelled; the model starts at `process_event` on one decoded JSON event.
- src/websocket.rs, src/main.rs and the server's broadcasting of updates are not part of this model. The frontend side takes the messages as given.
- The sign-in layer is modelled as written, but src/main.rs declares no `auth` module. It registers only `/ws`, the three read routes and `/health`. So the running server has none of the auth routes, no session store, no authentication middleware and no `/api/user/*` endpoint. The lemmas about them (for example ReadApi.UserEndpointsSeeTokenClaims, "behind the middleware") describe the code as it would behave once mounted.
- `test_login` (src/auth/routes.rs:235-266) is not modelled. It is compiled only into debug builds.
- Ed25519, Blake2b-256, `PublicKey::try_from`, JWT signing and decoding, bech32, UUIDs and the clock are parameters or oracles. Each is assumed to behave as its contract in the model says.
- Jwt.AccessTokenRoundTrip, Jwt.RefreshTokenRoundTrip: these hold for any codec satisfying `SoundCodec`, which says an issued token's signature checks and its claims read back. The expiry check of `Validation` is written out in `Jwt.VerifyToken`. Its other checks (algorithm, `nbf`, audience) are not modelled, since the server issues no such claims.
- Verification.WrapI64: this is the release build's wrap-around. A debug build panics on the same overflow instead, which is not modelled.
- Sessions.Unexpired: `now - last_active_at` is exact here, not an `i64` subtraction. Both values are clock readings far from the `i64` bounds.
- `HashSet` iteration order (the wallet list of a session) is not modelled. The model keeps a set, and lists built from it are taken in any order.
- The tests in src/auth/jwt.rs and src/auth/verification.rs are not modelled. As written, `assert!(token.is_empty())` and `contains("TimestampL")` contradict what the functions produce.
- The frontend client's paths `/api/auth/logout`, `/api/auth/refresh`, `/api/auth/me` and `/api/auth/add-wallet` differ from the server's routes `/logout`, `/api/auth/referesh`, `/me` and `/add-wallet`. The same holds for `/api/transactions` against `/api/transaction`. The two sides are modelled separately, each with its own path, and no end-to-end request through both is claimed.
- The client stores its refresh token from the login answer's `referesh_token` field, as written (lib/api.ts:144). The server's answer names that field `refresh_token`, so the text "undefined" is what gets stored. ApiClient.MisnamedRefreshTokenStoredAsUndefined states this, and the model does not correct it.
- The API client's `getBlocks`, `getTransactions`, `getLatestBlock`, `getUserTransactions`, `getUserBalance` and `getUserWallets` are not modelled. Each only builds a path and calls `request`, which is modelled. `URLSearchParams` encoding is not modelled.
- `getWalletBalance` and `getNetworkId` in lib/cardano.ts are not modelled. They return the wallet's answer unchanged; `IsCorrectNetwork` takes the network id as its input.
- The server-side rendering branch (`typeof window === 'undefined'`) of lib/api.ts and lib/cardano.ts is not modelled. The model is the browser's view.
- Strings.AsciiLower: JavaScript's `toLowerCase` is modelled on ASCII letters only. Hexadecimal input never has other letters.
- JSON numbers are integers in the model; fractions, exponents and floating-point rounding (above 2^53) are not modelled.
- SessionStats.StringToNumber: fractional, hexadecimal, exponent and `Infinity` strings are read as not finite instead of as `Number` would read them. Block numbers are sent as integers.
- SessionStats.StatsStep, WebsocketContext.ContextCounters: a `blocks` or `transactions` member that is not an array counts as absent. The source would add the `length` of a string there.
- LiveFeed.BlockListUpdate, LiveFeed.TransactionListUpdate: a truthy `blocks` or `transactions` member that is not an array leaves the list unchanged here. The source spreads a string into its characters and throws a "not iterable" TypeError on a number or an object.
- LiveFeed.HashOf: a `null` item, or any item that is not an object, has no key here. The source reads `b.hash` of a `null` item and throws a TypeError, which ends the update.
- Cbor.ReadItem, Cbor.ReadCborItem: the recursion depth is unbounded here. The source decoder recurses once per nesting level, so a login signature made of deeply nested arrays could exhaust the stack and abort the server; this is not modelled and was not executed.
- AuthContext.LoginFlow, AuthContext.AuthProvider.Authenticate: a challenge `message` that is not a string always ends in the one TypeError `NOT_A_STRING` here. The source's `Buffer.from` signs the bytes of an array of numbers and goes on with the login, and it throws differently worded TypeErrors for numbers and other values (and the browser's `Buffer` polyfill words them differently again).
- WebsocketHook.ConnectStep, WebsocketContext.MountStep, WebsocketContext.TimerStep: the URL is assumed valid. `new WebSocket(url)` throws a SyntaxError on a malformed URL; hooks/websocket.ts catches it and is left with no socket and no reconnect, and context/WebSocketContext.tsx lets it escape. Neither is modelled.
- `JSON.parse` and `JSON.stringify` are parameters.
- Object identity in `===` is not modelled; values compare structurally.
- The wallet provider's two-second `setInterval` polling is modelled as repeated calls of `RefreshWallets`, not as a timer. `router.push` navigation is not modelled.
- React's scheduling (batched state updates, effects re-running on dependency changes, strict-mode double effects) is not modelled. Each handler runs to completion on the state left by the previous one.
- UTF-16 string lengths are not modelled; strings are sequences of characters.
- The presentation components (pages, cards, navigation bar, modals, `LiveIndicator`) and frontend/cardano_frontend/types are not part of this model. src/models.rs is not part of this model either; its structs appear here as datatypes with the fields the core reads.

## Findings

| source | as written | input that shows it | evidently intended | confidence | as-written member | corrected member |
|---|---|---|---|---|---|---|
| src/oura_stream.rs:227 | the log line slices `&block.hash[..16]`, which panics when the block hash is shorter than 16 bytes; the transaction is already stored, and the block entry is never made; the panic unwinds out of `block_on` and ends the `spawn_blocking` reader (lines 77-95), so no later Oura event is processed at all | an "apply" event whose `point` has a `slot` but no `hash` (the hash defaults to the empty string) | store the placeholder block entry whatever the hash's length, as the transaction line does with `16.min(len)` | not executed | OuraStream.ApplyAsWritten, OuraStream.MissingBlockHashPanics | OuraStream.Apply, OuraStream.BlockPresentAfterEvent |
