/** The request and response records of the authentication endpoints
    (src/auth/mod.rs) and the bodies the handlers answer with. */
module AuthTypes {
  import Verification

  /** `AuthReq`: the login request. */
  datatype AuthReq = AuthReq(address: string, message: string, signature: string, publicKey: string)

  /** `UserInfo`: the primary address, the linked addresses in the order the
      session's set yields them, and the session's creation time. */
  datatype UserInfo = UserInfo(address: string, walletAddresses: seq<string>, createdAt: int)

  /** `AuthRes`: the login answer; its second field is serialised as
      `refresh_token`. */
  datatype AuthRes = AuthRes(
    accessToken: string,
    refreshToken: string,
    tokenType: string,
    expiresIn: int,
    user: UserInfo)

  /** The JSON bodies of the authentication endpoints and of the middleware. */
  datatype Body =
    | Error(error: string)                                   // {"error": …}
    | InvalidChallenge(reason: Verification.ChallengeError)  // {"error": "Invlaid challenfe :" + reason}
    | SignVerificationFailed(cause: Verification.VerifyError) // {"error": "Sign verificationfailed:" + reason}
    | Challenge(message: string, address: string)            // {"message", "address"}
    | Authenticated(auth: AuthRes)
    | Message(message: string)                               // {"message": …}
    | Refreshed(accessToken: string, tokenType: string, expiresIn: int)
    | User(info: UserInfo)
    | WalletAdded(message: string, address: string)          // {"message", "address"}
}
