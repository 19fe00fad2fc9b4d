/**
 * `GET /webhook`: the provider's subscription handshake. The three query
 * parameters `hub.mode`, `hub.verify_token` and `hub.challenge` are compared
 * against the literal "subscribe" and a fixed verification token.
 */
module Handshake {
  import opened Js

  /** The verification secret, a literal in the handler. */
  const VERIFY_TOKEN: string := "my_verify_token"

  /** The only mode the handler accepts. */
  const SUBSCRIBE: string := "subscribe"

  /** What the handler does with the request. `Silent` means the handler returns
      without writing a response: the `if` around both replies has no `else`. */
  datatype Reply =
    | Verified(body: JsVal)   // 200, the challenge sent back as the body
    | Forbidden               // 403
    | Silent                  // no response at all

  /** The handshake decision over the parsed query string: each parameter may be
      missing (`Undefined`), a string, or an array or object built by the query parser. */
  function Verify(mode: JsVal, token: JsVal, challenge: JsVal): (r: Reply)
    // accepted exactly when both parameters are the expected strings, echoing the challenge
    ensures r.Verified? <==> mode == Str(SUBSCRIBE) && token == Str(VERIFY_TOKEN)
    ensures r.Verified? ==> r.body == challenge
    // rejected exactly when both are present and truthy but one comparison fails
    ensures r.Forbidden? <==>
      Truthy(mode) && Truthy(token) && !(mode == Str(SUBSCRIBE) && token == Str(VERIFY_TOKEN))
    // silent exactly when one of them is missing or falsy
    ensures r.Silent? <==> !Truthy(mode) || !Truthy(token)
  {
    if Truthy(mode) && Truthy(token) then
      if mode == Str(SUBSCRIBE) && token == Str(VERIFY_TOKEN) then Verified(challenge)
      else Forbidden
    else
      Silent
  }

  /** The HTTP status written for a reply; `NoStatus` when nothing is written. */
  datatype Status = NoStatus | StatusCode(code: int)

  function StatusOf(r: Reply): Status {
    match r
    case Verified(_) => StatusCode(200)
    case Forbidden => StatusCode(403)
    case Silent => NoStatus
  }

  /** The status the handshake route writes, in terms of the query parameters:
      200 only for the expected mode and token, 403 for any other truthy pair,
      and nothing when either is missing or falsy. */
  lemma StatusOfHandshake(mode: JsVal, token: JsVal, challenge: JsVal)
    ensures StatusOf(Verify(mode, token, challenge)) == StatusCode(200) <==>
      mode == Str(SUBSCRIBE) && token == Str(VERIFY_TOKEN)
    ensures StatusOf(Verify(mode, token, challenge)) == StatusCode(403) <==>
      Truthy(mode) && Truthy(token) && !(mode == Str(SUBSCRIBE) && token == Str(VERIFY_TOKEN))
    ensures StatusOf(Verify(mode, token, challenge)) == NoStatus <==> !Truthy(mode) || !Truthy(token)
  {
  }

  /** Whether the handshake is accepted, and which status it gets, never depends on the challenge. */
  lemma StatusIgnoresChallenge(mode: JsVal, token: JsVal, c1: JsVal, c2: JsVal)
    ensures StatusOf(Verify(mode, token, c1)) == StatusOf(Verify(mode, token, c2))
  {
  }

  /** A correct handshake echoes the challenge string byte for byte. */
  lemma AcceptedEchoesChallenge(challenge: string)
    ensures Verify(Str(SUBSCRIBE), Str(VERIFY_TOKEN), Str(challenge)) == Verified(Str(challenge))
  {
  }

  /** A wrong token is rejected with 403 whatever the challenge; a missing token gets no reply. */
  lemma WrongOrMissingToken(token: string, challenge: JsVal)
    requires token != VERIFY_TOKEN
    ensures token != "" ==> Verify(Str(SUBSCRIBE), Str(token), challenge) == Forbidden
    ensures token == "" ==> Verify(Str(SUBSCRIBE), Str(token), challenge) == Silent
    ensures Verify(Str(SUBSCRIBE), Undefined, challenge) == Silent
  {
  }
}
