/**
 * `TokenAuth` of `sdxlib/token_auth.py`: holds a bearer token received from an
 * HTTP header and builds the headers of downstream calls from it.
 */
module TokenAuth {
  import opened Outcomes
  import opened Py
  import SdxRequest

  const TokenRequiredMsg := "Bearer token is required"

  class TokenAuth {
    var token: Json

    /** Stores the token; `Create` performs the check that comes before it. */
    constructor (token: Json)
      ensures this.token == token
    {
      this.token := token;
    }

    /** `bearer_headers()`. */
    function BearerHeaders(): SdxRequest.Headers
      reads this
    {
      [("Content-Type", "application/json"),
       ("Authorization", "Bearer " + PyStr(token))]
    }
  }

  /** `TokenAuth(token)`: a falsy token (`None`, `""`) raises ValueError; any other is kept as given. */
  method Create(token: Json) returns (r: Result<TokenAuth>)
    ensures r.Failure? <==> !Truthy(token)
    ensures r.Failure? ==> r.error == ValueError(TokenRequiredMsg)
    ensures r.Success? ==> fresh(r.value) && r.value.token == token
  {
    if !Truthy(token) {
      return Failure(ValueError(TokenRequiredMsg));
    }
    var auth := new TokenAuth(token);
    return Success(auth);
  }

  /**
   * The headers carry exactly `Content-Type: application/json` and an
   * `Authorization` value from which the token reads back after `Bearer `; they are
   * the headers a request builds for a client holding the same token.
   */
  lemma BearerHeadersSpec(auth: TokenAuth, client: SdxRequest.Client)
    requires client.fabricToken == auth.token
    ensures var h := auth.BearerHeaders();
            |h| == 2 && h[0] == ("Content-Type", "application/json") && h[1].0 == "Authorization"
            && h[1].1[..7] == "Bearer " && h[1].1[7..] == PyStr(auth.token)
    ensures auth.BearerHeaders() == SdxRequest.GetHeaders(client)
  {
  }
}
