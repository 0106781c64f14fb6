/** The two exceptions `token_required` raises. */
module AuthErrors {
  import opened PyValues

  /** `RequiredLogin(msg=None)` and `ExpiredToken(msg=None)`: each keeps the
      message exactly as given. */
  datatype AuthError = RequiredLogin(msg: Option<string>) | ExpiredToken(msg: Option<string>)

  /** The messages the guard raises with. */
  const LoginRequiredMessage: string := "Login necessário"
  const TokenExpiredMessage: string := "Token Expirado"

  /** `__str__`: the stored message when it is truthy; otherwise the method
      falls off its end and returns `None`, so `str()` of such an error (and
      printing it) raises `TypeError`. */
  function Str(e: AuthError): (s: Option<string>)
    ensures s.Some? <==> Truthy(e.msg)
    ensures s.Some? ==> s == e.msg
  {
    if Truthy(e.msg) then e.msg else None
  }

  /** Both errors the guard raises have text to show. */
  lemma GuardMessagesShown()
    ensures Str(RequiredLogin(Some(LoginRequiredMessage))) == Some(LoginRequiredMessage)
    ensures Str(ExpiredToken(Some(TokenExpiredMessage))) == Some(TokenExpiredMessage)
  {
  }
}
