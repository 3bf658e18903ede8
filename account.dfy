/** internal/client/account.go: the balance and identity of one account,
    fetched side by side and merged. */
module Account {
  import opened Wrappers
  import opened Async
  import opened Balance

  /** `AccountIdentity`: the on-chain display name, possibly empty. */
  datatype AccountIdentity = AccountIdentity(display: string)

  /** `AccountInfo`. */
  datatype AccountInfo = AccountInfo(address: string, balance: AccountBalance, identity: AccountIdentity)

  const ZERO_IDENTITY: AccountIdentity := AccountIdentity("")
  const ZERO_ACCOUNT_INFO: AccountInfo := AccountInfo("", ZERO_ACCOUNT_BALANCE, ZERO_IDENTITY)

  /** `FetchAccountInfo`: `hexErr` is the error of decoding the hex address
      (nil when it decodes); `balance` and `identity` are what the two
      concurrent fetches send back. A decoding error is returned before any
      fetch; a balance error is returned; an identity error is ignored and
      leaves the identity empty. The address field is never filled in. */
  function FetchAccountInfo(hexErr: Option<Error>, balance: Result<AccountBalance>, identity: Result<AccountIdentity>)
    : (r: (AccountInfo, Option<Error>))
    ensures hexErr.Some? ==> r == (ZERO_ACCOUNT_INFO, hexErr)
    ensures hexErr.None? && balance.IsErr() ==> r == (ZERO_ACCOUNT_INFO, balance.err)
    ensures r.1.None? <==> hexErr.None? && !balance.IsErr()
    ensures r.1.None? ==> r.0.address == "" && r.0.balance == balance.value
    ensures r.1.None? ==> r.0.identity == (if identity.IsErr() then ZERO_IDENTITY else identity.value)
  {
    if hexErr.Some? then (ZERO_ACCOUNT_INFO, hexErr)
    else if balance.IsErr() then (ZERO_ACCOUNT_INFO, balance.err)
    else (AccountInfo("", balance.value, if identity.IsErr() then ZERO_IDENTITY else identity.value), None)
  }

  /** An identity that cannot be fetched never fails the call. */
  lemma IdentityErrorIgnored(b: AccountBalance, e: Error)
    ensures FetchAccountInfo(None, SuccessResult(b), ErrorResult(e, ZERO_IDENTITY))
         == (AccountInfo("", b, ZERO_IDENTITY), None)
  {
  }
}
