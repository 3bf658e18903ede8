/** internal/client/balance.go: the free, reserved and frozen balances of an
    account and the transferable part. */
module Balance {
  import opened Wrappers
  import opened Token

  /** `AccountBalance`. */
  datatype AccountBalance = AccountBalance(free: TokenBalance, reserved: TokenBalance, frozen: TokenBalance)

  /** Go's zero `TokenBalance`: nil description and nil amount. */
  const ZERO_TOKEN_BALANCE: TokenBalance := TokenBalance(None, None)
  const ZERO_ACCOUNT_BALANCE: AccountBalance :=
    AccountBalance(ZERO_TOKEN_BALANCE, ZERO_TOKEN_BALANCE, ZERO_TOKEN_BALANCE)

  /** `GetTransferableBalance`: free minus frozen in a new integer, carrying
      the free balance's token description. The Go code dereferences both
      amounts, so both must be present. Nothing clamps the difference. */
  function GetTransferableBalance(ab: AccountBalance): (tb: TokenBalance)
    requires ab.free.balance.Some? && ab.frozen.balance.Some?
    ensures tb.info == ab.free.info && tb.balance.Some?
    ensures tb.balance.value + ab.frozen.balance.value == ab.free.balance.value
  {
    TokenBalance(ab.free.info, Some(ab.free.balance.value - ab.frozen.balance.value))
  }

  /** More frozen than free gives a negative transferable balance. */
  lemma TransferableCanBeNegative(info: Option<TokenInfo>)
    ensures GetTransferableBalance(AccountBalance(AsBalance(1, info), ZERO_TOKEN_BALANCE, AsBalance(2, info))).balance
         == Some(-1)
  {
  }

  /** `accountDataUnmarshal.Data`: the four u128 amounts of `System.Account`. */
  datatype AccountData = AccountData(free: nat, reserved: nat, miscFrozen: nat, freeFrozen: nat)

  /** `accountBalanceFromAccount`: the outcome of the `System.Account` read is
      given as `found` (Go's `ok`), `err` and the decoded `data`. An error or a
      missing entry gives the zero balance together with `err` (nil for a
      missing entry); otherwise free, reserved and misc-frozen are wrapped
      with the client's token description. */
  function AccountBalanceFromAccount(found: bool, err: Option<Error>, data: AccountData, info: TokenInfo)
    : (r: (AccountBalance, Option<Error>))
    ensures err.Some? || !found ==> r.0 == ZERO_ACCOUNT_BALANCE && r.1 == err
    ensures err.None? && found ==> r.1.None?
    ensures err.None? && found ==>
      r.0.free.balance == Some(data.free as int) && r.0.reserved.balance == Some(data.reserved as int) &&
      r.0.frozen.balance == Some(data.miscFrozen as int)
    ensures err.None? && found ==>
      r.0.free.info == Some(info) && r.0.reserved.info == Some(info) && r.0.frozen.info == Some(info)
  {
    if err.Some? || !found then (ZERO_ACCOUNT_BALANCE, err)
    else (AccountBalance(AsBalance(data.free, Some(info)), AsBalance(data.reserved, Some(info)),
                         AsBalance(data.miscFrozen, Some(info))), None)
  }

  /** The transferable balance of a decoded account ignores the free-frozen
      field: it is free minus misc-frozen. */
  lemma TransferableOfDecoded(data: AccountData, info: TokenInfo)
    ensures var ab := AccountBalanceFromAccount(true, None, data, info).0;
      GetTransferableBalance(ab).balance == Some(data.free - data.miscFrozen)
  {
  }
}
