/** internal/client/token.go: token amounts (Go `big.Int`, here `int`), the
    balances that pair them with a token description, and their JSON text. */
module Token {
  import opened Wrappers
  import opened Decimal
  import opened GoStrings

  /** `TokenInfo`: decimals and symbol of the chain's native token. */
  datatype TokenInfo = TokenInfo(tokenDecimals: nat, tokenSymbol: string)

  /** `TokenBalance`: a pointer to the token description and a pointer to the
      amount; either may be nil (`None`). A `*TokenAmount` whose inner integer
      is nil is folded into `None` as well. */
  datatype TokenBalance = TokenBalance(info: Option<TokenInfo>, balance: Option<int>)

  /** `TokenAmount.Cmp`: the sign of `b - y`. */
  function Cmp(b: int, y: int): (r: int)
    ensures -1 <= r <= 1
    ensures r == -1 <==> b < y
    ensures r == 0 <==> b == y
    ensures r == 1 <==> b > y
  {
    if b < y then -1 else if b == y then 0 else 1
  }

  /** Swapping the operands negates the comparison. */
  lemma CmpAntisymmetric(b: int, y: int)
    ensures Cmp(b, y) == -Cmp(y, b)
  {
  }

  /** `TokenAmount.AsBalance(info)`: a balance holding a copy of the amount and
      the given token description. */
  function AsBalance(b: int, info: Option<TokenInfo>): (tb: TokenBalance)
    ensures tb.balance == Some(b) && tb.info == info
  {
    TokenBalance(info, Some(b))
  }

  /** `TokenAmount.MarshalJSON`: the base-10 text of the integer, which reads
      back as the same integer; Go prints a nil `*big.Int` as `<nil>`. */
  function MarshalJSON(b: Option<int>): (text: string)
    ensures |text| >= 1
    ensures b.Some? ==> ParseInt(text) == b
    ensures b.None? ==> ParseInt(text).None?
  {
    match b
    case Some(x) => IntTextRoundTrip(x); IntText(x)
    case None => "<nil>"
  }

  /** What `UnmarshalJSON` does with its input: the literal `null` leaves the
      amount as it was; otherwise surrounding double quotes are trimmed and
      the rest must be a base-10 integer. */
  datatype Decoded = Untouched | Parsed(value: int) | Invalid(error: Error)

  const NULL_LITERAL: string := "null"
  const INVALID_PREFIX: string := "not a valid big integer: "

  function DecodeAmount(p: string): (d: Decoded)
    ensures d.Untouched? <==> p == NULL_LITERAL
    ensures d.Invalid? ==> d.error == INVALID_PREFIX + p
    ensures d.Parsed? <==> p != NULL_LITERAL && ParseInt(TrimQuotes(p)).Some?
  {
    if p == NULL_LITERAL then Untouched
    else match ParseInt(TrimQuotes(p))
      case Some(v) => Parsed(v)
      case None => Invalid(INVALID_PREFIX + p)
  }

  /** Trimming quotes off a quoted decimal text gives the text back. */
  lemma {:induction false} TrimQuotedText(t: string)
    requires t != [] && '"' !in t
    ensures TrimQuotes(['"'] + t + ['"']) == t
  {
    var u := t + ['"'];
    assert ['"'] + t + ['"'] == ['"'] + u;
    TrimLeftDropsQuote(u);
    assert u[0] == t[0] && t[0] in t;
    TrimLeftStops(u);
    TrimRightDropsQuote(t);
  }

  /** Decimal text is never the `null` literal. */
  lemma IntTextNotNull(x: int)
    ensures IntText(x) != NULL_LITERAL
  {
    var t := IntText(x);
    assert NULL_LITERAL[0] == 'n';
    if x < 0 { assert t[0] == '-'; } else { assert IsDigit(t[0]); }
  }

  /** `UnmarshalJSON(MarshalJSON(x))` restores x, whether the decoder hands
      the number over bare or as a JSON string. */
  lemma AmountRoundTrip(x: int)
    ensures DecodeAmount(MarshalJSON(Some(x))) == Parsed(x)
    ensures DecodeAmount(['"'] + MarshalJSON(Some(x)) + ['"']) == Parsed(x)
  {
    var t := MarshalJSON(Some(x));
    assert t == IntText(x);
    IntTextHasNoQuote(x);
    IntTextRoundTrip(x);
    IntTextNotNull(x);
    assert TrimQuotes(t) == t;
    var q := ['"'] + t + ['"'];
    TrimQuotedText(t);
    assert q != NULL_LITERAL by {
      assert q[0] == '"' && NULL_LITERAL[0] == 'n';
    }
  }

  /** A `TokenAmount` as a JSON decoding target: the only state is the
      pointer to its integer. */
  class TokenAmountCell {
    var amount: Option<int>

    constructor (amount: Option<int>)
      ensures this.amount == amount
    {
      this.amount := amount;
    }

    /** `UnmarshalJSON(p)`: stores the parsed integer; `null` is accepted and
        changes nothing; any other unparsable text is an error and changes
        nothing. */
    method UnmarshalJSON(p: string) returns (err: Option<Error>)
      modifies this
      ensures p == NULL_LITERAL ==> amount == old(amount) && err.None?
      ensures DecodeAmount(p).Parsed? ==> amount == Some(DecodeAmount(p).value) && err.None?
      ensures DecodeAmount(p).Invalid? ==>
        amount == old(amount) && err == Some(INVALID_PREFIX + p)
    {
      if p == NULL_LITERAL {
        return None;
      }
      var z := ParseInt(TrimQuotes(p));
      if z.None? {
        return Some(INVALID_PREFIX + p);
      }
      amount := z;
      err := None;
    }
  }

  /** Writing an amount to JSON and decoding the text into a fresh cell
      leaves the cell holding that amount. */
  method UnmarshalMarshalled(x: int) returns (cell: TokenAmountCell, err: Option<Error>)
    ensures cell.amount == Some(x) && err.None?
  {
    cell := new TokenAmountCell(None);
    AmountRoundTrip(x);
    err := cell.UnmarshalJSON(MarshalJSON(Some(x)));
  }
}
