/** The sign and colour decisions of the ledger's amount display.

    The currency text itself comes from a localisation library and is not
    modelled; what is modelled is which magnitude is handed to it, whether a
    minus sign is put in front, and which colour or style an amount gets.
 */
module Format {
  import Text
  import Ledger

  /** An amount as displayed: an optional leading minus and the magnitude
      that the currency formatter renders. */
  datatype AmountText = AmountText(minus: bool, magnitude: nat)

  /** The signed value a reader takes from a displayed amount. */
  function ReadBack(t: AmountText): int {
    if t.minus then -(t.magnitude as int) else t.magnitude
  }

  /** `formatAmount(amount, { showSign })`: the magnitude is always formatted,
      and a minus is prefixed only when signs are requested and the amount is
      negative. */
  function FormatAmount(amount: int, showSign: bool): (r: AmountText)
    ensures r.minus <==> showSign && amount < 0
    ensures showSign ==> ReadBack(r) == amount
    ensures !showSign ==> ReadBack(r) == Ledger.Abs(amount)
  {
    AmountText(showSign && amount < 0, Ledger.Abs(amount))
  }

  /** Without signs, an amount and its negation look the same. */
  lemma UnsignedHidesSign(amount: int)
    ensures FormatAmount(amount, false) == FormatAmount(-amount, false)
    ensures !FormatAmount(amount, false).minus
  {
  }

  /** -1234.50 is shown as 1,234.50 without signs and as -1,234.50 with. */
  lemma FormatExample()
    ensures FormatAmount(-123450, false) == AmountText(false, 123450)
    ensures FormatAmount(-123450, true) == AmountText(true, 123450)
  {
  }

  /** The two colours of the amount column. */
  datatype Color = Danger | Success

  function Hex(c: Color): string {
    match c
    case Danger => "#dc3545"
    case Success => "#28a745"
  }

  /** `getAmountColor`: the warning colour exactly for negative amounts. */
  function AmountColor(amount: int): (c: Color)
    ensures c == Danger <==> amount < 0
    ensures Hex(c) == "#dc3545" <==> amount < 0
    ensures Hex(c) == "#28a745" <==> amount >= 0
    ensures c == Danger <==> FormatAmount(amount, true).minus
  {
    if amount < 0 then Danger else Success
  }

  /** The style classes of the summary figures and the type badge. */
  datatype Style = ChargeStyle | PaymentStyle

  /** The current balance is styled as a charge exactly when its signed text
      carries a minus, that is, when it is negative. */
  function BalanceStyle(balance: int): (s: Style)
    ensures s == ChargeStyle <==> FormatAmount(balance, true).minus
    ensures s == ChargeStyle <==> AmountColor(balance) == Danger
  {
    if balance >= 0 then PaymentStyle else ChargeStyle
  }

  /** `getTransactionTypeBadge`: a type equal to "charge" ignoring case gets
      the charge badge, every other type, including one the totals ignore,
      gets the payment badge. */
  function BadgeStyle(kind: string): (s: Style)
    ensures s == ChargeStyle <==> Ledger.Classify(kind) == Ledger.Charge
    ensures Ledger.Classify(kind) == Ledger.Other ==> s == PaymentStyle
  {
    if Text.ToLower(kind) == "charge" then ChargeStyle else PaymentStyle
  }
}
