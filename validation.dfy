/** The checks the dashboard makes on a trade quantity and a deposit amount before
    it sends any request. `Number(...)` of the input field is given as an optional
    number: `None` stands for NaN, an input that does not parse. */
module Validation {
  import opened Wrappers

  datatype TradeKind = Buy | Sell

  /** The body of a POST /trade request. */
  datatype TradeRequest = TradeRequest(kind: TradeKind, ticker: string, qty: nat)

  /** `Number.isInteger` on a finite number. */
  predicate IsInteger(x: real)
  {
    x.Floor as real == x
  }

  /** doTrade's guard: a ticker must be selected and the quantity must be an integer
      greater than 0; otherwise the message "Invalid quantity" is shown and no request
      is made. An accepted request carries the selected ticker and the quantity. */
  function CheckTrade(kind: TradeKind, selected: string, qty: Option<real>): (r: Result<TradeRequest, string>)
    ensures r.Success? <==> selected != "" && qty.Some? && IsInteger(qty.value) && qty.value > 0.0
    ensures r.Success? ==>
      r.value.kind == kind && r.value.ticker == selected && r.value.qty as real == qty.value
    ensures r.Failure? ==> r.error == "Invalid quantity"
  {
    if selected == "" || qty.None? || !IsInteger(qty.value) || qty.value <= 0.0 then
      Failure("Invalid quantity")
    else
      Success(TradeRequest(kind, selected, qty.value.Floor))
  }

  /** depositCash's guard `!amt || amt <= 0`: a deposit of 0, of a negative amount or of
      an input that does not parse is refused with "Enter valid amount"; any positive
      amount is sent as it is. */
  function CheckDeposit(amount: Option<real>): (r: Result<real, string>)
    ensures r.Success? <==> amount.Some? && amount.value > 0.0
    ensures r.Success? ==> r.value == amount.value
    ensures r.Failure? ==> r.error == "Enter valid amount"
  {
    if amount.None? || amount.value == 0.0 || amount.value <= 0.0 then Failure("Enter valid amount")
    else Success(amount.value)
  }
}
