/** The fixed price list (`plans`) and the accepted payment methods
    (`paymentDetails`) of bot.js. */
module Catalog {

  /** One entry of the price list: its name, the licence days it buys, its
      cost in coins and its price in kyat. */
  datatype Plan = Plan(name: string, days: int, coins: int, price: int)

  const Plans: map<string, Plan> := map[
    "1Month" := Plan("1Month", 28, 2, 17000),
    "3Months" := Plan("3Months", 84, 6, 45000),
    "6Months" := Plan("6Months", 168, 13, 81000),
    "12Months" := Plan("12Months", 336, 26, 149000)
  ]

  /** Payee details per payment method; the text is shown to the customer only. */
  const PaymentDetails: map<string, string> := map[
    "WavePay" := "Name: Ko Ko Thar Htet\nPhNo.: 09753661355",
    "KBZPay" := "Name: Ko Ko Thar Htet\nPhNo.: 09427275188",
    "AYAPay" := "Name: Ko Ko Thar Htet\nPhNo.: 09427275188",
    "UABPay" := "Name: Ko Ko Thar Htet\nPhNo.: 09753661355"
  ]

  /** Every plan is filed under its own name, lasts some days, costs a
      positive number of coins and has a positive price; no key holds the
      `:` that separates button payload fields. */
  lemma PlansWellFormed()
    ensures |Plans| == 4
    ensures forall k :: k in Plans ==>
      && Plans[k].name == k
      && Plans[k].days > 0
      && Plans[k].coins > 0
      && Plans[k].price > 0
      && ':' !in k
  {
    assert Plans.Keys == {"1Month", "3Months", "6Months", "12Months"};
  }

  /** No payment method name holds a `:` either. */
  lemma PaymentMethodsHaveNoColon()
    ensures |PaymentDetails| == 4
    ensures forall m :: m in PaymentDetails ==> ':' !in m && PaymentDetails[m] != ""
  {
    assert PaymentDetails.Keys == {"WavePay", "KBZPay", "AYAPay", "UABPay"};
  }
}
