/**
 * Facade: one entry point chooses a payment gateway by name and returns the
 * gateway's receipt, or a diagnostic for an unknown method.
 */
module Facade {
  import opened Wrappers
  import opened Text

  const PayPalPrefix := "Payment made using PayPal: $"
  const StripePrefix := "Payment made using Stripe: $"
  const InvalidPrefix := "Invalid payment method: "

  /** PayPalGateway.makePayment: the receipt reads back as PayPal taking exactly the amount. */
  function PayPalPayment(amount: int): (receipt: string)
    ensures ReadReceipt(receipt) == Some(Paid(PayPal, amount))
  {
    IntToStringRoundTrip(amount);
    var receipt := PayPalPrefix + IntToString(amount);
    assert receipt[|PayPalPrefix|..] == IntToString(amount);
    receipt
  }

  /** StripeGateway.makePayment: the receipt reads back as Stripe taking exactly the amount. */
  function StripePayment(amount: int): (receipt: string)
    ensures ReadReceipt(receipt) == Some(Paid(Stripe, amount))
  {
    IntToStringRoundTrip(amount);
    var receipt := StripePrefix + IntToString(amount);
    assert receipt[|StripePrefix|..] == IntToString(amount);
    assert receipt[19] == 'S' != PayPalPrefix[19];
    receipt
  }

  /**
   * PaymentGatewayFacade.processPayment: exact, case-sensitive match on the
   * method name. The message always says which gateway took the payment and
   * the exact amount, and otherwise names the refused method.
   */
  function ProcessPayment(paymentMethod: string, amount: int): (message: string)
    ensures ReadReceipt(message) ==
      if paymentMethod == "paypal" then Some(Paid(PayPal, amount))
      else if paymentMethod == "stripe" then Some(Paid(Stripe, amount))
      else Some(InvalidMethod(paymentMethod))
  {
    if paymentMethod == "paypal" then PayPalPayment(amount)
    else if paymentMethod == "stripe" then StripePayment(amount)
    else
      var message := InvalidPrefix + paymentMethod;
      assert message[..|InvalidPrefix|] == InvalidPrefix;
      assert message[0] == 'I';
      assert message[|InvalidPrefix|..] == paymentMethod;
      message
  }

  datatype Gateway = PayPal | Stripe

  /** What a returned message says happened. */
  datatype Receipt = Paid(gateway: Gateway, amount: int) | InvalidMethod(paymentMethod: string)

  predicate HasPrefix(s: string, prefix: string) {
    |prefix| <= |s| && s[..|prefix|] == prefix
  }

  /** Reads a message back: which gateway took how much, or which paymentMethod was refused. */
  function ReadReceipt(message: string): Option<Receipt> {
    if HasPrefix(message, PayPalPrefix) && ParseInt(message[|PayPalPrefix|..]).Some? then
      Some(Paid(PayPal, ParseInt(message[|PayPalPrefix|..]).value))
    else if HasPrefix(message, StripePrefix) && ParseInt(message[|StripePrefix|..]).Some? then
      Some(Paid(Stripe, ParseInt(message[|StripePrefix|..]).value))
    else if HasPrefix(message, InvalidPrefix) then
      Some(InvalidMethod(message[|InvalidPrefix|..]))
    else None
  }

  /** Different requests never produce the same message. */
  lemma ProcessPaymentInjective(paymentMethod1: string, amount1: int, paymentMethod2: string, amount2: int)
    requires paymentMethod1 in {"paypal", "stripe"} && paymentMethod2 in {"paypal", "stripe"}
    requires ProcessPayment(paymentMethod1, amount1) == ProcessPayment(paymentMethod2, amount2)
    ensures paymentMethod1 == paymentMethod2 && amount1 == amount2
  {
    assert ReadReceipt(ProcessPayment(paymentMethod1, amount1)) == ReadReceipt(ProcessPayment(paymentMethod2, amount2));
  }

  /** The example: 100 through PayPal and 150 through Stripe. */
  lemma PaymentScenario()
    ensures ProcessPayment("paypal", 100) == "Payment made using PayPal: $" + IntToString(100)
    ensures ProcessPayment("stripe", 150) == "Payment made using Stripe: $" + IntToString(150)
    ensures ProcessPayment("PayPal", 100) == "Invalid payment method: PayPal"
  {
  }
}
