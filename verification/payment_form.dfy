/** The payment-request form (`paymentData`) and its field edits. */
module PaymentForm {

  /** Description and amount as typed; currency is the value the currency select
      reports ("SUI" or "USDC"); slug is the optional custom suffix. */
  datatype PaymentData = PaymentData(description: string, amount: string, currency: string, slug: string)

  /** The state the page starts in. */
  const Initial: PaymentData := PaymentData("", "", "SUI", "")

  /** The fields an input writes. */
  datatype Field = Description | Amount | Currency | Slug

  function Get(d: PaymentData, f: Field): string
  {
    match f
    case Description => d.description
    case Amount => d.amount
    case Currency => d.currency
    case Slug => d.slug
  }

  /** `setPaymentData({ ...paymentData, <field>: value })`: the one field takes the
      value and every other field reads as before. */
  function Set(d: PaymentData, f: Field, value: string): (r: PaymentData)
    ensures Get(r, f) == value
    ensures forall g :: g != f ==> Get(r, g) == Get(d, g)
  {
    match f
    case Description => d.(description := value)
    case Amount => d.(amount := value)
    case Currency => d.(currency := value)
    case Slug => d.(slug := value)
  }

  /** The payment clause of the generate button's `disabled` expression, negated:
      a description and an amount are both given. */
  predicate Ready(d: PaymentData)
  {
    d.description != "" && d.amount != ""
  }

  /** Editing the currency or the slug never changes whether the form is ready. */
  lemma ReadyIgnoresOptionalFields(d: PaymentData, f: Field, value: string)
    requires f == Currency || f == Slug
    ensures Ready(Set(d, f, value)) == Ready(d)
  {
  }
}
