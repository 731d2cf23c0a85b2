/** The crowdfunding form (`crowdfundData`) and its field edits. */
module CrowdfundForm {

  /** Every field is the text its input holds; the deadline is a date input's value. */
  datatype CrowdfundData = CrowdfundData(
    title: string, description: string, goal: string,
    currency: string, deadline: string, slug: string)

  /** The state the page starts in. */
  const Initial: CrowdfundData := CrowdfundData("", "", "", "SUI", "", "")

  /** The fields an input writes. */
  datatype Field = Title | Description | Goal | Currency | Deadline | Slug

  function Get(d: CrowdfundData, f: Field): string
  {
    match f
    case Title => d.title
    case Description => d.description
    case Goal => d.goal
    case Currency => d.currency
    case Deadline => d.deadline
    case Slug => d.slug
  }

  /** `setCrowdfundData({ ...crowdfundData, <field>: value })`: the one field takes
      the value and every other field reads as before. */
  function Set(d: CrowdfundData, f: Field, value: string): (r: CrowdfundData)
    ensures Get(r, f) == value
    ensures forall g :: g != f ==> Get(r, g) == Get(d, g)
  {
    match f
    case Title => d.(title := value)
    case Description => d.(description := value)
    case Goal => d.(goal := value)
    case Currency => d.(currency := value)
    case Deadline => d.(deadline := value)
    case Slug => d.(slug := value)
  }

  /** The crowdfund clause of the generate button's `disabled` expression, negated:
      a title and a goal are both given. */
  predicate Ready(d: CrowdfundData)
  {
    d.title != "" && d.goal != ""
  }

  /** Only the title and the goal decide whether the form is ready. */
  lemma ReadyIgnoresOptionalFields(d: CrowdfundData, f: Field, value: string)
    requires f != Title && f != Goal
    ensures Ready(Set(d, f, value)) == Ready(d)
  {
  }
}
