/** The records of the tracker's data model: a subscription, the draft the store receives
    when one is created, and the reference-data rows for platforms and currencies. */
module Types {

  datatype BillingCycle = Monthly | Yearly

  /** A stored subscription. Dates are millisecond timestamps. */
  datatype Subscription = Subscription(
    id: string,
    platformName: string,
    planName: string,
    price: real,
    billingCycle: BillingCycle,
    renewalDate: int,
    createdAt: int)

  /** A subscription without `id` and `createdAt`: what `addSubscription` receives and what
      the add/edit form produces. */
  datatype Draft = Draft(
    platformName: string,
    planName: string,
    price: real,
    billingCycle: BillingCycle,
    renewalDate: int)

  datatype Platform = Platform(name: string, title: string, logo: string)

  datatype Currency = Currency(code: string, name: string, symbol: string)

  /** The five user-editable fields of a subscription. */
  function DraftOf(s: Subscription): Draft
  {
    Draft(s.platformName, s.planName, s.price, s.billingCycle, s.renewalDate)
  }
}
