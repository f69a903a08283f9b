/** The add/edit dialog: the form schema that gates a submission, the values the form
    starts from, the coercion of the price input, and the routing of a valid submission
    to the store's add or update action. */
module AddSubscriptionDialog {
  import opened Lists
  import opened Types
  import opened SubscriptionStore

  /** What the form holds: the schema's five fields, with the billing cycle as the string
      the select produced. */
  datatype FormValues = FormValues(
    platformName: string,
    planName: string,
    price: real,
    billingCycle: string,
    renewalDate: int)

  const MonthlyName := "monthly"
  const YearlyName := "yearly"

  /** The enum string a cycle is shown as: one of the two, and a different one per cycle. */
  function CycleName(b: BillingCycle): (c: string)
    ensures c == MonthlyName || c == YearlyName
    ensures c == MonthlyName <==> b == Monthly
  {
    match b
    case Monthly => MonthlyName
    case Yearly => YearlyName
  }

  /** The `z.enum(['monthly', 'yearly'])` field. */
  function ParseCycle(c: string): (r: Option<BillingCycle>)
    ensures r.Some? <==> c == MonthlyName || c == YearlyName
    ensures r.Some? ==> CycleName(r.value) == c
  {
    if c == MonthlyName then Some(Monthly)
    else if c == YearlyName then Some(Yearly)
    else None
  }

  /** The schema: both names non-empty, a price of at least zero, one of the two cycles. */
  predicate Accepts(f: FormValues)
  {
    && |f.platformName| >= 1
    && |f.planName| >= 1
    && f.price >= 0.0
    && (f.billingCycle == MonthlyName || f.billingCycle == YearlyName)
  }

  /** The form a draft is shown in. */
  function FormOf(d: Draft): FormValues
  {
    FormValues(d.platformName, d.planName, d.price, CycleName(d.billingCycle), d.renewalDate)
  }

  /** Parsing with the schema: a draft exactly when the values are accepted, and the draft
      shows as the very values it came from. */
  function Validate(f: FormValues): (r: Option<Draft>)
    ensures r.Some? <==> Accepts(f)
    ensures r.Some? ==> FormOf(r.value) == f
  {
    match ParseCycle(f.billingCycle)
    case None => None
    case Some(cycle) =>
      if |f.platformName| >= 1 && |f.planName| >= 1 && f.price >= 0.0
      then Some(Draft(f.platformName, f.planName, f.price, cycle, f.renewalDate))
      else None
  }

  /** A draft shown in the form parses back to itself exactly when the schema accepts its
      names and price. */
  lemma ValidateFormOf(d: Draft)
    ensures Validate(FormOf(d)).Some? <==> |d.platformName| >= 1 && |d.planName| >= 1 && d.price >= 0.0
    ensures Validate(FormOf(d)).Some? ==> Validate(FormOf(d)) == Some(d)
  {
  }

  /** A price of exactly zero passes whenever the other fields do, although the schema's
      message speaks of a positive number; any negative price fails. */
  lemma ZeroPriceAccepted(f: FormValues)
    ensures Accepts(f.(price := 0.0)) <==>
      |f.platformName| >= 1 && |f.planName| >= 1 && (f.billingCycle == MonthlyName || f.billingCycle == YearlyName)
    ensures forall p: real :: p < 0.0 ==> !Accepts(f.(price := p))
  {
  }

  /** The fresh form. Its date is taken once, when the module is loaded, so every fresh
      form carries the same `loadTime`. */
  function DefaultForm(loadTime: int): (f: FormValues)
    ensures !Accepts(f)
    ensures f.renewalDate == loadTime && Validate(f) == None
  {
    FormValues("", "", 0.0, MonthlyName, loadTime)
  }

  /** The fresh form cannot be submitted as it is, and filling in the two names is all it
      takes to make it acceptable. */
  lemma DefaultFormRejected(loadTime: int, platformName: string, planName: string)
    ensures !Accepts(DefaultForm(loadTime))
    ensures Accepts(DefaultForm(loadTime).(platformName := platformName, planName := planName))
      <==> |platformName| >= 1 && |planName| >= 1
  {
  }

  /** The values the form is reset to: the edited subscription's fields, or the fresh form.
      A fresh form cannot be submitted as it is; an edit form can exactly when the record's
      names and price pass the schema, and then it parses to the record's own fields. */
  function InitialForm(editing: Option<Subscription>, loadTime: int): (f: FormValues)
    ensures editing.None? ==> !Accepts(f) && f.renewalDate == loadTime
    ensures editing.Some? ==>
      (Accepts(f) <==> |editing.value.platformName| >= 1 && |editing.value.planName| >= 1 && editing.value.price >= 0.0)
    ensures editing.Some? && Accepts(f) ==> Validate(f) == Some(DraftOf(editing.value))
  {
    match editing
    case Some(s) =>
      ValidateFormOf(DraftOf(s));
      FormOf(DraftOf(s))
    case None => DefaultForm(loadTime)
  }

  /** `{ ...subscription, ...values }`: the form's five fields over the original's id and
      creation time. */
  function Merge(original: Subscription, values: Draft): (r: Subscription)
    ensures r.id == original.id && r.createdAt == original.createdAt
    ensures DraftOf(r) == values
  {
    original.(platformName := values.platformName, planName := values.planName, price := values.price,
              billingCycle := values.billingCycle, renewalDate := values.renewalDate)
  }

  /** A subscription is rebuilt from its own fields. */
  lemma MergeOwnFields(s: Subscription)
    ensures Merge(s, DraftOf(s)) == s
  {
  }

  /** Opening the editor on a stored subscription and saving it untouched leaves the list
      as it was. */
  lemma EditUnchangedIsNoOp(subs: seq<Subscription>, s: Subscription, loadTime: int)
    requires s in subs && IdsDistinct(subs)
    requires |s.platformName| >= 1 && |s.planName| >= 1 && s.price >= 0.0
    ensures Validate(InitialForm(Some(s), loadTime)) == Some(DraftOf(s))
    ensures Replaced(subs, Merge(s, DraftOf(s))) == subs
  {
    ValidateFormOf(DraftOf(s));
    MergeOwnFields(s);
    var r := Replaced(subs, s);
    forall i | 0 <= i < |subs| ensures r[i] == subs[i] {
      if subs[i].id == s.id {
        var k :| 0 <= k < |subs| && subs[k] == s;
        assert i == k;
      }
    }
  }

  /** What the number input reports: a number, or NaN for an empty or unparsable field. */
  datatype PriceInput = Number(value: real) | NotANumber

  /** `e.target.valueAsNumber || 0`: NaN (and zero) give zero, any other number itself.
      So a reported number comes through unchanged, and a negative price can only come
      from a negative number typed in. */
  function CoercePrice(input: PriceInput): (r: real)
    ensures input.NotANumber? ==> r == 0.0
    ensures input.Number? ==> r == input.value
    ensures r < 0.0 ==> input.Number? && input.value == r
  {
    match input
    case NotANumber => 0.0
    case Number(v) => if v == 0.0 then 0.0 else v
  }

  /** After the coercion the price check fails only for a negative number typed in; an
      empty or unparsable field counts as a price of zero and passes. */
  lemma CoercedPriceCheck(f: FormValues, input: PriceInput)
    ensures Accepts(f.(price := CoercePrice(input))) <==>
      Accepts(f.(price := 0.0)) && (input.NotANumber? || input.value >= 0.0)
  {
  }

  /** One mounted dialog: the store it writes to, the subscription prop it was last rendered
      with (if any), and its open flag and form. */
  class Dialog {
    const store: Store
    var subscription: Option<Subscription>
    const loadTime: int
    var isOpen: bool
    var form: FormValues

    constructor (store: Store, subscription: Option<Subscription>, loadTime: int)
      ensures this.store == store && this.subscription == subscription && this.loadTime == loadTime
      ensures !isOpen && form == InitialForm(subscription, loadTime)
    {
      this.store := store;
      this.subscription := subscription;
      this.loadTime := loadTime;
      isOpen := false;
      form := InitialForm(subscription, loadTime);
    }

    /** Opening resets the form to its initial values. The reset effect runs on a change of
        `isOpen`, so setting an open dialog open again leaves the form alone. */
    method Open()
      modifies this
      ensures isOpen && subscription == old(subscription)
      ensures !old(isOpen) ==> form == InitialForm(subscription, loadTime)
      ensures old(isOpen) ==> form == old(form)
    {
      if !isOpen {
        isOpen := true;
        form := InitialForm(subscription, loadTime);
      }
    }

    method Close()
      modifies this
      ensures !isOpen && form == old(form)
      ensures subscription == old(subscription)
    {
      isOpen := false;
    }

    /** A re-render with the record the parent now passes. The reset effect depends on the
        prop, so an open dialog whose prop changed resets its form to the new record. */
    method Rerender(current: Option<Subscription>)
      modifies this
      ensures subscription == current && isOpen == old(isOpen)
      ensures old(isOpen) && current != old(subscription) ==> form == InitialForm(current, loadTime)
      ensures !(old(isOpen) && current != old(subscription)) ==> form == old(form)
    {
      if isOpen && current != subscription {
        form := InitialForm(current, loadTime);
      }
      subscription := current;
    }

    /** The price input's change handler. */
    method SetPrice(input: PriceInput)
      modifies this
      ensures form == old(form).(price := CoercePrice(input))
      ensures isOpen == old(isOpen) && subscription == old(subscription)
    {
      form := form.(price := CoercePrice(input));
    }

    /** The other fields' change handlers, which store what they receive. */
    method SetFields(platformName: string, planName: string, billingCycle: string, renewalDate: int)
      modifies this
      ensures form == FormValues(platformName, planName, old(form).price, billingCycle, renewalDate)
      ensures isOpen == old(isOpen) && subscription == old(subscription)
    {
      form := FormValues(platformName, planName, form.price, billingCycle, renewalDate);
    }

    /** Routing a parsed submission: an edit replaces the entry with the original's id, an
        addition appends a fresh one; either way the dialog closes. */
    method OnSubmit(values: Draft, freshId: string, now: int)
      modifies this, store
      ensures subscription.Some? ==> store.subscriptions == Replaced(old(store.subscriptions), Merge(subscription.value, values))
      ensures subscription.None? ==> store.subscriptions == old(store.subscriptions) + [Created(values, freshId, now)]
      ensures IdsDistinct(old(store.subscriptions)) && (subscription.Some? || !HasId(old(store.subscriptions), freshId))
        ==> IdsDistinct(store.subscriptions)
      ensures store.currency == old(store.currency) && store.hasHydrated == old(store.hasHydrated)
      ensures !isOpen && form == old(form) && subscription == old(subscription)
    {
      if subscription.Some? {
        store.UpdateSubscription(Merge(subscription.value, values));
      } else {
        store.AddSubscription(values, freshId, now);
      }
      isOpen := false;
    }

    /** `form.handleSubmit(onSubmit)`: parse the form; on success route it, otherwise
        change nothing. */
    method HandleSubmit(freshId: string, now: int) returns (submitted: bool)
      modifies this, store
      ensures submitted <==> Accepts(old(form))
      ensures submitted && subscription.Some? ==>
        store.subscriptions == Replaced(old(store.subscriptions), Merge(subscription.value, Validate(old(form)).value))
      ensures submitted && subscription.None? ==>
        store.subscriptions == old(store.subscriptions) + [Created(Validate(old(form)).value, freshId, now)]
      ensures submitted ==> !isOpen
      ensures !submitted ==> store.subscriptions == old(store.subscriptions) && isOpen == old(isOpen)
      ensures store.currency == old(store.currency) && store.hasHydrated == old(store.hasHydrated)
      ensures form == old(form) && subscription == old(subscription)
    {
      match Validate(form)
      case Some(values) =>
        OnSubmit(values, freshId, now);
        submitted := true;
      case None =>
        submitted := false;
    }
  }
}
