/**
 * The wizard's answers (`OnboardingFormData`) and how they survive a reload:
 * every change is written to the browser slot `onboarding-progress`, and the
 * page's initial state is read back from it.
 */
module Draft {
  import opened Wrappers

  /** The product types the wizard knows labels for. */
  datatype ProductType = Cigarettes | VapeDisposable | VapeRefillable | Pouches | Dip | Multiple

  /** The four choices step 1 offers. */
  predicate IsOffered(p: ProductType) {
    p == Cigarettes || p == VapeDisposable || p == Pouches || p == Dip
  }

  /**
   * One onboarding session's answers. `weeklyUsage` holds the daily usage and
   * `monthlySpending` the cost per unit (the names are historical);
   * `name` is "first last", kept for the signup request.
   */
  datatype FormData = FormData(
    productType: Option<ProductType>,
    weeklyUsage: string,
    monthlySpending: string,
    duration: string,
    firstName: string,
    lastName: string,
    name: string,
    email: string,
    phone: string,
    optInMessages: bool,
    password: string,
    confirmPassword: string,
    declinedInitialOffer: bool)

  const EmptyForm := FormData(None, "", "", "", "", "", "", "", "", false, "", "", false)

  /** The object `JSON.parse` gives back: each key may be missing (or `null`). */
  datatype StoredDraft = StoredDraft(
    productType: Option<ProductType>,
    weeklyUsage: Option<string>,
    monthlySpending: Option<string>,
    duration: Option<string>,
    firstName: Option<string>,
    lastName: Option<string>,
    name: Option<string>,
    email: Option<string>,
    phone: Option<string>,
    optInMessages: Option<bool>,
    password: Option<string>,
    confirmPassword: Option<string>,
    declinedInitialOffer: Option<bool>)

  /** The browser slot: nothing (or an empty string) stored, text that does not parse as a draft object, or a parsed object. */
  datatype Slot = Missing | Malformed | Stored(draft: StoredDraft)

  /** `value || ''`: a present, non-empty string is kept; anything falsy becomes `''`. */
  function OrEmpty(v: Option<string>): (r: string)
    ensures r == v.GetOr("")
  {
    if v.Some? && v.value != "" then v.value else ""
  }

  /** `value || false`. */
  function OrFalse(v: Option<bool>): (r: bool)
    ensures r == v.GetOr(false)
  {
    v.Some? && v.value
  }

  /** The initial state of the form: the stored answers, each falsy or missing one defaulted. Never fails. */
  function Rehydrate(slot: Slot): (d: FormData)
    ensures !slot.Stored? ==> d == EmptyForm
  {
    match slot
    case Missing => EmptyForm
    case Malformed => EmptyForm
    case Stored(p) =>
      FormData(
        p.productType,
        OrEmpty(p.weeklyUsage),
        OrEmpty(p.monthlySpending),
        OrEmpty(p.duration),
        OrEmpty(p.firstName),
        OrEmpty(p.lastName),
        OrEmpty(p.name),
        OrEmpty(p.email),
        OrEmpty(p.phone),
        OrFalse(p.optInMessages),
        OrEmpty(p.password),
        OrEmpty(p.confirmPassword),
        OrFalse(p.declinedInitialOffer))
  }

  /** What `JSON.stringify(formData)` writes: every key present (a `null` product type reads back as absent). */
  function Persist(d: FormData): (p: StoredDraft)
    ensures p.productType == d.productType && p.email == Some(d.email) && p.password == Some(d.password)
  {
    StoredDraft(
      d.productType,
      Some(d.weeklyUsage),
      Some(d.monthlySpending),
      Some(d.duration),
      Some(d.firstName),
      Some(d.lastName),
      Some(d.name),
      Some(d.email),
      Some(d.phone),
      Some(d.optInMessages),
      Some(d.password),
      Some(d.confirmPassword),
      Some(d.declinedInitialOffer))
  }

  /** Every field of a stored draft that is present is restored as stored; a missing one takes its default. */
  lemma RehydrateKeepsPresentFields(p: StoredDraft)
    ensures var d := Rehydrate(Stored(p));
      d.productType == p.productType
      && d.weeklyUsage == p.weeklyUsage.GetOr("")
      && d.monthlySpending == p.monthlySpending.GetOr("")
      && d.duration == p.duration.GetOr("")
      && d.firstName == p.firstName.GetOr("")
      && d.lastName == p.lastName.GetOr("")
      && d.name == p.name.GetOr("")
      && d.email == p.email.GetOr("")
      && d.phone == p.phone.GetOr("")
      && d.optInMessages == p.optInMessages.GetOr(false)
      && d.password == p.password.GetOr("")
      && d.confirmPassword == p.confirmPassword.GetOr("")
      && d.declinedInitialOffer == p.declinedInitialOffer.GetOr(false)
  {
  }

  /** Reloading the page restores exactly the answers that were saved. */
  lemma RehydratePersist(d: FormData)
    ensures Rehydrate(Stored(Persist(d))) == d
  {
  }
}
