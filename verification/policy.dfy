/**
  The two mirrored decision tables of the B2B price-visibility helper.

  Both tables read the same three switches (extension active, category
  gating on, customer-group gating on) and the same viewer facts; they
  differ only in the "is the category gated" fact they are given and in
  the polarity of the answer: `ProductActive` says whether a product's
  price and add-to-cart stay visible, `EnabledCategories` whether a set of
  categories hides prices.
 */
module Policy {

  /** The three configuration switches, as resolved for the current request. */
  datatype Switches = Switches(extensionActive: bool, byCategory: bool, byCustomerGroup: bool)

  /** What the customer helper reports about the current viewer. */
  datatype Viewer = Viewer(loggedIn: bool, groupActive: bool)

  /** Reference definition of gating, independent of the branch structure
      of either table: the extension is on, every enabled gating dimension
      gates the viewer, and when customer-group gating is off only an
      anonymous viewer is gated. */
  predicate Hides(sw: Switches, v: Viewer, categoryActive: bool)
  {
    && sw.extensionActive
    && (sw.byCategory ==> categoryActive)
    && (sw.byCustomerGroup ==> v.groupActive)
    && (!sw.byCustomerGroup ==> !v.loggedIn)
  }

  /** The decision of `isProductActive`: true means the product behaves as
      in a normal shop (price and add-to-cart shown). */
  function ProductActive(sw: Switches, v: Viewer, categoryEnabled: bool): (active: bool)
    ensures active <==> !Hides(sw, v, categoryEnabled)
  {
    if !sw.extensionActive then true
    else if sw.byCategory && sw.byCustomerGroup then !(categoryEnabled && v.groupActive)
    else if sw.byCustomerGroup then !v.groupActive
    else if sw.byCategory then (if v.loggedIn then true else !categoryEnabled)
    else v.loggedIn
  }

  /** The decision of `hasEnabledCategories`: true means at least one of the
      categories hides prices from the current viewer. */
  function EnabledCategories(sw: Switches, v: Viewer, hasActiveCategory: bool): (hidden: bool)
    ensures hidden <==> Hides(sw, v, hasActiveCategory)
  {
    if !sw.extensionActive then false
    else if sw.byCategory && sw.byCustomerGroup then hasActiveCategory && v.groupActive
    else if sw.byCustomerGroup then v.groupActive
    else if sw.byCategory then (if v.loggedIn then false else hasActiveCategory)
    else !v.loggedIn
  }

  /** With the extension switched off nothing is ever hidden. */
  lemma InactiveExtensionHidesNothing(sw: Switches, v: Viewer, categoryGated: bool)
    requires !sw.extensionActive
    ensures ProductActive(sw, v, categoryGated)
    ensures !EnabledCategories(sw, v, categoryGated)
  {
  }

  /** The four rows of the product table when the extension is on. */
  lemma ProductActiveTable(sw: Switches, v: Viewer, c: bool)
    requires sw.extensionActive
    ensures sw.byCategory && sw.byCustomerGroup ==> ProductActive(sw, v, c) == !(c && v.groupActive)
    ensures !sw.byCategory && sw.byCustomerGroup ==> ProductActive(sw, v, c) == !v.groupActive
    ensures sw.byCategory && !sw.byCustomerGroup ==> ProductActive(sw, v, c) == (v.loggedIn || !c)
    ensures !sw.byCategory && !sw.byCustomerGroup ==> ProductActive(sw, v, c) == v.loggedIn
  {
  }

  /** The four rows of the category table when the extension is on. */
  lemma EnabledCategoriesTable(sw: Switches, v: Viewer, c: bool)
    requires sw.extensionActive
    ensures sw.byCategory && sw.byCustomerGroup ==> EnabledCategories(sw, v, c) == (c && v.groupActive)
    ensures !sw.byCategory && sw.byCustomerGroup ==> EnabledCategories(sw, v, c) == v.groupActive
    ensures sw.byCategory && !sw.byCustomerGroup ==> EnabledCategories(sw, v, c) == (!v.loggedIn && c)
    ensures !sw.byCategory && !sw.byCustomerGroup ==> EnabledCategories(sw, v, c) == !v.loggedIn
  {
  }

  /** The tables are each other's negation whenever they are given the same
      gating fact, for every combination of switches. */
  lemma Duality(sw: Switches, v: Viewer, gated: bool)
    ensures EnabledCategories(sw, v, gated) == !ProductActive(sw, v, gated)
  {
  }

  /** With category gating as the only dimension, a logged-in viewer is
      never gated. */
  lemma LoggedInExemption(sw: Switches, v: Viewer, c: bool)
    requires sw.byCategory && !sw.byCustomerGroup && v.loggedIn
    ensures ProductActive(sw, v, c)
    ensures !EnabledCategories(sw, v, c)
  {
  }

  /** Customer-group gating alone ignores the login state entirely. */
  lemma GroupGatingIgnoresLogin(sw: Switches, loggedIn: bool, loggedIn': bool, group: bool, c: bool)
    requires sw.byCustomerGroup
    ensures ProductActive(sw, Viewer(loggedIn, group), c) == ProductActive(sw, Viewer(loggedIn', group), c)
    ensures EnabledCategories(sw, Viewer(loggedIn, group), c) == EnabledCategories(sw, Viewer(loggedIn', group), c)
  {
  }
}
