/**
  The data helper of the B2B price-visibility extension, with its lazily
  filled memo fields.

  The helper object is modelled as an immutable `Helper` value that each
  operation returns updated beside its answer. The collaborators (the
  store configuration, the category helper and the customer helper) are
  one `Env` record of their answers, and every question put to them is
  appended to the helper's `consulted` log, so that "the collaborator is
  not asked again" is a statement about that log.
 */
module HelperData {
  import opened Policy
  import opened Blocks
  import LoginMessage

  datatype Option<T> = None | Some(value: T)

  /** The memoised value if there is one, otherwise what the collaborator
      would answer now. */
  function Cached<T>(memo: Option<T>, current: T): T
  {
    match memo
    case Some(v) => v
    case None => current
  }

  /** The answers the collaborators give during one call. */
  datatype Env = Env(
    extensionActive: bool,                      // store flag b2bprofessional/generalsettings/active
    loginMessage: string,                       // store config b2bprofessional/generalsettings/login_message
    priceBlocks: seq<string>,                   // store config b2bprofessional/generalsettings/priceblocks
    activatedByCategory: bool,                  // category helper: category gating switched on
    activatedByCustomerGroup: bool,             // customer helper: customer-group gating switched on
    customerLoggedIn: bool,                     // customer helper: session is logged in
    customerGroupActive: bool,                  // customer helper: the viewer's group is gated
    categoryActiveByProduct: ProductId -> bool, // category helper: the product's category is gated
    hasActiveCategory: seq<int> -> bool         // category helper: some category of the set is gated
  )

  /** A question put to a collaborator. */
  datatype Query =
    | ExtensionActiveFlag
    | LoginMessageConfig
    | PriceBlocksConfig
    | CategoryGatingSwitch
    | CustomerGroupGatingSwitch
    | CustomerLoggedIn
    | CategoryActiveByProduct(product: ProductId)
    | HasActiveCategory(categoryIds: seq<int>)
    | CustomerGroupActive

  /** The helper's memo fields (`None` is PHP's null) and the log of
      questions it has put to its collaborators. */
  datatype Helper = Helper(
    extensionActive: Option<bool>,
    loginMessage: Option<string>,
    activeByCategory: Option<bool>,
    activeByCustomerGroup: Option<bool>,
    priceBlockClassNames: Option<seq<string>>,
    consulted: seq<Query>
  )

  /** An answer together with the helper as it is afterwards. */
  datatype Answer<T> = Answer(value: T, next: Helper)

  /** A helper as it is constructed: nothing memoised, nothing asked. */
  const Fresh: Helper := Helper(None, None, None, None, None, [])

  /** A filled memo field keeps its value. */
  predicate Keeps<T(==)>(memo: Option<T>, memo': Option<T>)
  {
    memo.Some? ==> memo' == memo
  }

  /** The helper `h'` can follow `h`: every filled memo field is unchanged
      and the log only grows. */
  predicate Extends(h: Helper, h': Helper)
  {
    && Keeps(h.extensionActive, h'.extensionActive)
    && Keeps(h.loginMessage, h'.loginMessage)
    && Keeps(h.activeByCategory, h'.activeByCategory)
    && Keeps(h.activeByCustomerGroup, h'.activeByCustomerGroup)
    && Keeps(h.priceBlockClassNames, h'.priceBlockClassNames)
    && h.consulted <= h'.consulted
  }

  /** The switches a call on `h` sees: memoised ones win over the
      collaborators' current answers. */
  function CurrentSwitches(h: Helper, env: Env): Switches
  {
    Switches(
      Cached(h.extensionActive, env.extensionActive),
      Cached(h.activeByCategory, env.activatedByCategory),
      Cached(h.activeByCustomerGroup, env.activatedByCustomerGroup))
  }

  function CurrentViewer(env: Env): Viewer
  {
    Viewer(env.customerLoggedIn, env.customerGroupActive)
  }

  function Ask(h: Helper, q: Query): Helper
  {
    h.(consulted := h.consulted + [q])
  }

  /** The extension-active store flag, memoised in `bExtensionActive`. */
  function IsExtensionActive(h: Helper, env: Env): (r: Answer<bool>)
    ensures r.next.extensionActive == Some(r.value)
    ensures h.extensionActive.Some? ==> r == Answer(h.extensionActive.value, h)
    ensures h.extensionActive.None? ==>
      r.value == env.extensionActive && r.next.consulted == h.consulted + [ExtensionActiveFlag]
    ensures r.next == h.(extensionActive := r.next.extensionActive, consulted := r.next.consulted)
  {
    match h.extensionActive
    case Some(b) => Answer(b, h)
    case None => Answer(env.extensionActive, Ask(h, ExtensionActiveFlag).(extensionActive := Some(env.extensionActive)))
  }

  /** Whether category gating is switched on, memoised in
      `bExtensionActiveByCategory`. */
  function IsExtensionActiveByCategory(h: Helper, env: Env): (r: Answer<bool>)
    ensures r.next.activeByCategory == Some(r.value)
    ensures h.activeByCategory.Some? ==> r == Answer(h.activeByCategory.value, h)
    ensures h.activeByCategory.None? ==>
      r.value == env.activatedByCategory && r.next.consulted == h.consulted + [CategoryGatingSwitch]
    ensures r.next == h.(activeByCategory := r.next.activeByCategory, consulted := r.next.consulted)
  {
    match h.activeByCategory
    case Some(b) => Answer(b, h)
    case None => Answer(env.activatedByCategory, Ask(h, CategoryGatingSwitch).(activeByCategory := Some(env.activatedByCategory)))
  }

  /** Whether customer-group gating is switched on, memoised in
      `bExtensionActiveByCustomerGroup`. */
  function IsExtensionActivatedByCustomerGroup(h: Helper, env: Env): (r: Answer<bool>)
    ensures r.next.activeByCustomerGroup == Some(r.value)
    ensures h.activeByCustomerGroup.Some? ==> r == Answer(h.activeByCustomerGroup.value, h)
    ensures h.activeByCustomerGroup.None? ==>
      r.value == env.activatedByCustomerGroup && r.next.consulted == h.consulted + [CustomerGroupGatingSwitch]
    ensures r.next == h.(activeByCustomerGroup := r.next.activeByCustomerGroup, consulted := r.next.consulted)
  {
    match h.activeByCustomerGroup
    case Some(b) => Answer(b, h)
    case None => Answer(env.activatedByCustomerGroup, Ask(h, CustomerGroupGatingSwitch).(activeByCustomerGroup := Some(env.activatedByCustomerGroup)))
  }

  /** The configured price-block class names, memoised in
      `aPriceBlockClassNames`. */
  function GetPriceBlocks(h: Helper, env: Env): (r: Answer<seq<string>>)
    ensures r.next.priceBlockClassNames == Some(r.value)
    ensures h.priceBlockClassNames.Some? ==> r == Answer(h.priceBlockClassNames.value, h)
    ensures h.priceBlockClassNames.None? ==>
      r.value == env.priceBlocks && r.next.consulted == h.consulted + [PriceBlocksConfig]
    ensures r.next == h.(priceBlockClassNames := r.next.priceBlockClassNames, consulted := r.next.consulted)
  {
    match h.priceBlockClassNames
    case Some(names) => Answer(names, h)
    case None => Answer(env.priceBlocks, Ask(h, PriceBlocksConfig).(priceBlockClassNames := Some(env.priceBlocks)))
  }

  /** The login state is not memoised: the customer helper is asked on
      every call. */
  function IsCustomerLoggedIn(h: Helper, env: Env): (r: Answer<bool>)
    ensures r.value == env.customerLoggedIn
    ensures r.next.consulted == h.consulted + [CustomerLoggedIn]
    ensures r.next == h.(consulted := r.next.consulted)
  {
    Answer(env.customerLoggedIn, Ask(h, CustomerLoggedIn))
  }

  /** The configured login message (memoised in `sLoginMessage`) inside its
      markup envelope. */
  function GetLoginMessage(h: Helper, env: Env): (r: Answer<string>)
    ensures r.value == LoginMessage.Open + Cached(h.loginMessage, env.loginMessage) + LoginMessage.Close
    ensures r.next.loginMessage == Some(Cached(h.loginMessage, env.loginMessage))
    ensures h.loginMessage.Some? ==> r.next == h
    ensures h.loginMessage.None? ==> r.next.consulted == h.consulted + [LoginMessageConfig]
    ensures Extends(h, r.next)
    ensures r.next == h.(loginMessage := r.next.loginMessage, consulted := r.next.consulted)
  {
    match h.loginMessage
    case Some(m) => Answer(LoginMessage.Wrap(m), h)
    case None => Answer(LoginMessage.Wrap(env.loginMessage), Ask(h, LoginMessageConfig).(loginMessage := Some(env.loginMessage)))
  }

  /** The questions needed to fill the gating switches that are not yet
      memoised in `h`, in the order the helper asks them. */
  function UnmemoisedSwitchQueries(h: Helper): seq<Query>
  {
    (if h.activeByCategory.None? then [CategoryGatingSwitch] else []) +
    (if h.activeByCustomerGroup.None? then [CustomerGroupGatingSwitch] else [])
  }

  /** `isProductActive`: the gating switches are read (and memoised) only
      when the extension is active. */
  function IsProductActive(h: Helper, env: Env, p: ProductId): (r: Answer<bool>)
    ensures r.value <==> !Hides(CurrentSwitches(h, env), CurrentViewer(env), env.categoryActiveByProduct(p))
    ensures Extends(h, r.next)
    ensures r.next.extensionActive == Some(CurrentSwitches(h, env).extensionActive)
    ensures r.next.loginMessage == h.loginMessage && r.next.priceBlockClassNames == h.priceBlockClassNames
    ensures !CurrentSwitches(h, env).extensionActive ==>
      r.next.activeByCategory == h.activeByCategory && r.next.activeByCustomerGroup == h.activeByCustomerGroup
    ensures CurrentSwitches(h, env).extensionActive ==>
      r.next.activeByCategory == Some(CurrentSwitches(h, env).byCategory) &&
      r.next.activeByCustomerGroup == Some(CurrentSwitches(h, env).byCustomerGroup)
    ensures !CurrentSwitches(h, env).extensionActive ==> r.next == IsExtensionActive(h, env).next
    ensures CurrentSwitches(h, env).extensionActive ==>
      r.next.consulted == IsExtensionActive(h, env).next.consulted + UnmemoisedSwitchQueries(h) +
                          [CustomerLoggedIn, CategoryActiveByProduct(p), CustomerGroupActive]
  {
    var ext := IsExtensionActive(h, env);
    if !ext.value then Answer(true, ext.next)
    else
      var byCategory := IsExtensionActiveByCategory(ext.next, env);
      var byGroup := IsExtensionActivatedByCustomerGroup(byCategory.next, env);
      var loggedIn := IsCustomerLoggedIn(byGroup.next, env);
      var asked := Ask(Ask(loggedIn.next, CategoryActiveByProduct(p)), CustomerGroupActive);
      assert byGroup.next.consulted == ext.next.consulted + UnmemoisedSwitchQueries(h);
      assert asked.consulted == byGroup.next.consulted + [CustomerLoggedIn, CategoryActiveByProduct(p), CustomerGroupActive];
      var sw := Switches(true, byCategory.value, byGroup.value);
      var v := Viewer(loggedIn.value, env.customerGroupActive);
      Answer(ProductActive(sw, v, env.categoryActiveByProduct(p)), asked)
  }

  /** `hasEnabledCategories`: the same switches and memo behaviour as
      `IsProductActive`, with the category helper asked about the set. */
  function HasEnabledCategories(h: Helper, env: Env, categoryIds: seq<int>): (r: Answer<bool>)
    ensures r.value <==> Hides(CurrentSwitches(h, env), CurrentViewer(env), env.hasActiveCategory(categoryIds))
    ensures Extends(h, r.next)
    ensures r.next.extensionActive == Some(CurrentSwitches(h, env).extensionActive)
    ensures r.next.loginMessage == h.loginMessage && r.next.priceBlockClassNames == h.priceBlockClassNames
    ensures !CurrentSwitches(h, env).extensionActive ==>
      r.next.activeByCategory == h.activeByCategory && r.next.activeByCustomerGroup == h.activeByCustomerGroup
    ensures CurrentSwitches(h, env).extensionActive ==>
      r.next.activeByCategory == Some(CurrentSwitches(h, env).byCategory) &&
      r.next.activeByCustomerGroup == Some(CurrentSwitches(h, env).byCustomerGroup)
    ensures !CurrentSwitches(h, env).extensionActive ==> r.next == IsExtensionActive(h, env).next
    ensures CurrentSwitches(h, env).extensionActive ==>
      r.next.consulted == IsExtensionActive(h, env).next.consulted + UnmemoisedSwitchQueries(h) +
                          [CustomerLoggedIn, HasActiveCategory(categoryIds), CustomerGroupActive]
  {
    var ext := IsExtensionActive(h, env);
    if !ext.value then Answer(false, ext.next)
    else
      var byCategory := IsExtensionActiveByCategory(ext.next, env);
      var byGroup := IsExtensionActivatedByCustomerGroup(byCategory.next, env);
      var loggedIn := IsCustomerLoggedIn(byGroup.next, env);
      var asked := Ask(Ask(loggedIn.next, HasActiveCategory(categoryIds)), CustomerGroupActive);
      assert byGroup.next.consulted == ext.next.consulted + UnmemoisedSwitchQueries(h);
      assert asked.consulted == byGroup.next.consulted + [CustomerLoggedIn, HasActiveCategory(categoryIds), CustomerGroupActive];
      var sw := Switches(true, byCategory.value, byGroup.value);
      var v := Viewer(loggedIn.value, env.customerGroupActive);
      Answer(EnabledCategories(sw, v, env.hasActiveCategory(categoryIds)), asked)
  }

  /** `isBlockPriceBlock` through the memoised price-block list. */
  function IsPriceBlock(h: Helper, env: Env, b: Block): (r: Answer<bool>)
    ensures r.value <==> b.typeName in Cached(h.priceBlockClassNames, env.priceBlocks)
    ensures Extends(h, r.next)
    ensures r.next.priceBlockClassNames == Some(Cached(h.priceBlockClassNames, env.priceBlocks))
    ensures h.priceBlockClassNames.Some? ==> r.next == h
    ensures h.priceBlockClassNames.None? ==> r.next.consulted == h.consulted + [PriceBlocksConfig]
    ensures r.next == h.(priceBlockClassNames := r.next.priceBlockClassNames, consulted := r.next.consulted)
  {
    var names := GetPriceBlocks(h, env);
    Answer(IsBlockPriceBlock(names.value, b), names.next)
  }

  /** `isAddToCartBlockAndHidden`: product activity is evaluated only for
      the add-to-cart block; any other block is answered without touching
      the helper. */
  function IsAddToCartBlockAndHidden(h: Helper, env: Env, b: Block): (r: Answer<bool>)
    ensures r.value <==>
      b.layoutName == AddToCartLayoutName &&
      Hides(CurrentSwitches(h, env), CurrentViewer(env), env.categoryActiveByProduct(b.product))
    ensures b.layoutName != AddToCartLayoutName ==> r == Answer(false, h)
    ensures b.layoutName == AddToCartLayoutName ==> r.next == IsProductActive(h, env, b.product).next
    ensures Extends(h, r.next)
  {
    if IsBlockAddToCartBlock(b) then
      var active := IsProductActive(h, env, b.product);
      Answer(!active.value, active.next)
    else
      Answer(false, h)
  }

  /** A second call to a memoised getter answers as the first did, whatever
      the collaborators would say now, and asks nobody. */
  lemma MemoisedGettersAreStable(h: Helper, env: Env, env': Env)
    ensures var first := IsExtensionActiveByCategory(h, env);
      IsExtensionActiveByCategory(first.next, env') == Answer(first.value, first.next)
    ensures var first := IsExtensionActivatedByCustomerGroup(h, env);
      IsExtensionActivatedByCustomerGroup(first.next, env') == Answer(first.value, first.next)
    ensures var first := GetPriceBlocks(h, env);
      GetPriceBlocks(first.next, env') == Answer(first.value, first.next)
    ensures var first := IsExtensionActive(h, env);
      IsExtensionActive(first.next, env') == Answer(first.value, first.next)
    ensures var first := GetLoginMessage(h, env);
      GetLoginMessage(first.next, env') == Answer(first.value, first.next)
  {
  }

  /** Once a product has been evaluated, a re-evaluation under changed
      switches gives the same answer: the switches were memoised. */
  lemma ProductDecisionIsStable(h: Helper, env: Env, env': Env, p: ProductId)
    requires env'.customerLoggedIn == env.customerLoggedIn
    requires env'.customerGroupActive == env.customerGroupActive
    requires env'.categoryActiveByProduct(p) == env.categoryActiveByProduct(p)
    ensures var first := IsProductActive(h, env, p);
      var second := IsProductActive(first.next, env', p);
      second.value == first.value &&
      second.next.extensionActive == first.next.extensionActive &&
      second.next.activeByCategory == first.next.activeByCategory &&
      second.next.activeByCustomerGroup == first.next.activeByCustomerGroup
  {
  }

  /** Duality through the memo fields: from the same helper, a category set
      hides prices exactly when a product with the same gating fact is not
      active, and both calls leave the same memo fields behind. */
  lemma Duality(h: Helper, env: Env, p: ProductId, categoryIds: seq<int>)
    requires env.hasActiveCategory(categoryIds) == env.categoryActiveByProduct(p)
    ensures HasEnabledCategories(h, env, categoryIds).value == !IsProductActive(h, env, p).value
    ensures HasEnabledCategories(h, env, categoryIds).next.(consulted := []) ==
            IsProductActive(h, env, p).next.(consulted := [])
  {
  }

  /** On a fresh helper with the extension switched off, no product is
      hidden, no category set hides prices, and the gating switches are
      never asked for. */
  lemma InactiveExtensionOnFreshHelper(env: Env, p: ProductId, categoryIds: seq<int>)
    requires !env.extensionActive
    ensures IsProductActive(Fresh, env, p) == Answer(true, Fresh.(extensionActive := Some(false), consulted := [ExtensionActiveFlag]))
    ensures HasEnabledCategories(Fresh, env, categoryIds) == Answer(false, Fresh.(extensionActive := Some(false), consulted := [ExtensionActiveFlag]))
  {
  }
}
