# B2BProfessional price-visibility helper, in Dafny

This project models `Sitewards_B2BProfessional_Helper_Data`, the Magento
helper that decides, for the current viewer, whether a product's price and
add-to-cart form are shown or replaced by a login prompt. It covers:

- the two mirrored decision tables, `isProductActive` and
  `hasEnabledCategories` (module `Policy`);
- the block classification, `isBlockPriceBlock` and `isBlockAddToCartBlock`,
  with `in_array` as an exact left-to-right scan (module `Blocks`);
- the login-message envelope built by `getLoginMessage` (module `LoginMessage`);
- the helper object with its lazily filled memo fields, and the operations
  that go through them, including `isAddToCartBlockAndHidden` (module
  `HelperData`).

Both tables are characterised by one reference predicate, `Policy.Hides`.
It holds when the extension is on and every enabled gating dimension gates
the viewer. When customer-group gating is off, it also requires the viewer
to be anonymous. `isProductActive` is the negation of `Hides` for the
product's category fact. `hasEnabledCategories` is `Hides` itself for the
category set's fact. So the two tables are each other's negation whenever
they are given the same fact.

The helper object is an immutable `HelperData.Helper` value. Its memo
fields are `Option`s, with `None` standing for PHP's `null`. Each
operation returns the updated helper beside its answer. The collaborators
are one `HelperData.Env` record of their answers:

- the store configuration (extension flag, login message, price-block list);
- the category helper (category gating switch, `isCategoryActiveByProduct`,
  `hasActiveCategory`);
- the customer helper (customer-group gating switch, `isCustomerLoggedIn`,
  `isCustomerGroupActive`).

Every question put to a collaborator is appended to the helper's
`consulted` log. "The collaborator is not asked again" is therefore a
statement about that log. `HelperData.Extends` is the invariant every
operation keeps: a filled memo field never changes, and the log only grows.

## Model

| member | source | states |
|---|---|---|
| `Policy.ProductActive` | app/code/community/Sitewards/B2BProfessional/Helper/Data.php:174-206 | the product stays active exactly when the reference gating predicate does not hold for its category fact |
| `Policy.EnabledCategories` | app/code/community/Sitewards/B2BProfessional/Helper/Data.php:214-245 | a category set hides prices exactly when the reference gating predicate holds for its "has active category" fact |
| `Policy.InactiveExtensionHidesNothing` | app/code/community/Sitewards/B2BProfessional/Helper/Data.php:174-245 | with the extension off, every product is active and no category set hides prices, whatever the other inputs |
| `Policy.ProductActiveTable` | app/code/community/Sitewards/B2BProfessional/Helper/Data.php:190-202 | the four rows of the product table: `!(cat && group)`, `!group`, `loggedIn \|\| !cat`, `loggedIn` |
| `Policy.EnabledCategoriesTable` | app/code/community/Sitewards/B2BProfessional/Helper/Data.php:230-242 | the four rows of the category table: `has && group`, `group`, `!loggedIn && has`, `!loggedIn` |
| `Policy.Duality` | app/code/community/Sitewards/B2BProfessional/Helper/Data.php:174-245 | for every switch combination, extension off included, the category answer is the negation of the product answer when both get the same gating fact |
| `Policy.LoggedInExemption` | app/code/community/Sitewards/B2BProfessional/Helper/Data.php:190-242 | with category gating as the only dimension, a logged-in viewer sees every product and no category set hides prices |
| `Policy.GroupGatingIgnoresLogin` | app/code/community/Sitewards/B2BProfessional/Helper/Data.php:190-242 | whenever customer-group gating is on, neither answer depends on the login state |
| `Blocks.InArray` | app/code/community/Sitewards/B2BProfessional/Helper/Data.php:132-148 | the scan finds the name exactly when it is an element of the list |
| `Blocks.IsBlockPriceBlock` | app/code/community/Sitewards/B2BProfessional/Helper/Data.php:132-136 | a block is a price block exactly when some configured class name equals its class name; an empty list never matches |
| `Blocks.IsBlockAddToCartBlock` | app/code/community/Sitewards/B2BProfessional/Helper/Data.php:144-148 | a block is an add-to-cart block exactly when its layout name is `product.info.addtocart` |
| `Blocks.PriceBlockListOrderIrrelevant` | app/code/community/Sitewards/B2BProfessional/Helper/Data.php:132-136 | two configured lists with the same names, in any order and with any repetition, classify every block alike |
| `LoginMessage.Wrap` | app/code/community/Sitewards/B2BProfessional/Helper/Data.php:90-94 | the markup is the opening `span` tag, then the message character for character, then `</span>` |
| `LoginMessage.UnwrapWrap` | app/code/community/Sitewards/B2BProfessional/Helper/Data.php:92 | the message can be read back unchanged from between the tags, so nothing in it was escaped |
| `LoginMessage.WrapInjective` | app/code/community/Sitewards/B2BProfessional/Helper/Data.php:92 | different messages always give different markup |
| `LoginMessage.EmptyMessage` | app/code/community/Sitewards/B2BProfessional/Helper/Data.php:92 | an empty message gives the bare envelope |
| `HelperData.IsExtensionActive` | app/code/community/Sitewards/B2BProfessional/Helper/Data.php:80-83 | the flag is memoised in `bExtensionActive`: a filled field is returned without asking the store, an empty one is filled from it, and no other field changes |
| `HelperData.IsExtensionActiveByCategory` | app/code/community/Sitewards/B2BProfessional/Helper/Data.php:101-109 | a filled `bExtensionActiveByCategory` is returned unchanged without asking the category helper; an empty one is filled by one question; no other field changes |
| `HelperData.IsExtensionActivatedByCustomerGroup` | app/code/community/Sitewards/B2BProfessional/Helper/Data.php:116-124 | a filled `bExtensionActiveByCustomerGroup` is returned unchanged without asking the customer helper; an empty one is filled by one question; no other field changes |
| `HelperData.GetPriceBlocks` | app/code/community/Sitewards/B2BProfessional/Helper/Data.php:262-268 | a filled `aPriceBlockClassNames` is returned unchanged without reading the configuration; an empty one is filled by one read; no other field changes |
| `HelperData.IsCustomerLoggedIn` | app/code/community/Sitewards/B2BProfessional/Helper/Data.php:252-255 | the login state is not memoised: each call asks the customer helper once and changes nothing else |
| `HelperData.GetLoginMessage` | app/code/community/Sitewards/B2BProfessional/Helper/Data.php:90-94 | the answer is the memoised or configured message inside the envelope; a filled `sLoginMessage` is used without asking the store and leaves the helper unchanged, an empty one is filled by one read; no other field changes |
| `HelperData.IsProductActive` | app/code/community/Sitewards/B2BProfessional/Helper/Data.php:174-206 | the answer is the negation of the reference predicate over the memoised-or-current switches; with the extension off only the extension flag is read; with it on, exactly the unmemoised gating switches, then the login state, the product's category and the customer group are asked, in that order, and the switches are memoised; the login-message and price-block fields are untouched |
| `HelperData.HasEnabledCategories` | app/code/community/Sitewards/B2BProfessional/Helper/Data.php:214-245 | the answer is the reference predicate over the memoised-or-current switches and the set's fact, with the same memo behaviour as `IsProductActive` |
| `HelperData.IsPriceBlock` | app/code/community/Sitewards/B2BProfessional/Helper/Data.php:132-136 | the answer is membership in the memoised-or-configured list; only `aPriceBlockClassNames` may change, it is read at most once, and a filled list leaves the helper unchanged |
| `HelperData.IsAddToCartBlockAndHidden` | app/code/community/Sitewards/B2BProfessional/Helper/Data.php:156-165 | true exactly for an add-to-cart block whose product is gated; for any other block the answer is false and the helper is returned untouched, so product activity is not evaluated; for the add-to-cart block the helper ends as `isProductActive` leaves it, memo fields included |
| `HelperData.MemoisedGettersAreStable` | app/code/community/Sitewards/B2BProfessional/Helper/Data.php:80-268 | after a first call, a second call of any memoised getter (the extension flag, both gating switches, the price-block list and the login message) returns the first answer and leaves the helper and the log as they were, whatever the collaborators now say |
| `HelperData.ProductDecisionIsStable` | app/code/community/Sitewards/B2BProfessional/Helper/Data.php:174-206 | re-evaluating a product after its switches were memoised gives the same answer even if the configured switches have changed |
| `HelperData.Duality` | app/code/community/Sitewards/B2BProfessional/Helper/Data.php:174-245 | from the same helper, `hasEnabledCategories` is the negation of `isProductActive` when the two gating facts agree, and both leave the same memo fields behind |
| `HelperData.InactiveExtensionOnFreshHelper` | app/code/community/Sitewards/B2BProfessional/Helper/Data.php:174-245 | on a fresh helper with the extension off, the product is active, no category set hides prices, and only the extension flag is read |

## Left out

- The Magento service locator (`Mage::helper`, `Mage::getStoreConfig`) and the category and customer helpers. Their answers are fields of `HelperData.Env`, not code.
- `getStoreFlag` and `getStoreConfig` of `Sitewards_B2BProfessional_Helper_Core`, which are not part of this model. `isExtensionActive` and `getLoginMessage` pass them the field names `bExtensionActive` and `sLoginMessage`. The model therefore assumes they memoise into those fields the same way the getters in this file do.
- PHP reflection (`get_class`) and block objects. A block is a record of its class name, its layout name and its product id.
- A block whose `getProduct()` returns null. `isProductActive` declares a typed product parameter, so PHP would raise a type error there; the model always has a product id.
- Loose comparison. `=== true` (lines 177 and 217), `=== false` (line 160) and `in_array` without strict mode are modelled as plain booleans and exact string equality, and the price-block configuration is assumed to be a list of strings. `isProductActive` can return the customer helper's login answer unconverted (line 201), so a non-boolean answer there would make the `=== false` test at line 160 fail and `isAddToCartBlockAndHidden` return false; the model's login answer is always a boolean.
- HTML escaping. The source performs none, and the model keeps the message verbatim.
- Request and session lifetime, and concurrency. None exist in this helper; a fresh helper is `HelperData.Fresh`.
- `getAddToCartBlockLayoutNames` is only a read of the constant one-element list; it is the constant `Blocks.AddToCartBlockLayoutNames`.
