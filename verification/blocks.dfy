/**
  Classification of layout blocks. A block is reduced to what the helper
  reads from it: its runtime class name, its name in the layout and the
  product it renders.
 */
module Blocks {

  type ProductId = nat

  datatype Block = Block(typeName: string, layoutName: string, product: ProductId)

  /** The layout name of the one block that renders the add-to-cart form. */
  const AddToCartLayoutName: string := "product.info.addtocart"

  /** The fixed list of add-to-cart layout names. */
  const AddToCartBlockLayoutNames: seq<string> := [AddToCartLayoutName]

  /** A left-to-right scan for an exact match, as `in_array` performs it. */
  function InArray(needle: string, haystack: seq<string>): (found: bool)
    ensures found <==> needle in haystack
  {
    if |haystack| == 0 then false
    else if haystack[0] == needle then true
    else InArray(needle, haystack[1..])
  }

  /** A block is a price block when its class name is one of the configured
      price-block class names; the second clause, implied by the first,
      spells out that an empty configuration matches no block. */
  function IsBlockPriceBlock(priceBlockClassNames: seq<string>, b: Block): (r: bool)
    ensures r <==> exists i :: 0 <= i < |priceBlockClassNames| && priceBlockClassNames[i] == b.typeName
    ensures priceBlockClassNames == [] ==> !r
  {
    InArray(b.typeName, priceBlockClassNames)
  }

  /** A block is an add-to-cart block exactly when it is laid out under the
      add-to-cart name. */
  function IsBlockAddToCartBlock(b: Block): (r: bool)
    ensures r <==> b.layoutName == AddToCartLayoutName
  {
    InArray(b.layoutName, AddToCartBlockLayoutNames)
  }

  /** Only the set of configured names matters: reordering the list or
      repeating an entry does not change which blocks are price blocks. */
  lemma PriceBlockListOrderIrrelevant(names: seq<string>, names': seq<string>, b: Block)
    requires forall n :: n in names <==> n in names'
    ensures IsBlockPriceBlock(names, b) == IsBlockPriceBlock(names', b)
  {
  }
}
