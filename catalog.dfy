/** The product catalog and the handler that lists it. */
module Catalog {
  import opened Replies

  const Products: seq<Product> := [
    Product("Витамины 1", "Описание витаминов 1", 100),
    Product("Витамины 2", "Описание витаминов 2", 200),
    Product("Витамины 3", "Описание витаминов 3", 300),
    Product("Витамины 4", "Описание витаминов 4", 400)
  ]

  /** What the catalog handler sends: one line per product in order, then the closing prompt. */
  function CatalogReplies(ps: seq<Product>): (rs: seq<Reply>)
    ensures |rs| == |ps| + 1 && rs[|ps|] == ClosingPrompt
    ensures forall i :: 0 <= i < |ps| ==> rs[i] == Reply(Send, ProductInfo(ps[i]), NoMarkup)
  {
    seq(|ps|, i requires 0 <= i < |ps| => Reply(Send, ProductInfo(ps[i]), NoMarkup))
      + [ClosingPrompt]
  }

  /** The catalog sends four product lines, in list order, priced 100, 200, 300 and 400,
      then the closing prompt (the format of each line: Replies.ProductInfoReadBack). */
  lemma CatalogListing()
    ensures var rs := CatalogReplies(Products);
            |rs| == 5 && rs[4] == ClosingPrompt &&
            forall i :: 0 <= i < 4 ==> rs[i].text.ProductInfo? && rs[i].text.product.price == 100 * (i + 1)
  {
  }

  /** The catalog handler: one text line per product, in list order, then the prompt
      with the buying keyboard. */
  method GetBuyingList() returns (out: seq<Reply>)
    ensures |out| == |Products| + 1
    ensures forall i :: 0 <= i < |Products| ==> out[i] == Reply(Send, ProductInfo(Products[i]), NoMarkup)
    ensures out[|Products|] == ClosingPrompt
    ensures out == CatalogReplies(Products)
  {
    out := [];
    for i := 0 to |Products|
      invariant |out| == i
      invariant forall j :: 0 <= j < i ==> out[j] == Reply(Send, ProductInfo(Products[j]), NoMarkup)
    {
      out := out + [Reply(Send, ProductInfo(Products[i]), NoMarkup)];
    }
    out := out + [ClosingPrompt];
  }
}
