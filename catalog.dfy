/**
 * The storefront's catalog as the three scripts see it: configuration,
 * the raw records the JSON endpoint returns, the canonical product record
 * every path produces, and the collection label table.
 */
module Catalog {
  import opened Text

  datatype Option<T> = None | Some(value: T)

  /** `d.get(key, "")` for a string-valued key that may be missing. */
  function OrEmpty(o: Option<string>): string {
    if o.Some? then o.value else ""
  }

  const BaseUrl: string := "https://circusbymaniac.shop"

  /** The four watched collections, in the order every pass visits them. */
  const Collections: seq<string> := [
    "ifsixwasnine-beyond-the-time-man",
    "ifsixwasnine-limited-man",
    "lgb-beyond-the-time-man",
    "lgb-limited-man"
  ]

  /** One entry of a product's `images` array; `src` may be missing. */
  datatype RawImage = RawImage(src: Option<string>)

  /** One entry of a product's `variants` array; `price` may be missing. */
  datatype RawVariant = RawVariant(price: Option<string>)

  /** A product object of `products.json`; every key may be missing. */
  datatype RawProduct = RawProduct(
    handle: Option<string>,
    title: Option<string>,
    images: Option<seq<RawImage>>,
    variants: Option<seq<RawVariant>>,
    createdAt: Option<string>)

  /** The product dictionary the scripts pass around. */
  datatype Item = Item(
    handle: string,
    title: string,
    image: string,
    price: string,
    url: string,
    collection: string,
    createdAt: string)

  /**
   * One product link found in a collection's HTML page, with what the
   * scrapers read from the markup after it: the image URL already rewritten
   * to its 600x600 variant ("" when no image matched), the "¥…" price token
   * ("" when none matched), and the first capitalised text run, stripped, if any.
   */
  datatype Anchor = Anchor(path: string, handle: string, image: string, price: string, titleRun: Option<string>)

  /** The handles a collection page links to. */
  function AnchorHandles(anchors: seq<Anchor>): set<string> {
    set a | a in anchors :: a.handle
  }

  /**
   * What a collection's single `products.json` request answered (the
   * one-shot scripts ask for one page): `None` where fetching or decoding raised.
   */
  type JsonAnswers = string -> Option<seq<RawProduct>>

  /** The product links found in a collection's HTML page: `None` where fetching it raised. */
  type HtmlAnswers = string -> Option<seq<Anchor>>

  function ProductUrl(collection: string, handle: string): string {
    BaseUrl + "/collections/" + collection + "/products/" + handle
  }

  /** `p["images"][0].get("src", "") if p.get("images") else ""` */
  function FirstImage(images: Option<seq<RawImage>>): (image: string)
    ensures (images.None? || images.value == []) ==> image == ""
    ensures image != "" ==> images.Some? && images.value != [] && images.value[0].src == Some(image)
    ensures images.Some? && images.value != [] ==> image == OrEmpty(images.value[0].src)
  {
    if images.Some? && images.value != [] then OrEmpty(images.value[0].src) else ""
  }

  /** `p["variants"][0].get("price", "") if p.get("variants") else ""` */
  function FirstPrice(variants: Option<seq<RawVariant>>): (price: string)
    ensures (variants.None? || variants.value == []) ==> price == ""
    ensures price != "" ==> variants.Some? && variants.value != [] && variants.value[0].price == Some(price)
    ensures variants.Some? && variants.value != [] ==> price == OrEmpty(variants.value[0].price)
  {
    if variants.Some? && variants.value != [] then OrEmpty(variants.value[0].price) else ""
  }

  /** The per-record dictionary built from a JSON product of `collection`. */
  function Normalize(collection: string, p: RawProduct): (item: Item)
    ensures item.handle == OrEmpty(p.handle) && item.title == OrEmpty(p.title)
    ensures item.collection == collection && item.createdAt == OrEmpty(p.createdAt)
    ensures item.url == ProductUrl(collection, item.handle)
    ensures item.image == FirstImage(p.images) && item.price == FirstPrice(p.variants)
  {
    var handle := OrEmpty(p.handle);
    Item(handle, OrEmpty(p.title), FirstImage(p.images), FirstPrice(p.variants),
         ProductUrl(collection, handle), collection, OrEmpty(p.createdAt))
  }

  /** The list a successful JSON fetch yields: one record per product, in order. */
  function NormalizeAll(collection: string, ps: seq<RawProduct>): (items: seq<Item>)
    ensures |items| == |ps|
    ensures forall k :: 0 <= k < |ps| ==> items[k] == Normalize(collection, ps[k])
  {
    if ps == [] then [] else [Normalize(collection, ps[0])] + NormalizeAll(collection, ps[1..])
  }

  /** The `for p in data.get("products", [])` loop every JSON fetch runs: one record appended per product. */
  method NormalizeEach(collection: string, ps: seq<RawProduct>) returns (items: seq<Item>)
    ensures items == NormalizeAll(collection, ps)
  {
    items := [];
    for k := 0 to |ps|
      invariant items == NormalizeAll(collection, ps[..k])
    {
      assert NormalizeAll(collection, ps[..k + 1]) == NormalizeAll(collection, ps[..k]) + [Normalize(collection, ps[k])];
      items := items + [Normalize(collection, ps[k])];
    }
    assert ps[..|ps|] == ps;
  }

  const Labels: map<string, string> := map[
    "ifsixwasnine-beyond-the-time-man" := "IF SIX WAS NINE / BEYOND THE TIME",
    "ifsixwasnine-limited-man" := "IF SIX WAS NINE / LIMITED",
    "lgb-beyond-the-time-man" := "L.G.B. / BEYOND THE TIME",
    "lgb-limited-man" := "L.G.B. / LIMITED"
  ]

  /** `labels.get(slug, slug)` */
  function CollectionLabel(slug: string): string {
    if slug in Labels then Labels[slug] else slug
  }

  /** The label table covers exactly the watched collections, gives each its own label, and passes every other slug through. */
  lemma CollectionLabelTable()
    ensures forall slug :: slug in Labels <==> slug in Collections
    ensures forall i, j :: 0 <= i < j < |Collections| ==> CollectionLabel(Collections[i]) != CollectionLabel(Collections[j])
    ensures forall i :: 0 <= i < |Collections| ==> CollectionLabel(Collections[i]) != Collections[i]
    ensures forall slug :: slug !in Collections ==> CollectionLabel(slug) == slug
  {
    forall slug ensures slug in Collections <==> slug in Labels.Keys {
      assert slug in Collections <==> slug in {Collections[0], Collections[1], Collections[2], Collections[3]};
    }
    var lengths := LabelLengths();
    forall i, j | 0 <= i < j < |Collections|
      ensures CollectionLabel(Collections[i]) != CollectionLabel(Collections[j])
    {
      assert lengths[i] != lengths[j];
    }
  }

  /** Every label, and every slug, has its own length; each label is one longer than its slug. */
  lemma LabelLengths() returns (lengths: seq<nat>)
    ensures lengths == [33, 25, 24, 16]
    ensures forall i :: 0 <= i < |Collections| ==> |CollectionLabel(Collections[i])| == lengths[i] == |Collections[i]| + 1
  {
    lengths := [33, 25, 24, 16];
    assert |CollectionLabel(Collections[0])| == 33 && |Collections[0]| == 32;
    assert |CollectionLabel(Collections[1])| == 25 && |Collections[1]| == 24;
    assert |CollectionLabel(Collections[2])| == 24 && |Collections[2]| == 23;
    assert |CollectionLabel(Collections[3])| == 16 && |Collections[3]| == 15;
  }

  lemma ConcatAssoc(a: seq<Item>, b: seq<Item>, c: seq<Item>)
    ensures (a + b) + c == a + (b + c)
  {
  }

  function HandleSet(items: seq<Item>): set<string> {
    set x | x in items :: x.handle
  }

  /** No two entries share a handle. */
  predicate DistinctHandles(items: seq<Item>) {
    forall i, j :: 0 <= i < j < |items| ==> items[i].handle != items[j].handle
  }
}
