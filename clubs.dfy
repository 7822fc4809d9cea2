// The club table and its slug lookup (`clubs`, `getClubBySlug`).

module Clubs {
  import opened Wrappers
  import opened Seqs
  import Catalog

  datatype Club = Club(
    id: string,
    slug: string,
    name: string,
    primaryColor: string,
    secondaryColor: string,
    logo: string,
    bannerImage: string,
    description: string,
    activeProductIds: seq<string>)

  const Clubs: seq<Club> := [
    Club(
      "uif", "uppakra-if", "Uppåkra IF", "#1a3a6b", "#e8c232",
      "/images/uif-logo.png", "/images/uif-banner.jpg",
      "Uppåkra IF — Din lokala fotbollsklubb",
      [ "tshirt-basic", "tshirt-premium", "polo-classic", "polo-premium",
        "hoodie-basic", "hoodie-halfzip", "jacket-softshell", "jacket-padded",
        "pants-sweatpants", "pants-shorts", "acc-cap", "acc-beanie", "acc-scarf" ])
  ]

  /** `cs.find((c) => c.slug === slug)`: the first club with that slug, or none. */
  function FindBySlug(cs: seq<Club>, slug: string): (r: Option<Club>)
    ensures r.None? <==> forall i :: 0 <= i < |cs| ==> cs[i].slug != slug
    ensures r.Some? ==> r.value in cs && r.value.slug == slug
  {
    if cs == [] then None
    else if cs[0].slug == slug then Some(cs[0])
    else FindBySlug(cs[1..], slug)
  }

  /** `cs.find((c) => c.id === id)`, the lookup the club dashboard does. It is the search of
      `FindBySlug` on the `id` field: the source writes the two `find` calls separately. */
  function FindById(cs: seq<Club>, id: string): (r: Option<Club>)
    ensures r.None? <==> forall i :: 0 <= i < |cs| ==> cs[i].id != id
    ensures r.Some? ==> r.value in cs && r.value.id == id
  {
    if cs == [] then None
    else if cs[0].id == id then Some(cs[0])
    else FindById(cs[1..], id)
  }

  /** `getClubBySlug`: a club whose slug is `slug`, or `undefined` when none has it. */
  function GetClubBySlug(slug: string): (r: Option<Club>)
    ensures r.None? <==> forall i :: 0 <= i < |Clubs| ==> Clubs[i].slug != slug
    ensures r.Some? ==> r.value in Clubs && r.value.slug == slug
  {
    FindBySlug(Clubs, slug)
  }

  /** The storefront slug "uppakra-if" belongs to the club with id "uif". */
  lemma UppakraIsUif()
    ensures GetClubBySlug("uppakra-if") == Some(Clubs[0])
    ensures Clubs[0].id == "uif"
  {
  }

  /** The store's active product list names 13 distinct catalog products and misses none. */
  lemma ActiveProductsMatchCatalog()
    ensures |Clubs[0].activeProductIds| == |Catalog.Products| == 13
    ensures NoDuplicates(Clubs[0].activeProductIds)
    ensures forall i :: 0 <= i < |Clubs[0].activeProductIds| ==>
              Catalog.GetProductById(Clubs[0].activeProductIds[i]).Some?
    ensures forall k :: 0 <= k < |Catalog.Products| ==> Catalog.Products[k].id in Clubs[0].activeProductIds
  {
    var ids := Clubs[0].activeProductIds;
    assert forall i :: 0 <= i < |ids| ==> ids[i] == Catalog.Products[i].id;
    Catalog.ProductIdsDistinct();
    forall i | 0 <= i < |ids|
      ensures Catalog.GetProductById(ids[i]).Some?
    {
      Catalog.GetProductByIdFindsEach(Catalog.Products[i]);
    }
    forall k | 0 <= k < |Catalog.Products|
      ensures Catalog.Products[k].id in ids
    {
      assert ids[k] == Catalog.Products[k].id;
    }
  }

  /** So the club's storefront, `getProductsByIds(activeProductIds)`, is the whole catalog in catalog order. */
  lemma ClubStorefrontIsWholeCatalog()
    ensures Catalog.GetProductsByIds(Clubs[0].activeProductIds) == Catalog.Products
  {
    ActiveProductsMatchCatalog();
    FilterAll(Catalog.Products, (p: Catalog.Product) => p.id in Clubs[0].activeProductIds);
  }
}
