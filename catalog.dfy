// The product catalog: a constant table and its lookup helpers
// (`getProductById`, `getProductsByCategory`, `getProductsByIds`, `categories`).

module Catalog {
  import opened Wrappers
  import opened Seqs

  datatype ProductVariant = ProductVariant(id: string, name: string, color: string)

  datatype Product = Product(
    id: string,
    name: string,
    brand: string,
    category: string,
    price: int,
    sizes: seq<string>,
    variants: seq<ProductVariant>,
    image: string)

  /** An entry of the category filter bar (`label` in the source is a Dafny keyword, hence `caption`). */
  datatype Category = Category(id: string, caption: string)

  /** The size run shared by every garment (caps, beanies and scarves are "One Size"). */
  const ClothingSizes: seq<string> := ["XS", "S", "M", "L", "XL", "XXL"]

  const Products: seq<Product> := [
    Product(
      "tshirt-basic", "Basic-T", "Clique", "t-shirts", 249,
      ClothingSizes,
      [ProductVariant("navy", "Navy", "#1a3a6b"), ProductVariant("white", "White", "#ffffff"), ProductVariant("black", "Black", "#000000")],
      "/images/tshirt-basic.svg"),
    Product(
      "tshirt-premium", "Premium-T", "Clique", "t-shirts", 349,
      ClothingSizes,
      [ProductVariant("navy", "Navy", "#1a3a6b"), ProductVariant("yellow", "Yellow", "#e8c232"), ProductVariant("white", "White", "#ffffff")],
      "/images/tshirt-premium.svg"),
    Product(
      "polo-classic", "Classic Polo", "Clique", "polo", 399,
      ClothingSizes,
      [ProductVariant("navy", "Navy", "#1a3a6b"), ProductVariant("white", "White", "#ffffff"), ProductVariant("black", "Black", "#000000")],
      "/images/polo-classic.svg"),
    Product(
      "polo-premium", "Premium Polo", "Clique", "polo", 499,
      ClothingSizes,
      [ProductVariant("navy", "Navy", "#1a3a6b"), ProductVariant("yellow", "Yellow", "#e8c232")],
      "/images/polo-premium.svg"),
    Product(
      "hoodie-basic", "Basic Hoodie", "Clique", "hoodies", 599,
      ClothingSizes,
      [ProductVariant("navy", "Navy", "#1a3a6b"), ProductVariant("black", "Black", "#000000"), ProductVariant("grey", "Grey", "#888888")],
      "/images/hoodie-basic.svg"),
    Product(
      "hoodie-halfzip", "Half-Zip Hoodie", "Clique", "hoodies", 699,
      ClothingSizes,
      [ProductVariant("navy", "Navy", "#1a3a6b"), ProductVariant("yellow", "Yellow", "#e8c232"), ProductVariant("black", "Black", "#000000")],
      "/images/hoodie-halfzip.svg"),
    Product(
      "jacket-softshell", "Softshell Jacket", "Clique", "jackets", 899,
      ClothingSizes,
      [ProductVariant("navy", "Navy", "#1a3a6b"), ProductVariant("black", "Black", "#000000")],
      "/images/jacket-softshell.svg"),
    Product(
      "jacket-padded", "Padded Jacket", "Clique", "jackets", 1099,
      ClothingSizes,
      [ProductVariant("navy", "Navy", "#1a3a6b"), ProductVariant("black", "Black", "#000000")],
      "/images/jacket-padded.svg"),
    Product(
      "pants-sweatpants", "Sweatpants", "Clique", "pants", 449,
      ClothingSizes,
      [ProductVariant("navy", "Navy", "#1a3a6b"), ProductVariant("black", "Black", "#000000"), ProductVariant("grey", "Grey", "#888888")],
      "/images/pants-sweatpants.svg"),
    Product(
      "pants-shorts", "Training Shorts", "Clique", "pants", 299,
      ClothingSizes,
      [ProductVariant("navy", "Navy", "#1a3a6b"), ProductVariant("black", "Black", "#000000"), ProductVariant("yellow", "Yellow", "#e8c232")],
      "/images/pants-shorts.svg"),
    Product(
      "acc-cap", "Club Cap", "Clique", "accessories", 199,
      ["One Size"],
      [ProductVariant("navy", "Navy", "#1a3a6b"), ProductVariant("black", "Black", "#000000")],
      "/images/acc-cap.svg"),
    Product(
      "acc-beanie", "Club Beanie", "Clique", "accessories", 149,
      ["One Size"],
      [ProductVariant("navy", "Navy", "#1a3a6b"), ProductVariant("yellow", "Yellow", "#e8c232"), ProductVariant("black", "Black", "#000000")],
      "/images/acc-beanie.svg"),
    Product(
      "acc-scarf", "Club Scarf", "Clique", "accessories", 179,
      ["One Size"],
      [ProductVariant("navy-yellow", "Navy/Yellow", "#1a3a6b"), ProductVariant("white-navy", "White/Navy", "#ffffff")],
      "/images/acc-scarf.svg")
  ]

  const Categories: seq<Category> := [
    Category("all", "All"),
    Category("t-shirts", "T-Shirts"),
    Category("polo", "Polo"),
    Category("hoodies", "Hoodies"),
    Category("jackets", "Jackets"),
    Category("pants", "Pants"),
    Category("accessories", "Accessories")
  ]

  /** `ps.find((p) => p.id === id)`: the first product with that id, or none. */
  function FindProduct(ps: seq<Product>, id: string): (r: Option<Product>)
    ensures r.None? <==> forall i :: 0 <= i < |ps| ==> ps[i].id != id
    ensures r.Some? ==> exists k :: 0 <= k < |ps| && ps[k] == r.value && r.value.id == id &&
                                    forall j :: 0 <= j < k ==> ps[j].id != id
  {
    if ps == [] then None
    else if ps[0].id == id then Some(ps[0])
    else
      var r := FindProduct(ps[1..], id);
      assert r.Some? ==> exists k :: 0 <= k < |ps[1..]| && ps[1..][k] == r.value && r.value.id == id &&
                                     forall j :: 0 <= j < k ==> ps[1..][j].id != id;
      r
  }

  /** `getProductById`: the first catalog product with that id, or `undefined`. */
  function GetProductById(id: string): (r: Option<Product>)
    ensures r.None? <==> forall i :: 0 <= i < |Products| ==> Products[i].id != id
    ensures r.None? ==> forall p :: p in Products ==> p.id != id
    ensures r.Some? ==> r.value in Products && r.value.id == id
  {
    FindProduct(Products, id)
  }

  /** `getProductsByCategory`: exactly the products of that category, in catalog order. */
  function GetProductsByCategory(category: string): (r: seq<Product>)
    ensures forall i :: 0 <= i < |r| ==> r[i] in Products && r[i].category == category
    ensures forall p :: p in Products && p.category == category ==> p in r
    ensures IsSubsequence(r, Products)
  {
    FilterIsSubsequence(Products, (p: Product) => p.category == category);
    Filter(Products, (p: Product) => p.category == category)
  }

  /** `getProductsByIds`: the catalog products whose id is listed, in catalog order (not argument order). */
  function GetProductsByIds(ids: seq<string>): (r: seq<Product>)
    ensures forall i :: 0 <= i < |r| ==> r[i] in Products && r[i].id in ids
    ensures forall p :: p in Products && p.id in ids ==> p in r
    ensures IsSubsequence(r, Products)
  {
    FilterIsSubsequence(Products, (p: Product) => p.id in ids);
    Filter(Products, (p: Product) => p.id in ids)
  }

  /** Only the set of ids matters: order and repetition of the argument change nothing. */
  lemma ProductsByIdsIgnoresOrder(a: seq<string>, b: seq<string>)
    requires forall x :: x in a <==> x in b
    ensures GetProductsByIds(a) == GetProductsByIds(b)
  {
    FilterExtensional(Products, (p: Product) => p.id in a, (p: Product) => p.id in b);
  }

  /** A repeated id or an id that is not in the catalog adds nothing to the result. */
  lemma ProductsByIdsExtraId(ids: seq<string>, x: string)
    requires x in ids || GetProductById(x).None?
    ensures GetProductsByIds(ids + [x]) == GetProductsByIds(ids)
  {
    FilterExtensional(Products, (p: Product) => p.id in ids + [x], (p: Product) => p.id in ids);
  }

  /** Product ids are distinct. */
  lemma ProductIdsDistinct()
    ensures forall i, j :: 0 <= i < j < |Products| ==> Products[i].id != Products[j].id
  {
  }

  /** Because ids are distinct, `getProductById` finds every catalog product by its own id. */
  lemma {:induction false} GetProductByIdFindsEach(p: Product)
    requires p in Products
    ensures GetProductById(p.id) == Some(p)
  {
    ProductIdsDistinct();
    var r := GetProductById(p.id);
    var i :| 0 <= i < |Products| && Products[i] == p;
    var k :| 0 <= k < |Products| && Products[k] == r.value && r.value.id == p.id &&
             forall j :: 0 <= j < k ==> Products[j].id != p.id;
    if k < i {
    } else if i < k {
    }
  }

  /** The ids of the category-bar entries, in bar order. */
  function CategoryIds(): (r: seq<string>)
    ensures |r| == |Categories| && forall i :: 0 <= i < |r| ==> r[i] == Categories[i].id
  {
    seq(|Categories|, i requires 0 <= i < |Categories| => Categories[i].id)
  }


  /** Every product category is a category-bar entry other than "all", which comes first. */
  lemma CategoriesCoverProducts()
    ensures CategoryIds()[0] == "all"
    ensures forall i :: 0 <= i < |Products| ==>
              Products[i].category != "all" && Products[i].category in CategoryIds()[1..]
  {
    assert CategoryIds()[1..] == ["t-shirts", "polo", "hoodies", "jackets", "pants", "accessories"];
  }

  /** No product is in the pseudo-category "all", so asking the catalog for it yields nothing. */
  lemma ProductsByAllCategoryEmpty()
    ensures GetProductsByCategory("all") == []
  {
    CategoriesCoverProducts();
    FilterNone(Products, (p: Product) => p.category == "all");
  }

  /** Every product has a positive price, at least one size and at least one variant. */
  lemma ProductsWellFormed()
    ensures forall p :: p in Products ==> p.price > 0 && |p.sizes| > 0 && |p.variants| > 0
  {
  }
}
