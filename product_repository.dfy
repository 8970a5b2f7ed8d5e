/** The product store (EcommerceBe/Repositories/ProductRepository.cs): the
    reconciliation UpdateAsync performs on a product's variants, images and
    categories, the category-tree query, and the filtered, sorted, paged
    product query. Fresh GUIDs and the clock are parameters. */
module ProductRepository {
  import opened Common

  /** ProductVariant; prices are whole amounts. */
  datatype ProductVariant = ProductVariant(variantId: Guid, productId: Guid, size: string, colorCode: string,
                                           colorName: string, stock: int, price: int, brandNew: bool,
                                           features: string, seoDescription: string,
                                           viewsCount: int, salesCount: int)

  /** ProductVariantDto. */
  datatype VariantDto = VariantDto(size: string, colorCode: string, colorName: string, stock: int, price: int,
                                   brandNew: bool, features: string, seoDescription: string)

  /** ProductImages. */
  datatype ProductImage = ProductImage(imageId: Guid, productId: Guid, url: string, isPrimary: bool)

  /** Product with its variants, images and category links. */
  datatype Product = Product(productId: Guid, shopId: Guid, name: string, description: string, originalPrice: int,
                             isDeleted: bool, isActive: bool, createdAt: int, updatedAt: int,
                             variants: seq<ProductVariant>, images: seq<ProductImage>, categories: seq<Guid>)

  /** The fields of CreateProductDto that UpdateAsync reads; ImageUrls may be null. */
  datatype ProductDto = ProductDto(name: string, description: string, originalPrice: int, categoryId: Guid,
                                   subcategoryId: Guid, shopId: Guid, imageUrls: Option<seq<string>>,
                                   variants: seq<VariantDto>)

  // ---------------------------------------------------------------------
  // Variants, matched by the key Size-ColorCode

  function VariantKey(size: string, colorCode: string): string
  {
    size + "-" + colorCode
  }

  function KeyOf(v: ProductVariant): string { VariantKey(v.size, v.colorCode) }

  function DtoKey(d: VariantDto): string { VariantKey(d.size, d.colorCode) }

  function IncomingKeys(dtos: seq<VariantDto>): set<string>
  {
    set d | d in dtos :: DtoKey(d)
  }

  function Keys(vs: seq<ProductVariant>): set<string>
  {
    set v | v in vs :: KeyOf(v)
  }

  /** The variants whose key is still wanted, in their order. */
  function KeepVariants(vs: seq<ProductVariant>, keys: set<string>): (r: seq<ProductVariant>)
    ensures |r| <= |vs|
    ensures forall v :: v in r <==> v in vs && KeyOf(v) in keys
  {
    if vs == [] then []
    else (if KeyOf(vs[0]) in keys then [vs[0]] else []) + KeepVariants(vs[1..], keys)
  }

  /** The first variant with the key (FirstOrDefault), or |vs| when none has it. */
  function FindVariant(vs: seq<ProductVariant>, key: string): (i: nat)
    ensures i <= |vs|
    ensures i < |vs| ==> KeyOf(vs[i]) == key
    ensures forall j :: 0 <= j < i ==> KeyOf(vs[j]) != key
  {
    if vs == [] then 0
    else if KeyOf(vs[0]) == key then 0
    else 1 + FindVariant(vs[1..], key)
  }

  /** A matched variant takes the incoming stock, price and descriptions. */
  function Refreshed(v: ProductVariant, d: VariantDto): ProductVariant
  {
    v.(stock := d.stock, price := d.price, brandNew := d.brandNew, features := d.features,
       seoDescription := d.seoDescription)
  }

  /** A variant added for a key the product did not have; its counters start at 0. */
  function NewVariant(d: VariantDto, id: Guid, productId: Guid): ProductVariant
  {
    ProductVariant(id, productId, d.size, d.colorCode, d.colorName, d.stock, d.price, d.brandNew, d.features,
                   d.seoDescription, 0, 0)
  }

  /** One pass of the variant loop. */
  function ApplyVariant(vs: seq<ProductVariant>, d: VariantDto, id: Guid, productId: Guid): seq<ProductVariant>
  {
    var i := FindVariant(vs, DtoKey(d));
    if i < |vs| then vs[i := Refreshed(vs[i], d)] else vs + [NewVariant(d, id, productId)]
  }

  /** The first n passes of the variant loop. */
  function ApplyVariants(vs: seq<ProductVariant>, dtos: seq<VariantDto>, ids: seq<Guid>, productId: Guid,
                         n: nat): seq<ProductVariant>
    requires n <= |dtos| == |ids|
  {
    if n == 0 then vs
    else ApplyVariant(ApplyVariants(vs, dtos, ids, productId, n - 1), dtos[n - 1], ids[n - 1], productId)
  }

  /** The variants after UpdateAsync: the unwanted ones removed, then every
      incoming variant matched or added. */
  function ReconciledVariants(existing: seq<ProductVariant>, dtos: seq<VariantDto>, ids: seq<Guid>,
                              productId: Guid): seq<ProductVariant>
    requires |dtos| == |ids|
  {
    ApplyVariants(KeepVariants(existing, IncomingKeys(dtos)), dtos, ids, productId, |dtos|)
  }

  /** One pass adds the incoming key and no other. */
  lemma ApplyVariantKeys(vs: seq<ProductVariant>, d: VariantDto, id: Guid, productId: Guid)
    ensures Keys(ApplyVariant(vs, d, id, productId)) == Keys(vs) + {DtoKey(d)}
  {
    var i := FindVariant(vs, DtoKey(d));
    var r := ApplyVariant(vs, d, id, productId);
    if i < |vs| {
      assert KeyOf(r[i]) == KeyOf(vs[i]);
      forall k | k in Keys(r) ensures k in Keys(vs) {
        var w :| w in r && KeyOf(w) == k;
        var j :| 0 <= j < |r| && r[j] == w;
        assert KeyOf(vs[j]) == k;
      }
      forall k | k in Keys(vs) ensures k in Keys(r) {
        var w :| w in vs && KeyOf(w) == k;
        var j :| 0 <= j < |vs| && vs[j] == w;
        assert KeyOf(r[j]) == k;
      }
    } else {
      assert r == vs + [NewVariant(d, id, productId)];
      assert r[|vs|] in r;
      forall k | k in Keys(r) ensures k in Keys(vs) + {DtoKey(d)} {
        var w :| w in r && KeyOf(w) == k;
        var j :| 0 <= j < |r| && r[j] == w;
        if j < |vs| {
          assert vs[j] == w;
        }
      }
      forall k | k in Keys(vs) ensures k in Keys(r) {
        var w :| w in vs && KeyOf(w) == k;
        assert w in r;
      }
    }
  }

  /** One pass keeps every variant already there in place with its id, key
      and counters, and anything it adds is the new variant. */
  lemma ApplyVariantKeeps(vs: seq<ProductVariant>, d: VariantDto, id: Guid, productId: Guid)
    ensures |ApplyVariant(vs, d, id, productId)| >= |vs|
    ensures forall i :: 0 <= i < |vs| ==>
      var w := ApplyVariant(vs, d, id, productId)[i];
      w.variantId == vs[i].variantId && KeyOf(w) == KeyOf(vs[i]) &&
      w.viewsCount == vs[i].viewsCount && w.salesCount == vs[i].salesCount
    ensures forall i :: |vs| <= i < |ApplyVariant(vs, d, id, productId)| ==>
      ApplyVariant(vs, d, id, productId)[i] == NewVariant(d, id, productId)
  {
  }

  /** After one pass, the variant the key now finds carries the incoming
      stock and price. */
  lemma ApplyVariantRefreshes(vs: seq<ProductVariant>, d: VariantDto, id: Guid, productId: Guid)
    ensures var r := ApplyVariant(vs, d, id, productId);
      FindVariant(r, DtoKey(d)) < |r| && r[FindVariant(r, DtoKey(d))].stock == d.stock &&
      r[FindVariant(r, DtoKey(d))].price == d.price
  {
    var i := FindVariant(vs, DtoKey(d));
    var r := ApplyVariant(vs, d, id, productId);
    if i < |vs| {
      FindPreserved(vs, r, DtoKey(d), i);
    } else {
      FindPreserved(vs, r, DtoKey(d), |vs|);
    }
  }

  lemma IncomingKeysSnoc(dtos: seq<VariantDto>, n: nat)
    requires 0 < n <= |dtos|
    ensures IncomingKeys(dtos[..n]) == IncomingKeys(dtos[..n - 1]) + {DtoKey(dtos[n - 1])}
  {
    assert dtos[..n] == dtos[..n - 1] + [dtos[n - 1]];
  }

  /** FindVariant depends only on the keys up to the first match. */
  lemma {:induction false} FindPreserved(vs: seq<ProductVariant>, r: seq<ProductVariant>, key: string, i: nat)
    requires i < |r| && i <= |vs| && KeyOf(r[i]) == key
    requires forall j :: 0 <= j < i ==> KeyOf(r[j]) == KeyOf(vs[j]) && KeyOf(vs[j]) != key
    ensures FindVariant(r, key) == i
  {
    if i > 0 {
      FindPreserved(vs[1..], r[1..], key, i - 1);
    }
  }

  /** The keys after n passes are the kept keys plus the incoming keys seen so far. */
  lemma {:induction false} ApplyVariantsKeys(vs: seq<ProductVariant>, dtos: seq<VariantDto>, ids: seq<Guid>,
                                              productId: Guid, n: nat)
    requires n <= |dtos| == |ids|
    ensures Keys(ApplyVariants(vs, dtos, ids, productId, n)) == Keys(vs) + IncomingKeys(dtos[..n])
  {
    if n > 0 {
      ApplyVariantsKeys(vs, dtos, ids, productId, n - 1);
      ApplyVariantKeys(ApplyVariants(vs, dtos, ids, productId, n - 1), dtos[n - 1], ids[n - 1], productId);
      IncomingKeysSnoc(dtos, n);
    } else {
      assert IncomingKeys(dtos[..0]) == {};
    }
  }

  /** After an update the product has exactly the incoming Size-ColorCode keys. */
  lemma VariantKeysMatchIncoming(existing: seq<ProductVariant>, dtos: seq<VariantDto>, ids: seq<Guid>,
                                 productId: Guid)
    requires |dtos| == |ids|
    ensures Keys(ReconciledVariants(existing, dtos, ids, productId)) == IncomingKeys(dtos)
  {
    var kept := KeepVariants(existing, IncomingKeys(dtos));
    ApplyVariantsKeys(kept, dtos, ids, productId, |dtos|);
    assert dtos[..|dtos|] == dtos;
    assert Keys(kept) <= IncomingKeys(dtos);
  }

  /** w is v, possibly refreshed: same id, key and counters. */
  predicate SameVariant(w: ProductVariant, v: ProductVariant)
  {
    w.variantId == v.variantId && KeyOf(w) == KeyOf(v) && w.viewsCount == v.viewsCount && w.salesCount == v.salesCount
  }

  /** w is a new variant with one of the given ids and counters at 0. */
  predicate NewWithId(w: ProductVariant, ids: seq<Guid>)
  {
    w.viewsCount == 0 && w.salesCount == 0 && w.variantId in ids
  }

  /** The kept variants stay first and keep their id, key and counters; every
      variant after them is new, with an incoming id and counters at 0. */
  lemma {:induction false} ApplyVariantsIdentity(vs: seq<ProductVariant>, dtos: seq<VariantDto>, ids: seq<Guid>,
                                                  productId: Guid, n: nat)
    requires n <= |dtos| == |ids|
    ensures |ApplyVariants(vs, dtos, ids, productId, n)| >= |vs|
    ensures forall i :: 0 <= i < |vs| ==> SameVariant(ApplyVariants(vs, dtos, ids, productId, n)[i], vs[i])
    ensures forall i :: |vs| <= i < |ApplyVariants(vs, dtos, ids, productId, n)| ==>
      NewWithId(ApplyVariants(vs, dtos, ids, productId, n)[i], ids[..n])
  {
    if n > 0 {
      ApplyVariantsIdentity(vs, dtos, ids, productId, n - 1);
      VariantPassIdentity(vs, ApplyVariants(vs, dtos, ids, productId, n - 1), dtos[n - 1], ids, n, productId);
    }
  }

  /** Pass n-1 keeps the identity of the variants before it and adds at most
      one new variant, with id ids[n-1]. */
  lemma VariantPassIdentity(vs: seq<ProductVariant>, before: seq<ProductVariant>, d: VariantDto, ids: seq<Guid>,
                            n: nat, productId: Guid)
    requires 0 < n <= |ids| && |before| >= |vs|
    requires forall i :: 0 <= i < |vs| ==> SameVariant(before[i], vs[i])
    requires forall i :: |vs| <= i < |before| ==> NewWithId(before[i], ids[..n - 1])
    ensures var after := ApplyVariant(before, d, ids[n - 1], productId);
      && |after| >= |vs|
      && (forall i :: 0 <= i < |vs| ==> SameVariant(after[i], vs[i]))
      && (forall i :: |vs| <= i < |after| ==> NewWithId(after[i], ids[..n]))
  {
    var after := ApplyVariant(before, d, ids[n - 1], productId);
    ApplyVariantKeeps(before, d, ids[n - 1], productId);
    assert ids[..n] == ids[..n - 1] + [ids[n - 1]];
    forall i | |vs| <= i < |after| ensures NewWithId(after[i], ids[..n]) {
      if i < |before| {
        assert NewWithId(before[i], ids[..n - 1]);
      }
    }
  }

  /** Variants that survive an update keep their id and counters; the new
      ones start with ViewsCount = SalesCount = 0. */
  lemma MatchedVariantsKeepIdentity(existing: seq<ProductVariant>, dtos: seq<VariantDto>, ids: seq<Guid>,
                                    productId: Guid)
    requires |dtos| == |ids|
    ensures var kept := KeepVariants(existing, IncomingKeys(dtos));
      var r := ReconciledVariants(existing, dtos, ids, productId);
      |r| >= |kept| &&
      (forall i :: 0 <= i < |kept| ==>
         r[i].variantId == kept[i].variantId && r[i].viewsCount == kept[i].viewsCount &&
         r[i].salesCount == kept[i].salesCount) &&
      (forall i :: |kept| <= i < |r| ==> r[i].viewsCount == 0 && r[i].salesCount == 0 && r[i].variantId in ids)
  {
    var kept := KeepVariants(existing, IncomingKeys(dtos));
    ApplyVariantsIdentity(kept, dtos, ids, productId, |dtos|);
    assert ids[..|dtos|] == ids;
  }

  // ---------------------------------------------------------------------
  // Images, matched by trimmed URL. The matching is written for any URL
  // normalisation norm; UpdateAsync uses String.Trim, which is idempotent
  // (Common.TrimIdempotent).

  /** Normalising twice is normalising once. */
  ghost predicate Idempotent(norm: string -> string)
  {
    forall s :: norm(norm(s)) == norm(s)
  }

  /** The incoming URLs, normalised; none for a null list. */
  function IncomingUrls(urls: Option<seq<string>>, norm: string -> string): set<string>
  {
    if urls.None? then {} else set u | u in urls.value :: norm(u)
  }

  function ImageUrls(imgs: seq<ProductImage>, norm: string -> string): set<string>
  {
    set img | img in imgs :: norm(img.url)
  }

  /** The images whose normalised URL is still wanted, in their order. */
  function KeepImages(imgs: seq<ProductImage>, keep: set<string>, norm: string -> string): (r: seq<ProductImage>)
    ensures forall img :: img in r <==> img in imgs && norm(img.url) in keep
  {
    if imgs == [] then []
    else (if norm(imgs[0].url) in keep then [imgs[0]] else []) + KeepImages(imgs[1..], keep, norm)
  }

  /** The first image whose normalised URL is url, or |imgs|. */
  function FindImage(imgs: seq<ProductImage>, url: string, norm: string -> string): (i: nat)
    ensures i <= |imgs|
    ensures i < |imgs| ==> norm(imgs[i].url) == url
    ensures forall j :: 0 <= j < i ==> norm(imgs[j].url) != url
  {
    if imgs == [] then 0
    else if norm(imgs[0].url) == url then 0
    else 1 + FindImage(imgs[1..], url, norm)
  }

  /** Pass i of the image loop: the matched image's primary flag is set to
      i == 0, or a new image with the normalised URL is added. */
  function ApplyImage(imgs: seq<ProductImage>, url: string, i: nat, id: Guid, productId: Guid,
                      norm: string -> string): seq<ProductImage>
  {
    var u := norm(url);
    var j := FindImage(imgs, u, norm);
    if j < |imgs| then imgs[j := imgs[j].(isPrimary := i == 0)]
    else imgs + [ProductImage(id, productId, u, i == 0)]
  }

  /** The first n passes of the image loop. */
  function ApplyImages(imgs: seq<ProductImage>, urls: seq<string>, ids: seq<Guid>, productId: Guid, n: nat,
                       norm: string -> string): seq<ProductImage>
    requires n <= |urls| == |ids|
  {
    if n == 0 then imgs
    else ApplyImage(ApplyImages(imgs, urls, ids, productId, n - 1, norm), urls[n - 1], n - 1, ids[n - 1], productId, norm)
  }

  /** The images after UpdateAsync: the unwanted ones removed, then, for a
      non-empty list, every URL matched or added. */
  function ReconciledImages(existing: seq<ProductImage>, urls: Option<seq<string>>, ids: seq<Guid>,
                            productId: Guid): seq<ProductImage>
    requires urls.Some? ==> |urls.value| == |ids|
  {
    var kept := KeepImages(existing, IncomingUrls(urls, Trim), Trim);
    if urls.Some? && |urls.value| > 0 then ApplyImages(kept, urls.value, ids, productId, |urls.value|, Trim) else kept
  }

  /** String.Trim is idempotent. */
  lemma TrimIsIdempotent()
    ensures Idempotent(Trim)
  {
    forall s: string ensures Trim(Trim(s)) == Trim(s) {
      TrimIdempotent(s);
    }
  }

  /** One image pass adds the normalised URL and no other. */
  lemma ApplyImageUrls(imgs: seq<ProductImage>, url: string, i: nat, id: Guid, productId: Guid,
                       norm: string -> string)
    requires Idempotent(norm)
    ensures ImageUrls(ApplyImage(imgs, url, i, id, productId, norm), norm) == ImageUrls(imgs, norm) + {norm(url)}
  {
    var u := norm(url);
    var j := FindImage(imgs, u, norm);
    var r := ApplyImage(imgs, url, i, id, productId, norm);
    if j < |imgs| {
      assert norm(r[j].url) == norm(imgs[j].url);
      forall k | k in ImageUrls(r, norm) ensures k in ImageUrls(imgs, norm) {
        var w :| w in r && norm(w.url) == k;
        var m :| 0 <= m < |r| && r[m] == w;
        assert norm(imgs[m].url) == k;
      }
      forall k | k in ImageUrls(imgs, norm) ensures k in ImageUrls(r, norm) {
        var w :| w in imgs && norm(w.url) == k;
        var m :| 0 <= m < |imgs| && imgs[m] == w;
        assert norm(r[m].url) == k;
      }
    } else {
      assert r == imgs + [ProductImage(id, productId, u, i == 0)];
      assert r[|imgs|] in r && norm(r[|imgs|].url) == u;
      forall k | k in ImageUrls(r, norm) ensures k in ImageUrls(imgs, norm) + {u} {
        var w :| w in r && norm(w.url) == k;
        var m :| 0 <= m < |r| && r[m] == w;
        if m < |imgs| {
          assert imgs[m] == w;
        }
      }
      forall k | k in ImageUrls(imgs, norm) ensures k in ImageUrls(r, norm) {
        var w :| w in imgs && norm(w.url) == k;
        assert w in r;
      }
    }
  }

  lemma IncomingUrlsSnoc(urls: seq<string>, n: nat, norm: string -> string)
    requires 0 < n <= |urls|
    ensures IncomingUrls(Some(urls[..n]), norm) == IncomingUrls(Some(urls[..n - 1]), norm) + {norm(urls[n - 1])}
  {
    assert urls[..n] == urls[..n - 1] + [urls[n - 1]];
  }

  /** The normalised URLs after n passes are the kept ones plus the incoming
      ones seen so far. */
  lemma {:induction false} ApplyImagesUrls(imgs: seq<ProductImage>, urls: seq<string>, ids: seq<Guid>,
                                            productId: Guid, n: nat, norm: string -> string)
    requires n <= |urls| == |ids|
    requires Idempotent(norm)
    ensures ImageUrls(ApplyImages(imgs, urls, ids, productId, n, norm), norm) ==
            ImageUrls(imgs, norm) + IncomingUrls(Some(urls[..n]), norm)
  {
    if n > 0 {
      ApplyImagesUrls(imgs, urls, ids, productId, n - 1, norm);
      ApplyImageUrls(ApplyImages(imgs, urls, ids, productId, n - 1, norm), urls[n - 1], n - 1, ids[n - 1],
                     productId, norm);
      IncomingUrlsSnoc(urls, n, norm);
    } else {
      assert IncomingUrls(Some(urls[..0]), norm) == {};
    }
  }

  /** After an update the trimmed image URLs are exactly the trimmed incoming
      URLs; a null or empty list removes every image. */
  lemma ImageUrlsMatchIncoming(existing: seq<ProductImage>, urls: Option<seq<string>>, ids: seq<Guid>,
                               productId: Guid)
    requires urls.Some? ==> |urls.value| == |ids|
    ensures ImageUrls(ReconciledImages(existing, urls, ids, productId), Trim) == IncomingUrls(urls, Trim)
  {
    var kept := KeepImages(existing, IncomingUrls(urls, Trim), Trim);
    assert ImageUrls(kept, Trim) <= IncomingUrls(urls, Trim);
    if urls.Some? && |urls.value| > 0 {
      TrimIsIdempotent();
      ApplyImagesUrls(kept, urls.value, ids, productId, |urls.value|, Trim);
      assert urls.value[..|urls.value|] == urls.value;
    } else if urls.Some? {
      assert IncomingUrls(urls, Trim) == {};
    }
  }

  lemma {:induction false} FindImagePreserved(imgs: seq<ProductImage>, r: seq<ProductImage>, url: string, k: nat,
                                              norm: string -> string)
    requires k < |r| && k <= |imgs| && norm(r[k].url) == url
    requires forall j :: 0 <= j < k ==> norm(r[j].url) == norm(imgs[j].url) && norm(imgs[j].url) != url
    ensures FindImage(r, url, norm) == k
  {
    if k > 0 {
      FindImagePreserved(imgs[1..], r[1..], url, k - 1, norm);
    }
  }

  /** Pass i leaves the first match of every other normalised URL where it
      was, with its flag. */
  lemma ApplyImageLeavesOthers(imgs: seq<ProductImage>, url: string, i: nat, id: Guid, productId: Guid,
                               other: string, norm: string -> string)
    requires other != norm(url) && FindImage(imgs, other, norm) < |imgs|
    ensures var r := ApplyImage(imgs, url, i, id, productId, norm);
      FindImage(r, other, norm) == FindImage(imgs, other, norm) &&
      r[FindImage(r, other, norm)] == imgs[FindImage(imgs, other, norm)]
  {
    var r := ApplyImage(imgs, url, i, id, productId, norm);
    FindImagePreserved(imgs, r, other, FindImage(imgs, other, norm), norm);
  }

  /** Pass i leaves the matched or added image first for its URL, with the
      primary flag i == 0. */
  lemma ApplyImageSets(imgs: seq<ProductImage>, url: string, i: nat, id: Guid, productId: Guid,
                       norm: string -> string)
    requires Idempotent(norm)
    ensures MarkedAs(ApplyImage(imgs, url, i, id, productId, norm), norm(url), norm, i == 0)
  {
    var u := norm(url);
    var r := ApplyImage(imgs, url, i, id, productId, norm);
    var j := FindImage(imgs, u, norm);
    if j < |imgs| {
      FindImagePreserved(imgs, r, u, j, norm);
    } else {
      assert norm(r[j].url) == u;
      FindImagePreserved(imgs, r, u, j, norm);
    }
  }

  /** With distinct normalised URLs, after n passes the first image of each
      URL seen is primary exactly when that URL came first. */
  lemma {:induction false} ApplyImagesPrimary(imgs: seq<ProductImage>, urls: seq<string>, ids: seq<Guid>,
                                               productId: Guid, n: nat, norm: string -> string)
    requires n <= |urls| == |ids|
    requires Idempotent(norm)
    requires forall a, b :: 0 <= a < b < |urls| ==> norm(urls[a]) != norm(urls[b])
    ensures forall m :: 0 <= m < n ==> MarkedAs(ApplyImages(imgs, urls, ids, productId, n, norm), norm(urls[m]), norm, m == 0)
  {
    if n > 0 {
      ApplyImagesPrimary(imgs, urls, ids, productId, n - 1, norm);
      PassMarks(ApplyImages(imgs, urls, ids, productId, n - 1, norm), urls, ids, productId, n, norm);
    }
  }

  /** Pass n-1 marks its own URL and leaves the marks of the URLs before it. */
  lemma PassMarks(before: seq<ProductImage>, urls: seq<string>, ids: seq<Guid>, productId: Guid, n: nat,
                  norm: string -> string)
    requires 0 < n <= |urls| == |ids|
    requires Idempotent(norm)
    requires forall a, b :: 0 <= a < b < |urls| ==> norm(urls[a]) != norm(urls[b])
    requires forall m :: 0 <= m < n - 1 ==> MarkedAs(before, norm(urls[m]), norm, m == 0)
    ensures forall m :: 0 <= m < n ==>
      MarkedAs(ApplyImage(before, urls[n - 1], n - 1, ids[n - 1], productId, norm), norm(urls[m]), norm, m == 0)
  {
    var r := ApplyImage(before, urls[n - 1], n - 1, ids[n - 1], productId, norm);
    ApplyImageSets(before, urls[n - 1], n - 1, ids[n - 1], productId, norm);
    PassKeepsEarlierMarks(before, urls, ids, productId, n, norm);
  }

  /** Pass n-1 leaves the marks of the URLs before it, which differ from its own. */
  lemma PassKeepsEarlierMarks(before: seq<ProductImage>, urls: seq<string>, ids: seq<Guid>, productId: Guid, n: nat,
                              norm: string -> string)
    requires 0 < n <= |urls| == |ids|
    requires forall a, b :: 0 <= a < b < |urls| ==> norm(urls[a]) != norm(urls[b])
    requires forall m :: 0 <= m < n - 1 ==> MarkedAs(before, norm(urls[m]), norm, m == 0)
    ensures forall m :: 0 <= m < n - 1 ==>
      MarkedAs(ApplyImage(before, urls[n - 1], n - 1, ids[n - 1], productId, norm), norm(urls[m]), norm, m == 0)
  {
    forall m | 0 <= m < n - 1
      ensures MarkedAs(ApplyImage(before, urls[n - 1], n - 1, ids[n - 1], productId, norm), norm(urls[m]), norm, m == 0)
    {
      ApplyImageLeavesOthers(before, urls[n - 1], n - 1, ids[n - 1], productId, norm(urls[m]), norm);
    }
  }

  /** The first image with normalised URL u exists and its primary flag is primary. */
  ghost predicate MarkedAs(r: seq<ProductImage>, u: string, norm: string -> string, primary: bool)
  {
    FindImage(r, u, norm) < |r| && r[FindImage(r, u, norm)].isPrimary == primary
  }

  /** With distinct trimmed URLs, the image of the first URL is the primary
      one and the image of every later URL is not. */
  lemma FirstImagePrimary(existing: seq<ProductImage>, urls: seq<string>, ids: seq<Guid>, productId: Guid)
    requires |urls| == |ids|
    requires forall a, b :: 0 <= a < b < |urls| ==> Trim(urls[a]) != Trim(urls[b])
    ensures var r := ReconciledImages(existing, Some(urls), ids, productId);
      forall m :: 0 <= m < |urls| ==>
        FindImage(r, Trim(urls[m]), Trim) < |r| && r[FindImage(r, Trim(urls[m]), Trim)].isPrimary == (m == 0)
  {
    TrimIsIdempotent();
    ApplyImagesPrimary(KeepImages(existing, IncomingUrls(Some(urls), Trim), Trim), urls, ids, productId, |urls|, Trim);
  }

  /** The same URL given twice, first and again later: the image is made
      primary by the first pass and demoted by the second, so the product
      is left without a primary image. */
  lemma RepeatedFirstUrlLeavesNoPrimary(productId: Guid)
    ensures ReconciledImages([], Some(["a.png", "a.png"]), [1, 2], productId) == [ProductImage(1, productId, "a.png", false)]
  {
    var url := "a.png";
    var img := ProductImage(1, productId, url, true);
    assert Trim(url) == url;
    assert KeepImages([], IncomingUrls(Some([url, url]), Trim), Trim) == [];
    assert ApplyImage([], url, 0, 1, productId, Trim) == [img];
    assert FindImage([img], url, Trim) == 0;
    assert ApplyImage([img], url, 1, 2, productId, Trim) == [img.(isPrimary := false)];
    assert ApplyImages([], [url, url], [1, 2], productId, 2, Trim) ==
           ApplyImage(ApplyImages([], [url, url], [1, 2], productId, 1, Trim), url, 1, 2, productId, Trim);
  }

  // ---------------------------------------------------------------------
  // UpdateAsync

  /** The product after UpdateAsync at time now; variantIds and imageIds are
      the GUIDs drawn for added variants and images, one per incoming entry. */
  function Updated(p: Product, dto: ProductDto, now: int, variantIds: seq<Guid>, imageIds: seq<Guid>): (r: Product)
    requires |variantIds| == |dto.variants|
    requires dto.imageUrls.Some? ==> |imageIds| == |dto.imageUrls.value|
    ensures r.productId == p.productId && r.createdAt == p.createdAt && r.isDeleted == p.isDeleted
    ensures r.name == dto.name && r.description == dto.description && r.originalPrice == dto.originalPrice
    ensures r.shopId == dto.shopId && r.updatedAt == now
    ensures r.categories == [dto.categoryId, dto.subcategoryId]
  {
    p.(name := dto.name, description := dto.description, originalPrice := dto.originalPrice, shopId := dto.shopId,
       updatedAt := now,
       variants := ReconciledVariants(p.variants, dto.variants, variantIds, p.productId),
       images := ReconciledImages(p.images, dto.imageUrls, imageIds, p.productId),
       categories := [dto.categoryId, dto.subcategoryId])
  }

  /** The first product with the id (FirstOrDefaultAsync), or |ps|. */
  function FindProduct(ps: seq<Product>, productId: Guid): (i: nat)
    ensures i <= |ps|
    ensures i < |ps| ==> ps[i].productId == productId
    ensures forall j :: 0 <= j < i ==> ps[j].productId != productId
  {
    if ps == [] then 0
    else if ps[0].productId == productId then 0
    else 1 + FindProduct(ps[1..], productId)
  }

  /** The variant half of UpdateAsync: drop the variants whose key is not
      wanted, then refresh or add one per incoming variant. */
  method ReconcileVariants(existing: seq<ProductVariant>, dtos: seq<VariantDto>, ids: seq<Guid>, productId: Guid)
    returns (variants: seq<ProductVariant>)
    requires |dtos| == |ids|
    ensures variants == ReconciledVariants(existing, dtos, ids, productId)
  {
    variants := KeepVariants(existing, IncomingKeys(dtos));
    ghost var kept := variants;
    var k := 0;
    while k < |dtos|
      invariant 0 <= k <= |dtos|
      invariant variants == ApplyVariants(kept, dtos, ids, productId, k)
    {
      ghost var before := variants;
      var variant := dtos[k];
      var j := FindVariant(variants, DtoKey(variant));
      if j < |variants| {
        variants := variants[j := Refreshed(variants[j], variant)];
      } else {
        variants := variants + [NewVariant(variant, ids[k], productId)];
      }
      assert variants == ApplyVariant(before, dtos[k], ids[k], productId);
      k := k + 1;
    }
  }

  /** The image loop of UpdateAsync over a non-empty URL list: each URL,
      trimmed, marks the first image with that URL primary or not, or is
      added as a new image. */
  method MarkOrAddImages(kept: seq<ProductImage>, list: seq<string>, ids: seq<Guid>, productId: Guid,
                         norm: string -> string)
    returns (images: seq<ProductImage>)
    requires |list| == |ids|
    ensures images == ApplyImages(kept, list, ids, productId, |list|, norm)
  {
    images := kept;
    var n := 0;
    while n < |list|
      invariant 0 <= n <= |list|
      invariant images == ApplyImages(kept, list, ids, productId, n, norm)
    {
      ghost var before := images;
      var url := norm(list[n]);
      var j := FindImage(images, url, norm);
      if j < |images| {
        images := images[j := images[j].(isPrimary := n == 0)];
      } else {
        images := images + [ProductImage(ids[n], productId, url, n == 0)];
      }
      assert images == ApplyImage(before, list[n], n, ids[n], productId, norm);
      n := n + 1;
    }
  }

  /** The image half of UpdateAsync: drop the images whose trimmed URL is not
      wanted, then, for a non-empty list, mark or add one per URL. */
  method ReconcileImages(existing: seq<ProductImage>, urls: Option<seq<string>>, ids: seq<Guid>, productId: Guid)
    returns (images: seq<ProductImage>)
    requires urls.Some? ==> |urls.value| == |ids|
    ensures images == ReconciledImages(existing, urls, ids, productId)
  {
    images := KeepImages(existing, IncomingUrls(urls, Trim), Trim);
    if urls.Some? && |urls.value| > 0 {
      images := MarkOrAddImages(images, urls.value, ids, productId, Trim);
    }
  }

  /** The Products and Categories tables. */
  class ProductStore {
    var products: seq<Product>
    var categories: seq<Category>

    constructor (products: seq<Product>, categories: seq<Category>)
      ensures this.products == products && this.categories == categories
    {
      this.products := products;
      this.categories := categories;
    }

    /** UpdateAsync: NotFound for an unknown id; otherwise the scalar fields
        are copied, the variant and image loops reconcile the collections and
        the category links are replaced by the two given ones. ProductCategories
        is keyed by (ProductId, CategoryId), so equal category and subcategory
        ids add the same key twice: SaveChangesAsync throws and nothing is saved. */
    method Update(productId: Guid, dto: ProductDto, now: int, variantIds: seq<Guid>, imageIds: seq<Guid>)
      returns (r: Outcome<()>)
      requires |variantIds| == |dto.variants|
      requires dto.imageUrls.Some? ==> |imageIds| == |dto.imageUrls.value|
      modifies this
      ensures categories == old(categories)
      ensures r.Err? <==> FindProduct(old(products), productId) == |old(products)| || dto.categoryId == dto.subcategoryId
      ensures r.Err? ==> products == old(products)
      ensures r.Ok? ==>
        var i := FindProduct(old(products), productId);
        products == old(products)[i := Updated(old(products)[i], dto, now, variantIds, imageIds)]
    {
      var i := FindProduct(products, productId);
      if i == |products| {
        return Err("Product not found");
      }
      if dto.categoryId == dto.subcategoryId {
        return Err("Duplicate ProductCategories key");
      }
      var existing := products[i];
      var pid := existing.productId;

      var variants := ReconcileVariants(existing.variants, dto.variants, variantIds, pid);
      var images := ReconcileImages(existing.images, dto.imageUrls, imageIds, pid);
      products := products[i := existing.(name := dto.name, description := dto.description,
                                          originalPrice := dto.originalPrice, shopId := dto.shopId,
                                          updatedAt := now, variants := variants, images := images,
                                          categories := [dto.categoryId, dto.subcategoryId])];
      r := Ok(());
    }
  }

  // ---------------------------------------------------------------------
  // GetProductsByCategoryTreeAsync

  /** Category; ParentCategoryId is nullable. */
  datatype Category = Category(categoryId: Guid, parentId: Option<Guid>)

  /** The ids of the categories whose parent is parent, in table order. */
  function ChildrenOf(cats: seq<Category>, parent: Guid): (r: seq<Guid>)
    ensures forall c :: c in r <==> exists k :: 0 <= k < |cats| && cats[k].parentId == Some(parent) && cats[k].categoryId == c
  {
    if cats == [] then []
    else
      var rest := ChildrenOf(cats[1..], parent);
      assert forall k :: 1 <= k < |cats| ==> cats[k] == cats[1..][k - 1];
      assert forall k :: 0 <= k < |cats[1..]| ==> cats[1..][k] == cats[k + 1];
      (if cats[0].parentId == Some(parent) then [cats[0].categoryId] else []) + rest
  }

  /** GetAllChildCategoryIds, descending at most depth levels: the children,
      then everything below each child in turn. */
  function ChildCategoryIds(cats: seq<Category>, parent: Guid, depth: nat): seq<Guid>
    decreases depth, 0, 0
  {
    if depth == 0 then []
    else ChildrenOf(cats, parent) + BelowAll(cats, ChildrenOf(cats, parent), depth - 1)
  }

  /** The descendants of each id, concatenated. */
  function BelowAll(cats: seq<Category>, ids: seq<Guid>, depth: nat): seq<Guid>
    decreases depth, 1, |ids|
  {
    if ids == [] then []
    else ChildCategoryIds(cats, ids[0], depth) + BelowAll(cats, ids[1..], depth)
  }

  /** id lies below root, at most depth parent links down. */
  predicate Below(cats: seq<Category>, id: Guid, root: Guid, depth: nat)
    decreases depth
  {
    depth > 0 &&
    exists k :: 0 <= k < |cats| && cats[k].parentId == Some(root) &&
      (cats[k].categoryId == id || Below(cats, id, cats[k].categoryId, depth - 1))
  }

  /** The recursion collects exactly the categories below the root. */
  lemma {:induction false} ChildCategoryIdsExact(cats: seq<Category>, parent: Guid, depth: nat, id: Guid)
    ensures id in ChildCategoryIds(cats, parent, depth) <==> Below(cats, id, parent, depth)
    decreases depth, 0, 0
  {
    if depth > 0 {
      var children := ChildrenOf(cats, parent);
      BelowAllExact(cats, children, depth - 1, id);
      if Below(cats, id, parent, depth) {
        var k :| 0 <= k < |cats| && cats[k].parentId == Some(parent) &&
          (cats[k].categoryId == id || Below(cats, id, cats[k].categoryId, depth - 1));
        assert cats[k].categoryId in children;
      }
      if id in BelowAll(cats, children, depth - 1) {
        var c :| c in children && Below(cats, id, c, depth - 1);
        var k :| 0 <= k < |cats| && cats[k].parentId == Some(parent) && cats[k].categoryId == c;
      }
    }
  }

  lemma {:induction false} BelowAllExact(cats: seq<Category>, ids: seq<Guid>, depth: nat, id: Guid)
    ensures id in BelowAll(cats, ids, depth) <==> exists c :: c in ids && Below(cats, id, c, depth)
    decreases depth, 1, |ids|
  {
    if ids != [] {
      ChildCategoryIdsExact(cats, ids[0], depth, id);
      BelowAllExact(cats, ids[1..], depth, id);
      assert forall c :: c in ids <==> c == ids[0] || c in ids[1..] by {
        assert ids == [ids[0]] + ids[1..];
      }
    }
  }

  /** The ids the tree query uses: the root and all its descendants. The
      depth is bounded by the number of categories, which any descent without
      a cycle stays within. */
  function CategoryTreeIds(cats: seq<Category>, root: Guid): seq<Guid>
  {
    [root] + ChildCategoryIds(cats, root, |cats|)
  }

  /** The query's condition on one product. */
  predicate InTree(p: Product, treeIds: seq<Guid>)
  {
    !p.isDeleted && exists c :: c in p.categories && c in treeIds
  }

  /** GetProductsByCategoryTreeAsync: the products, in table order, that are
      not deleted and link to a category of the tree. */
  function ProductsByCategoryTree(products: seq<Product>, cats: seq<Category>, root: Guid): (r: seq<Product>)
    ensures |r| <= |products|
  {
    var ids := CategoryTreeIds(cats, root);
    if products == [] then []
    else (if InTree(products[0], ids) then [products[0]] else []) + ProductsByCategoryTree(products[1..], cats, root)
  }

  /** The tree query returns exactly the live products linked to the root or
      to a category below it. */
  lemma {:induction false} CategoryTreeMembers(products: seq<Product>, cats: seq<Category>, root: Guid, p: Product)
    ensures p in ProductsByCategoryTree(products, cats, root) <==>
      p in products && !p.isDeleted &&
      exists c :: c in p.categories && (c == root || Below(cats, c, root, |cats|))
  {
    forall c ensures c in CategoryTreeIds(cats, root) <==> c == root || Below(cats, c, root, |cats|) {
      ChildCategoryIdsExact(cats, root, |cats|, c);
    }
    ProductsInTreeMembers(products, CategoryTreeIds(cats, root), cats, root, p);
  }

  lemma {:induction false} ProductsInTreeMembers(products: seq<Product>, ids: seq<Guid>, cats: seq<Category>,
                                                 root: Guid, p: Product)
    requires ids == CategoryTreeIds(cats, root)
    ensures p in ProductsByCategoryTree(products, cats, root) <==> p in products && InTree(p, ids)
  {
    if products != [] {
      ProductsInTreeMembers(products[1..], ids, cats, root, p);
      assert products == [products[0]] + products[1..];
    }
  }

  // ---------------------------------------------------------------------
  // QueryProductsAsync

  /** ProductQueryDto; a decimal price bound is a whole amount here. */
  datatype ProductQuery = ProductQuery(shopId: Option<Guid>, searchTerm: Option<string>,
                                       categoryIds: Option<seq<Guid>>, minPrice: Option<int>,
                                       maxPrice: Option<int>, sortBy: Option<string>, descending: bool,
                                       page: int, pageSize: int)

  /** PagedResultDto. */
  datatype PagedResult = PagedResult(items: seq<Product>, totalCount: int)

  /** The filters of QueryProductsAsync; an absent, blank or empty filter lets
      everything through. */
  predicate Matches(p: Product, q: ProductQuery)
  {
    && (q.shopId.None? || p.shopId == q.shopId.value)
    && (q.searchTerm.None? || IsBlank(q.searchTerm.value)
        || Contains(p.name, q.searchTerm.value) || Contains(p.description, q.searchTerm.value))
    && (q.categoryIds.None? || q.categoryIds.value == []
        || exists c :: c in p.categories && c in q.categoryIds.value)
    && (q.minPrice.None? || p.originalPrice >= q.minPrice.value)
    && (q.maxPrice.None? || p.originalPrice <= q.maxPrice.value)
  }

  function Filtered(products: seq<Product>, q: ProductQuery): (r: seq<Product>)
    ensures |r| <= |products|
    ensures forall p :: p in r <==> p in products && Matches(p, q)
  {
    if products == [] then []
    else (if Matches(products[0], q) then [products[0]] else []) + Filtered(products[1..], q)
  }

  datatype SortKey = ByPrice | ByCreatedAt | ByName

  /** The sort the SortBy switch picks: price, createdat or name in either
      direction, in any letter case; anything else, or nothing, is newest first. */
  function Ordering(q: ProductQuery): (r: (SortKey, bool))
    ensures q.sortBy.None? || q.sortBy.value == "" ==> r == (ByCreatedAt, true)
    ensures r.1 != q.descending ==> r == (ByCreatedAt, true)
  {
    if q.sortBy.None? || q.sortBy.value == "" then (ByCreatedAt, true)
    else
      var s := Lower(q.sortBy.value);
      if s == "price" then (ByPrice, q.descending)
      else if s == "createdat" then (ByCreatedAt, q.descending)
      else if s == "name" then (ByName, q.descending)
      else (ByCreatedAt, true)
  }

  predicate KeyLess(a: Product, b: Product, key: SortKey)
  {
    match key
    case ByPrice => a.originalPrice < b.originalPrice
    case ByCreatedAt => a.createdAt < b.createdAt
    case ByName => OrdinalLess(a.name, b.name)
  }

  /** a must come before b in the chosen order. */
  predicate Before(a: Product, b: Product, key: SortKey, desc: bool)
  {
    if desc then KeyLess(b, a, key) else KeyLess(a, b, key)
  }

  lemma BeforeIrreflexive(a: Product, key: SortKey, desc: bool)
    ensures !Before(a, a, key, desc)
  {
    if key == ByName {
      OrdinalIrreflexive(a.name);
    }
  }

  lemma BeforeTransitive(a: Product, b: Product, c: Product, key: SortKey, desc: bool)
    requires Before(a, b, key, desc) && Before(b, c, key, desc)
    ensures Before(a, c, key, desc)
  {
    if key == ByName {
      if desc {
        OrdinalTransitive(c.name, b.name, a.name);
      } else {
        OrdinalTransitive(a.name, b.name, c.name);
      }
    }
  }

  /** No product is followed by one that must come before it. */
  predicate OrderedBy(xs: seq<Product>, key: SortKey, desc: bool)
  {
    forall i, j :: 0 <= i < j < |xs| ==> !Before(xs[j], xs[i], key, desc)
  }

  /** x placed after every product it need not precede. */
  function InsertOrdered(x: Product, ys: seq<Product>, key: SortKey, desc: bool): (r: seq<Product>)
    ensures multiset(r) == multiset(ys) + multiset{x}
  {
    if ys == [] then [x]
    else if Before(x, ys[0], key, desc) then [x] + ys
    else
      assert ys == [ys[0]] + ys[1..];
      [ys[0]] + InsertOrdered(x, ys[1..], key, desc)
  }

  /** OrderBy / OrderByDescending on the key. The insertion sort settles ties
      stably, in table order; the source's SQL query fixes no order among ties. */
  function SortProducts(xs: seq<Product>, key: SortKey, desc: bool): (r: seq<Product>)
    ensures multiset(r) == multiset(xs)
  {
    if xs == [] then []
    else
      assert xs == xs[..|xs| - 1] + [xs[|xs| - 1]];
      InsertOrdered(xs[|xs| - 1], SortProducts(xs[..|xs| - 1], key, desc), key, desc)
  }

  lemma {:induction false} InsertKeepsOrder(x: Product, ys: seq<Product>, key: SortKey, desc: bool)
    requires OrderedBy(ys, key, desc)
    ensures OrderedBy(InsertOrdered(x, ys, key, desc), key, desc)
  {
    if ys != [] && !Before(x, ys[0], key, desc) {
      var rest := ys[1..];
      OrderedTail(ys, key, desc);
      InsertKeepsOrder(x, rest, key, desc);
      var r := InsertOrdered(x, rest, key, desc);
      InsertedFrom(x, rest, key, desc);
      forall j | 0 <= j < |r| ensures !Before(r[j], ys[0], key, desc) {
        if r[j] != x {
          var m :| 0 <= m < |rest| && rest[m] == r[j];
          assert ys[m + 1] == r[j];
        }
      }
      ConsOrdered(ys[0], r, key, desc);
    } else if ys != [] {
      forall j | 0 <= j < |ys| ensures !Before(ys[j], x, key, desc) {
        if Before(ys[j], x, key, desc) {
          BeforeTransitive(ys[j], x, ys[0], key, desc);
          if j == 0 {
            BeforeIrreflexive(ys[0], key, desc);
          }
        }
      }
      ConsOrdered(x, ys, key, desc);
    }
  }

  /** The tail of an ordered list is ordered. */
  lemma OrderedTail(ys: seq<Product>, key: SortKey, desc: bool)
    requires ys != [] && OrderedBy(ys, key, desc)
    ensures OrderedBy(ys[1..], key, desc)
  {
    var rest := ys[1..];
    forall i, j | 0 <= i < j < |rest| ensures !Before(rest[j], rest[i], key, desc) {
      assert rest[i] == ys[i + 1] && rest[j] == ys[j + 1];
    }
  }

  /** An ordered list stays ordered under a head that nothing in it must precede. */
  lemma ConsOrdered(h: Product, r: seq<Product>, key: SortKey, desc: bool)
    requires OrderedBy(r, key, desc)
    requires forall j :: 0 <= j < |r| ==> !Before(r[j], h, key, desc)
    ensures OrderedBy([h] + r, key, desc)
  {
    var s := [h] + r;
    forall i, j | 0 <= i < j < |s| ensures !Before(s[j], s[i], key, desc) {
      assert s[j] == r[j - 1];
      if i > 0 {
        assert s[i] == r[i - 1];
      }
    }
  }

  /** Every element of the inserted list is x or comes from the list. */
  lemma InsertedFrom(x: Product, ys: seq<Product>, key: SortKey, desc: bool)
    ensures forall j :: 0 <= j < |InsertOrdered(x, ys, key, desc)| ==>
      InsertOrdered(x, ys, key, desc)[j] == x || InsertOrdered(x, ys, key, desc)[j] in ys
  {
    var r := InsertOrdered(x, ys, key, desc);
    forall j | 0 <= j < |r| ensures r[j] == x || r[j] in ys {
      assert r[j] in multiset(r);
    }
  }

  /** The sorted list is in the chosen order. */
  lemma {:induction false} SortProductsOrdered(xs: seq<Product>, key: SortKey, desc: bool)
    ensures OrderedBy(SortProducts(xs, key, desc), key, desc)
  {
    if xs != [] {
      SortProductsOrdered(xs[..|xs| - 1], key, desc);
      InsertKeepsOrder(xs[|xs| - 1], SortProducts(xs[..|xs| - 1], key, desc), key, desc);
    }
  }

  /** Skip((Page - 1) * PageSize): a negative count skips nothing. */
  function SkipCount(page: int, pageSize: int): nat
  {
    var s := (page - 1) * pageSize;
    if s < 0 then 0 else s
  }

  /** Skip(...).Take(PageSize): the bounds of the page within n products. */
  function PageBounds(n: nat, page: int, pageSize: int): (b: (nat, nat))
    ensures b.0 <= b.1 <= n
    ensures b.0 == (if SkipCount(page, pageSize) < n then SkipCount(page, pageSize) else n)
    ensures pageSize >= 0 ==> b.1 - b.0 <= pageSize
    ensures pageSize <= 0 ==> b.1 == b.0
  {
    var s := if SkipCount(page, pageSize) < n then SkipCount(page, pageSize) else n;
    var t := if pageSize < 0 then 0 else pageSize;
    (s, if s + t < n then s + t else n)
  }

  /** QueryProductsAsync: the total counts every matching product; the items
      are the requested page of them in the chosen order. */
  function QueryProducts(products: seq<Product>, q: ProductQuery): (r: PagedResult)
    ensures r.totalCount == |Filtered(products, q)|
    ensures q.pageSize >= 0 ==> |r.items| <= q.pageSize
    ensures forall p :: p in r.items ==> p in products && Matches(p, q)
  {
    var filtered := Filtered(products, q);
    var order := Ordering(q);
    var sorted := SortProducts(filtered, order.0, order.1);
    var b := PageBounds(|sorted|, q.page, q.pageSize);
    assert forall p :: p in sorted[b.0..b.1] ==> p in multiset(sorted);
    PagedResult(sorted[b.0..b.1], |filtered|)
  }

  /** The items are a contiguous run of the matching products in the chosen
      order, starting (Page - 1) * PageSize in. */
  lemma QueryPage(products: seq<Product>, q: ProductQuery)
    ensures var order := Ordering(q);
      var sorted := SortProducts(Filtered(products, q), order.0, order.1);
      var b := PageBounds(|sorted|, q.page, q.pageSize);
      QueryProducts(products, q).items == sorted[b.0..b.1] && OrderedBy(sorted, order.0, order.1) &&
      multiset(sorted) == multiset(Filtered(products, q))
  {
    var order := Ordering(q);
    SortProductsOrdered(Filtered(products, q), order.0, order.1);
  }
}
