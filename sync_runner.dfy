/** sync_runner.py: how a source product is matched against the destination's product
    cache, which sub-syncs an update runs in each mode, the productSet input and change
    list of a creation, the per-product accounting, and the run's product list and
    progress. Remote calls are replaced by their outcomes, passed in as values. */
module SyncRunner {
  import opened Wrappers
  import opened Strs
  import opened Dicts
  import opened Utils
  import opened ShopifyApi
  import opened StockSync

  // ---------------------------------------------------------------- matching

  const UnknownProductName := "Bilinmeyen Ürün"

  /** `sentos_product.get('name', default)` */
  function NameOr(p: SourceProduct, default: string): string {
    if p.name.Some? then p.name.value else default
  }

  function SkuKey(p: SourceProduct): string {
    "sku:" + Trim(p.own.sku)
  }

  function TitleKey(p: SourceProduct): string {
    "title:" + Trim(NameOr(p, ""))
  }

  /** `_find_shopify_product`: the cache entry under the product's trimmed SKU, else the
      one under its trimmed name; an empty SKU or name skips that lookup. */
  function FindProduct(cache: map<string, CachedProduct>, p: SourceProduct): (r: Option<CachedProduct>)
    ensures r.Some? ==> r.value in cache.Values
  {
    if Trim(p.own.sku) != "" && SkuKey(p) in cache then Some(cache[SkuKey(p)])
    else if Trim(NameOr(p, "")) != "" && TitleKey(p) in cache then Some(cache[TitleKey(p)])
    else None
  }

  /** The SKU wins over the title; the title is used only when the SKU finds nothing; no
      match means neither key finds anything. */
  lemma FindProductSpec(cache: map<string, CachedProduct>, p: SourceProduct)
    ensures Trim(p.own.sku) != "" && SkuKey(p) in cache ==> FindProduct(cache, p) == Some(cache[SkuKey(p)])
    ensures ((Trim(p.own.sku) == "" || SkuKey(p) !in cache) && Trim(NameOr(p, "")) != "" && TitleKey(p) in cache)
              ==> FindProduct(cache, p) == Some(cache[TitleKey(p)])
    ensures FindProduct(cache, p).None? <==>
              && (Trim(p.own.sku) == "" || SkuKey(p) !in cache)
              && (Trim(NameOr(p, "")) == "" || TitleKey(p) !in cache)
  {
  }

  /** A product without a SKU whose name matches the title of a product the cache load
      has just written is found as that product: none of the load's SKU writes can
      overwrite the title key. */
  lemma FoundByTitleAfterLoad(m: map<string, CachedProduct>, rp: RestProduct, p: SourceProduct)
    requires Present(rp.title) && Trim(p.own.sku) == ""
    requires Trim(NameOr(p, "")) == Trim(rp.title.value) != ""
    ensures FindProduct(AssignAll(m, ProductCacheEntries(rp)), p) == Some(CachedProduct(rp.id, ProductGid(rp.id)))
  {
    var entries := ProductCacheEntries(rp);
    ProductCacheEntriesShape(rp);
    forall j | 0 < j < |entries|
      ensures entries[j].0 != entries[0].0
    {
      SkuCacheEntriesShape(rp.variantSkus, CachedProduct(rp.id, ProductGid(rp.id)));
      var head := [("title:" + Trim(rp.title.value), CachedProduct(rp.id, ProductGid(rp.id)))];
      var skus := SkuCacheEntries(rp.variantSkus, CachedProduct(rp.id, ProductGid(rp.id)));
      assert entries == head + skus;
      assert entries[j] == skus[j - 1];
      assert entries[j].0[0] == 's';
    }
    AssignAllLastWins(m, entries, 0);
  }

  // ---------------------------------------------------------------- mode dispatch

  const FullSync := "Tam Senkronizasyon (Tümünü Oluştur ve Güncelle)"
  const DescriptionsOnly := "Sadece Açıklamalar"
  const StockOnly := "Sadece Stok ve Varyantlar"
  const ImagesOnly := "Sadece Resimler"
  const SeoImages := "SEO Alt Metinli Resimler"

  /** The sub-syncs `_update_product` can run. */
  datatype SubSync = Details | ProductType | StockAndVariants | Media(setAltText: bool)

  /** The sub-syncs `_update_product` runs for a mode, in the order it runs them. */
  function UpdateSteps(mode: string): (r: seq<SubSync>)
    ensures |r| <= 4
  {
    (if mode == FullSync || mode == DescriptionsOnly then [Details, ProductType] else [])
    + (if mode == FullSync || mode == StockOnly then [StockAndVariants] else [])
    + (if mode == FullSync || mode == ImagesOnly || mode == SeoImages
       then [Media(mode == FullSync || mode == SeoImages)] else [])
  }

  /** Which modes run which sub-syncs; the full mode runs all four in the order details,
      type, stock, media with alt text; a mode not among the five runs nothing. */
  lemma UpdateStepsByMode(mode: string)
    ensures Details in UpdateSteps(mode) <==> mode == FullSync || mode == DescriptionsOnly
    ensures ProductType in UpdateSteps(mode) <==> mode == FullSync || mode == DescriptionsOnly
    ensures StockAndVariants in UpdateSteps(mode) <==> mode == FullSync || mode == StockOnly
    ensures Media(true) in UpdateSteps(mode) <==> mode == FullSync || mode == SeoImages
    ensures Media(false) in UpdateSteps(mode) <==> mode == ImagesOnly
    ensures mode == FullSync ==> UpdateSteps(mode) == [Details, ProductType, StockAndVariants, Media(true)]
    ensures (mode != FullSync && mode != DescriptionsOnly && mode != StockOnly && mode != ImagesOnly && mode != SeoImages)
              ==> UpdateSteps(mode) == []
  {
    assert |FullSync| != |DescriptionsOnly| && |FullSync| != |StockOnly| && |FullSync| != |ImagesOnly| && |FullSync| != |SeoImages|;
    assert |DescriptionsOnly| != |StockOnly| && |DescriptionsOnly| != |ImagesOnly| && |DescriptionsOnly| != |SeoImages|;
    assert |StockOnly| != |ImagesOnly| && |StockOnly| != |SeoImages| && |ImagesOnly| != |SeoImages|;
  }

  // ---------------------------------------------------------------- the productSet input of a creation

  const DefaultVendor := "Vervegrand"
  const ColorOption := "Renk"
  const SizeOption := "Beden"

  /** The product's own texts the input copies: 'vendor', `str(category)`,
      'description_detail' and 'description'. */
  datatype ProductTexts = ProductTexts(vendor: Option<string>, category: string, descriptionDetail: Option<string>, description: string)

  /** One entry of `productOptions`: a name and its distinct values (a Python set, so in
      no particular order). */
  datatype ProductOption = ProductOption(name: string, values: set<string>)

  datatype NamedValue = NamedValue(optionName: string, name: string)

  /** One entry of the productSet `variants` list. */
  datatype SetVariant = SetVariant(
    price: string,
    sku: string,
    tracked: bool,
    inventoryManagement: string,
    inventoryPolicy: string,
    barcode: Option<string>,
    optionValues: Option<seq<NamedValue>>)

  datatype ProductSetInput = ProductSetInput(
    title: string,
    vendor: string,
    productType: string,
    descriptionHtml: string,
    status: string,
    productOptions: seq<ProductOption>,
    variants: seq<SetVariant>)

  /** The distinct values `f` finds among the first `n` elements, skipping the ones it
      finds nothing in. */
  function OptionValues<T>(f: T -> Option<string>, vs: seq<T>, n: nat): set<string>
    requires n <= |vs|
  {
    if n == 0 then {}
    else
      var c := f(vs[n - 1]);
      OptionValues(f, vs, n - 1) + (if c.Some? then {c.value} else {})
  }

  /** A value is collected exactly when `f` finds it in one of the first `n` elements. */
  lemma {:induction false} OptionValuesSpec<T>(f: T -> Option<string>, vs: seq<T>, n: nat, x: string)
    requires n <= |vs|
    ensures x in OptionValues(f, vs, n) <==> exists i :: 0 <= i < n && f(vs[i]) == Some(x)
  {
    if n > 0 {
      OptionValuesSpec(f, vs, n - 1, x);
      if f(vs[n - 1]) == Some(x) {
        assert x in OptionValues(f, vs, n);
      } else if exists i :: 0 <= i < n && f(vs[i]) == Some(x) {
        var i :| 0 <= i < n && f(vs[i]) == Some(x);
        assert i < n - 1;
      }
    }
  }

  function ColorOf(v: SourceVariant): Option<string> {
    VariantColor(v.color)
  }

  function SizeOf(v: SourceVariant): Option<string> {
    VariantSize(v.model)
  }

  /** The distinct colours of the first `n` variants. */
  function ColorValues(vs: seq<SourceVariant>, n: nat): set<string>
    requires n <= |vs|
  {
    OptionValues(ColorOf, vs, n)
  }

  /** The distinct sizes of the first `n` variants. */
  function SizeValues(vs: seq<SourceVariant>, n: nat): set<string>
    requires n <= |vs|
  {
    OptionValues(SizeOf, vs, n)
  }

  /** Some variant among the first `n` has the colour `x`. */
  predicate HasColor(vs: seq<SourceVariant>, n: nat, x: string)
    requires n <= |vs|
  {
    exists i :: 0 <= i < n && VariantColor(vs[i].color) == Some(x)
  }

  /** Some variant among the first `n` has the size `x`. */
  predicate HasSize(vs: seq<SourceVariant>, n: nat, x: string)
    requires n <= |vs|
  {
    exists i :: 0 <= i < n && VariantSize(vs[i].model) == Some(x)
  }

  /** A colour is offered exactly when some variant has it. */
  lemma ColorValuesSpec(vs: seq<SourceVariant>, n: nat, x: string)
    requires n <= |vs|
    ensures x in ColorValues(vs, n) <==> HasColor(vs, n, x)
  {
    OptionValuesSpec(ColorOf, vs, n, x);
    assert HasColor(vs, n, x) <==> exists i :: 0 <= i < n && ColorOf(vs[i]) == Some(x);
  }

  /** A size is offered exactly when some variant has it. */
  lemma SizeValuesSpec(vs: seq<SourceVariant>, n: nat, x: string)
    requires n <= |vs|
    ensures x in SizeValues(vs, n) <==> HasSize(vs, n, x)
  {
    OptionValuesSpec(SizeOf, vs, n, x);
    assert HasSize(vs, n, x) <==> exists i :: 0 <= i < n && SizeOf(vs[i]) == Some(x);
  }

  /** 'Renk' with the colours, then 'Beden' with the sizes, each only when it has values. */
  function ProductOptions(colors: set<string>, sizes: set<string>): (r: seq<ProductOption>)
    ensures |r| <= 2
  {
    (if colors != {} then [ProductOption(ColorOption, colors)] else [])
    + (if sizes != {} then [ProductOption(SizeOption, sizes)] else [])
  }

  /** The price text: the 'price' value (default "0.00") with ',' replaced by '.'. */
  function PriceText(price: Option<string>): (r: string)
    ensures ',' !in r
  {
    ReplaceChar(if price.Some? then price.value else "0.00", ',', '.')
  }

  /** One productSet variant: tracked, managed by the destination, no overselling;
      barcode and option values only when there are some. */
  /** The option values of one variant: its colour under 'Renk', then its size under 'Beden'. */
  function OptionValuesFor(v: SourceVariant): (r: seq<NamedValue>)
    ensures |r| <= 2
  {
    var c := VariantColor(v.color);
    var s := VariantSize(v.model);
    (if c.Some? then [NamedValue(ColorOption, c.value)] else [])
    + (if s.Some? then [NamedValue(SizeOption, s.value)] else [])
  }

  function SetVariantFor(v: SourceVariant): SetVariant {
    var opts := OptionValuesFor(v);
    SetVariant(PriceText(v.price), v.sku, true, "SHOPIFY", "DENY",
      if Present(v.barcode) then v.barcode else None,
      if |opts| > 0 then Some(opts) else None)
  }

  /** The inputs of the first `n` variants, in order. */
  function SetVariants(vs: seq<SourceVariant>, n: nat): (r: seq<SetVariant>)
    requires n <= |vs|
    ensures |r| == n
  {
    if n == 0 then [] else SetVariants(vs, n - 1) + [SetVariantFor(vs[n - 1])]
  }

  /** The i-th input is built from the i-th variant. */
  lemma {:induction false} SetVariantsAt(vs: seq<SourceVariant>, n: nat, i: nat)
    requires i < n <= |vs|
    ensures SetVariants(vs, n)[i] == SetVariantFor(vs[i])
  {
    if i < n - 1 {
      SetVariantsAt(vs, n - 1, i);
      LastAppended(SetVariants(vs, n - 1), SetVariantFor(vs[n - 1]), i);
    } else {
      LastAppended(SetVariants(vs, n - 1), SetVariantFor(vs[n - 1]), i);
    }
  }

  lemma LastAppended<T>(a: seq<T>, x: T, i: nat)
    requires i <= |a|
    ensures (a + [x])[i] == if i < |a| then a[i] else x
  {
  }

  /** The whole productSet input for a source product. */
  function ProductSetInputFor(p: SourceProduct, texts: ProductTexts): ProductSetInput {
    ProductSetInput(
      NameOr(p, UnknownProductName),
      if texts.vendor.Some? then texts.vendor.value else DefaultVendor,
      texts.category,
      if Present(texts.descriptionDetail) then texts.descriptionDetail.value else texts.description,
      "ACTIVE",
      ProductOptions(ColorValues(p.variants, |p.variants|), SizeValues(p.variants, |p.variants|)),
      SetVariants(p.variants, |p.variants|))
  }

  /** One pass of the option-value loop: `color_values.add(color)` and
      `size_values.add(size)` for the i-th variant's colour and size, when present. */
  method CollectOptionValues(vs: seq<SourceVariant>, i: nat, colors: set<string>, sizes: set<string>)
    returns (colors': set<string>, sizes': set<string>)
    requires i < |vs|
    requires colors == ColorValues(vs, i) && sizes == SizeValues(vs, i)
    ensures colors' == ColorValues(vs, i + 1) && sizes' == SizeValues(vs, i + 1)
  {
    colors', sizes' := colors, sizes;
    var c := VariantColor(vs[i].color);
    if c.Some? {
      colors' := colors' + {c.value};
    }
    var s := VariantSize(vs[i].model);
    if s.Some? {
      sizes' := sizes' + {s.value};
    }
  }

  /** One pass of the variant loop: the i-th variant's input is appended. */
  method AppendSetVariant(vs: seq<SourceVariant>, i: nat, inputs: seq<SetVariant>) returns (inputs': seq<SetVariant>)
    requires i < |vs| && inputs == SetVariants(vs, i)
    ensures inputs' == SetVariants(vs, i + 1)
  {
    inputs' := inputs + [SetVariantFor(vs[i])];
  }

  /** The input building of `_create_product`: one pass collecting the colour and size
      sets, then one building the variant inputs. */
  method CreateProductInput(p: SourceProduct, texts: ProductTexts) returns (input: ProductSetInput)
    ensures input == ProductSetInputFor(p, texts)
  {
    var variants := p.variants;
    var colors: set<string> := {};
    var sizes: set<string> := {};
    var i := 0;
    while i < |variants|
      invariant 0 <= i <= |variants|
      invariant colors == ColorValues(variants, i) && sizes == SizeValues(variants, i)
    {
      colors, sizes := CollectOptionValues(variants, i, colors, sizes);
      i := i + 1;
    }
    var options := ProductOptions(colors, sizes);
    var inputs: seq<SetVariant> := [];
    i := 0;
    while i < |variants|
      invariant 0 <= i <= |variants|
      invariant inputs == SetVariants(variants, i)
    {
      inputs := AppendSetVariant(variants, i, inputs);
      i := i + 1;
    }
    input := ProductSetInput(
      NameOr(p, UnknownProductName),
      if texts.vendor.Some? then texts.vendor.value else DefaultVendor,
      texts.category,
      if Present(texts.descriptionDetail) then texts.descriptionDetail.value else texts.description,
      "ACTIVE", options, inputs);
  }

  /** Every variant input is tracked, managed by the destination and denies overselling;
      its price has no ','; it has a barcode exactly when the variant has a non-empty one,
      and option values exactly when the variant has a colour or a size, the colour
      first. */
  lemma SetVariantShape(v: SourceVariant)
    ensures var r := SetVariantFor(v);
            && r.tracked && r.inventoryManagement == "SHOPIFY" && r.inventoryPolicy == "DENY"
            && r.sku == v.sku && ',' !in r.price
            && (r.barcode.Some? <==> Present(v.barcode))
            && (r.optionValues.Some? <==> VariantColor(v.color).Some? || VariantSize(v.model).Some?)
            && (r.optionValues.Some? ==> r.optionValues.value == OptionValuesFor(v))
            && (r.optionValues.Some? && VariantColor(v.color).Some? ==>
                  r.optionValues.value[0] == NamedValue(ColorOption, VariantColor(v.color).value))
  {
  }

  /** Each option value a variant input names is among the values its product option
      offers: colours under 'Renk', sizes under 'Beden'. */
  lemma VariantValuesOffered(vs: seq<SourceVariant>, i: nat)
    requires i < |vs|
    ensures forall nv :: nv in OptionValuesFor(vs[i]) ==>
              || (nv.optionName == ColorOption && nv.name in ColorValues(vs, |vs|))
              || (nv.optionName == SizeOption && nv.name in SizeValues(vs, |vs|))
  {
    var c := VariantColor(vs[i].color);
    var s := VariantSize(vs[i].model);
    var colorPart: seq<NamedValue> := if c.Some? then [NamedValue(ColorOption, c.value)] else [];
    var sizePart: seq<NamedValue> := if s.Some? then [NamedValue(SizeOption, s.value)] else [];
    ColorOffered(vs, i);
    SizeOffered(vs, i);
    forall nv: NamedValue | nv in colorPart + sizePart
      ensures || (nv.optionName == ColorOption && nv.name in ColorValues(vs, |vs|))
              || (nv.optionName == SizeOption && nv.name in SizeValues(vs, |vs|))
    {
      InConcat(colorPart, sizePart, nv);
    }
  }

  /** A variant's colour, when it has one, is among the colours offered. */
  lemma ColorOffered(vs: seq<SourceVariant>, i: nat)
    requires i < |vs|
    ensures VariantColor(vs[i].color).Some? ==> VariantColor(vs[i].color).value in ColorValues(vs, |vs|)
  {
    var c := VariantColor(vs[i].color);
    if c.Some? {
      assert HasColor(vs, |vs|, c.value);
      ColorValuesSpec(vs, |vs|, c.value);
    }
  }

  /** A variant's size, when it has one, is among the sizes offered. */
  lemma SizeOffered(vs: seq<SourceVariant>, i: nat)
    requires i < |vs|
    ensures VariantSize(vs[i].model).Some? ==> VariantSize(vs[i].model).value in SizeValues(vs, |vs|)
  {
    var s := VariantSize(vs[i].model);
    if s.Some? {
      assert HasSize(vs, |vs|, s.value);
      SizeValuesSpec(vs, |vs|, s.value);
    }
  }

  lemma InConcat<T>(a: seq<T>, b: seq<T>, x: T)
    ensures x in a + b <==> x in a || x in b
  {
  }

  /** The options list names 'Renk' before 'Beden'; each is there, with its values,
      exactly when it has values. */
  lemma ProductOptionsSpec(colors: set<string>, sizes: set<string>)
    ensures var r := ProductOptions(colors, sizes);
            && (|r| == 2 ==> r[0].name == ColorOption && r[1].name == SizeOption)
            && (colors != {} <==> ProductOption(ColorOption, colors) in r)
            && (sizes != {} <==> ProductOption(SizeOption, sizes) in r)
            && (forall o :: o in r ==> o.values != {} && (o == ProductOption(ColorOption, colors) || o == ProductOption(SizeOption, sizes)))
  {
    assert ColorOption != SizeOption by { assert |ColorOption| != |SizeOption|; }
  }

  /** Some colour is offered exactly when some variant has a colour. */
  lemma ColorValuesNonEmpty(vs: seq<SourceVariant>, n: nat)
    requires n <= |vs|
    ensures ColorValues(vs, n) != {} <==> exists i :: 0 <= i < n && VariantColor(vs[i].color).Some?
  {
    if ColorValues(vs, n) != {} {
      var x :| x in ColorValues(vs, n);
      ColorValuesSpec(vs, n, x);
      var i :| 0 <= i < n && VariantColor(vs[i].color) == Some(x);
    }
    if exists i :: 0 <= i < n && VariantColor(vs[i].color).Some? {
      var i :| 0 <= i < n && VariantColor(vs[i].color).Some?;
      var x := VariantColor(vs[i].color).value;
      assert HasColor(vs, n, x);
      ColorValuesSpec(vs, n, x);
    }
  }

  /** Some size is offered exactly when some variant has a size. */
  lemma SizeValuesNonEmpty(vs: seq<SourceVariant>, n: nat)
    requires n <= |vs|
    ensures SizeValues(vs, n) != {} <==> exists i :: 0 <= i < n && VariantSize(vs[i].model).Some?
  {
    if SizeValues(vs, n) != {} {
      var x :| x in SizeValues(vs, n);
      SizeValuesSpec(vs, n, x);
      var i :| 0 <= i < n && VariantSize(vs[i].model) == Some(x);
    }
    if exists i :: 0 <= i < n && VariantSize(vs[i].model).Some? {
      var i :| 0 <= i < n && VariantSize(vs[i].model).Some?;
      var x := VariantSize(vs[i].model).value;
      assert HasSize(vs, n, x);
      SizeValuesSpec(vs, n, x);
    }
  }

  // ---------------------------------------------------------------- the change list of a creation

  /** What the productSet call gives: the exception's text, or the reply's userError
      messages and product id. */
  datatype SetReply = SetRaised(text: string) | SetDone(userErrors: seq<string>, productId: Option<string>)

  /** What the media sync of a new product gives: its changes, or the exception's text. */
  datatype MediaResult = MediaSynced(changes: seq<string>) | MediaFailed(text: string)

  const TrackingFixed := "Inventory tracking düzeltildi"

  function CreateFailure(name: string, reason: string): string {
    "❌ '" + name + "' oluşturulurken kritik hata: " + reason
  }

  /** `_create_product`'s returned change list: every failure (an exception from the
      call, userErrors, no product id) is caught and becomes one '❌' line. On success:
      the creation line, the media changes (or the media error) when the product has an
      'id', and the tracking line. */
  function CreateProductChanges(name: string, hasId: bool, reply: SetReply, media: MediaResult): (r: seq<string>)
    ensures |r| >= 1
  {
    if reply.SetRaised? then [CreateFailure(name, reply.text)]
    else if |reply.userErrors| > 0 then [CreateFailure(name, "ProductSet hatası: [" + Join(", ", reply.userErrors) + "]")]
    else if !Present(reply.productId) then [CreateFailure(name, "Ürün oluşturuldu ancak ID alınamadı.")]
    else
      ["✅ Ürün '" + name + "' tek seferde oluşturuldu (options + variants)"]
      + (if !hasId then []
         else if media.MediaSynced? then media.changes
         else ["⚠️ Medya sync hatası: " + media.text])
      + [TrackingFixed]
  }

  /** A creation fails exactly when the call raised, reported userErrors or gave no id,
      and then the list is the single '❌' line; otherwise it starts with the '✅' line
      and ends with the tracking line. */
  lemma CreateProductChangesSpec(name: string, hasId: bool, reply: SetReply, media: MediaResult)
    ensures var r := CreateProductChanges(name, hasId, reply, media);
            var failed := reply.SetRaised? || |reply.userErrors| > 0 || !Present(reply.productId);
            && (failed ==> |r| == 1 && StartsWith(r[0], "❌"))
            && (!failed ==> |r| >= 2 && StartsWith(r[0], "✅") && r[|r| - 1] == TrackingFixed)
            && (!failed && !hasId ==> |r| == 2)
  {
    var r := CreateProductChanges(name, hasId, reply, media);
    assert StartsWith(r[0], [r[0][0]]);
  }

  // ---------------------------------------------------------------- per-product accounting

  const MissingOnlyMarker := "Sadece Eksik"
  const FullSyncMarker := "Tam Senkronizasyon"

  datatype Status = Skipped | Updated | Created | Failed

  /** The values of the `stats` counters `_process_single_product` updates. */
  datatype Counters = Counters(created: nat, updated: nat, failed: nat, skipped: nat, processed: nat)

  /** One `details` entry: the product's name and SKU, and the failure reason if any. */
  datatype LogEntry = LogEntry(name: string, sku: string, reason: Option<string>)

  /** The status `_process_single_product` records. `updateFailure` is the exception
      `_update_product` raises, if any; `_create_product` never raises. */
  function ProductStatus(cache: map<string, CachedProduct>, p: SourceProduct, mode: string, updateFailure: Option<string>): Status {
    if Trim(NameOr(p, UnknownProductName)) == "" then Skipped
    else if FindProduct(cache, p).Some? then
      if Contains(mode, MissingOnlyMarker) then Skipped
      else if updateFailure.Some? then Failed
      else Updated
    else if Contains(mode, FullSyncMarker) || Contains(mode, MissingOnlyMarker) then Created
    else Skipped
  }

  /** Blank name: skipped; a match is updated unless the mode asks only for missing
      products; no match is created in the full and missing-only modes; anything else is
      skipped; an update that raises is a failure. */
  lemma ProductStatusSpec(cache: map<string, CachedProduct>, p: SourceProduct, mode: string, updateFailure: Option<string>)
    ensures var s := ProductStatus(cache, p, mode, updateFailure);
            var named := Trim(NameOr(p, UnknownProductName)) != "";
            var found := FindProduct(cache, p).Some?;
            && (s == Updated <==> named && found && !Contains(mode, MissingOnlyMarker) && updateFailure.None?)
            && (s == Failed <==> named && found && !Contains(mode, MissingOnlyMarker) && updateFailure.Some?)
            && (s == Created <==> named && !found && (Contains(mode, FullSyncMarker) || Contains(mode, MissingOnlyMarker)))
            && (Contains(mode, MissingOnlyMarker) ==> s == Skipped || s == Created)
  {
  }

  /** The `details` entry appended for a product, if any: none for a blank name or an
      unmatched product that is not created. */
  function DetailFor(cache: map<string, CachedProduct>, p: SourceProduct, mode: string, updateFailure: Option<string>): (r: seq<LogEntry>)
    ensures |r| <= 1
  {
    var name := NameOr(p, UnknownProductName);
    var s := ProductStatus(cache, p, mode, updateFailure);
    if s == Failed then [LogEntry(name, p.own.sku, updateFailure)]
    else if s == Skipped && (Trim(name) == "" || FindProduct(cache, p).None?) then []
    else [LogEntry(name, p.own.sku, None)]
  }

  /** The counters after one product: `processed` and exactly the counter of the status
      go up by one. */
  function Tally(c: Counters, s: Status): (r: Counters)
    ensures r.processed == c.processed + 1
    ensures r.created + r.updated + r.failed + r.skipped == c.created + c.updated + c.failed + c.skipped + 1
    ensures (r.created != c.created <==> s == Created) && (r.updated != c.updated <==> s == Updated)
    ensures (r.failed != c.failed <==> s == Failed) && (r.skipped != c.skipped <==> s == Skipped)
  {
    match s
    case Created => c.(created := c.created + 1, processed := c.processed + 1)
    case Updated => c.(updated := c.updated + 1, processed := c.processed + 1)
    case Failed => c.(failed := c.failed + 1, processed := c.processed + 1)
    case Skipped => c.(skipped := c.skipped + 1, processed := c.processed + 1)
  }

  /** The run's shared `stats` dict and `details` list. */
  class SyncStats {
    var total: nat
    var created: nat
    var updated: nat
    var failed: nat
    var skipped: nat
    var processed: nat
    var details: seq<LogEntry>

    function Counts(): Counters
      reads this
    {
      Counters(created, updated, failed, skipped, processed)
    }

    /** Every processed product is counted under exactly one outcome. */
    ghost predicate Valid()
      reads this
    {
      created + updated + failed + skipped == processed
    }

    constructor()
      ensures Valid()
      ensures total == 0 && created == 0 && updated == 0 && failed == 0 && skipped == 0 && processed == 0
      ensures details == []
    {
      total := 0;
      created, updated, failed, skipped, processed := 0, 0, 0, 0, 0;
      details := [];
    }

    /** `_process_single_product`, its `finally` included: the outcome is decided, then
        counted under the stats lock. */
    method ProcessSingleProduct(cache: map<string, CachedProduct>, p: SourceProduct, mode: string, updateFailure: Option<string>)
      returns (status: Status)
      requires Valid()
      modifies this
      ensures Valid()
      ensures status == ProductStatus(cache, p, mode, updateFailure)
      ensures Counts() == Tally(old(Counts()), status)
      ensures details == old(details) + DetailFor(cache, p, mode, updateFailure)
      ensures total == old(total)
    {
      var logged;
      status, logged := DecideProduct(cache, p, mode, updateFailure);
      Record(status, logged);
    }

    /** Counts one outcome and appends its log entries. */
    method Record(status: Status, logged: seq<LogEntry>)
      requires Valid()
      modifies this
      ensures Valid()
      ensures Counts() == Tally(old(Counts()), status)
      ensures details == old(details) + logged
      ensures total == old(total)
    {
      match status {
        case Created => created := created + 1;
        case Updated => updated := updated + 1;
        case Failed => failed := failed + 1;
        case Skipped => skipped := skipped + 1;
      }
      details := details + logged;
      processed := processed + 1;
    }
  }

  /** The branches of `_process_single_product`: the outcome for one product and the
      `details` entries it logs. */
  method DecideProduct(cache: map<string, CachedProduct>, p: SourceProduct, mode: string, updateFailure: Option<string>)
    returns (status: Status, logged: seq<LogEntry>)
    ensures status == ProductStatus(cache, p, mode, updateFailure)
    ensures logged == DetailFor(cache, p, mode, updateFailure)
  {
    var name := NameOr(p, UnknownProductName);
    var entry := LogEntry(name, p.own.sku, None);
    var found := FindProduct(cache, p).Some?;
    var missingOnly := Contains(mode, MissingOnlyMarker);
    var creates := Contains(mode, FullSyncMarker) || missingOnly;
    logged := [];
    if Trim(name) == "" {
      status := Skipped;
    } else if found {
      if !missingOnly {
        if updateFailure.Some? {
          status := Failed;
          logged := [entry.(reason := updateFailure)];
        } else {
          status := Updated;
          logged := [entry];
        }
      } else {
        status := Skipped;
        logged := [entry];
      }
    } else if creates {
      status := Created;
      logged := [entry];
    } else {
      status := Skipped;
    }
  }

  // ---------------------------------------------------------------- the run's product list and progress

  const TestModeLimit: nat := 20

  /** The products without a match, in order. */
  function Missing(ps: seq<SourceProduct>, cache: map<string, CachedProduct>): (r: seq<SourceProduct>)
    ensures |r| <= |ps|
  {
    if |ps| == 0 then []
    else Missing(ps[..|ps| - 1], cache) + (if FindProduct(cache, ps[|ps| - 1]).None? then [ps[|ps| - 1]] else [])
  }

  /** A product is kept exactly when it is listed and has no match. */
  lemma {:induction false} MissingSpec(ps: seq<SourceProduct>, cache: map<string, CachedProduct>, p: SourceProduct)
    ensures p in Missing(ps, cache) <==> p in ps && FindProduct(cache, p).None?
    decreases |ps|
  {
    if |ps| > 0 {
      var init := ps[..|ps| - 1];
      MissingSpec(init, cache, p);
      assert ps == init + [ps[|ps| - 1]];
    }
  }

  /** The list `_run_core_sync_logic` processes: the first 20 in test mode, then only the
      unmatched ones when missing-only. */
  function ProductsToProcess(ps: seq<SourceProduct>, cache: map<string, CachedProduct>, testMode: bool, missingOnly: bool)
    : (r: seq<SourceProduct>)
    ensures testMode ==> |r| <= TestModeLimit
    ensures !missingOnly ==> r == (if testMode then ps[..Min(TestModeLimit, |ps|)] else ps)
  {
    var kept := if testMode then ps[..Min(TestModeLimit, |ps|)] else ps;
    if missingOnly then Missing(kept, cache) else kept
  }

  /** Missing-only keeps exactly the unmatched products of the (possibly cut) list. */
  lemma ProductsToProcessSpec(ps: seq<SourceProduct>, cache: map<string, CachedProduct>, testMode: bool, p: SourceProduct)
    ensures var kept := if testMode then ps[..Min(TestModeLimit, |ps|)] else ps;
            p in ProductsToProcess(ps, cache, testMode, true) <==> p in kept && FindProduct(cache, p).None?
  {
    var kept := if testMode then ps[..Min(TestModeLimit, |ps|)] else ps;
    MissingSpec(kept, cache, p);
  }

  /** In missing-only mode, every product processed is unmatched, so it is created unless
      its name is blank: none is updated. */
  lemma MissingOnlyRunCreates(ps: seq<SourceProduct>, cache: map<string, CachedProduct>, testMode: bool, mode: string,
                              updateFailure: Option<string>, p: SourceProduct)
    requires p in ProductsToProcess(ps, cache, testMode, true)
    requires Contains(mode, MissingOnlyMarker)
    ensures FindProduct(cache, p).None?
    ensures ProductStatus(cache, p, mode, updateFailure) ==
              (if Trim(NameOr(p, UnknownProductName)) == "" then Skipped else Created)
  {
    var kept := if testMode then ps[..Min(TestModeLimit, |ps|)] else ps;
    MissingSpec(kept, cache, p);
  }

  /** `a // d` for a positive `d`, by repeated subtraction. */
  function FloorDiv(a: nat, d: nat): nat
    requires d > 0
    decreases a
  {
    if a < d then 0 else 1 + FloorDiv(a - d, d)
  }

  /** `55 + int((processed / total) * 45)` when there are products, else 100. */
  function Progress(processed: nat, total: nat): int {
    if total > 0 then 55 + FloorDiv(processed * 45, total) else 100
  }

  /** A larger dividend never gives a smaller quotient. */
  lemma {:induction false} FloorDivMonotone(a: nat, b: nat, d: nat)
    requires a <= b && d > 0
    ensures FloorDiv(a, d) <= FloorDiv(b, d)
    decreases a
  {
    if a >= d {
      FloorDivMonotone(a - d, b - d, d);
    }
  }

  /** `k` whole multiples of `d` give exactly `k`. */
  lemma {:induction false} FloorDivMultiple(k: nat, d: nat)
    requires d > 0
    ensures FloorDiv(k * d, d) == k
  {
    if k > 0 {
      FloorDivMultiple(k - 1, d);
      assert k * d == (k - 1) * d + d;
    }
  }

  /** Less than `k` multiples of `d` give less than `k`. */
  lemma {:induction false} FloorDivBelow(a: nat, k: nat, d: nat)
    requires d > 0 && a < k * d
    ensures FloorDiv(a, d) < k
    decreases a
  {
    if a >= d {
      assert k * d == (k - 1) * d + d;
      FloorDivBelow(a - d, k - 1, d);
    }
  }

  /** Progress stays between 55 and 100, never goes down, and reaches 100 exactly when
      every product is processed. */
  lemma ProgressSpec(processed: nat, later: nat, total: nat)
    requires processed <= later <= total
    ensures 55 <= Progress(processed, total) <= 100
    ensures Progress(processed, total) <= Progress(later, total)
    ensures Progress(processed, total) == 100 <==> processed == total
  {
    if total > 0 {
      FloorDivMonotone(processed * 45, later * 45, total);
      FloorDivMonotone(later * 45, total * 45, total);
      FloorDivMultiple(45, total);
      assert total * 45 == 45 * total;
      if processed < total {
        FloorDivBelow(processed * 45, 45, total);
      }
    }
  }

  /** The status of each product of the run, in order. */
  function RunStatuses(cache: map<string, CachedProduct>, todo: seq<SourceProduct>, mode: string,
                       updateFailures: seq<Option<string>>): (r: seq<Status>)
    requires |updateFailures| == |todo|
    ensures |r| == |todo|
    ensures forall i :: 0 <= i < |todo| ==> r[i] == ProductStatus(cache, todo[i], mode, updateFailures[i])
  {
    seq(|todo|, i requires 0 <= i < |todo| => ProductStatus(cache, todo[i], mode, updateFailures[i]))
  }

  /** The counters after the given statuses, each counted in turn from zero. */
  function TallyAll(statuses: seq<Status>): Counters
  {
    if statuses == [] then Counters(0, 0, 0, 0, 0)
    else Tally(TallyAll(statuses[..|statuses| - 1]), statuses[|statuses| - 1])
  }

  /** Each counter holds the number of statuses of its kind, and `processed` all of them. */
  lemma {:induction false} TallyAllCounts(statuses: seq<Status>)
    ensures var m := multiset(statuses);
            TallyAll(statuses) == Counters(m[Created], m[Updated], m[Failed], m[Skipped], |statuses|)
  {
    if statuses != [] {
      var init := statuses[..|statuses| - 1];
      var last := statuses[|statuses| - 1];
      TallyAllCounts(init);
      assert statuses == init + [last];
      assert multiset(statuses) == multiset(init) + multiset{last};
    }
  }

  /** The `details` entries of the first `n` products, in order. */
  function DetailsAll(cache: map<string, CachedProduct>, todo: seq<SourceProduct>, mode: string,
                      updateFailures: seq<Option<string>>, n: nat): (r: seq<LogEntry>)
    requires |updateFailures| == |todo| && n <= |todo|
    ensures |r| <= n
  {
    if n == 0 then []
    else DetailsAll(cache, todo, mode, updateFailures, n - 1) + DetailFor(cache, todo[n - 1], mode, updateFailures[n - 1])
  }

  /** `_run_core_sync_logic` with the workers run one after another: the list is built,
      `total` set, and every product processed; `progress[i]` is the percentage reported
      after the (i+1)-th product. `updateFailures[i]` is what updating the i-th product
      raises, if anything. */
  method RunCoreSync(cache: map<string, CachedProduct>, ps: seq<SourceProduct>, mode: string, testMode: bool,
                     missingOnly: bool, updateFailures: seq<Option<string>>)
    returns (stats: SyncStats, progress: seq<int>)
    requires |updateFailures| == |ProductsToProcess(ps, cache, testMode, missingOnly)|
    ensures fresh(stats) && stats.Valid()
    ensures stats.total == |ProductsToProcess(ps, cache, testMode, missingOnly)|
    ensures stats.processed == stats.total
    ensures progress == ProgressReports(stats.total, stats.total)
    ensures var todo := ProductsToProcess(ps, cache, testMode, missingOnly);
            && stats.Counts() == TallyAll(RunStatuses(cache, todo, mode, updateFailures))
            && stats.details == DetailsAll(cache, todo, mode, updateFailures, |todo|)
  {
    var todo := ProductsToProcess(ps, cache, testMode, missingOnly);
    stats, progress := ProcessAll(cache, todo, mode, updateFailures);
  }

  /** The worker loop over the products to process, one after another. */
  method ProcessAll(cache: map<string, CachedProduct>, todo: seq<SourceProduct>, mode: string,
                    updateFailures: seq<Option<string>>)
    returns (stats: SyncStats, progress: seq<int>)
    requires |updateFailures| == |todo|
    ensures fresh(stats) && stats.Valid()
    ensures stats.total == |todo| && stats.processed == |todo|
    ensures progress == ProgressReports(|todo|, |todo|)
    ensures stats.Counts() == TallyAll(RunStatuses(cache, todo, mode, updateFailures))
    ensures stats.details == DetailsAll(cache, todo, mode, updateFailures, |todo|)
  {
    stats := new SyncStats();
    stats.total := |todo|;
    progress := [];
    ghost var statuses := RunStatuses(cache, todo, mode, updateFailures);
    var i := 0;
    while i < |todo|
      invariant 0 <= i <= |todo|
      invariant stats.Valid() && stats.total == |todo| && stats.processed == i
      invariant progress == ProgressReports(|todo|, i)
      invariant stats.Counts() == TallyAll(statuses[..i])
      invariant stats.details == DetailsAll(cache, todo, mode, updateFailures, i)
    {
      progress := ProcessAt(stats, cache, todo, mode, updateFailures, i, progress);
      i := i + 1;
    }
    assert statuses[..i] == statuses;
  }

  /** One round of the worker loop: product `i` is processed, counted and reported. */
  method ProcessAt(stats: SyncStats, cache: map<string, CachedProduct>, todo: seq<SourceProduct>, mode: string,
                   updateFailures: seq<Option<string>>, i: nat, progress: seq<int>)
    returns (progress': seq<int>)
    requires |updateFailures| == |todo| && i < |todo|
    requires stats.Valid() && stats.total == |todo| && stats.processed == i
    requires progress == ProgressReports(|todo|, i)
    requires stats.Counts() == TallyAll(RunStatuses(cache, todo, mode, updateFailures)[..i])
    requires stats.details == DetailsAll(cache, todo, mode, updateFailures, i)
    modifies stats
    ensures stats.Valid() && stats.total == |todo| && stats.processed == i + 1
    ensures progress' == ProgressReports(|todo|, i + 1)
    ensures stats.Counts() == TallyAll(RunStatuses(cache, todo, mode, updateFailures)[..i + 1])
    ensures stats.details == DetailsAll(cache, todo, mode, updateFailures, i + 1)
  {
    var status := stats.ProcessSingleProduct(cache, todo[i], mode, updateFailures[i]);
    TallyAllNext(RunStatuses(cache, todo, mode, updateFailures), i);
    progress' := progress + [Progress(stats.processed, stats.total)];
  }

  /** Counting one more status counts it on top of the earlier ones. */
  lemma TallyAllNext(statuses: seq<Status>, i: nat)
    requires i < |statuses|
    ensures TallyAll(statuses[..i + 1]) == Tally(TallyAll(statuses[..i]), statuses[i])
  {
    assert statuses[..i + 1][..i] == statuses[..i];
  }

  /** The percentages reported after each of the first `n` products. */
  function ProgressReports(total: nat, n: nat): (r: seq<int>)
    ensures |r| == n
  {
    if n == 0 then [] else ProgressReports(total, n - 1) + [Progress(n, total)]
  }

  /** The reports never go down, stay within 55..100, and the last one is 100. */
  lemma {:induction false} ProgressReportsSpec(total: nat, n: nat, i: nat, j: nat)
    requires i <= j < n <= total
    ensures 55 <= ProgressReports(total, n)[i] <= ProgressReports(total, n)[j] <= 100
    ensures n == total ==> ProgressReports(total, n)[n - 1] == 100
  {
    if j < n - 1 {
      ProgressReportsSpec(total, n - 1, i, j);
    } else {
      ProgressReportsAt(total, n, i);
      ProgressSpec(i + 1, n, total);
    }
    ProgressSpec(n, n, total);
  }

  lemma {:induction false} ProgressReportsAt(total: nat, n: nat, i: nat)
    requires i < n
    ensures ProgressReports(total, n)[i] == Progress(i + 1, total)
  {
    if i < n - 1 {
      ProgressReportsAt(total, n - 1, i);
    }
  }
}
