/** operations/stock_sync.py: which source variants are new to the destination product,
    the stock levels to set, and how the variant-creation and stock mutations are cut
    into batches. Remote replies are inputs. */
module StockSync {
  import opened Wrappers
  import opened Strs
  import opened Batching
  import opened Dicts
  import opened Utils
  import opened ShopifyApi
  import opened Json

  // ---------------------------------------------------------------- source and destination records

  /** One entry of a source variant's `stocks` list: a dict with an optional 'stock'
      number (an int, a float or a bool, read as a real), or something that is not a dict. */
  datatype StockRow = StockEntry(stock: Option<real>) | NotADict

  /** A source-system variant; `sku` is the raw 'sku' value ("" when absent). */
  datatype SourceVariant = SourceVariant(
    sku: string,
    color: Option<string>,
    model: ModelField,
    barcode: Option<string>,
    price: Option<string>,
    stocks: seq<StockRow>)

  /** A source-system product: its name (absent or present), its own fields read as a
      variant, its variant list and whether it has an 'id'. */
  datatype SourceProduct = SourceProduct(
    name: Option<string>,
    own: SourceVariant,
    variants: seq<SourceVariant>,
    hasId: bool)

  /** A destination variant as `_get_shopify_variants` returns it: its inventory item's id and SKU. */
  datatype DestVariant = DestVariant(itemId: Option<string>, itemSku: Option<string>)

  /** `sentos_product.get('variants', []) or [sentos_product]` */
  function SourceVariants(p: SourceProduct): (r: seq<SourceVariant>)
    ensures |r| >= 1
    ensures |p.variants| == 0 ==> r == [p.own]
    ensures |p.variants| > 0 ==> r == p.variants
  {
    if |p.variants| == 0 then [p.own] else p.variants
  }

  // ---------------------------------------------------------------- new variants

  /** The destination's trimmed, non-empty inventory-item SKUs. */
  function ExistingSkus(dest: seq<DestVariant>): (r: set<string>)
    ensures forall s :: s in r <==> exists i :: 0 <= i < |dest| && Present(dest[i].itemSku) && Trim(dest[i].itemSku.value) == s
  {
    set i | 0 <= i < |dest| && Present(dest[i].itemSku) :: Trim(dest[i].itemSku.value)
  }

  /** A source variant is new when the destination lacks its trimmed SKU. */
  predicate IsNew(v: SourceVariant, existing: set<string>) {
    Trim(v.sku) !in existing
  }

  /** The source variants whose trimmed SKU the destination does not have, in order. */
  function NewVariants(src: seq<SourceVariant>, existing: set<string>): (r: seq<SourceVariant>)
    ensures |r| <= |src|
  {
    if |src| == 0 then []
    else
      var v := src[|src| - 1];
      NewVariants(src[..|src| - 1], existing) + (if IsNew(v, existing) then [v] else [])
  }

  /** A variant is new exactly when it is a source variant whose trimmed SKU the destination lacks. */
  lemma {:induction false} NewVariantsMembers(src: seq<SourceVariant>, existing: set<string>, v: SourceVariant)
    ensures v in NewVariants(src, existing) <==> v in src && IsNew(v, existing)
    decreases |src|
  {
    if |src| > 0 {
      var init := src[..|src| - 1];
      var last := src[|src| - 1];
      NewVariantsMembers(init, existing, v);
      assert src == init + [last];
      assert NewVariants(src, existing) == NewVariants(init, existing) + (if IsNew(last, existing) then [last] else []);
      assert v in src <==> v in init || v == last;
    }
  }

  lemma NewVariantsSnoc(xs: seq<SourceVariant>, v: SourceVariant, existing: set<string>)
    ensures NewVariants(xs + [v], existing) == NewVariants(xs, existing) + (if IsNew(v, existing) then [v] else [])
  {
    assert (xs + [v])[..|xs|] == xs;
  }

  /** Filtering keeps the source order: the new variants of a concatenation are the new
      variants of each part, one after the other. */
  lemma {:induction false} NewVariantsAppend(a: seq<SourceVariant>, b: seq<SourceVariant>, existing: set<string>)
    ensures NewVariants(a + b, existing) == NewVariants(a, existing) + NewVariants(b, existing)
    decreases |b|
  {
    if |b| == 0 {
      assert a + b == a;
    } else {
      var binit := b[..|b| - 1];
      var last := b[|b| - 1];
      assert a + b == (a + binit) + [last];
      assert b == binit + [last];
      NewVariantsAppend(a, binit, existing);
      NewVariantsSnoc(a + binit, last, existing);
      NewVariantsSnoc(binit, last, existing);
      var x, y := NewVariants(a, existing), NewVariants(binit, existing);
      var t := if IsNew(last, existing) then [last] else [];
      assert (x + y) + t == x + (y + t);
    }
  }

  // ---------------------------------------------------------------- inventory adjustments

  datatype Adjustment = Adjustment(inventoryItemId: string, availableQuantity: nat)

  /** The `sku_map` comprehension: trimmed SKU to inventory-item id, for every destination
      variant with a truthy SKU, later variants overriding earlier ones. */
  function SkuMapEntries(dest: seq<DestVariant>): (r: seq<(string, Option<string>)>)
    ensures |r| <= |dest|
  {
    if |dest| == 0 then []
    else
      var v := dest[|dest| - 1];
      SkuMapEntries(dest[..|dest| - 1]) + (if Present(v.itemSku) then [(Trim(v.itemSku.value), v.itemId)] else [])
  }

  function SkuMap(dest: seq<DestVariant>): map<string, Option<string>> {
    AssignAll(map[], SkuMapEntries(dest))
  }

  /** The sum of the truthy 'stock' values of the dict rows. */
  function StockSum(rows: seq<StockRow>): real {
    if |rows| == 0 then 0.0
    else
      var r := rows[|rows| - 1];
      StockSum(rows[..|rows| - 1]) + (if r.StockEntry? && r.stock.Some? then r.stock.value else 0.0)
  }

  /** Stock rows that are not dicts, or whose stock is missing or zero, add nothing. */
  lemma {:induction false} StockSumIgnoresEmptyRows(rows: seq<StockRow>, extra: seq<StockRow>)
    requires forall i :: 0 <= i < |extra| ==> extra[i].NotADict? || extra[i].stock.None? || extra[i].stock == Some(0.0)
    ensures StockSum(rows + extra) == StockSum(rows)
    decreases |extra|
  {
    if |extra| == 0 {
      assert rows + extra == rows;
    } else {
      assert (rows + extra)[..|rows + extra| - 1] == rows + extra[..|extra| - 1];
      assert (rows + extra)[|rows + extra| - 1] == extra[|extra| - 1];
      StockSumIgnoresEmptyRows(rows, extra[..|extra| - 1]);
    }
  }

  /** The adjustment one source variant yields, if any. */
  function AdjustmentFor(v: SourceVariant, skuMap: map<string, Option<string>>): (r: Option<Adjustment>)
    ensures r.Some? <==> (Trim(v.sku) != "" && Trim(v.sku) in skuMap && Present(skuMap[Trim(v.sku)])
                          && StockSum(v.stocks) >= 0.0)
    ensures r.Some? ==> r.value == Adjustment(skuMap[Trim(v.sku)].value, TruncateReal(StockSum(v.stocks)))
  {
    var sku := Trim(v.sku);
    if sku != "" && sku in skuMap && Present(skuMap[sku]) && StockSum(v.stocks) >= 0.0 then
      Some(Adjustment(skuMap[sku].value, TruncateReal(StockSum(v.stocks))))
    else None
  }

  /** Float stocks are summed, then `int(qty)` rounds toward zero: 0.5 and 0.7 give 1, while
      -0.5 and 0.2 sum below zero and give no adjustment. */
  lemma FractionalStocks(v: SourceVariant, skuMap: map<string, Option<string>>, id: string)
    requires Trim(v.sku) != "" && Trim(v.sku) in skuMap && skuMap[Trim(v.sku)] == Some(id) && id != ""
    ensures v.stocks == [StockEntry(Some(0.5)), StockEntry(Some(0.7))] ==> AdjustmentFor(v, skuMap) == Some(Adjustment(id, 1))
    ensures v.stocks == [StockEntry(Some(0.3)), StockEntry(Some(-0.2))] ==> AdjustmentFor(v, skuMap) == Some(Adjustment(id, 0))
    ensures v.stocks == [StockEntry(Some(-0.5)), StockEntry(Some(0.2))] ==> AdjustmentFor(v, skuMap).None?
  {
    StockSumPair(0.5, 0.7);
    StockSumPair(0.3, -0.2);
    StockSumPair(-0.5, 0.2);
  }

  /** Two dict rows with stock sum to the sum of their stocks. */
  lemma StockSumPair(a: real, b: real)
    ensures StockSum([StockEntry(Some(a)), StockEntry(Some(b))]) == a + b
  {
    var rows := [StockEntry(Some(a)), StockEntry(Some(b))];
    var one := [StockEntry(Some(a))];
    assert one[..0] == [];
    assert StockSum(one) == a;
    assert rows[..1] == one;
  }

  /** The adjustments of a list of source variants, in source order. */
  function Adjustments(src: seq<SourceVariant>, skuMap: map<string, Option<string>>): (r: seq<Adjustment>)
    ensures |r| <= |src|
  {
    if |src| == 0 then []
    else
      var a := AdjustmentFor(src[|src| - 1], skuMap);
      Adjustments(src[..|src| - 1], skuMap) + (if a.Some? then [a.value] else [])
  }

  /** Every adjustment comes from a source variant whose trimmed SKU the destination has,
      carries that destination item id and the variant's stock sum. */
  lemma {:induction false} AdjustmentsSound(src: seq<SourceVariant>, skuMap: map<string, Option<string>>, j: nat)
    requires j < |Adjustments(src, skuMap)|
    ensures exists i :: 0 <= i < |src| && AdjustmentFor(src[i], skuMap) == Some(Adjustments(src, skuMap)[j])
    decreases |src|
  {
    var init := src[..|src| - 1];
    var a := AdjustmentFor(src[|src| - 1], skuMap);
    if j < |Adjustments(init, skuMap)| {
      AdjustmentsSound(init, skuMap, j);
      var i :| 0 <= i < |init| && AdjustmentFor(init[i], skuMap) == Some(Adjustments(init, skuMap)[j]);
      assert src[i] == init[i];
    } else {
      assert AdjustmentFor(src[|src| - 1], skuMap) == Some(Adjustments(src, skuMap)[j]);
    }
  }

  /** Adjustments follow the source order: those of a concatenation are those of each part in turn. */
  lemma {:induction false} AdjustmentsAppend(a: seq<SourceVariant>, b: seq<SourceVariant>, skuMap: map<string, Option<string>>)
    ensures Adjustments(a + b, skuMap) == Adjustments(a, skuMap) + Adjustments(b, skuMap)
    decreases |b|
  {
    if |b| == 0 {
      assert a + b == a;
    } else {
      assert (a + b)[..|a + b| - 1] == a + b[..|b| - 1];
      AdjustmentsAppend(a, b[..|b| - 1], skuMap);
    }
  }

  lemma AdjustmentsPrefix(src: seq<SourceVariant>, i: nat, skuMap: map<string, Option<string>>)
    requires i < |src|
    ensures var a := AdjustmentFor(src[i], skuMap);
            Adjustments(src[..i + 1], skuMap) == Adjustments(src[..i], skuMap) + (if a.Some? then [a.value] else [])
  {
    assert src[..i + 1][..i] == src[..i];
  }

  /** A variant whose trimmed SKU is matched and whose stock sum is not negative gets
      exactly one adjustment. */
  lemma AdjustmentsComplete(v: SourceVariant, skuMap: map<string, Option<string>>)
    requires Trim(v.sku) != "" && Trim(v.sku) in skuMap && Present(skuMap[Trim(v.sku)])
    requires StockSum(v.stocks) >= 0.0
    ensures Adjustments([v], skuMap) == [Adjustment(skuMap[Trim(v.sku)].value, TruncateReal(StockSum(v.stocks)))]
  {
    assert [v][..0] == [];
  }

  /** When two destination variants share a SKU, the later one's item id is used. */
  lemma SkuMapLaterWins(dest: seq<DestVariant>, sku: string, early: DestVariant, late: DestVariant)
    requires Present(early.itemSku) && Present(late.itemSku)
    requires Trim(early.itemSku.value) == sku && Trim(late.itemSku.value) == sku
    ensures SkuMap(dest + [early, late]) == SkuMap(dest)[sku := early.itemId][sku := late.itemId]
    ensures SkuMap(dest + [early, late])[sku] == late.itemId
  {
    var d := dest + [early, late];
    assert d[..|d| - 1] == dest + [early];
    assert (dest + [early])[..|dest|] == dest;
    assert SkuMapEntries(d) == SkuMapEntries(dest) + [(sku, early.itemId)] + [(sku, late.itemId)];
    var e := SkuMapEntries(dest);
    var e1 := e + [(sku, early.itemId)];
    var e2 := e1 + [(sku, late.itemId)];
    assert e2[..|e2| - 1] == e1;
    assert e1[..|e1| - 1] == e;
    assert AssignAll(map[], e1) == AssignAll(map[], e)[sku := early.itemId];
    assert AssignAll(map[], e2) == AssignAll(map[], e1)[sku := late.itemId];
  }

  /** `_prepare_inventory_adjustments` (and the identical `_prepare_inventory_adjustments_simple`
      of sync_runner.py): one adjustment per source variant whose trimmed SKU maps to a
      destination inventory item, with the variant's stock sum, when that sum is not negative. */
  method PrepareInventoryAdjustments(src: seq<SourceVariant>, dest: seq<DestVariant>)
    returns (adjustments: seq<Adjustment>)
    ensures adjustments == Adjustments(src, SkuMap(dest))
    ensures |adjustments| <= |src|
  {
    var skuMap := SkuMap(dest);
    adjustments := [];
    var i := 0;
    while i < |src|
      invariant 0 <= i <= |src|
      invariant adjustments == Adjustments(src[..i], skuMap)
    {
      var v := src[i];
      AdjustmentsPrefix(src, i, skuMap);
      var sku := Trim(v.sku);
      if sku != "" && sku in skuMap && Present(skuMap[sku]) {
        var qty := StockSum(v.stocks);
        if qty >= 0.0 {
          adjustments := adjustments + [Adjustment(skuMap[sku].value, TruncateReal(qty))];
        }
      }
      i := i + 1;
    }
    assert src[..i] == src;
  }

  // ---------------------------------------------------------------- stock mutation batches

  const MutationBatchSize: nat := 50

  /** One `setQuantities` entry of an `inventorySetOnHandQuantities` mutation. */
  datatype SetQuantity = SetQuantity(inventoryItemId: string, locationId: string, quantity: nat)

  /** What one mutation call gives: success, userErrors (logged only), or an exception. */
  datatype MutationReply = Applied | UserErrors(messages: seq<string>) | MutationRaised(failure: ApiFailure)

  function SetQuantities(batch: seq<Adjustment>, locationId: string): (r: seq<SetQuantity>)
    ensures |r| == |batch|
    ensures forall i :: 0 <= i < |batch| ==>
              r[i] == SetQuantity(batch[i].inventoryItemId, locationId, batch[i].availableQuantity)
  {
    seq(|batch|, i requires 0 <= i < |batch| => SetQuantity(batch[i].inventoryItemId, locationId, batch[i].availableQuantity))
  }

  /** The stock batches sent are a prefix of the adjustments' batches of at most 50, each
      set at the fetched location; none is sent when the location lookup failed. */
  predicate StockBatchesSent(sent: seq<seq<SetQuantity>>, adjustments: seq<Adjustment>, location: Fetched<string>) {
    var batches := Chunks(adjustments, MutationBatchSize);
    && |sent| <= |batches|
    && (location.Raised? ==> sent == [])
    && (location.Fetched? ==> forall i :: 0 <= i < |sent| ==> sent[i] == SetQuantities(batches[i], location.value))
  }

  /** The index of the first reply that raised, or the number of replies when none did. */
  function FirstRaised(replies: seq<MutationReply>): (k: nat)
    ensures k <= |replies|
  {
    if |replies| == 0 then 0
    else if replies[0].MutationRaised? then 0
    else 1 + FirstRaised(replies[1..])
  }

  /** `FirstRaised` is the one index before which no reply raised and at which one did. */
  lemma {:induction false} FirstRaisedIs(replies: seq<MutationReply>, k: nat)
    requires k <= |replies|
    ensures FirstRaised(replies) == k <==>
              (forall j :: 0 <= j < k ==> !replies[j].MutationRaised?) && (k < |replies| ==> replies[k].MutationRaised?)
  {
    if |replies| > 0 && !replies[0].MutationRaised? {
      if k > 0 {
        FirstRaisedIs(replies[1..], k - 1);
        if forall j :: 0 <= j < k - 1 ==> !replies[1..][j].MutationRaised? {
          forall j | 0 <= j < k ensures !replies[j].MutationRaised? {
            if j > 0 { assert replies[j] == replies[1..][j - 1]; }
          }
        }
        if forall j :: 0 <= j < k ==> !replies[j].MutationRaised? {
          forall j | 0 <= j < k - 1 ensures !replies[1..][j].MutationRaised? {
            assert replies[1..][j] == replies[j + 1];
          }
        }
      }
    }
  }

  /** The stock batches `_adjust_inventory_bulk` sends: none without adjustments or without a
      location; otherwise the batches of at most 50, each at the location, up to and
      including the first whose mutation raised, or all of them when none raised. */
  function StockBatchesFor(adjustments: seq<Adjustment>, location: Fetched<string>, replies: seq<MutationReply>)
    : (r: seq<seq<SetQuantity>>)
    requires |replies| == |Chunks(adjustments, MutationBatchSize)|
  {
    if |adjustments| == 0 || location.Raised? then []
    else
      var batches := Chunks(adjustments, MutationBatchSize);
      var n := if FirstRaised(replies) < |batches| then FirstRaised(replies) + 1 else |batches|;
      seq(n, i requires 0 <= i < n => SetQuantities(batches[i], location.value))
  }

  /** `_adjust_inventory_bulk`: nothing for no adjustments; otherwise, once the location id
      is known, consecutive batches of at most 50 are sent in order. userErrors in a batch
      are only logged; an exception (also from the location lookup) ends the operation. */
  method AdjustInventoryBulk(adjustments: seq<Adjustment>, location: Fetched<string>, replies: seq<MutationReply>)
    returns (sent: seq<seq<SetQuantity>>)
    requires |replies| == |Chunks(adjustments, MutationBatchSize)|
    ensures |adjustments| == 0 || location.Raised? ==> sent == []
    ensures StockBatchesSent(sent, adjustments, location)
    ensures location.Fetched? ==>
              var batches := Chunks(adjustments, MutationBatchSize);
              && |sent| <= |batches|
              && (forall i :: 0 <= i < |sent| ==> sent[i] == SetQuantities(batches[i], location.value))
              && (forall i :: 0 <= i < |sent| - 1 ==> !replies[i].MutationRaised?)
              && (|sent| < |batches| ==> |sent| > 0 && replies[|sent| - 1].MutationRaised?)
    ensures sent == StockBatchesFor(adjustments, location, replies)
  {
    if |adjustments| == 0 {
      return [];
    }
    if location.Raised? {
      return [];
    }
    var batches := Chunks(adjustments, MutationBatchSize);
    sent := [];
    var i := 0;
    while i < |batches|
      invariant 0 <= i <= |batches| && |sent| == i
      invariant forall j :: 0 <= j < i ==> sent[j] == SetQuantities(batches[j], location.value)
      invariant forall j :: 0 <= j < i ==> !replies[j].MutationRaised?
    {
      sent := sent + [SetQuantities(batches[i], location.value)];
      if replies[i].MutationRaised? {
        FirstRaisedIs(replies, i);
        return;
      }
      i := i + 1;
    }
    FirstRaisedIs(replies, |replies|);
  }

  /** The batches cover the adjustments exactly, in order, and none holds more than 50. */
  lemma StockBatchesCover(adjustments: seq<Adjustment>)
    ensures Flatten(Chunks(adjustments, MutationBatchSize)) == adjustments
    ensures forall b :: b in Chunks(adjustments, MutationBatchSize) ==> 0 < |b| <= MutationBatchSize
  {
    ChunksFlatten(adjustments, MutationBatchSize);
    ChunksSizes(adjustments, MutationBatchSize);
  }

  // ---------------------------------------------------------------- new-variant batches

  datatype OptionValue = OptionValue(optionId: Option<string>, name: string)

  /** One `productVariantsBulkCreate` input. */
  datatype VariantInput = VariantInput(
    price: string,
    tracked: bool,
    sku: string,
    barcode: Option<string>,
    optionValues: Option<seq<OptionValue>>)

  /** A created variant as the mutation returns it: its inventory item's id. */
  datatype CreatedVariant = CreatedVariant(itemId: Option<string>)

  /** What one `productVariantsBulkCreate` call gives: the created variants and the
      userErrors, or an exception. */
  datatype CreateReply = CreatedBatch(created: seq<CreatedVariant>, errors: seq<string>) | CreateRaised(failure: ApiFailure)

  /** The variant's option texts: colour, then size, each when present. */
  function VariantOptionTexts(v: SourceVariant): (r: seq<string>)
    ensures |r| <= 2
  {
    (if VariantColor(v.color).Some? then [VariantColor(v.color).value] else [])
    + (if VariantSize(v.model).Some? then [VariantSize(v.model).value] else [])
  }

  /** The option values: the i-th option text goes with the i-th product option, and only
      for positions the product has options for. */
  function PairOptions(texts: seq<string>, productOptionIds: seq<Option<string>>): (r: seq<OptionValue>)
    ensures |r| == Min(|texts|, |productOptionIds|)
    ensures forall i :: 0 <= i < |r| ==> r[i] == OptionValue(productOptionIds[i], texts[i])
  {
    var n := Min(|texts|, |productOptionIds|);
    seq(n, i requires 0 <= i < n => OptionValue(productOptionIds[i], texts[i]))
  }

  /** The bulk-create input for one new variant. */
  function NewVariantInput(v: SourceVariant, productOptionIds: seq<Option<string>>): (r: VariantInput)
    ensures r.price == "0.00" && r.tracked && r.sku == v.sku
  {
    var texts := VariantOptionTexts(v);
    var pairs := PairOptions(texts, productOptionIds);
    VariantInput("0.00", true, v.sku,
      if Present(v.barcode) then v.barcode else None,
      if |pairs| > 0 then Some(pairs) else None)
  }

  /** A new variant carries its barcode only when it has a non-empty one, and option
      values exactly when it has a colour or a size and the product has options; the
      colour comes first. */
  lemma NewVariantInputShape(v: SourceVariant, productOptionIds: seq<Option<string>>)
    ensures var r := NewVariantInput(v, productOptionIds);
            && (r.barcode.Some? <==> Present(v.barcode))
            && (r.barcode.Some? ==> r.barcode == v.barcode)
            && (r.optionValues.Some? ==> 0 < |r.optionValues.value| <= 2)
            && (r.optionValues.Some? <==>
                  ((VariantColor(v.color).Some? || VariantSize(v.model).Some?) && |productOptionIds| > 0))
            && (r.optionValues.Some? && VariantColor(v.color).Some? ==>
                  r.optionValues.value[0] == OptionValue(productOptionIds[0], VariantColor(v.color).value))
  {
  }

  /** When the variant has neither colour nor size the source makes no option query, and
      whatever the answer would have been does not matter. */
  lemma NoOptionsNoQuery(v: SourceVariant, answer: seq<Option<string>>, other: seq<Option<string>>)
    requires VariantOptionTexts(v) == []
    ensures NewVariantInput(v, answer) == NewVariantInput(v, other)
    ensures NewVariantInput(v, answer).optionValues.None?
  {
  }

  /** A new variant together with what `_get_product_options` answered when queried for
      it: the product's option ids, [] when the query failed. The answer is read only
      when the variant has an option text, as the source queries only then. */
  type PendingVariant = (SourceVariant, seq<Option<string>>)

  /** Each new variant with its own option query's answer. */
  function WithAnswers(newVars: seq<SourceVariant>, optionAnswers: seq<seq<Option<string>>>): (r: seq<PendingVariant>)
    requires |optionAnswers| == |newVars|
    ensures |r| == |newVars| && forall i :: 0 <= i < |r| ==> r[i] == (newVars[i], optionAnswers[i])
  {
    seq(|newVars|, i requires 0 <= i < |newVars| => (newVars[i], optionAnswers[i]))
  }

  /** The bulk-create input for a new variant with its own option query's answer. */
  function PendingInput(p: PendingVariant): VariantInput {
    NewVariantInput(p.0, p.1)
  }

  /** The `variants` argument of one `productVariantsBulkCreate` call: one input per
      variant of the batch, in order, each built with its own option query's answer. */
  function NewVariantInputs(batch: seq<PendingVariant>): (r: seq<VariantInput>)
    ensures |r| == |batch|
    ensures forall i :: 0 <= i < |batch| ==> r[i] == NewVariantInput(batch[i].0, batch[i].1)
  {
    MapEach(PendingInput, batch)
  }

  /** `_activate_variants_at_location`: the inventory-item ids of created variants that have one. */
  function ActivationIds(created: seq<CreatedVariant>): (r: seq<string>)
    ensures |r| <= |created|
  {
    if |created| == 0 then []
    else
      var c := created[|created| - 1];
      ActivationIds(created[..|created| - 1]) + (if Present(c.itemId) then [c.itemId.value] else [])
  }

  /** Every id passed on is non-empty, and there are none exactly when no created variant
      has an inventory-item id. */
  lemma {:induction false} ActivationIdsSpec(created: seq<CreatedVariant>)
    ensures forall i :: 0 <= i < |ActivationIds(created)| ==> ActivationIds(created)[i] != ""
    ensures |ActivationIds(created)| == 0 <==> forall i :: 0 <= i < |created| ==> !Present(created[i].itemId)
    decreases |created|
  {
    if |created| > 0 {
      var init := created[..|created| - 1];
      ActivationIdsSpec(init);
      assert forall i :: 0 <= i < |init| ==> init[i] == created[i];
      var r := ActivationIds(created);
      assert forall i :: 0 <= i < |ActivationIds(init)| ==> r[i] == ActivationIds(init)[i];
    }
  }

  /** The variant-creation batches are the inputs for the new variants, each with its own
      option query's answer, cut into batches of at most 50. */
  predicate VariantBatchesSent(sent: seq<seq<VariantInput>>, newVars: seq<SourceVariant>, optionAnswers: seq<seq<Option<string>>>)
    requires |optionAnswers| == |newVars|
  {
    var batches := Chunks(WithAnswers(newVars, optionAnswers), MutationBatchSize);
    sent == BatchInputs(batches, |batches|)
  }

  /** The inputs of the first `n` batches, one create call each, in order. */
  function BatchInputs(batches: seq<seq<PendingVariant>>, n: nat): (r: seq<seq<VariantInput>>)
    requires n <= |batches|
    ensures |r| == n
  {
    if n == 0 then []
    else BatchInputs(batches, n - 1) + [NewVariantInputs(batches[n - 1])]
  }

  /** The i-th create call sends the inputs of the i-th batch. */
  lemma {:induction false} BatchInputsAt(batches: seq<seq<PendingVariant>>, n: nat, i: nat)
    requires i < n <= |batches|
    ensures BatchInputs(batches, n)[i] == NewVariantInputs(batches[i])
  {
    if i < n - 1 {
      BatchInputsAt(batches, n - 1, i);
    }
  }

  /** Building the inputs of two runs joined is building each, one after the other. */
  lemma NewVariantInputsAppend(a: seq<PendingVariant>, b: seq<PendingVariant>)
    ensures NewVariantInputs(a + b) == NewVariantInputs(a) + NewVariantInputs(b)
  {
    MapEachAppend(PendingInput, a, b);
  }

  /** The inputs of the first `n` batches, read one after the other, are the inputs of
      the variants of those batches. */
  lemma {:induction false} BatchInputsFlatten(batches: seq<seq<PendingVariant>>, n: nat)
    requires n <= |batches|
    ensures Flatten(BatchInputs(batches, n)) == NewVariantInputs(Flatten(batches[..n]))
  {
    if n == 0 {
      assert batches[..0] == [];
    } else {
      BatchInputsFlatten(batches, n - 1);
      var earlier, last := batches[..n - 1], batches[n - 1];
      FlattenSnoc(BatchInputs(batches, n - 1), NewVariantInputs(last));
      assert batches[..n] == earlier + [last];
      FlattenSnoc(earlier, last);
      NewVariantInputsAppend(Flatten(earlier), last);
    }
  }

  /** Across all the create calls, in order, there is exactly one input per new variant,
      and the k-th is built from the k-th new variant with the answer of its own option
      query. */
  lemma VariantBatchesPerVariant(sent: seq<seq<VariantInput>>, newVars: seq<SourceVariant>, optionAnswers: seq<seq<Option<string>>>)
    requires |optionAnswers| == |newVars| && VariantBatchesSent(sent, newVars, optionAnswers)
    ensures |Flatten(sent)| == |newVars|
    ensures forall k :: 0 <= k < |newVars| ==> Flatten(sent)[k] == NewVariantInput(newVars[k], optionAnswers[k])
  {
    var pending := WithAnswers(newVars, optionAnswers);
    var batches := Chunks(pending, MutationBatchSize);
    BatchInputsFlatten(batches, |batches|);
    assert batches[..|batches|] == batches;
    ChunksFlatten(pending, MutationBatchSize);
  }

  /** One `productVariantsBulkCreate` call: the inputs sent for the batch and the
      inventory-item ids of the variants the reply says were created. */
  method SendVariantBatch(batch: seq<PendingVariant>, reply: CreateReply)
    returns (input: seq<VariantInput>, ids: seq<string>)
    ensures input == NewVariantInputs(batch)
    ensures ids == (if reply.CreatedBatch? then ActivationIds(reply.created) else [])
  {
    input := NewVariantInputs(batch);
    ids := [];
    if reply.CreatedBatch? && |reply.created| > 0 {
      ids := ActivationIds(reply.created);
    }
  }

  /** `_add_variants_bulk`: every batch of at most 50 new variants is sent, whatever
      happened to earlier ones; each batch's created variants with an inventory item are
      passed on for activation, and a batch with none of them makes no activation call.
      `optionAnswers[k]` is what `_get_product_options` answered for the k-th new
      variant ([] on an error), read only when that variant has an option text. */
  method AddVariantsBulk(newVariants: seq<SourceVariant>, optionAnswers: seq<seq<Option<string>>>, replies: seq<CreateReply>)
    returns (sent: seq<seq<VariantInput>>, activations: seq<seq<string>>)
    requires |optionAnswers| == |newVariants|
    requires |replies| == |Chunks(newVariants, MutationBatchSize)|
    ensures VariantBatchesSent(sent, newVariants, optionAnswers)
    ensures activations == ActivationCalls(replies, |Chunks(newVariants, MutationBatchSize)|)
  {
    var batches := Chunks(WithAnswers(newVariants, optionAnswers), MutationBatchSize);
    ChunksCount(WithAnswers(newVariants, optionAnswers), newVariants, MutationBatchSize);
    sent := [];
    activations := [];
    var i := 0;
    while i < |batches|
      invariant 0 <= i <= |batches|
      invariant sent == BatchInputs(batches, i)
      invariant activations == ActivationCalls(replies, i)
    {
      sent, activations := SendBatchAt(batches, replies, i, sent, activations);
      i := i + 1;
    }
  }

  /** One round of the batch loop: batch `i` is sent, and its activation call, if it
      has one, follows the earlier ones. */
  method SendBatchAt(batches: seq<seq<PendingVariant>>, replies: seq<CreateReply>,
                     i: nat, sent: seq<seq<VariantInput>>, activations: seq<seq<string>>)
    returns (sent': seq<seq<VariantInput>>, activations': seq<seq<string>>)
    requires i < |batches| && i < |replies|
    requires sent == BatchInputs(batches, i) && activations == ActivationCalls(replies, i)
    ensures sent' == BatchInputs(batches, i + 1)
    ensures activations' == ActivationCalls(replies, i + 1)
  {
    var input, ids := SendVariantBatch(batches[i], replies[i]);
    sent' := sent + [input];
    activations' := activations;
    if |ids| > 0 {
      activations' := activations + [ids];
    }
  }

  /** The activation calls made for the first `n` batches' replies, in order. */
  function ActivationCalls(replies: seq<CreateReply>, n: nat): (r: seq<seq<string>>)
    requires n <= |replies|
    ensures |r| <= n
  {
    if n == 0 then []
    else
      var reply := replies[n - 1];
      var ids := if reply.CreatedBatch? then ActivationIds(reply.created) else [];
      ActivationCalls(replies, n - 1) + (if |ids| > 0 then [ids] else [])
  }

  /** A failing batch neither stops later batches nor activates anything itself. */
  lemma FailedBatchActivatesNothing(replies: seq<CreateReply>, n: nat)
    requires 0 < n <= |replies| && replies[n - 1].CreateRaised?
    ensures ActivationCalls(replies, n) == ActivationCalls(replies, n - 1)
  {
  }

  // ---------------------------------------------------------------- sync_stock_and_variants

  /** One entry of the change list `sync_stock_and_variants` returns. */
  datatype Change = NewVariantsAdded(count: nat) | StockLevelsUpdated(count: nat) | NothingChanged

  /** The text of a change-list entry. */
  function ChangeText(c: Change): string {
    match c
    case NewVariantsAdded(n) => NatToString(n) + " yeni varyant eklendi."
    case StockLevelsUpdated(n) => NatToString(n) + " varyantın stok seviyesi güncellendi."
    case NothingChanged => "Stok ve varyantlar kontrol edildi (Değişiklik yok)."
  }

  /** Different changes have different texts, so the list can be read back. */
  lemma ChangeTextInjective(c: Change, d: Change)
    requires c != d
    ensures ChangeText(c) != ChangeText(d)
  {
    var a, b := ChangeText(c), ChangeText(d);
    if (c.NewVariantsAdded? && d.NewVariantsAdded?) || (c.StockLevelsUpdated? && d.StockLevelsUpdated?) {
      var sa := ChangeText(c)[|NatToString(c.count)|..];
      assert a == NatToString(c.count) + sa;
      assert b == NatToString(d.count) + sa;
      NatToStringInjective(c.count, d.count);
      assert a[..|a| - |sa|] == NatToString(c.count);
      assert b[..|b| - |sa|] == NatToString(d.count);
    } else {
      ChangeTextEnding(c);
      ChangeTextEnding(d);
    }
  }

  /** The last letters of each kind of text. */
  lemma ChangeTextEnding(c: Change)
    ensures var t := ChangeText(c);
            && |t| >= 7
            && (c.NewVariantsAdded? ==> t[|t| - 7] == 'k' && t[|t| - 2] == 'i')
            && (c.StockLevelsUpdated? ==> t[|t| - 7] == 'l' && t[|t| - 2] == 'i')
            && (c.NothingChanged? ==> t[|t| - 2] == ')')
  {
    var t := ChangeText(c);
    match c
    case NewVariantsAdded(n) =>
      var sa := " yeni varyant eklendi.";
      assert t == NatToString(n) + sa && t[|t| - 7] == sa[|sa| - 7] && t[|t| - 2] == sa[|sa| - 2];
    case StockLevelsUpdated(n) =>
      var sb := " varyantın stok seviyesi güncellendi.";
      assert t == NatToString(n) + sb && t[|t| - 7] == sb[|sb| - 7] && t[|t| - 2] == sb[|sb| - 2];
    case NothingChanged =>
  }

  /** The change list for the given numbers of new variants and of stock adjustments. */
  function ChangeReport(newCount: nat, adjustmentCount: nat): (r: seq<Change>)
    ensures 1 <= |r| <= 2
  {
    (if newCount > 0 then [NewVariantsAdded(newCount)] else [])
    + (if adjustmentCount > 0 then [StockLevelsUpdated(adjustmentCount)] else [])
    + (if newCount == 0 && adjustmentCount == 0 then [NothingChanged] else [])
  }

  /** The report names the new variants exactly when there are some, the stock update
      exactly when there is one, and says that nothing changed only when neither happened
      and then alone. */
  lemma ChangeReportMeaning(newCount: nat, adjustmentCount: nat)
    ensures NewVariantsAdded(newCount) in ChangeReport(newCount, adjustmentCount) <==> newCount > 0
    ensures StockLevelsUpdated(adjustmentCount) in ChangeReport(newCount, adjustmentCount) <==> adjustmentCount > 0
    ensures NothingChanged in ChangeReport(newCount, adjustmentCount) <==> newCount == 0 && adjustmentCount == 0
    ensures NothingChanged in ChangeReport(newCount, adjustmentCount) ==> ChangeReport(newCount, adjustmentCount) == [NothingChanged]
    ensures newCount > 0 && adjustmentCount > 0 ==>
              ChangeReport(newCount, adjustmentCount) == [NewVariantsAdded(newCount), StockLevelsUpdated(adjustmentCount)]
  {
  }

  /** Everything `sync_stock_and_variants` sends and reports. */
  datatype StockSyncRun = StockSyncRun(
    changes: seq<Change>,
    variantBatches: seq<seq<VariantInput>>,
    activations: seq<seq<string>>,
    stockBatches: seq<seq<SetQuantity>>)

  /** `sync_stock_and_variants`: `before` and `after` are the destination variants read
      before and after new variants are added. New variants are added in batches when
      there are any; stock is set for the adjustments computed against `after`, in
      batches of at most 50; the change list reports each of the two, or that nothing
      changed. */
  method SyncStockAndVariants(
    p: SourceProduct, before: seq<DestVariant>, after: seq<DestVariant>,
    optionAnswers: seq<seq<Option<string>>>, createReplies: seq<CreateReply>,
    location: Fetched<string>, stockReplies: seq<MutationReply>)
    returns (run: StockSyncRun)
    requires |optionAnswers| == |NewVariants(SourceVariants(p), ExistingSkus(before))|
    requires |createReplies| == |Chunks(NewVariants(SourceVariants(p), ExistingSkus(before)), MutationBatchSize)|
    requires |stockReplies| == |Chunks(Adjustments(SourceVariants(p), SkuMap(after)), MutationBatchSize)|
    ensures var newVars := NewVariants(SourceVariants(p), ExistingSkus(before));
            var adjustments := Adjustments(SourceVariants(p), SkuMap(after));
            run.changes == ChangeReport(|newVars|, |adjustments|)
    ensures var newVars := NewVariants(SourceVariants(p), ExistingSkus(before));
            && VariantBatchesSent(run.variantBatches, newVars, optionAnswers)
            && run.activations == ActivationCalls(createReplies, |Chunks(newVars, MutationBatchSize)|)
    ensures StockBatchesSent(run.stockBatches, Adjustments(SourceVariants(p), SkuMap(after)), location)
    ensures run.stockBatches == StockBatchesFor(Adjustments(SourceVariants(p), SkuMap(after)), location, stockReplies)
  {
    var sVars := SourceVariants(p);
    var newVars := NewVariants(sVars, ExistingSkus(before));
    var changes: seq<Change> := [];
    var variantBatches: seq<seq<VariantInput>> := [];
    var activations: seq<seq<string>> := [];
    if |newVars| > 0 {
      changes := changes + [NewVariantsAdded(|newVars|)];
      variantBatches, activations := AddVariantsBulk(newVars, optionAnswers, createReplies);
    }
    var adjustments := PrepareInventoryAdjustments(sVars, after);
    var stockBatches: seq<seq<SetQuantity>> := [];
    if |adjustments| > 0 {
      changes := changes + [StockLevelsUpdated(|adjustments|)];
      stockBatches := AdjustInventoryBulk(adjustments, location, stockReplies);
    }
    if |newVars| == 0 && |adjustments| == 0 {
      changes := changes + [NothingChanged];
    }
    run := StockSyncRun(changes, variantBatches, activations, stockBatches);
  }
}
