/** operations/shopify_to_shopify.py: copies one order from a source Shopify store to
    a destination store. The destination store's answers (customer lookup and creation,
    the variant id per SKU, order creation) are inputs. */
module OrderTransfer {
  import opened Wrappers
  import opened Strs
  import opened Json
  import opened OrderBuilder

  const NoEmailError := "Kaynak siparişte müşteri e-postası bulunamadı."
  const NothingMatchedError := "Siparişteki hiçbir ürün hedef mağazada eşleştirilemedi."
  const NotePrefix := "Kaynak Mağazadan Aktarılan Sipariş. Orijinal Sipariş No: "
  const NoteTotal := " | Net Tutar: ₺"

  /** Why a step raised: an exception with the given text, or one Python raises itself
      (a missing attribute, a value `float()` cannot read), whose text is not modelled. */
  datatype Failure = Raised(message: string) | Crashed

  datatype Outcome<T> = Done(value: T) | Fails(failure: Failure)

  // ---------------------------------------------------------------- customer

  /** The customer used for the order, and whether it was created. */
  datatype Customer = Customer(id: Json, created: bool)

  /** `find_or_create_customer`: `existingId` is what the search by e-mail finds and
      `newId` what creating the customer returns. */
  function FindOrCreateCustomer(customer: Json, existingId: Json, newId: Json): Outcome<Customer> {
    if !Truthy(customer) then Fails(Raised(NoEmailError))
    else if !customer.JObj? then Fails(Crashed)
    else if !Truthy(Get(customer.fields, "email", JNull)) then Fails(Raised(NoEmailError))
    else if Truthy(existingId) then Done(Customer(existingId, false))
    else Done(Customer(newId, true))
  }

  /** A missing customer or e-mail raises; a customer found is used and none is
      created; otherwise one is created and its id used. */
  lemma FindOrCreateCustomerSpec(customer: Json, existingId: Json, newId: Json)
    ensures var r := FindOrCreateCustomer(customer, existingId, newId);
            && ((!Truthy(customer) || (customer.JObj? && !Truthy(Get(customer.fields, "email", JNull)))) <==>
                  r == Fails(Raised(NoEmailError)))
            && (r.Done? ==> customer.JObj? && Truthy(customer.fields["email"]))
            && (r.Done? ==> (r.value.created <==> !Truthy(existingId)))
            && (r.Done? && !r.value.created ==> r.value.id == existingId)
            && (r.Done? && r.value.created ==> r.value.id == newId)
  {
  }

  // ---------------------------------------------------------------- line items

  /** `d.get(k1, {}).get(k2, {})...get(kn, default)`: None when a value on the way is
      there but is not a dict (Python raises). */
  function NestedGet(d: Dict, keys: seq<string>, default: Json): Option<Json>
    requires |keys| > 0
    decreases |keys|
  {
    if |keys| == 1 then Some(Get(d, keys[0], default))
    else
      var next := Get(d, keys[0], JObj(map[]));
      if next.JObj? then NestedGet(next.fields, keys[1..], default) else None
  }

  /** `float(d.get(key, {}).get('shopMoney', {}).get('amount', '0'))` */
  function Amount(d: Dict, key: string): Option<real> {
    match NestedGet(d, [key, "shopMoney", "amount"], JStr("0"))
    case None => None
    case Some(j) => PyFloat(j)
  }

  /** The line's currency: the original unit price's currency code, or TRY. */
  function CurrencyOf(d: Dict): Option<Json> {
    NestedGet(d, ["originalUnitPriceSet", "shopMoney", "currencyCode"], JStr("TRY"))
  }

  /** `(item.get('variant') or {}).get('sku')`: None when the variant is not a dict. */
  function SkuOf(d: Dict): Option<Json> {
    var v := Get(d, "variant", JNull);
    if !Truthy(v) then Some(JNull)
    else if v.JObj? then Some(Get(v.fields, "sku", JNull))
    else None
  }

  /** The unit price used: the discounted one when positive, else the original. */
  function FinalPrice(original: real, discounted: real): real {
    if discounted > 0.0 then discounted else original
  }

  /** The unit price is the discounted price when positive, else the original one. */
  lemma FinalPriceSpec(original: real, discounted: real)
    ensures discounted > 0.0 ==> FinalPrice(original, discounted) == discounted
    ensures discounted <= 0.0 ==> FinalPrice(original, discounted) == original
    ensures FinalPrice(original, discounted) > 0.0 <==> discounted > 0.0 || original > 0.0
  {
  }

  /** The entry `map_line_items` logs for one source item. */
  datatype MappingLog =
    | SkuMissing(title: Json)
    | Matched(sku: Json, quantity: Json, price: real)
    | SkuNotFound(sku: Json)

  /** A line to create: the variant id, the quantity as given, and the price with its
      currency when the price is positive. */
  datatype MappedLine = MappedLine(variantId: Json, quantity: Json, priced: Option<(real, Json)>)

  /** The line as the dict handed to the order builder. */
  function LineData(l: MappedLine): Dict {
    var base := map["variantId" := l.variantId, "quantity" := l.quantity];
    match l.priced
    case None => base
    case Some((price, currency)) => base["price" := JFloatStr(price)]["currency" := currency]
  }

  /** The destination store's variant id for each SKU; a SKU it does not know is absent. */
  type Directory = map<Json, Json>

  function VariantIdFor(directory: Directory, sku: Json): Json {
    if sku in directory then directory[sku] else JNull
  }

  /** What `map_line_items` makes of one source item: the line it adds, if any, and its
      log entry. */
  function MapItem(directory: Directory, item: Json): Outcome<(Option<MappedLine>, MappingLog)> {
    if !item.JObj? then Fails(Crashed)
    else
      var d := item.fields;
      var sku := SkuOf(d);
      if sku.None? then Fails(Crashed)
      else if !Truthy(sku.value) then Done((None, SkuMissing(Get(d, "title", JNull))))
      else
        var variantId := VariantIdFor(directory, sku.value);
        if !Truthy(variantId) then Done((None, SkuNotFound(sku.value)))
        else
          var original := Amount(d, "originalUnitPriceSet");
          var discounted := Amount(d, "discountedUnitPriceSet");
          if original.None? || discounted.None? then Fails(Crashed)
          else
            var price := FinalPrice(original.value, discounted.value);
            var quantity := Get(d, "quantity", JNull);
            var log := Matched(sku.value, quantity, price);
            if price <= 0.0 then Done((Some(MappedLine(variantId, quantity, None)), log))
            else
              var currency := CurrencyOf(d);
              if currency.None? then Fails(Crashed)
              else Done((Some(MappedLine(variantId, quantity, Some((price, currency.value)))), log))
  }

  /** An item without a SKU or with a SKU the destination does not know adds no line;
      a matched item adds a line with its truthy variant id and its quantity unchanged,
      priced (the discounted price when positive, else the original) only when that
      price is positive. */
  lemma MapItemSpec(directory: Directory, item: Json)
    requires MapItem(directory, item).Done?
    ensures item.JObj? && SkuOf(item.fields).Some?
    ensures var (line, log) := MapItem(directory, item).value;
            var d := item.fields;
            && (line.Some? <==> log.Matched?)
            && (log.SkuMissing? <==> !Truthy(SkuOf(d).value))
            && (log.SkuNotFound? ==> log.sku == SkuOf(d).value && Truthy(log.sku) && !Truthy(VariantIdFor(directory, log.sku)))
            && (log.Matched? ==>
                  && Truthy(log.sku) && log.sku == SkuOf(d).value
                  && Amount(d, "originalUnitPriceSet").Some? && Amount(d, "discountedUnitPriceSet").Some?
                  && log.price == FinalPrice(Amount(d, "originalUnitPriceSet").value, Amount(d, "discountedUnitPriceSet").value)
                  && line.value.variantId == VariantIdFor(directory, log.sku) && Truthy(line.value.variantId)
                  && line.value.quantity == Get(d, "quantity", JNull)
                  && (line.value.priced.Some? <==> log.price > 0.0)
                  && (line.value.priced.Some? ==> line.value.priced.value == (log.price, CurrencyOf(d).value)))
  {
  }

  // ---------------------------------------------------------------- gathering per-item results

  /** The values kept and the logs of per-item results, or the first failure. */
  function Gather<T, L>(results: seq<Outcome<(Option<T>, L)>>): Outcome<(seq<T>, seq<L>)> {
    if results == [] then Done(([], []))
    else
      match Gather(results[..|results| - 1])
      case Fails(f) => Fails(f)
      case Done((kept, logs)) =>
        match results[|results| - 1]
        case Fails(f) => Fails(f)
        case Done((x, log)) => Done((kept + (if x.Some? then [x.value] else []), logs + [log]))
  }

  /** Without a failure there is one log per result, in order, and every value kept comes
      from some result, none exactly when every result keeps none; with one, some result
      failed and every one before it did not. */
  lemma GatherSpec<T, L>(results: seq<Outcome<(Option<T>, L)>>)
    ensures var r := Gather(results);
            && (r.Done? ==>
                  var (kept, logs) := r.value;
                  && |logs| == |results| && |kept| <= |results|
                  && (forall i :: 0 <= i < |results| ==> results[i].Done? && logs[i] == results[i].value.1)
                  && (forall j :: 0 <= j < |kept| ==>
                        exists i :: 0 <= i < |results| && results[i].Done? && results[i].value.0 == Some(kept[j]))
                  && (kept == [] <==> forall i :: 0 <= i < |results| ==> results[i].value.0.None?))
            && (r.Fails? ==>
                  exists i :: 0 <= i < |results| && results[i].Fails? && r.failure == results[i].failure
                              && forall j :: 0 <= j < i ==> results[j].Done?)
  {
    GatherLogs(results);
    GatherKept(results);
    GatherFailure(results);
  }

  /** Without a failure, one log per result, in order, and no more values than results. */
  lemma {:induction false} GatherLogs<T, L>(results: seq<Outcome<(Option<T>, L)>>)
    ensures Gather(results).Done? ==>
              var (kept, logs) := Gather(results).value;
              && |logs| == |results| && |kept| <= |results|
              && forall i :: 0 <= i < |results| ==> results[i].Done? && logs[i] == results[i].value.1
  {
    if results != [] {
      var n := |results| - 1;
      var init := results[..n];
      GatherLogs(init);
      if Gather(results).Done? {
        var (kept0, logs0) := Gather(init).value;
        var (kept, logs) := Gather(results).value;
        assert logs == logs0 + [results[n].value.1];
        forall i | 0 <= i < |results| ensures results[i].Done? && logs[i] == results[i].value.1 {
          if i < n { assert results[i] == init[i]; }
        }
      }
    }
  }

  /** Without a failure, every value kept comes from some result, and none is kept exactly
      when every result keeps none. */
  lemma {:induction false} GatherKept<T, L>(results: seq<Outcome<(Option<T>, L)>>)
    ensures Gather(results).Done? ==>
              var kept := Gather(results).value.0;
              && (forall j :: 0 <= j < |kept| ==>
                    exists i :: 0 <= i < |results| && results[i].Done? && results[i].value.0 == Some(kept[j]))
              && (kept == [] <==> forall i :: 0 <= i < |results| ==> results[i].Done? && results[i].value.0.None?)
  {
    if results != [] {
      var n := |results| - 1;
      var init := results[..n];
      GatherKept(init);
      GatherLogs(init);
      if Gather(results).Done? {
        var kept0 := Gather(init).value.0;
        var x := results[n].value.0;
        var kept := Gather(results).value.0;
        assert kept == kept0 + (if x.Some? then [x.value] else []);
        forall j | 0 <= j < |kept|
          ensures exists i :: 0 <= i < |results| && results[i].Done? && results[i].value.0 == Some(kept[j])
        {
          if j < |kept0| {
            var i :| 0 <= i < n && init[i].Done? && init[i].value.0 == Some(kept0[j]);
            assert results[i].value.0 == Some(kept[j]);
          } else {
            assert results[n].value.0 == Some(kept[j]);
          }
        }
        if kept == [] {
          forall i | 0 <= i < |results| ensures results[i].Done? && results[i].value.0.None? {
            if i < n { assert results[i] == init[i]; }
          }
        } else if kept0 != [] {
          var i :| 0 <= i < n && init[i].value.0.Some?;
          assert results[i] == init[i];
        } else {
          assert results[n].value.0.Some?;
        }
      }
    }
  }

  /** With a failure, it is that of some result, and every result before it succeeded. */
  lemma {:induction false} GatherFailure<T, L>(results: seq<Outcome<(Option<T>, L)>>)
    ensures Gather(results).Fails? ==>
              exists i :: 0 <= i < |results| && results[i].Fails? && Gather(results).failure == results[i].failure
                          && forall j :: 0 <= j < i ==> results[j].Done?
  {
    if results != [] {
      var n := |results| - 1;
      var init := results[..n];
      GatherFailure(init);
      GatherLogs(init);
      if Gather(init).Fails? {
        var i :| 0 <= i < n && init[i].Fails? && Gather(init).failure == init[i].failure
                 && forall j :: 0 <= j < i ==> init[j].Done?;
        assert results[i].Fails? && forall j :: 0 <= j < i ==> results[j].Done?;
      } else if results[n].Fails? {
        assert forall j :: 0 <= j < n ==> results[j].Done?;
      }
    }
  }

  /** One more successful result after a successful prefix: its value, if any, and its
      log go at the end. */
  lemma GatherAppend<T, L>(results: seq<Outcome<(Option<T>, L)>>, i: nat, kept: seq<T>, logs: seq<L>)
    requires i < |results| && results[i].Done? && Gather(results[..i]) == Done((kept, logs))
    ensures var (x, log) := results[i].value;
            Gather(results[..i + 1]) == Done((if x.Some? then kept + [x.value] else kept, logs + [log]))
  {
    GatherStep(results, i);
    assert kept + [] == kept;
  }

  /** One more result: its value, if any, and its log go at the end. */
  lemma GatherStep<T, L>(results: seq<Outcome<(Option<T>, L)>>, i: nat)
    requires i < |results|
    ensures Gather(results[..i + 1])
         == match Gather(results[..i])
            case Fails(f) => Fails(f)
            case Done((kept, logs)) =>
              match results[i]
              case Fails(f) => Fails(f)
              case Done((x, log)) => Done((kept + (if x.Some? then [x.value] else []), logs + [log]))
  {
    assert results[..i + 1][..i] == results[..i];
  }

  /** Gathering two lists one after the other: when the first fails, so does the whole,
      the same way; when the first succeeds, the whole is the second's outcome with the
      first's values and logs put in front, so order is kept. */
  lemma {:induction false} GatherConcat<T, L>(xs: seq<Outcome<(Option<T>, L)>>, ys: seq<Outcome<(Option<T>, L)>>)
    ensures Gather(xs).Fails? ==> Gather(xs + ys) == Gather(xs)
    ensures Gather(xs).Done? && Gather(ys).Fails? ==> Gather(xs + ys) == Gather(ys)
    ensures Gather(xs).Done? && Gather(ys).Done? ==>
              Gather(xs + ys) == Done((Gather(xs).value.0 + Gather(ys).value.0, Gather(xs).value.1 + Gather(ys).value.1))
  {
    if ys == [] {
      assert xs + ys == xs;
      if Gather(xs).Done? {
        var (k1, l1) := Gather(xs).value;
        assert k1 + [] == k1 && l1 + [] == l1;
      }
    } else {
      var n := |ys| - 1;
      GatherConcat(xs, ys[..n]);
      assert (xs + ys)[..|xs + ys| - 1] == xs + ys[..n];
      assert (xs + ys)[|xs + ys| - 1] == ys[n];
      if Gather(xs).Done? && Gather(ys).Done? {
        var (k1, l1) := Gather(xs).value;
        var (k2, l2) := Gather(ys[..n]).value;
        var (x, log) := ys[n].value;
        var e := if x.Some? then [x.value] else [];
        assert (k1 + k2) + e == k1 + (k2 + e);
        assert (l1 + l2) + [log] == l1 + (l2 + [log]);
      }
    }
  }

  /** A single result: its failure, or its value if any and its one log. */
  lemma GatherSingle<T, L>(r: Outcome<(Option<T>, L)>)
    ensures r.Fails? ==> Gather([r]) == Fails(r.failure)
    ensures r.Done? ==> Gather([r]) == Done((if r.value.0.Some? then [r.value.0.value] else [], [r.value.1]))
  {
    assert [r][..0] == [];
    if r.Done? {
      var (x, log) := r.value;
      var e: seq<T> := if x.Some? then [x.value] else [];
      assert [] + e == e;
      assert [] + [log] == [log];
    }
  }

  /** Once a prefix fails, the whole fails the same way. */
  lemma {:induction false} GatherFailsStays<T, L>(results: seq<Outcome<(Option<T>, L)>>, k: nat)
    requires k <= |results| && Gather(results[..k]).Fails?
    ensures Gather(results) == Gather(results[..k])
    decreases |results| - k
  {
    if k < |results| {
      GatherStep(results, k);
      GatherFailsStays(results, k + 1);
    } else {
      assert results[..k] == results;
    }
  }

  // ---------------------------------------------------------------- map_line_items

  /** `MapItem` of each source item. */
  function MapResults(directory: Directory, items: seq<Json>): (r: seq<Outcome<(Option<MappedLine>, MappingLog)>>)
    ensures |r| == |items| && forall i :: 0 <= i < |items| ==> r[i] == MapItem(directory, items[i])
  {
    seq(|items|, i requires 0 <= i < |items| => MapItem(directory, items[i]))
  }

  /** `map_line_items`: the lines and the logs, or the first raise. */
  function MappedItems(directory: Directory, items: seq<Json>): Outcome<(seq<MappedLine>, seq<MappingLog>)> {
    Gather(MapResults(directory, items))
  }

  /** Mapping two runs of items one after the other: a raise in the first run is the
      whole's; otherwise the whole is the second run's outcome with the first run's lines
      and logs in front, so item order is kept. */
  lemma MappedItemsConcat(directory: Directory, a: seq<Json>, b: seq<Json>)
    ensures MappedItems(directory, a).Fails? ==> MappedItems(directory, a + b) == MappedItems(directory, a)
    ensures MappedItems(directory, a).Done? && MappedItems(directory, b).Fails? ==>
              MappedItems(directory, a + b) == MappedItems(directory, b)
    ensures MappedItems(directory, a).Done? && MappedItems(directory, b).Done? ==>
              var (la, ga) := MappedItems(directory, a).value;
              var (lb, gb) := MappedItems(directory, b).value;
              MappedItems(directory, a + b) == Done((la + lb, ga + gb))
  {
    assert MapResults(directory, a + b) == MapResults(directory, a) + MapResults(directory, b);
    GatherConcat(MapResults(directory, a), MapResults(directory, b));
  }

  /** When no item raises there is one log entry per item, the i-th for the i-th item;
      every line comes from a matched item, and there are none exactly when no item
      matched. When it raises, an item raised and every item before it mapped. */
  lemma MappedItemsSpec(directory: Directory, items: seq<Json>)
    ensures var r := MappedItems(directory, items);
            && (r.Done? ==>
                  var (lines, logs) := r.value;
                  && |logs| == |items| && |lines| <= |items|
                  && (forall i :: 0 <= i < |items| ==> MapItem(directory, items[i]).Done?
                                                       && logs[i] == MapItem(directory, items[i]).value.1)
                  && (forall j :: 0 <= j < |lines| ==>
                        exists i :: 0 <= i < |items| && MapItem(directory, items[i]).Done?
                                    && MapItem(directory, items[i]).value.0 == Some(lines[j]))
                  && (lines == [] <==> forall i :: 0 <= i < |items| ==> !logs[i].Matched?))
            && (r.Fails? ==>
                  exists i :: 0 <= i < |items| && MapItem(directory, items[i]).Fails?
                              && forall j :: 0 <= j < i ==> MapItem(directory, items[j]).Done?)
  {
    var results := MapResults(directory, items);
    GatherSpec(results);
    var r := MappedItems(directory, items);
    if r.Done? {
      forall i | 0 <= i < |items|
        ensures results[i].value.0.None? <==> !r.value.1[i].Matched?
      {
        MapItemSpec(directory, items[i]);
      }
    }
  }

  /** `map_line_items`: the lines to create, in source order, and one log per item. */
  method MapLineItems(directory: Directory, items: seq<Json>) returns (r: Outcome<(seq<MappedLine>, seq<MappingLog>)>)
    ensures r == MappedItems(directory, items)
  {
    ghost var results := MapResults(directory, items);
    var lines: seq<MappedLine> := [];
    var logs: seq<MappingLog> := [];
    var i := 0;
    while i < |items|
      invariant 0 <= i <= |items|
      invariant Gather(results[..i]) == Done((lines, logs))
    {
      var step := MapItem(directory, items[i]);
      assert results[i] == step;
      if step.Fails? {
        GatherStep(results, i);
        GatherFailsStays(results, i + 1);
        return Fails(step.failure);
      }
      var (line, log) := step.value;
      GatherAppend(results, i, lines, logs);
      if line.Some? {
        lines := lines + [line.value];
      }
      logs := logs + [log];
      i := i + 1;
    }
    assert results[..i] == results;
    r := Done((lines, logs));
  }

  // ---------------------------------------------------------------- order total

  /** The six amounts read from the order. */
  datatype Totals = Totals(current: real, original: real, subtotal: real, discounts: real, shipping: real, tax: real)

  datatype TotalSource = CurrentTotal | ManualCalculation | OriginalTotalFallback

  /** The amounts, or None when one of them cannot be read. */
  function ReadTotals(order: Dict): Option<Totals> {
    var c := Amount(order, "currentTotalPriceSet");
    var o := Amount(order, "totalPriceSet");
    var s := Amount(order, "currentSubtotalPriceSet");
    var d := Amount(order, "totalDiscountsSet");
    var sh := Amount(order, "totalShippingPriceSet");
    var t := Amount(order, "totalTaxSet");
    if c.Some? && o.Some? && s.Some? && d.Some? && sh.Some? && t.Some?
    then Some(Totals(c.value, o.value, s.value, d.value, sh.value, t.value))
    else None
  }

  /** subtotal − discounts + shipping + tax */
  function CalculatedTotal(t: Totals): real {
    t.subtotal - t.discounts + t.shipping + t.tax
  }

  /** The net total put in the note, and where it came from. */
  function ChooseTotal(t: Totals): (real, TotalSource) {
    if t.current > 0.0 then (t.current, CurrentTotal)
    else if CalculatedTotal(t) > 0.0 then (CalculatedTotal(t), ManualCalculation)
    else (t.original, OriginalTotalFallback)
  }

  /** The current total wins when positive; the calculated one only when the current is
      not positive; the original only when neither is, so the chosen total is positive
      whenever the current or the calculated one is. */
  lemma ChooseTotalSpec(t: Totals)
    ensures var (amount, source) := ChooseTotal(t);
            && (source == CurrentTotal <==> t.current > 0.0)
            && (source == ManualCalculation <==> t.current <= 0.0 && t.subtotal - t.discounts + t.shipping + t.tax > 0.0)
            && (source == OriginalTotalFallback <==> t.current <= 0.0 && t.subtotal - t.discounts + t.shipping + t.tax <= 0.0)
            && (source != OriginalTotalFallback ==> amount > 0.0)
            && (source == OriginalTotalFallback ==> amount == t.original)
  {
  }

  // ---------------------------------------------------------------- the transfer

  /** The log entries of a transfer; the six amount lines are one entry. */
  datatype TransferLog =
    | CustomerChosen(id: Json)
    | Mapping(entry: MappingLog)
    | TotalAnalysis(totals: Totals, calculated: real, chosen: real, source: TotalSource)
    | OrderCreated(name: Json)
    | Critical(failure: Failure)

  /** `{"success": ..., "logs": ..., "new_order_name": ...}` */
  datatype TransferResult = TransferResult(success: bool, logs: seq<TransferLog>, newOrderName: Option<Json>)

  /** `str(x)` of the order name, with `floatText` standing for `str()` of a float. */
  function TextOf(j: Json, floatText: real -> string): string {
    match j
    case JFloat(r) => floatText(r)
    case JFloatStr(r) => floatText(r)
    case _ => if PyStr(j).JStr? then PyStr(j).s else ""
  }

  /** The note of the created order. */
  function Note(order: Dict, total: real, floatText: real -> string): string {
    NotePrefix + TextOf(Get(order, "name", JNull), floatText) + NoteTotal + floatText(total)
  }

  /** `order_data_for_creation`: customer, lines, shipping address, note and e-mail, and
      no transactions. */
  function CreationData(order: Dict, customerId: Json, email: Json, lines: seq<MappedLine>, total: real,
                        floatText: real -> string): Dict
  {
    map["customerId" := customerId,
        "lineItems" := JArr(seq(|lines|, i requires 0 <= i < |lines| => JObj(LineData(lines[i])))),
        "shippingAddress" := Get(order, "shippingAddress", JObj(map[])),
        "note" := JStr(Note(order, total, floatText)),
        "email" := email]
  }

  function Wrap(logs: seq<MappingLog>): (r: seq<TransferLog>)
    ensures |r| == |logs| && forall i :: 0 <= i < |logs| ==> r[i] == Mapping(logs[i])
  {
    seq(|logs|, i requires 0 <= i < |logs| => Mapping(logs[i]))
  }

  function Failed(logs: seq<TransferLog>, f: Failure): TransferResult {
    TransferResult(false, logs + [Critical(f)], None)
  }

  /** `.get('email')` of the order's customer. */
  function EmailOf(order: Dict): Json {
    var c := Get(order, "customer", JObj(map[]));
    if c.JObj? then Get(c.fields, "email", JNull) else JNull
  }

  /** A finished transfer: it succeeds with the new order's name as its last log entry,
      or fails with the critical error as its last entry and no order name. */
  predicate Concluded(r: TransferResult) {
    && |r.logs| > 0
    && (r.success ==> r.logs[|r.logs| - 1].OrderCreated? && r.newOrderName == Some(r.logs[|r.logs| - 1].name))
    && (!r.success ==> r.logs[|r.logs| - 1].Critical? && r.newOrderName.None?)
  }

  /** Building the order from the creation data and creating it: a success ends the log
      with the new order's name, a raise with the critical error. */
  function Submit(logs: seq<TransferLog>, data: Dict, createOrder: OrderInput -> Result<Dict>): (r: TransferResult)
    ensures Concluded(r) && |r.logs| == |logs| + 1 && r.logs[..|logs|] == logs
    ensures r.success <==> OrderShaped(data) && createOrder(BuildOrder(data)).Ok?
  {
    if !OrderShaped(data) then Failed(logs, Crashed)
    else match createOrder(BuildOrder(data))
      case Err(message) => Failed(logs, Raised(message))
      case Ok(created) =>
        var name := Get(created, "name", JNull);
        TransferResult(true, logs + [OrderCreated(name)], Some(name))
  }

  /** The rest of `transfer_order` once the lines are mapped: the nothing-matched check,
      the total, and creating the order. The earlier entries are kept, and with no line
      to create it fails with the nothing-matched error. */
  function AfterMapping(order: Dict, customerId: Json, logs: seq<TransferLog>, lines: seq<MappedLine>,
                        createOrder: OrderInput -> Result<Dict>, floatText: real -> string): (r: TransferResult)
    ensures Concluded(r) && |r.logs| > |logs| && r.logs[..|logs|] == logs
    ensures lines == [] ==> r == Failed(logs, Raised(NothingMatchedError))
  {
    if lines == [] then Failed(logs, Raised(NothingMatchedError))
    else match ReadTotals(order)
      case None => Failed(logs, Crashed)
      case Some(totals) =>
        var (total, source) := ChooseTotal(totals);
        var logs' := logs + [TotalAnalysis(totals, CalculatedTotal(totals), total, source)];
        var r := Submit(logs', CreationData(order, customerId, EmailOf(order), lines, total, floatText), createOrder);
        assert r.logs[..|logs|] == r.logs[..|logs'|][..|logs|];
        r
  }

  /** `order_data.get('lineItems', {}).get('nodes', [])` as `map_line_items` iterates it:
      a list gives its items, and an empty string or dict gives none. None stands for the
      error Python raises: `lineItems` that is not a dict, nodes that cannot be iterated,
      or a non-empty string or dict, whose first element is a string with no `.get`. */
  function LineNodes(order: Dict): (r: Option<seq<Json>>)
    ensures r.Some? <==>
              && Get(order, "lineItems", JObj(map[])).JObj?
              && var nodes := Get(Get(order, "lineItems", JObj(map[])).fields, "nodes", JArr([]));
                 nodes.JArr? || nodes == JStr("") || nodes == JObj(map[])
    ensures r.Some? && Get(Get(order, "lineItems", JObj(map[])).fields, "nodes", JArr([])).JArr? ==>
              r.value == Get(Get(order, "lineItems", JObj(map[])).fields, "nodes", JArr([])).items
    ensures r.Some? && !Get(Get(order, "lineItems", JObj(map[])).fields, "nodes", JArr([])).JArr? ==>
              r.value == []
  {
    var lineData := Get(order, "lineItems", JObj(map[]));
    if !lineData.JObj? then None
    else match Get(lineData.fields, "nodes", JArr([]))
      case JArr(items) => Some(items)
      case JStr(s) => if s == "" then Some([]) else None
      case JObj(f) => if f == map[] then Some([]) else None
      case _ => None
  }

  /** The part of `transfer_order` after the customer is known: reading the line items,
      mapping them, and the rest. The log starts with the chosen customer; when every
      item maps but none matched, it fails with the nothing-matched error. */
  function WithCustomer(order: Dict, directory: Directory, customerId: Json,
                        createOrder: OrderInput -> Result<Dict>, floatText: real -> string): (r: TransferResult)
    ensures Concluded(r) && r.logs[0] == CustomerChosen(customerId)
    ensures LineNodes(order).Some?
            && MappedItems(directory, LineNodes(order).value).Done?
            && MappedItems(directory, LineNodes(order).value).value.0 == [] ==>
              !r.success && r.logs[|r.logs| - 1] == Critical(Raised(NothingMatchedError))
  {
    var logs := [CustomerChosen(customerId)];
    var nodes := LineNodes(order);
    if nodes.None? then Failed(logs, Crashed)
    else match MappedItems(directory, nodes.value)
      case Fails(f) => Failed(logs, f)
      case Done((lines, mappingLogs)) =>
        assert (logs + Wrap(mappingLogs))[0] == CustomerChosen(customerId);
        AfterMapping(order, customerId, logs + Wrap(mappingLogs), lines, createOrder, floatText)
  }

  /** Line items whose `nodes` is an empty string or an empty dict map to nothing, so
      the transfer ends with the nothing-matched error rather than a crash. */
  lemma FalsyNodesNothingMatched(order: Dict, directory: Directory, customerId: Json,
                                 createOrder: OrderInput -> Result<Dict>, floatText: real -> string)
    requires Get(order, "lineItems", JObj(map[])).JObj?
    requires var nodes := Get(Get(order, "lineItems", JObj(map[])).fields, "nodes", JArr([]));
             nodes == JStr("") || nodes == JObj(map[])
    ensures var r := WithCustomer(order, directory, customerId, createOrder, floatText);
            !r.success && r.logs[|r.logs| - 1] == Critical(Raised(NothingMatchedError))
  {
    assert LineNodes(order) == Some([]);
    assert MappedItems(directory, []) == Done(([], []));
  }

  /** `transfer_order`: `customerLookup` and `newCustomerId` answer the customer search
      and creation, `directory` the variant searches, `createOrder` the order creation
      (an error result when it raises). A success starts its log with the chosen
      customer; with no customer e-mail it fails with that error alone. */
  function Transfer(order: Dict, directory: Directory, customerLookup: Json, newCustomerId: Json,
                    createOrder: OrderInput -> Result<Dict>, floatText: real -> string): (r: TransferResult)
    ensures Concluded(r)
    ensures var customer := FindOrCreateCustomer(Get(order, "customer", JNull), customerLookup, newCustomerId);
            && (r.success ==> customer.Done? && r.logs[0] == CustomerChosen(customer.value.id))
            && (customer == Fails(Raised(NoEmailError)) ==> r == TransferResult(false, [Critical(Raised(NoEmailError))], None))
  {
    match FindOrCreateCustomer(Get(order, "customer", JNull), customerLookup, newCustomerId)
    case Fails(f) => Failed([], f)
    case Done(customer) => WithCustomer(order, directory, customer.id, createOrder, floatText)
  }

  /** The order sent for creation never has transactions. */
  lemma CreationHasNoTransactions(order: Dict, customerId: Json, email: Json, lines: seq<MappedLine>, total: real,
                                  floatText: real -> string)
    requires OrderShaped(CreationData(order, customerId, email, lines, total, floatText))
    ensures BuildOrder(CreationData(order, customerId, email, lines, total, floatText)).transactions.None?
  {
    NoTransactionsKey(CreationData(order, customerId, email, lines, total, floatText));
  }

  /** A mapped line with a positive price becomes a line item whose priceSet is that
      price in the line's currency: `str()` of the price reads back as the same number. */
  lemma MappedPriceReachesOrder(l: MappedLine)
    requires Truthy(l.variantId) && l.priced.Some? && l.priced.value.0 > 0.0
    requires !Truthy(l.quantity) || PyInt(l.quantity).Some?
    ensures BuildLineItem(JObj(LineData(l))).Some?
    ensures BuildLineItem(JObj(LineData(l))).value.priceSet == Some(Money(JFloatStr(l.priced.value.0), l.priced.value.1))
    ensures BuildLineItem(JObj(LineData(l))).value.variantId == Some(l.variantId)
  {
    var line := LineData(l);
    assert line["price"] == JFloatStr(l.priced.value.0) && line["currency"] == l.priced.value.1;
    assert line["variantId"] == l.variantId && line["quantity"] == l.quantity;
  }

  /** The end of `transfer_order` after mapping. */
  method FinishTransfer(order: Dict, customerId: Json, logs: seq<TransferLog>, lines: seq<MappedLine>,
                        createOrder: OrderInput -> Result<Dict>, floatText: real -> string) returns (r: TransferResult)
    ensures r == AfterMapping(order, customerId, logs, lines, createOrder, floatText)
  {
    if lines == [] {
      return Failed(logs, Raised(NothingMatchedError));
    }
    var totals := ReadTotals(order);
    if totals.None? {
      return Failed(logs, Crashed);
    }
    var (total, source) := ChooseTotal(totals.value);
    var logs' := logs + [TotalAnalysis(totals.value, CalculatedTotal(totals.value), total, source)];
    var data := CreationData(order, customerId, EmailOf(order), lines, total, floatText);
    r := SubmitOrder(logs', data, createOrder);
  }

  /** Builds the order input with the builder's method and creates the order. */
  method SubmitOrder(logs: seq<TransferLog>, data: Dict, createOrder: OrderInput -> Result<Dict>) returns (r: TransferResult)
    ensures r == Submit(logs, data, createOrder)
  {
    if !OrderShaped(data) {
      return Failed(logs, Crashed);
    }
    var orderInput := BuildOrderInput(data);
    var created := createOrder(orderInput);
    if created.Err? {
      return Failed(logs, Raised(created.error));
    }
    var name := Get(created.value, "name", JNull);
    return TransferResult(true, logs + [OrderCreated(name)], Some(name));
  }

  /** `transfer_order` once the customer is known: maps the line items with the loop,
      then builds and creates the order. */
  method TransferLines(order: Dict, directory: Directory, customerId: Json,
                       createOrder: OrderInput -> Result<Dict>, floatText: real -> string) returns (r: TransferResult)
    ensures r == WithCustomer(order, directory, customerId, createOrder, floatText)
  {
    var logs := [CustomerChosen(customerId)];
    var nodes := LineNodes(order);
    if nodes.None? {
      return Failed(logs, Crashed);
    }
    var mapped := MapLineItems(directory, nodes.value);
    if mapped.Fails? {
      return Failed(logs, mapped.failure);
    }
    var (lines, mappingLogs) := mapped.value;
    r := FinishTransfer(order, customerId, logs + Wrap(mappingLogs), lines, createOrder, floatText);
  }

  /** `transfer_order`: finds or creates the customer, then transfers the lines. */
  method TransferOrder(order: Dict, directory: Directory, customerLookup: Json, newCustomerId: Json,
                       createOrder: OrderInput -> Result<Dict>, floatText: real -> string) returns (r: TransferResult)
    ensures r == Transfer(order, directory, customerLookup, newCustomerId, createOrder, floatText)
  {
    var customer := FindOrCreateCustomer(Get(order, "customer", JNull), customerLookup, newCustomerId);
    if customer.Fails? {
      return Failed([], customer.failure);
    }
    r := TransferLines(order, directory, customer.value.id, createOrder, floatText);
  }
}
