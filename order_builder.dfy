/** operations/shopify_order_builder.py: builds the input of Shopify's orderCreate
    mutation from loosely shaped order data, keeping only the keys the schema accepts
    and only the values that are truthy. */
module OrderBuilder {
  import opened Wrappers
  import opened Strs
  import opened Json

  const DefaultCurrency := JStr("TRY")
  const DefaultGateway := JStr("manual")
  const DefaultKind := JStr("SALE")
  const DefaultStatus := JStr("SUCCESS")

  /** `if v: d[k] = v`, for one key: the value when it is truthy. */
  function Kept(v: Json): Option<Json> {
    if Truthy(v) then Some(v) else None
  }

  /** `{"shopMoney": {"amount": ..., "currencyCode": ...}}` */
  datatype Money = Money(amount: Json, currencyCode: Json)

  // ---------------------------------------------------------------- mailing address

  /** What `build_mailing_address` can read without raising: a falsy value, or a dict
      whose 'name' is a string whenever it is split. */
  predicate AddressShaped(a: Json) {
    !Truthy(a)
    || (a.JObj? && (Truthy(Get(a.fields, "name", JStr(""))) && !Truthy(Get(a.fields, "firstName", JStr(""))) ==>
                      Get(a.fields, "name", JStr("")).JStr?))
  }

  /** `full_name.strip().split(' ', 1)`: the head, and the rest or "". */
  function NameParts(full: string): (string, string) {
    var (h, t) := SplitOnce(Trim(full), ' ');
    (h, if t.Some? then t.value else "")
  }

  /** The head holds no space; the trimmed name is the head alone, or the head, one
      space and the rest. */
  lemma NamePartsSpec(full: string)
    ensures var (f, l) := NameParts(full);
            && ' ' !in f
            && (' ' !in Trim(full) ==> f == Trim(full) && l == "")
            && (' ' in Trim(full) ==> Trim(full) == f + " " + l)
  {
  }

  /** The first and last name: the given ones, or the parts of a given 'name' when
      firstName is not given; the split replaces lastName too. */
  function Names(d: Dict): (Json, Json) {
    var full := Get(d, "name", JStr(""));
    var first := Get(d, "firstName", JStr(""));
    var last := Get(d, "lastName", JStr(""));
    if Truthy(full) && !Truthy(first) && full.JStr? then
      var (f, l) := NameParts(full.s);
      (JStr(f), JStr(l))
    else (first, last)
  }

  /** A MailingAddressInput: each field is a key the dict holds or lacks, so no other
      key (such as 'name' or 'countryCodeV2') can appear. */
  datatype Address = Address(
    firstName: Option<Json>, lastName: Option<Json>, address1: Option<Json>, address2: Option<Json>,
    city: Option<Json>, province: Option<Json>, zip: Option<Json>, country: Option<Json>, phone: Option<Json>)

  const NoAddress := Address(None, None, None, None, None, None, None, None, None)

  /** The keys of a MailingAddressInput. */
  datatype AddressKey = FirstName | LastName | Address1 | Address2 | City | Province | Zip | Country | Phone

  /** The key as the dict spells it. */
  function KeyName(k: AddressKey): string {
    match k
    case FirstName => "firstName"
    case LastName => "lastName"
    case Address1 => "address1"
    case Address2 => "address2"
    case City => "city"
    case Province => "province"
    case Zip => "zip"
    case Country => "country"
    case Phone => "phone"
  }

  /** The keys copied from the input as they are. */
  predicate Copied(k: AddressKey) {
    k != FirstName && k != LastName
  }

  /** `address.get(k)` on the built address as a dict. */
  function AddressField(x: Address, k: AddressKey): Option<Json> {
    match k
    case FirstName => x.firstName
    case LastName => x.lastName
    case Address1 => x.address1
    case Address2 => x.address2
    case City => x.city
    case Province => x.province
    case Zip => x.zip
    case Country => x.country
    case Phone => x.phone
  }

  /** No key of a built address is spelt 'name' or 'countryCodeV2'. */
  lemma NoNameKey(k: AddressKey)
    ensures KeyName(k) != "name" && KeyName(k) != "countryCodeV2"
  {
    assert |"name"| == 4 && |"countryCodeV2"| == 13;
  }

  /** The address before the emptiness test, for the names picked. */
  function AddressFrom(d: Dict, first: Json, last: Json): Address {
    Address(Kept(first), Kept(last), Kept(Get(d, "address1", JNull)), Kept(Get(d, "address2", JNull)),
            Kept(Get(d, "city", JNull)), Kept(Get(d, "province", JNull)), Kept(Get(d, "zip", JNull)),
            Kept(Get(d, "country", JNull)), Kept(Get(d, "phone", JNull)))
  }

  /** The address before the emptiness test. */
  function AddressFields(d: Dict): Address {
    AddressFrom(d, Names(d).0, Names(d).1)
  }

  /** `build_mailing_address` */
  function BuildMailingAddress(a: Json): Option<Address>
    requires AddressShaped(a)
  {
    if !Truthy(a) then None
    else
      var x := AddressFields(a.fields);
      if x == NoAddress then None else Some(x)
  }

  /** Each copied key is in the built address exactly when the input's value is
      truthy, and then with that value; the names are kept when truthy; every key
      present holds a truthy value. */
  lemma AddressFromSpec(d: Dict, first: Json, last: Json)
    ensures var x := AddressFrom(d, first, last);
            && (forall k :: Copied(k) ==>
                  (AddressField(x, k).Some? <==> Truthy(Get(d, KeyName(k), JNull)))
                  && (AddressField(x, k).Some? ==> AddressField(x, k).value == d[KeyName(k)]))
            && (x.firstName.Some? <==> Truthy(first)) && (x.firstName.Some? ==> x.firstName.value == first)
            && (x.lastName.Some? <==> Truthy(last)) && (x.lastName.Some? ==> x.lastName.value == last)
            && (forall k :: AddressField(x, k).Some? ==> Truthy(AddressField(x, k).value))
  {
    forall k: AddressKey {
      AddressKeySpec(d, first, last, k);
    }
  }

  /** One key of the address: a copied key holds the input's value exactly when it is
      truthy; the names hold the names picked exactly when they are truthy. */
  lemma AddressKeySpec(d: Dict, first: Json, last: Json, k: AddressKey)
    ensures var f := AddressField(AddressFrom(d, first, last), k);
            && (Copied(k) ==> (f.Some? <==> Truthy(Get(d, KeyName(k), JNull))))
            && (Copied(k) && f.Some? ==> f.value == d[KeyName(k)])
            && (k == FirstName ==> f == Kept(first))
            && (k == LastName ==> f == Kept(last))
            && (f.Some? ==> Truthy(f.value))
  {
  }


  /** Falsy input and input where nothing survives both give None; otherwise some key
      survives. */
  lemma MailingAddressSpec(a: Json)
    requires AddressShaped(a)
    ensures var r := BuildMailingAddress(a);
            && (!Truthy(a) ==> r.None?)
            && (r.Some? ==> exists k :: AddressField(r.value, k).Some?)
            && (Truthy(a) ==>
                  (r.None? <==> !Truthy(Names(a.fields).0) && !Truthy(Names(a.fields).1)
                                && forall k :: Copied(k) ==> !Truthy(Get(a.fields, KeyName(k), JNull))))
  {
    if Truthy(a) {
      var (first, last) := Names(a.fields);
      AddressFromSpec(a.fields, first, last);
      var x := AddressFrom(a.fields, first, last);
      if x != NoAddress {
        var k: AddressKey :| AddressField(x, k).Some?;
      }
    }
  }

  /** A truthy 'name' without a firstName is split at its first space, and the split
      also decides lastName, whatever lastName was given. */
  lemma NameSplitSpec(d: Dict)
    requires Get(d, "name", JStr("")).JStr? && Truthy(Get(d, "name", JStr("")))
    requires !Truthy(Get(d, "firstName", JStr("")))
    ensures var full := Trim(d["name"].s);
            var (f, l) := (Names(d).0.s, Names(d).1.s);
            && Names(d).0.JStr? && Names(d).1.JStr?
            && (' ' in full ==> full == f + " " + l && ' ' !in f)
            && (' ' !in full ==> f == full && l == "")
  {
    NamePartsSpec(d["name"].s);
  }

  // ---------------------------------------------------------------- transaction

  /** An OrderCreateOrderTransactionInput; it has no field for a bare 'amount'. */
  datatype Transaction = Transaction(gateway: Json, kind: Json, status: Json, amountSet: Option<Money>)

  /** `build_transaction`: None for falsy input. The amount defaults to the string
      '0', which is truthy, so amountSet is there unless the amount given is falsy. */
  function BuildTransaction(t: Json): Option<Transaction>
    requires !Truthy(t) || t.JObj?
  {
    if !Truthy(t) then None
    else
      var d := t.fields;
      var amount := Get(d, "amount", JStr("0"));
      var currency := Get(d, "currency", DefaultCurrency);
      Some(Transaction(Get(d, "gateway", DefaultGateway), Get(d, "kind", DefaultKind), Get(d, "status", DefaultStatus),
                       if Truthy(amount) then Some(Money(PyStr(amount), currency)) else None))
  }

  /** A transaction is built exactly for truthy input; gateway, kind and status are the
      ones given or manual, SALE and SUCCESS; amountSet is the amount's text in the
      currency given (default TRY), there exactly when the amount is truthy. */
  lemma TransactionSpec(t: Json)
    requires !Truthy(t) || t.JObj?
    ensures var r := BuildTransaction(t);
            && (r.Some? <==> Truthy(t))
            && (r.Some? ==>
                  var d := t.fields;
                  && ("gateway" !in d ==> r.value.gateway == JStr("manual"))
                  && ("kind" !in d ==> r.value.kind == JStr("SALE"))
                  && ("status" !in d ==> r.value.status == JStr("SUCCESS"))
                  && ("gateway" in d ==> r.value.gateway == d["gateway"])
                  && (r.value.amountSet.Some? <==> "amount" !in d || Truthy(d["amount"]))
                  && (r.value.amountSet.Some? ==>
                        && r.value.amountSet.value.currencyCode == Get(d, "currency", JStr("TRY"))
                        && r.value.amountSet.value.amount == (if "amount" in d then PyStr(d["amount"]) else JStr("0"))))
  {
  }

  /** A numeric amount is sent as its text, a string amount as it is. */
  lemma AmountIsText(t: Json)
    requires t.JObj? && Truthy(t) && "amount" in t.fields
    requires t.fields["amount"].JFloat? || t.fields["amount"].JInt? || t.fields["amount"].JStr?
    requires Truthy(t.fields["amount"])
    ensures var m := BuildTransaction(t).value.amountSet.value.amount;
            && (t.fields["amount"].JFloat? ==> m == JFloatStr(t.fields["amount"].r))
            && (t.fields["amount"].JInt? ==> m == JStr(IntToString(t.fields["amount"].i)))
            && (t.fields["amount"].JStr? ==> m == t.fields["amount"])
  {
  }

  // ---------------------------------------------------------------- line item

  /** An OrderCreateOrderLineItemInput; it has no field for a bare 'price'. */
  datatype LineItem = LineItem(variantId: Option<Json>, quantity: Option<int>, priceSet: Option<Money>)

  const NoLineItem := LineItem(None, None, None)

  /** The quantity step: `Some(None)` when no quantity key is added, `None` when the
      quantity is truthy but `int()` raises. */
  function QuantityPart(q: Json): Option<Option<int>> {
    if !Truthy(q) then Some(None)
    else match PyInt(q)
      case None => None
      case Some(n) => Some(if n > 0 then Some(n) else None)
  }

  /** The priceSet step: added only for a truthy price that `float()` reads as positive. */
  function PricePart(p: Json, currency: Json): Option<Money> {
    if !Truthy(p) then None
    else match PyFloat(p)
      case None => None
      case Some(x) => if x > 0.0 then Some(Money(JFloatStr(x), currency)) else None
  }

  /** `build_line_item` */
  function BuildLineItem(li: Json): Option<LineItem>
    requires !Truthy(li) || li.JObj?
  {
    if !Truthy(li) then None
    else
      var d := li.fields;
      match QuantityPart(Get(d, "quantity", JNull))
      case None => None
      case Some(quantity) =>
        var item := LineItem(Kept(Get(d, "variantId", JNull)), quantity,
                             PricePart(Get(d, "price", JNull), Get(d, "currency", DefaultCurrency)));
        if item == NoLineItem then None else Some(item)
  }

  /** A quantity `int()` cannot read drops the whole item; a readable quantity is kept
      only when positive; priceSet is there only for a positive readable price, as its
      text in the item's currency (default TRY); variantId only when truthy; an item
      left empty is None. */
  lemma LineItemSpec(li: Json)
    requires !Truthy(li) || li.JObj?
    ensures var r := BuildLineItem(li);
            && (!Truthy(li) ==> r.None?)
            && (r.Some? ==> r.value != NoLineItem)
            && (Truthy(li) && Truthy(Get(li.fields, "quantity", JNull)) && PyInt(li.fields["quantity"]).None? ==> r.None?)
            && (r.Some? ==>
                  var d := li.fields;
                  && (r.value.variantId.Some? <==> Truthy(Get(d, "variantId", JNull)))
                  && (r.value.variantId.Some? ==> r.value.variantId.value == d["variantId"])
                  && (r.value.quantity.Some? <==>
                        Truthy(Get(d, "quantity", JNull)) && PyInt(d["quantity"]).Some? && PyInt(d["quantity"]).value > 0)
                  && (r.value.quantity.Some? ==> r.value.quantity.value == PyInt(d["quantity"]).value)
                  && (r.value.priceSet.Some? <==>
                        Truthy(Get(d, "price", JNull)) && PyFloat(d["price"]).Some? && PyFloat(d["price"]).value > 0.0)
                  && (r.value.priceSet.Some? ==>
                        r.value.priceSet.value == Money(JFloatStr(PyFloat(d["price"]).value), Get(d, "currency", JStr("TRY")))))
  {
  }

  /** A line item whose quantity is text such as "invalid" is not built at all. */
  lemma InvalidQuantityDropsItem(li: Json, k: nat)
    requires li.JObj? && Truthy(li) && "quantity" in li.fields && li.fields["quantity"].JStr?
    requires k < |Trim(li.fields["quantity"].s)| && 'a' <= Trim(li.fields["quantity"].s)[k] <= 'z'
    ensures BuildLineItem(li).None?
  {
    ParseIntRejectsLetters(li.fields["quantity"].s, k);
  }

  // ---------------------------------------------------------------- order input

  /** What `build_line_item` and `build_transaction` can read: falsy items or dicts. */
  predicate ItemsShaped(items: seq<Json>) {
    forall i :: 0 <= i < |items| ==> !Truthy(items[i]) || items[i].JObj?
  }

  /** What `build_order_input` can read: list entries that are falsy or lists of
      readable items, and readable addresses. */
  predicate OrderShaped(order: Dict) {
    && (!Truthy(Get(order, "lineItems", JArr([]))) || (order["lineItems"].JArr? && ItemsShaped(order["lineItems"].items)))
    && (!Truthy(Get(order, "transactions", JArr([]))) || (order["transactions"].JArr? && ItemsShaped(order["transactions"].items)))
    && AddressShaped(Get(order, "shippingAddress", JNull))
    && AddressShaped(Get(order, "billingAddress", JNull))
  }

  /** An OrderCreateOrderInput: each field is a key the dict holds or lacks. */
  datatype OrderInput = OrderInput(
    customerId: Option<Json>, lineItems: Option<seq<LineItem>>, shippingAddress: Option<Address>,
    billingAddress: Option<Address>, note: Option<Json>, transactions: Option<seq<Transaction>>, email: Option<Json>)

  /** The values of the `Some` entries, in order. */
  function Somes<T>(xs: seq<Option<T>>): seq<T> {
    if xs == [] then []
    else Somes(xs[..|xs| - 1]) + (if xs[|xs| - 1].Some? then [xs[|xs| - 1].value] else [])
  }

  /** Every value kept comes from some entry; nothing is kept exactly when every entry
      is None; when every entry is Some, all the values are kept in order. */
  lemma SomesSpec<T>(xs: seq<Option<T>>)
    ensures var r := Somes(xs);
            && |r| <= |xs|
            && (forall j :: 0 <= j < |r| ==> exists i :: 0 <= i < |xs| && xs[i] == Some(r[j]))
            && (r == [] <==> forall i :: 0 <= i < |xs| ==> xs[i].None?)
            && ((forall i :: 0 <= i < |xs| ==> xs[i].Some?) ==> |r| == |xs| && forall i :: 0 <= i < |xs| ==> xs[i] == Some(r[i]))
  {
    SomesFrom(xs);
    SomesEmpty(xs);
    if forall i :: 0 <= i < |xs| ==> xs[i].Some? {
      SomesAll(xs);
    }
  }

  /** Every value kept comes from some entry. */
  lemma {:induction false} SomesFrom<T>(xs: seq<Option<T>>)
    ensures |Somes(xs)| <= |xs|
    ensures forall j :: 0 <= j < |Somes(xs)| ==> exists i :: 0 <= i < |xs| && xs[i] == Some(Somes(xs)[j])
  {
    if xs != [] {
      var n := |xs| - 1;
      var init := xs[..n];
      SomesFrom(init);
      var r := Somes(xs);
      var ri := Somes(init);
      assert r == ri + (if xs[n].Some? then [xs[n].value] else []);
      forall j | 0 <= j < |r|
        ensures exists i :: 0 <= i < |xs| && xs[i] == Some(r[j])
      {
        if j < |ri| {
          var i :| 0 <= i < n && init[i] == Some(ri[j]);
          assert xs[i] == Some(r[j]);
        } else {
          assert xs[n] == Some(r[j]);
        }
      }
    }
  }

  /** Nothing is kept exactly when every entry is None. */
  lemma {:induction false} SomesEmpty<T>(xs: seq<Option<T>>)
    ensures |Somes(xs)| == 0 <==> forall i :: 0 <= i < |xs| ==> xs[i].None?
  {
    if xs != [] {
      var n := |xs| - 1;
      var init := xs[..n];
      SomesEmpty(init);
      assert Somes(xs) == Somes(init) + (if xs[n].Some? then [xs[n].value] else []);
      assert forall i :: 0 <= i < n ==> init[i] == xs[i];
    }
  }

  /** When every entry is Some, all the values are kept in order. */
  lemma {:induction false} SomesAll<T>(xs: seq<Option<T>>)
    requires forall i :: 0 <= i < |xs| ==> xs[i].Some?
    ensures |Somes(xs)| == |xs| && forall i :: 0 <= i < |xs| ==> xs[i] == Some(Somes(xs)[i])
  {
    if xs != [] {
      var n := |xs| - 1;
      var init := xs[..n];
      assert forall i :: 0 <= i < n ==> init[i] == xs[i];
      SomesAll(init);
      var r, ri := Somes(xs), Somes(init);
      assert r == ri + [xs[n].value];
      forall i | 0 <= i < |xs|
        ensures xs[i] == Some(r[i])
      {
        if i < n {
          assert r[i] == ri[i];
        }
      }
    }
  }


  /** Keeping the values of two lists one after the other keeps those of the first, then
      those of the second: the order of the entries is kept. */
  lemma {:induction false} SomesAppend<T>(xs: seq<Option<T>>, ys: seq<Option<T>>)
    ensures Somes(xs + ys) == Somes(xs) + Somes(ys)
  {
    if ys == [] {
      assert xs + ys == xs;
    } else {
      var n := |ys| - 1;
      SomesAppend(xs, ys[..n]);
      assert (xs + ys)[..|xs + ys| - 1] == xs + ys[..n];
    }
  }

  /** A None entry keeps nothing; a Some entry keeps its value. */
  lemma SomesSingle<T>(x: Option<T>)
    ensures x.None? ==> Somes([x]) == []
    ensures x.Some? ==> Somes([x]) == [x.value]
  {
    assert [x][..0] == [];
  }

  /** One more entry adds its value, if any, at the end. */
  lemma SomesStep<T>(xs: seq<Option<T>>, i: nat)
    requires i < |xs|
    ensures Somes(xs[..i + 1]) == Somes(xs[..i]) + (if xs[i].Some? then [xs[i].value] else [])
  {
    assert xs[..i + 1][..i] == xs[..i];
  }

  /** `build_line_item` of each entry. */
  function LineItemResults(items: seq<Json>): (r: seq<Option<LineItem>>)
    requires ItemsShaped(items)
    ensures |r| == |items| && forall i :: 0 <= i < |items| ==> r[i] == BuildLineItem(items[i])
  {
    seq(|items|, i requires 0 <= i < |items| => BuildLineItem(items[i]))
  }

  /** `build_transaction` of each entry. */
  function TransactionResults(items: seq<Json>): (r: seq<Option<Transaction>>)
    requires ItemsShaped(items)
    ensures |r| == |items| && forall i :: 0 <= i < |items| ==> r[i] == BuildTransaction(items[i])
  {
    seq(|items|, i requires 0 <= i < |items| => BuildTransaction(items[i]))
  }

  /** The built line items of `items`, in input order, with the None ones dropped. */
  function BuiltLineItems(items: seq<Json>): seq<LineItem>
    requires ItemsShaped(items)
  {
    Somes(LineItemResults(items))
  }

  /** The built transactions of `items`, in input order, with the None ones dropped. */
  function BuiltTransactions(items: seq<Json>): seq<Transaction>
    requires ItemsShaped(items)
  {
    Somes(TransactionResults(items))
  }

  /** Every built line item comes from some input item, the list is empty exactly when
      every builder gave None, and when every item builds the list is all of them in
      order. */
  lemma BuiltLineItemsSpec(items: seq<Json>)
    requires ItemsShaped(items)
    ensures var r := BuiltLineItems(items);
            && |r| <= |items|
            && (forall j :: 0 <= j < |r| ==> exists i :: 0 <= i < |items| && BuildLineItem(items[i]) == Some(r[j]))
            && (r == [] <==> forall i :: 0 <= i < |items| ==> BuildLineItem(items[i]).None?)
            && ((forall i :: 0 <= i < |items| ==> BuildLineItem(items[i]).Some?) ==>
                  |r| == |items| && forall i :: 0 <= i < |items| ==> BuildLineItem(items[i]) == Some(r[i]))
  {
    SomesSpec(LineItemResults(items));
  }

  /** Every built transaction comes from some input entry, in order when all build; the
      list is empty exactly when every entry is falsy. */
  lemma BuiltTransactionsSpec(items: seq<Json>)
    requires ItemsShaped(items)
    ensures var r := BuiltTransactions(items);
            && |r| <= |items|
            && (forall j :: 0 <= j < |r| ==> exists i :: 0 <= i < |items| && BuildTransaction(items[i]) == Some(r[j]))
            && (r == [] <==> forall i :: 0 <= i < |items| ==> !Truthy(items[i]))
            && ((forall i :: 0 <= i < |items| ==> Truthy(items[i])) ==>
                  |r| == |items| && forall i :: 0 <= i < |items| ==> BuildTransaction(items[i]) == Some(r[i]))
  {
    SomesSpec(TransactionResults(items));
    forall i | 0 <= i < |items|
      ensures BuildTransaction(items[i]).Some? <==> Truthy(items[i])
    {
      TransactionSpec(items[i]);
    }
  }

  /** Building two runs of entries one after the other gives the first run's survivors
      followed by the second's: the input order is kept. */
  lemma BuiltListsAppend(a: seq<Json>, b: seq<Json>)
    requires ItemsShaped(a) && ItemsShaped(b)
    ensures ItemsShaped(a + b)
    ensures BuiltLineItems(a + b) == BuiltLineItems(a) + BuiltLineItems(b)
    ensures BuiltTransactions(a + b) == BuiltTransactions(a) + BuiltTransactions(b)
  {
    assert forall i :: 0 <= i < |a + b| ==> (a + b)[i] == if i < |a| then a[i] else b[i - |a|];
    assert LineItemResults(a + b) == LineItemResults(a) + LineItemResults(b);
    assert TransactionResults(a + b) == TransactionResults(a) + TransactionResults(b);
    SomesAppend(LineItemResults(a), LineItemResults(b));
    SomesAppend(TransactionResults(a), TransactionResults(b));
  }

  /** A built list under its key when some entry survives. */
  function ListKey<T>(built: seq<T>): Option<seq<T>> {
    if built != [] then Some(built) else None
  }

  /** The lineItems key: the built items when the list is truthy and some survive. */
  function LineItemsKey(order: Dict): Option<seq<LineItem>>
    requires OrderShaped(order)
  {
    var itemsData := Get(order, "lineItems", JArr([]));
    if Truthy(itemsData) then ListKey(BuiltLineItems(itemsData.items)) else None
  }

  /** The transactions key: the built entries when the list is truthy and some survive. */
  function TransactionsKey(order: Dict): Option<seq<Transaction>>
    requires OrderShaped(order)
  {
    var transData := Get(order, "transactions", JArr([]));
    if Truthy(transData) then ListKey(BuiltTransactions(transData.items)) else None
  }

  /** `build_order_input`, as the input it returns. */
  function BuildOrder(order: Dict): OrderInput
    requires OrderShaped(order)
  {
    OrderInput(
      Kept(Get(order, "customerId", JNull)),
      LineItemsKey(order),
      BuildMailingAddress(Get(order, "shippingAddress", JNull)),
      BuildMailingAddress(Get(order, "billingAddress", JNull)),
      Kept(Get(order, "note", JNull)),
      TransactionsKey(order),
      Kept(Get(order, "email", JNull)))
  }

  /** customerId, note and email are there exactly when truthy and unchanged; each
      address is what `build_mailing_address` makes of the given one (absent when it
      gives None); lineItems is there exactly when some line item builds, and transactions exactly
      when some transaction entry is truthy, each holding the survivors; no list key is
      ever present but empty. */
  lemma OrderInputSpec(order: Dict)
    requires OrderShaped(order)
    ensures var r := BuildOrder(order);
            && (r.customerId.Some? <==> Truthy(Get(order, "customerId", JNull)))
            && (r.customerId.Some? ==> r.customerId.value == order["customerId"])
            && (r.note.Some? <==> Truthy(Get(order, "note", JNull)))
            && (r.note.Some? ==> r.note.value == order["note"])
            && (r.email.Some? <==> Truthy(Get(order, "email", JNull)))
            && (r.email.Some? ==> r.email.value == order["email"])
            && r.shippingAddress == BuildMailingAddress(Get(order, "shippingAddress", JNull))
            && r.billingAddress == BuildMailingAddress(Get(order, "billingAddress", JNull))
            && (r.lineItems.Some? <==>
                  Truthy(Get(order, "lineItems", JArr([])))
                  && exists i :: 0 <= i < |order["lineItems"].items| && BuildLineItem(order["lineItems"].items[i]).Some?)
            && (r.lineItems.Some? ==> r.lineItems.value != [] && r.lineItems.value == BuiltLineItems(order["lineItems"].items))
            && (r.transactions.Some? <==>
                  Truthy(Get(order, "transactions", JArr([])))
                  && exists i :: 0 <= i < |order["transactions"].items| && Truthy(order["transactions"].items[i]))
            && (r.transactions.Some? ==> r.transactions.value != [] && r.transactions.value == BuiltTransactions(order["transactions"].items))
  {
    var itemsData := Get(order, "lineItems", JArr([]));
    if Truthy(itemsData) {
      BuiltLineItemsSpec(itemsData.items);
    }
    var transData := Get(order, "transactions", JArr([]));
    if Truthy(transData) {
      BuiltTransactionsSpec(transData.items);
    }
  }

  /** Order data without a 'transactions' key builds an order without one. */
  lemma NoTransactionsKey(order: Dict)
    requires OrderShaped(order) && "transactions" !in order
    ensures BuildOrder(order).transactions.None?
  {
  }

  /** The line-item loop of `build_order_input`. */
  method CollectLineItems(order: Dict) returns (key: Option<seq<LineItem>>)
    requires OrderShaped(order)
    ensures key == LineItemsKey(order)
  {
    key := None;
    var itemsData := Get(order, "lineItems", JArr([]));
    if !Truthy(itemsData) {
      return;
    }
    var items := itemsData.items;
    var built: seq<LineItem> := [];
    var i := 0;
    while i < |items|
      invariant 0 <= i <= |items|
      invariant built == Somes(LineItemResults(items)[..i])
    {
      var item := BuildLineItem(items[i]);
      SomesStep(LineItemResults(items), i);
      if item.Some? {
        built := built + [item.value];
      }
      i := i + 1;
    }
    assert LineItemResults(items)[..i] == LineItemResults(items);
    if built != [] {
      key := Some(built);
    }
  }

  /** The transaction loop of `build_order_input`. */
  method CollectTransactions(order: Dict) returns (key: Option<seq<Transaction>>)
    requires OrderShaped(order)
    ensures key == TransactionsKey(order)
  {
    key := None;
    var transData := Get(order, "transactions", JArr([]));
    if !Truthy(transData) {
      return;
    }
    var items := transData.items;
    var built: seq<Transaction> := [];
    var i := 0;
    while i < |items|
      invariant 0 <= i <= |items|
      invariant built == Somes(TransactionResults(items)[..i])
    {
      var trans := BuildTransaction(items[i]);
      SomesStep(TransactionResults(items), i);
      if trans.Some? {
        built := built + [trans.value];
      }
      i := i + 1;
    }
    assert TransactionResults(items)[..i] == TransactionResults(items);
    if built != [] {
      key := Some(built);
    }
  }

  /** `build_order_input`: sets the keys one after another. */
  method BuildOrderInput(order: Dict) returns (r: OrderInput)
    requires OrderShaped(order)
    ensures r == BuildOrder(order)
  {
    r := OrderInput(None, None, None, None, None, None, None);
    if Truthy(Get(order, "customerId", JNull)) {
      r := r.(customerId := Some(order["customerId"]));
    }
    var lineItems := CollectLineItems(order);
    if lineItems.Some? {
      r := r.(lineItems := lineItems);
    }
    var ship := BuildMailingAddress(Get(order, "shippingAddress", JNull));
    if ship.Some? {
      r := r.(shippingAddress := ship);
    }
    var bill := BuildMailingAddress(Get(order, "billingAddress", JNull));
    if bill.Some? {
      r := r.(billingAddress := bill);
    }
    if Truthy(Get(order, "note", JNull)) {
      r := r.(note := Some(order["note"]));
    }
    var transactions := CollectTransactions(order);
    if transactions.Some? {
      r := r.(transactions := transactions);
    }
    if Truthy(Get(order, "email", JNull)) {
      r := r.(email := Some(order["email"]));
    }
  }
}
