/** pages/5_export.py: the base model code of a product, and the table of rows the
    export page builds from the store's products, one row per product and colour with a
    stock column per size. */
module Export {
  import opened Wrappers
  import opened Strs
  import opened Json
  import opened Utils

  // ---------------------------------------------------------------- get_base_code_from_skus

  /** The SKUs `get_base_code_from_skus` keeps: the non-empty strings, in order. */
  function StringSkus(xs: seq<Json>): (r: seq<string>)
    ensures |r| <= |xs|
    ensures forall i :: 0 <= i < |r| ==> |r[i]| > 0
  {
    if xs == [] then []
    else (if xs[0].JStr? && xs[0].s != "" then [xs[0].s] else []) + StringSkus(xs[1..])
  }

  /** A SKU is kept exactly when it is a non-empty string of the input. */
  lemma {:induction false} StringSkusSpec(xs: seq<Json>, s: string)
    ensures s in StringSkus(xs) <==> s != "" && JStr(s) in xs
  {
    if xs != [] {
      StringSkusSpec(xs[1..], s);
      assert xs == [xs[0]] + xs[1..];
    }
  }

  /** The longest common prefix of two strings. */
  function Lcp(a: string, b: string): (r: string)
    ensures StartsWith(a, r) && StartsWith(b, r)
    ensures |r| == |a| || |r| == |b| || a[|r|] != b[|r|]
  {
    if a == [] || b == [] || a[0] != b[0] then []
    else [a[0]] + Lcp(a[1..], b[1..])
  }

  /** `os.path.commonprefix`: the longest prefix every SKU shares (the library finds it
      by comparing the least and the greatest SKU, which gives the same string). */
  function CommonPrefix(skus: seq<string>): string
    requires |skus| > 0
  {
    if |skus| == 1 then skus[0] else Lcp(CommonPrefix(skus[..|skus| - 1]), skus[|skus| - 1])
  }

  /** The common prefix starts every SKU, and it cannot be made longer: it is a whole
      SKU, or two SKUs differ just after it. */
  lemma {:induction false} CommonPrefixSpec(skus: seq<string>)
    requires |skus| > 0
    ensures var p := CommonPrefix(skus);
            && (forall i :: 0 <= i < |skus| ==> StartsWith(skus[i], p))
            && ((exists i :: 0 <= i < |skus| && skus[i] == p)
                || exists i, j :: 0 <= i < |skus| && 0 <= j < |skus| && |p| < |skus[i]| && |p| < |skus[j]|
                                 && skus[i][|p|] != skus[j][|p|])
  {
    var p := CommonPrefix(skus);
    if |skus| > 1 {
      var n := |skus| - 1;
      var init := skus[..n];
      CommonPrefixSpec(init);
      var p0 := CommonPrefix(init);
      assert p == Lcp(p0, skus[n]);
      forall i | 0 <= i < |skus|
        ensures StartsWith(skus[i], p)
      {
        if i < n {
          assert StartsWith(init[i], p0);
          assert skus[i][..|p|] == p0[..|p|];
        }
      }
      if |p| == |skus[n]| {
        assert skus[n] == p;
      } else if |p| == |p0| {
        assert p == p0;
        if exists i :: 0 <= i < n && init[i] == p0 {
          var i :| 0 <= i < n && init[i] == p0;
          assert skus[i] == p;
        } else {
          var i, j :| 0 <= i < n && 0 <= j < n && |p0| < |init[i]| && |p0| < |init[j]| && init[i][|p0|] != init[j][|p0|];
          assert skus[i] == init[i] && skus[j] == init[j];
        }
      } else {
        assert StartsWith(skus[0], p0) && skus[0] == init[0];
        assert skus[0][|p|] == p0[|p|];
      }
    }
  }

  /** `s[:s.rfind('-')]` when that hyphen is past index 0, else `s`. */
  function CutAtLastHyphen(s: string): string {
    if RFind(s, '-') > 0 then s[..RFind(s, '-')] else s
  }

  /** The base code of the SKUs kept. */
  function CodeOf(skus: seq<string>): string {
    if skus == [] then ""
    else if |skus| == 1 then CutAtLastHyphen(skus[0])
    else
      var p := CommonPrefix(skus);
      if p != "" && !EndsWith(p, "-") && p !in skus && RFind(p, '-') > 0 then p[..RFind(p, '-')]
      else StripChar(p, '-')
  }

  /** `get_base_code_from_skus` */
  function BaseCode(variantSkus: seq<Json>): string {
    CodeOf(StringSkus(variantSkus))
  }

  /** With no usable SKU the code is empty. */
  lemma BaseCodeOfNothing(variantSkus: seq<Json>)
    requires forall i :: 0 <= i < |variantSkus| ==> !variantSkus[i].JStr? || variantSkus[i].s == ""
    ensures BaseCode(variantSkus) == ""
  {
    if StringSkus(variantSkus) != [] {
      var s := StringSkus(variantSkus)[0];
      StringSkusSpec(variantSkus, s);
    }
  }

  /** With one usable SKU the code is that SKU cut before its last hyphen when the hyphen
      is past the first character, and the whole SKU otherwise. */
  lemma CodeOfOne(s: string)
    ensures var r := CodeOf([s]);
            && StartsWith(s, r)
            && (r != s ==> 0 < |r| && s[|r|] == '-' && forall j :: |r| < j < |s| ==> s[j] != '-')
            && (r == s ==> forall j :: 0 < j < |s| ==> s[j] != '-')
  {
  }

  /** The cut prefix, and the prefix stripped of '-' when it does not start with '-', both
      start the common prefix. */
  lemma CodeStartsPrefix(skus: seq<string>)
    requires |skus| > 1
    requires CommonPrefix(skus) == [] || CommonPrefix(skus)[0] != '-'
    ensures StartsWith(CommonPrefix(skus), CodeOf(skus))
  {
    var p := CommonPrefix(skus);
    if !(p != "" && !EndsWith(p, "-") && p !in skus && RFind(p, '-') > 0) {
      assert StripLeftChar(p, '-') == p;
    }
  }

  /** With several SKUs, when one of them does not start with '-', the code starts every
      SKU. */
  lemma CodeIsSharedPrefix(skus: seq<string>)
    requires |skus| > 1
    requires exists i :: 0 <= i < |skus| && |skus[i]| > 0 && skus[i][0] != '-'
    ensures forall i :: 0 <= i < |skus| ==> StartsWith(skus[i], CodeOf(skus))
  {
    var p := CommonPrefix(skus);
    CommonPrefixSpec(skus);
    var k :| 0 <= k < |skus| && |skus[k]| > 0 && skus[k][0] != '-';
    assert StartsWith(skus[k], p);
    CodeStartsPrefix(skus);
    var r := CodeOf(skus);
    forall i | 0 <= i < |skus|
      ensures StartsWith(skus[i], r)
    {
      assert StartsWith(skus[i], p);
      assert skus[i][..|r|] == p[..|r|];
    }
  }

  /** Two sizes of one model share the code before their size suffix, even though
      their common prefix ends in '-'. */
  lemma CodeExample()
    ensures CodeOf(["A-1-S", "A-1-M"]) == "A-1"
  {
    var p := "A-1-";
    assert Lcp("A-1-S", "A-1-M") == p by {
      assert Lcp("S", "M") == [];
    }
    assert EndsWith(p, "-");
    assert StripLeftChar(p, '-') == p;
    assert StripRightChar(p, '-') == "A-1";
  }

  // ---------------------------------------------------------------- products and options

  /** A variant's `selectedOptions` entry. */
  datatype SelectedOption = SelectedOption(name: string, value: string)

  /** A variant node: its SKU, its options and its stock. */
  datatype Variant = Variant(sku: Json, selectedOptions: seq<SelectedOption>, inventoryQuantity: Option<int>)

  /** A product as the export query returns it; a variant edge whose node is null is
      None, and a product without a featured image has no image URL. */
  datatype Product = Product(title: string, handle: string, variants: seq<Option<Variant>>,
                             collectionTitles: seq<string>, imageUrl: Option<string>)

  /** The value used when an option is missing. */
  const NoValue := "N/A"
  const ColorName := "renk"
  const SizeName := "beden"

  /** The option's name, lower-cased, is `name`. */
  predicate NameIs(o: SelectedOption, name: string) {
    Lower(o.name) == name
  }

  /** The index of the first option named `name`, ignoring case, or -1. */
  function FirstNamed(options: seq<SelectedOption>, name: string): (r: int)
    ensures -1 <= r < |options|
    ensures r >= 0 ==> NameIs(options[r], name) && forall j :: 0 <= j < r ==> !NameIs(options[j], name)
    ensures r < 0 ==> forall j :: 0 <= j < |options| ==> !NameIs(options[j], name)
  {
    if options == [] then -1
    else if NameIs(options[0], name) then 0
    else
      var r := FirstNamed(options[1..], name);
      assert forall j :: 1 <= j < |options| ==> options[j] == options[1..][j - 1];
      if r < 0 then -1 else r + 1
  }

  /** `next((opt['value'] for opt in options if opt['name'].lower() == name), 'N/A')`:
      the value of the first option with the name, 'N/A' when none has it. */
  function OptionValue(options: seq<SelectedOption>, name: string): string {
    var i := FirstNamed(options, name);
    if i < 0 then NoValue else options[i].value
  }

  /** The colour of a variant. */
  function ColorOf(v: Variant): string { OptionValue(v.selectedOptions, ColorName) }

  /** The size of a variant. */
  function SizeOf(v: Variant): string { OptionValue(v.selectedOptions, SizeName) }

  /** `variant.get('inventoryQuantity') or 0` */
  function StockOf(v: Variant): int {
    match v.inventoryQuantity
    case None => 0
    case Some(n) => n
  }

  /** An option whose name holds 'renk', ignoring case. */
  predicate NamesColor(options: seq<SelectedOption>) {
    exists i :: 0 <= i < |options| && Contains(Lower(options[i].name), ColorName)
  }

  /** `has_color_option`: whether some variant has an option whose name holds 'renk'. The
      scan stops at the first such option; before it, a null variant node fails the page
      (None). */
  function HasColorOption(edges: seq<Option<Variant>>): Option<bool> {
    if edges == [] then Some(false)
    else match edges[0]
      case None => None
      case Some(v) => if NamesColor(v.selectedOptions) then Some(true) else HasColorOption(edges[1..])
  }

  /** True when a variant before any null node names a colour; false when no node is null
      and none does; None when a null node comes before any colour. */
  lemma {:induction false} HasColorOptionSpec(edges: seq<Option<Variant>>)
    ensures var r := HasColorOption(edges);
            && (r == Some(true) <==> exists i :: 0 <= i < |edges| && edges[i].Some? && NamesColor(edges[i].value.selectedOptions)
                                                && forall j :: 0 <= j < i ==> edges[j].Some?)
            && (r == Some(false) <==> forall i :: 0 <= i < |edges| ==> edges[i].Some? && !NamesColor(edges[i].value.selectedOptions))
  {
    if edges != [] {
      HasColorOptionSpec(edges[1..]);
      assert forall i :: 1 <= i < |edges| ==> edges[i] == edges[1..][i - 1];
      if edges[0].Some? && !NamesColor(edges[0].value.selectedOptions) {
        if exists i :: 0 <= i < |edges| && edges[i].Some? && NamesColor(edges[i].value.selectedOptions)
                       && forall j :: 0 <= j < i ==> edges[j].Some? {
          var i :| 0 <= i < |edges| && edges[i].Some? && NamesColor(edges[i].value.selectedOptions)
                   && forall j :: 0 <= j < i ==> edges[j].Some?;
          assert edges[1..][i - 1] == edges[i];
          assert forall j :: 0 <= j < i - 1 ==> edges[1..][j] == edges[j + 1];
        }
      }
    }
  }

  /** `[v['node']['sku'] for v in variants if v['node'] and v['node'].get('sku')]` */
  function VariantSkus(edges: seq<Option<Variant>>): (r: seq<Json>)
    ensures |r| <= |edges|
  {
    if edges == [] then []
    else (if edges[0].Some? && Truthy(edges[0].value.sku) then [edges[0].value.sku] else []) + VariantSkus(edges[1..])
  }

  // ---------------------------------------------------------------- grouping by colour

  /** A variant the grouping loop keeps: a node with options. */
  predicate Kept(e: Option<Variant>) {
    e.Some? && e.value.selectedOptions != []
  }

  /** The group of a kept variant: its colour when the product has a colour option, 'N/A'
      otherwise. */
  function GroupKey(v: Variant, hasColor: bool): string {
    if hasColor then ColorOf(v) else NoValue
  }

  /** `variants_by_group`: a dict from group key to its variants, keys in the order they
      were first inserted. */
  datatype Groups<V> = Groups(keys: seq<string>, members: map<string, seq<V>>)

  /** The keys are distinct and are exactly the dict's keys. */
  ghost predicate GroupsValid<V>(g: Groups<V>) {
    && (forall k :: k in g.members <==> k in g.keys)
    && (forall i, j :: 0 <= i < j < |g.keys| ==> g.keys[i] != g.keys[j])
  }

  /** One step of the grouping loop: create the group if new, then append the variant. */
  function AddVariant<V>(g: Groups<V>, key: string, v: V): (r: Groups<V>)
    requires GroupsValid(g)
    ensures GroupsValid(r)
  {
    var g1 := if key in g.members then g else Groups(g.keys + [key], g.members[key := []]);
    Groups(g1.keys, g1.members[key := g1.members[key] + [v]])
  }

  /** The dict the grouping loop leaves, given for each edge its key and variant when the
      loop keeps it. */
  function GroupedBy<V>(entries: seq<Option<(string, V)>>): (r: Groups<V>)
    ensures GroupsValid(r)
  {
    if entries == [] then Groups([], map[])
    else
      var g := GroupedBy(entries[..|entries| - 1]);
      match entries[|entries| - 1]
      case None => g
      case Some((key, v)) => AddVariant(g, key, v)
  }

  /** The kept variants of one group, in source order: the reference for a group's list. */
  function MembersBy<V>(entries: seq<Option<(string, V)>>, key: string): seq<V> {
    if entries == [] then []
    else
      var rest := MembersBy(entries[..|entries| - 1], key);
      match entries[|entries| - 1]
      case None => rest
      case Some((k, v)) => if k == key then rest + [v] else rest
  }

  /** Each group holds exactly its kept variants in source order and is never empty; a
      key with no kept variant has no group. */
  lemma {:induction false} GroupedBySpec<V>(entries: seq<Option<(string, V)>>)
    ensures var g := GroupedBy(entries);
            && (forall k :: k in g.members ==> g.members[k] == MembersBy(entries, k) && g.members[k] != [])
            && (forall k :: k !in g.members ==> MembersBy(entries, k) == [])
  {
    if entries != [] {
      GroupedBySpec(entries[..|entries| - 1]);
    }
  }

  /** A kept variant is in the members of its own group. */
  lemma {:induction false} KeptInGroup<V>(entries: seq<Option<(string, V)>>, i: nat)
    requires i < |entries| && entries[i].Some?
    ensures entries[i].value.1 in MembersBy(entries, entries[i].value.0)
  {
    var n := |entries| - 1;
    if i < n {
      KeptInGroup(entries[..n], i);
    }
  }

  /** Each edge's group key and variant, when the grouping loop keeps it. */
  function GroupEntries(edges: seq<Option<Variant>>, hasColor: bool): (r: seq<Option<(string, Variant)>>)
    ensures |r| == |edges|
    ensures forall i :: 0 <= i < |edges| ==>
              r[i] == if Kept(edges[i]) then Some((GroupKey(edges[i].value, hasColor), edges[i].value)) else None
  {
    seq(|edges|, i requires 0 <= i < |edges| =>
      if Kept(edges[i]) then Some((GroupKey(edges[i].value, hasColor), edges[i].value)) else None)
  }

  /** `variants_by_group` for a product's edges. */
  function Grouped(edges: seq<Option<Variant>>, hasColor: bool): (r: Groups<Variant>)
    ensures GroupsValid(r)
  {
    GroupedBy(GroupEntries(edges, hasColor))
  }

  /** The grouping loop of `process_data`. */
  method GroupVariants(edges: seq<Option<Variant>>, hasColor: bool) returns (g: Groups<Variant>)
    ensures g == Grouped(edges, hasColor)
  {
    ghost var entries := GroupEntries(edges, hasColor);
    var keys: seq<string> := [];
    var members: map<string, seq<Variant>> := map[];
    for i := 0 to |edges|
      invariant Groups(keys, members) == GroupedBy(entries[..i])
    {
      assert entries[..i + 1][..i] == entries[..i];
      var e := edges[i];
      if e.None? || e.value.selectedOptions == [] {
        continue;
      }
      var v := e.value;
      var key := NoValue;
      if hasColor {
        key := ColorOf(v);
      }
      if key !in members {
        keys := keys + [key];
        members := members[key := []];
      }
      members := members[key := members[key] + [v]];
    }
    assert entries[..|edges|] == entries;
    g := Groups(keys, members);
  }

  // ---------------------------------------------------------------- sizes and stock of a row

  /** Each variant's size and stock, in order. */
  function SizeEntries(vs: seq<Variant>): (r: seq<(string, int)>)
    ensures |r| == |vs| && forall i :: 0 <= i < |vs| ==> r[i] == (SizeOf(vs[i]), StockOf(vs[i]))
  {
    seq(|vs|, i requires 0 <= i < |vs| => (SizeOf(vs[i]), StockOf(vs[i])))
  }

  /** The map built by storing each entry in turn. */
  function TableOf(entries: seq<(string, int)>): map<string, int> {
    if entries == [] then map[]
    else TableOf(entries[..|entries| - 1])[entries[|entries| - 1].0 := entries[|entries| - 1].1]
  }

  /** The sum of the entries' amounts. */
  function SumOf(entries: seq<(string, int)>): int {
    if entries == [] then 0 else SumOf(entries[..|entries| - 1]) + entries[|entries| - 1].1
  }

  /** `row["sizes"]`: the stock per size, a later variant of the same size replacing an
      earlier one. */
  function SizeTable(vs: seq<Variant>): map<string, int> {
    TableOf(SizeEntries(vs))
  }

  /** `total_stock`: the stock of every variant. */
  function TotalStock(vs: seq<Variant>): int {
    SumOf(SizeEntries(vs))
  }

  /** The map has exactly the entries' keys, each with the amount of the last entry with
      that key. */
  lemma TableOfSpec(entries: seq<(string, int)>)
    ensures forall k :: k in TableOf(entries) <==> exists i :: 0 <= i < |entries| && entries[i].0 == k
    ensures forall k :: k in TableOf(entries) ==>
              exists i :: 0 <= i < |entries| && entries[i] == (k, TableOf(entries)[k])
                          && forall j :: i < j < |entries| ==> entries[j].0 != k
  {
    TableOfKeys(entries);
    forall k | k in TableOf(entries)
      ensures exists i :: 0 <= i < |entries| && entries[i] == (k, TableOf(entries)[k])
                          && forall j :: i < j < |entries| ==> entries[j].0 != k
    {
      var i := TableOfLastEntry(entries, k);
    }
  }

  /** The map's keys are the entries' keys. */
  lemma {:induction false} TableOfKeys(entries: seq<(string, int)>)
    ensures forall k :: k in TableOf(entries) <==> exists i :: 0 <= i < |entries| && entries[i].0 == k
  {
    if entries != [] {
      var n := |entries| - 1;
      var init := entries[..n];
      TableOfKeys(init);
      forall k | k in TableOf(entries)
        ensures exists i :: 0 <= i < |entries| && entries[i].0 == k
      {
        if k != entries[n].0 {
          assert k in TableOf(init);
          var i :| 0 <= i < n && init[i].0 == k;
          assert entries[i] == init[i];
        }
      }
      forall k | exists i :: 0 <= i < |entries| && entries[i].0 == k
        ensures k in TableOf(entries)
      {
        var i :| 0 <= i < |entries| && entries[i].0 == k;
        if i < n { assert init[i].0 == k; }
      }
    }
  }

  /** The entry a key's amount comes from: the last entry with that key. */
  lemma {:induction false} TableOfLastEntry(entries: seq<(string, int)>, k: string) returns (i: nat)
    requires k in TableOf(entries)
    ensures i < |entries| && entries[i] == (k, TableOf(entries)[k])
    ensures forall j :: i < j < |entries| ==> entries[j].0 != k
  {
    var n := |entries| - 1;
    var init := entries[..n];
    if entries[n].0 == k {
      i := n;
    } else {
      i := TableOfLastEntry(init, k);
      assert entries[i] == init[i];
      forall j | i < j < |entries| ensures entries[j].0 != k {
        if j < n { assert entries[j] == init[j]; }
      }
    }
  }

  /** The sum of two runs of entries is the sum of their sums. */
  lemma {:induction false} SumOfAppend(a: seq<(string, int)>, b: seq<(string, int)>)
    ensures SumOf(a + b) == SumOf(a) + SumOf(b)
    decreases |b|
  {
    if b != [] {
      var n := |b| - 1;
      assert (a + b)[..|a + b| - 1] == a + b[..n];
      assert (a + b)[|a + b| - 1] == b[n];
      SumOfAppend(a, b[..n]);
    } else {
      assert a + b == a;
    }
  }

  /** Two variants of one size: the map keeps the second one's stock, the total counts
      both. */
  lemma SameSizeKeptOnceCountedTwice(size: string, first: int, second: int)
    ensures TableOf([(size, first), (size, second)]) == map[size := second]
    ensures SumOf([(size, first), (size, second)]) == first + second
  {
    var one := [(size, first)];
    assert [(size, first), (size, second)][..1] == one;
    assert one[..0] == [];
    assert TableOf(one) == map[size := first] && SumOf(one) == first;
  }

  /** The size loop of one row: the sizes map, the total, and the sizes seen so far. */
  method FillSizes(vs: seq<Variant>, seen: set<string>) returns (sizes: map<string, int>, total: int, seen': set<string>)
    ensures sizes == SizeTable(vs) && total == TotalStock(vs)
    ensures seen' == seen + SizeTable(vs).Keys
  {
    ghost var entries := SizeEntries(vs);
    sizes := map[];
    total := 0;
    seen' := seen;
    for i := 0 to |vs|
      invariant sizes == TableOf(entries[..i]) && total == SumOf(entries[..i])
      invariant seen' == seen + sizes.Keys
    {
      assert entries[..i + 1][..i] == entries[..i];
      var size := SizeOf(vs[i]);
      var stock := StockOf(vs[i]);
      sizes := sizes[size := stock];
      total := total + stock;
      seen' := seen' + {size};
    }
    assert entries[..|vs|] == entries;
  }

  // ---------------------------------------------------------------- the row table

  /** The row of one product and colour. */
  datatype Row = Row(kind: string, imageUrl: string, modelCode: string, link: string, color: string,
                     sizes: map<string, int>, totalStock: int, purchasePrice: Option<real>)

  /** `(product['title'], group_key)` */
  type RowKey = (string, string)

  /** `processed_data` with its key order, `all_sizes` and `all_base_codes_to_fetch`. */
  datatype Table = Table(keys: seq<RowKey>, rows: map<RowKey, Row>, sizes: set<string>, baseCodes: set<string>)

  /** The keys are distinct and are exactly the dict's keys, and every size a row holds is
      among the sizes seen. */
  ghost predicate TableValid(t: Table) {
    && (forall k :: k in t.rows <==> k in t.keys)
    && (forall i, j :: 0 <= i < j < |t.keys| ==> t.keys[i] != t.keys[j])
    && (forall k :: k in t.rows ==> t.rows[k].sizes.Keys <= t.sizes)
  }

  function ImageUrlOf(p: Product): string {
    match p.imageUrl
    case None => ""
    case Some(url) => url
  }

  /** The row built for one group; the purchase price starts empty. */
  function RowFor(p: Product, baseCode: string, hasColor: bool, key: string, vs: seq<Variant>, storeUrl: string): Row {
    Row(Join(", ", p.collectionTitles), ImageUrlOf(p), baseCode, storeUrl + "/products/" + p.handle,
        if hasColor then key else "", SizeTable(vs), TotalStock(vs), None)
  }

  /** `processed_data[key] = row` and the sizes added to `all_sizes`: a new key goes last,
      an existing one keeps its place and gets the new row. */
  function PutRow(t: Table, key: RowKey, row: Row): (r: Table)
    requires TableValid(t)
    ensures TableValid(r)
    ensures r.rows == t.rows[key := row] && t.sizes <= r.sizes && r.baseCodes == t.baseCodes
  {
    if key in t.rows then Table(t.keys, t.rows[key := row], t.sizes + row.sizes.Keys, t.baseCodes)
    else
      var keys := t.keys + [key];
      assert forall i :: 0 <= i < |t.keys| ==> keys[i] == t.keys[i] != key;
      Table(keys, t.rows[key := row], t.sizes + row.sizes.Keys, t.baseCodes)
  }

  /** The rows of the groups listed, put one after the other. */
  function AddGroups(t: Table, p: Product, baseCode: string, hasColor: bool, g: Groups<Variant>, n: nat,
                     storeUrl: string): (r: Table)
    requires TableValid(t) && GroupsValid(g) && n <= |g.keys|
    ensures TableValid(r) && t.sizes <= r.sizes && r.baseCodes == t.baseCodes
  {
    if n == 0 then t
    else
      var k := g.keys[n - 1];
      var t0 := AddGroups(t, p, baseCode, hasColor, g, n - 1, storeUrl);
      PutRow(t0, (p.title, k), RowFor(p, baseCode, hasColor, k, g.members[k], storeUrl))
  }

  /** One iteration of the product loop of `process_data`; None when it fails the page. */
  function ProductStep(t: Table, p: Product, storeUrl: string): (r: Option<Table>)
    requires TableValid(t)
    ensures r.Some? ==> TableValid(r.value) && t.sizes <= r.value.sizes && t.baseCodes <= r.value.baseCodes
  {
    if p.variants == [] then Some(t)
    else
      var base := BaseCode(VariantSkus(p.variants));
      var t1 := if base != "" then t.(baseCodes := t.baseCodes + {base}) else t;
      match HasColorOption(p.variants)
      case None => None
      case Some(hasColor) =>
        var g := Grouped(p.variants, hasColor);
        Some(AddGroups(t1, p, base, hasColor, g, |g.keys|, storeUrl))
  }

  /** The table after the product loop, or None when a product fails the page. */
  function Processed(products: seq<Product>, storeUrl: string): (r: Option<Table>)
    ensures r.Some? ==> TableValid(r.value)
  {
    if products == [] then Some(Table([], map[], {}, {}))
    else match Processed(products[..|products| - 1], storeUrl)
      case None => None
      case Some(t) => ProductStep(t, products[|products| - 1], storeUrl)
  }

  /** Once a prefix of the products fails the page, the whole loop does. */
  lemma {:induction false} ProcessedFailsStays(products: seq<Product>, storeUrl: string, k: nat)
    requires k <= |products| && Processed(products[..k], storeUrl).None?
    ensures Processed(products, storeUrl).None?
    decreases |products| - k
  {
    if k < |products| {
      assert products[..k + 1][..k] == products[..k];
      ProcessedFailsStays(products, storeUrl, k + 1);
    } else {
      assert products[..k] == products;
    }
  }

  /** One iteration of the product loop: the base code, the colour check, the grouping
      loop, then one row per group with its size loop. */
  method ProcessProduct(t: Table, p: Product, storeUrl: string) returns (r: Option<Table>)
    requires TableValid(t)
    ensures r == ProductStep(t, p, storeUrl)
  {
    if p.variants == [] {
      return Some(t);
    }
    var base := BaseCode(VariantSkus(p.variants));
    var table := t;
    if base != "" {
      table := table.(baseCodes := table.baseCodes + {base});
    }
    var hasColor := HasColorOption(p.variants);
    if hasColor.None? {
      return None;
    }
    var groups := GroupVariants(p.variants, hasColor.value);
    var rows := AddGroupRows(table, p, base, hasColor.value, groups, storeUrl);
    r := Some(rows);
  }

  /** The row loop of one product: a row per group, each with its size loop. */
  method AddGroupRows(t: Table, p: Product, base: string, hasColor: bool, groups: Groups<Variant>, storeUrl: string)
    returns (table: Table)
    requires TableValid(t) && GroupsValid(groups)
    ensures table == AddGroups(t, p, base, hasColor, groups, |groups.keys|, storeUrl)
  {
    table := t;
    var kind := Join(", ", p.collectionTitles);
    for i := 0 to |groups.keys|
      invariant table == AddGroups(t, p, base, hasColor, groups, i, storeUrl)
    {
      table := AddGroupRowAt(t, p, base, hasColor, groups, storeUrl, kind, i, table);
    }
  }

  /** One round of the group loop: the row of group `i` is built and stored. */
  method AddGroupRowAt(t: Table, p: Product, base: string, hasColor: bool, groups: Groups<Variant>, storeUrl: string,
                       kind: string, i: nat, table: Table) returns (table': Table)
    requires TableValid(t) && GroupsValid(groups) && i < |groups.keys| && kind == Join(", ", p.collectionTitles)
    requires table == AddGroups(t, p, base, hasColor, groups, i, storeUrl)
    ensures table' == AddGroups(t, p, base, hasColor, groups, i + 1, storeUrl)
  {
    var key := groups.keys[i];
    var row, seen := BuildRow(p, kind, base, hasColor, key, groups.members[key], storeUrl, table.sizes);
    table' := StoreRow(table, (p.title, key), row, seen);
  }

  /** The row of one group: its fixed cells, then the size loop; also the sizes seen. */
  method BuildRow(p: Product, kind: string, base: string, hasColor: bool, key: string, vs: seq<Variant>,
                  storeUrl: string, seen: set<string>) returns (row: Row, seen': set<string>)
    requires kind == Join(", ", p.collectionTitles)
    ensures row == RowFor(p, base, hasColor, key, vs, storeUrl) && seen' == seen + row.sizes.Keys
  {
    var sizes, total;
    sizes, total, seen' := FillSizes(vs, seen);
    row := Row(kind, ImageUrlOf(p), base, storeUrl + "/products/" + p.handle,
               if hasColor then key else "", sizes, total, None);
  }

  /** `processed_data[key] = row`, with `seen` the sizes seen so far. */
  method StoreRow(t: Table, key: RowKey, row: Row, seen: set<string>) returns (r: Table)
    requires TableValid(t) && seen == t.sizes + row.sizes.Keys
    ensures r == PutRow(t, key, row)
  {
    var keys := if key in t.rows then t.keys else t.keys + [key];
    r := Table(keys, t.rows[key := row], seen, t.baseCodes);
  }

  /** The product loop of `process_data`. */
  /** The products up to `i + 1` are the products up to `i` followed by product `i`. */
  lemma ProcessedNext(products: seq<Product>, storeUrl: string, i: nat)
    requires i < |products| && Processed(products[..i], storeUrl).Some?
    ensures Processed(products[..i + 1], storeUrl) == ProductStep(Processed(products[..i], storeUrl).value, products[i], storeUrl)
  {
    assert products[..i + 1][..i] == products[..i];
  }

  method ProcessProducts(products: seq<Product>, storeUrl: string) returns (r: Option<Table>)
    ensures r == Processed(products, storeUrl)
  {
    var table := Table([], map[], {}, {});
    for i := 0 to |products|
      invariant Processed(products[..i], storeUrl) == Some(table)
    {
      ProcessedNext(products, storeUrl, i);
      var next := ProcessProduct(table, products[i], storeUrl);
      if next.None? {
        ProcessedFailsStays(products, storeUrl, i + 1);
        return None;
      }
      table := next.value;
    }
    assert products[..|products|] == products;
    r := Some(table);
  }

  // ---------------------------------------------------------------- purchase prices

  /** What the source system answered for a base code: its verified code and purchase
      price. */
  datatype SentosInfo = SentosInfo(verifiedCode: string, purchasePrice: Option<real>)

  /** A row whose model code the source system knows gets its price and verified code;
      other rows are unchanged. */
  function MergeRow(row: Row, sentos: map<string, SentosInfo>): Row {
    if row.modelCode in sentos
    then row.(purchasePrice := sentos[row.modelCode].purchasePrice, modelCode := sentos[row.modelCode].verifiedCode)
    else row
  }

  /** `f` applied to every value of `m`. */
  function UpdatedAll<K, V>(m: map<K, V>, f: V -> V): (r: map<K, V>)
    ensures r.Keys == m.Keys
    ensures forall k :: k in m ==> r[k] == f(m[k])
  {
    map k | k in m :: f(m[k])
  }

  /** `f` applied, in place and one after the other, to the values listed in `ks`. */
  function UpdatedAt<K, V>(m: map<K, V>, ks: seq<K>, f: V -> V): (r: map<K, V>)
    requires forall k :: k in ks ==> k in m
    ensures r.Keys == m.Keys
  {
    if ks == [] then m
    else
      var r := UpdatedAt(m, ks[..|ks| - 1], f);
      var k := ks[|ks| - 1];
      r[k := f(r[k])]
  }

  /** Updating the listed values one after the other updates exactly those values, each
      once, when no key is listed twice. */
  lemma {:induction false} UpdatedAtSpec<K, V>(m: map<K, V>, ks: seq<K>, f: V -> V)
    requires forall k :: k in ks ==> k in m
    requires forall i, j :: 0 <= i < j < |ks| ==> ks[i] != ks[j]
    ensures forall k :: k in m ==> UpdatedAt(m, ks, f)[k] == if k in ks then f(m[k]) else m[k]
  {
    if ks != [] {
      var n := |ks| - 1;
      UpdatedAtSpec(m, ks[..n], f);
      assert ks[n] !in ks[..n];
      assert ks == ks[..n] + [ks[n]];
    }
  }

  /** Updating every key, each listed once, is updating the whole map. */
  lemma UpdatedAtAll<K, V>(m: map<K, V>, ks: seq<K>, f: V -> V)
    requires forall k :: k in m <==> k in ks
    requires forall i, j :: 0 <= i < j < |ks| ==> ks[i] != ks[j]
    ensures UpdatedAt(m, ks, f) == UpdatedAll(m, f)
  {
    UpdatedAtSpec(m, ks, f);
  }

  /** Every row merged. */
  function MergedRows(rows: map<RowKey, Row>, sentos: map<string, SentosInfo>): (r: map<RowKey, Row>)
    ensures r.Keys == rows.Keys
    ensures forall k :: k in rows ==> r[k] == MergeRow(rows[k], sentos)
  {
    UpdatedAll(rows, row => MergeRow(row, sentos))
  }

  /** The table after the merge; its keys, sizes and stocks are those before. */
  function Merged(t: Table, sentos: map<string, SentosInfo>): (r: Table)
    ensures TableValid(t) ==> TableValid(r)
    ensures r.keys == t.keys && r.sizes == t.sizes && r.rows.Keys == t.rows.Keys
    ensures forall k :: k in t.rows ==> r.rows[k].sizes == t.rows[k].sizes && r.rows[k].totalStock == t.rows[k].totalStock
  {
    t.(rows := MergedRows(t.rows, sentos))
  }

  /** The loop of step 4: each row, listed once in `keys`, is updated in place. */
  method MergeRows(keys: seq<RowKey>, rows: map<RowKey, Row>, sentos: map<string, SentosInfo>)
    returns (merged: map<RowKey, Row>)
    requires forall k :: k in rows <==> k in keys
    requires forall i, j :: 0 <= i < j < |keys| ==> keys[i] != keys[j]
    ensures merged == MergedRows(rows, sentos)
  {
    var f := row => MergeRow(row, sentos);
    merged := rows;
    for i := 0 to |keys|
      invariant merged == UpdatedAt(rows, keys[..i], f)
    {
      var k := keys[i];
      assert keys[..i + 1][..i] == keys[..i];
      merged := merged[k := MergeRow(merged[k], sentos)];
    }
    assert keys[..|keys|] == keys;
    UpdatedAtAll(rows, keys, f);
  }

  /** A row without a model code keeps its own data: the answers never hold the empty
      code, since the lookup skips it. */
  lemma UncodedRowUnmerged(row: Row, sentos: map<string, SentosInfo>)
    requires "" !in sentos && row.modelCode == ""
    ensures MergeRow(row, sentos) == row
  {
  }

  /** Step 4 of `process_data`; `sentos` holds answers for non-empty base codes only. */
  method MergeSentos(t: Table, sentos: map<string, SentosInfo>) returns (r: Table)
    requires TableValid(t)
    requires "" !in sentos
    ensures r == Merged(t, sentos)
  {
    var rows := MergeRows(t.keys, t.rows, sentos);
    r := t.(rows := rows);
  }

  // ---------------------------------------------------------------- the size columns

  /** `before` orders strings strictly and totally. */
  ghost predicate StrictTotalOrder(before: (string, string) -> bool) {
    && (forall a :: !before(a, a))
    && (forall a, b, c :: before(a, b) && before(b, c) ==> before(a, c))
    && (forall a, b :: a != b ==> before(a, b) || before(b, a))
  }

  /** The apparel size order is one. */
  lemma SizeOrderIsStrictTotal()
    ensures StrictTotalOrder(SizeBefore)
  {
    forall a, b, c
      ensures !SizeBefore(a, a)
      ensures SizeBefore(a, b) && SizeBefore(b, c) ==> SizeBefore(a, c)
      ensures a != b ==> SizeBefore(a, b) || SizeBefore(b, a)
    {
      SizeBeforeStrictTotal(a, b, c);
    }
  }

  /** Sorted by `before`, without repeats. */
  predicate SortedBy(s: seq<string>, before: (string, string) -> bool) {
    forall i, j :: 0 <= i < j < |s| ==> before(s[i], s[j])
  }

  /** Sorted by the apparel size key, without repeats. */
  predicate SizesSorted(s: seq<string>) {
    SortedBy(s, SizeBefore)
  }

  /** `s` with `x` put in its place. */
  function InsertBy(s: seq<string>, x: string, before: (string, string) -> bool): seq<string> {
    if s == [] then [x]
    else if before(x, s[0]) then [x] + s
    else [s[0]] + InsertBy(s[1..], x, before)
  }

  /** Inserting a new string into a sorted list keeps it sorted and adds just that
      string. */
  lemma InsertBySpec(s: seq<string>, x: string, before: (string, string) -> bool)
    requires StrictTotalOrder(before) && SortedBy(s, before) && x !in s
    ensures var r := InsertBy(s, x, before);
            && SortedBy(r, before) && |r| == |s| + 1
            && forall y :: y in r <==> y in s || y == x
  {
    InsertByMembers(s, x, before);
    InsertBySorted(s, x, before);
  }

  /** Inserting adds exactly one element, `x`. */
  lemma {:induction false} InsertByMembers(s: seq<string>, x: string, before: (string, string) -> bool)
    ensures var r := InsertBy(s, x, before);
            && |r| == |s| + 1 && forall y :: y in r <==> y in s || y == x
  {
    if s != [] && !before(x, s[0]) {
      InsertByMembers(s[1..], x, before);
      assert s == [s[0]] + s[1..];
    }
  }

  /** Inserting a string that is not there yet into a sorted list keeps it sorted. */
  lemma {:induction false} InsertBySorted(s: seq<string>, x: string, before: (string, string) -> bool)
    requires StrictTotalOrder(before) && SortedBy(s, before) && x !in s
    ensures SortedBy(InsertBy(s, x, before), before)
  {
    if s != [] {
      var r := InsertBy(s, x, before);
      if before(x, s[0]) {
        forall i, j | 0 <= i < j < |r|
          ensures before(r[i], r[j])
        {
          assert r[j] == s[j - 1];
          if i > 0 {
            assert r[i] == s[i - 1];
          } else if j > 1 {
            assert before(s[0], s[j - 1]);
          }
        }
      } else {
        assert before(s[0], x);
        InsertBySorted(s[1..], x, before);
        InsertByMembers(s[1..], x, before);
        var tail := InsertBy(s[1..], x, before);
        assert r == [s[0]] + tail;
        forall j | 0 <= j < |tail|
          ensures before(s[0], tail[j])
        {
          if tail[j] != x {
            assert tail[j] in tail;
            assert tail[j] in s[1..];
            var m :| 0 <= m < |s[1..]| && s[1..][m] == tail[j];
            assert s[m + 1] == tail[j];
          }
        }
        forall i, j | 0 <= i < j < |r|
          ensures before(r[i], r[j])
        {
          if i > 0 { assert r[i] == tail[i - 1] && r[j] == tail[j - 1]; }
        }
      }
    }
  }


  /** `sorted(list(all_sizes), key=_get_apparel_sort_key)`, as insertion of one size at a
      time. */
  method SortSizes(all: set<string>) returns (s: seq<string>)
    ensures SizesSorted(s) && forall x :: x in s <==> x in all
  {
    SizeOrderIsStrictTotal();
    s := [];
    var rest := all;
    while rest != {}
      invariant rest <= all
      invariant SizesSorted(s) && forall x :: x in s <==> x in all && x !in rest
      decreases |rest|
    {
      var x :| x in rest;
      InsertBySpec(s, x, SizeBefore);
      s := InsertBy(s, x, SizeBefore);
      rest := rest - {x};
    }
  }

  /** Two sorted lists of the same strings are equal: the sort has exactly one result. */
  lemma {:induction false} SortedUnique(s: seq<string>, t: seq<string>, before: (string, string) -> bool)
    requires StrictTotalOrder(before) && SortedBy(s, before) && SortedBy(t, before)
    requires forall x :: x in s <==> x in t
    ensures s == t
    decreases |s|
  {
    if s != [] {
      assert s[0] in s;
    }
    if t != [] {
      assert t[0] in t;
    }
    if s != [] && t != [] {
      assert t[0] in s && s[0] in t;
      var i :| 0 <= i < |s| && s[i] == t[0];
      var j :| 0 <= j < |t| && t[j] == s[0];
      if i > 0 && j > 0 {
        assert false;
      }
      forall x | x in s[1..]
        ensures x in t[1..]
      {
        var m :| 1 <= m < |s| && s[m] == x;
        assert x in t;
        var n :| 0 <= n < |t| && t[n] == x;
        assert n != 0;
        assert t[1..][n - 1] == x;
      }
      forall x | x in t[1..]
        ensures x in s[1..]
      {
        var n :| 1 <= n < |t| && t[n] == x;
        assert x in s;
        var m :| 0 <= m < |s| && s[m] == x;
        assert m != 0;
        assert s[1..][m - 1] == x;
      }
      SortedUnique(s[1..], t[1..], before);
      assert s == [s[0]] + s[1..] && t == [t[0]] + t[1..];
    }
  }

  /** Sorting a set of sizes by the apparel key has exactly one result. */
  lemma SortedSizesUnique(s: seq<string>, t: seq<string>)
    requires SizesSorted(s) && SizesSorted(t) && forall x :: x in s <==> x in t
    ensures s == t
  {
    SizeOrderIsStrictTotal();
    SortedUnique(s, t, SizeBefore);
  }

  // ---------------------------------------------------------------- the final rows

  /** A row of the exported sheet: the fixed columns, one stock column per size of the
      header, the total and the purchase price. */
  datatype FinalRow = FinalRow(kind: string, image: string, modelCode: string, link: string, color: string,
                               sizeColumns: seq<int>, totalStock: int, purchasePrice: Option<real>)

  /** The sheet formula showing the image, or '' without an image. */
  function ImageCell(url: string): string {
    if url != "" then "=IMAGE(\"" + url + "\")" else ""
  }

  /** `data["sizes"].get(size, 0)` */
  function Column(sizes: map<string, int>, size: string): int {
    if size in sizes then sizes[size] else 0
  }

  function SizeColumnsOf(sizes: map<string, int>, header: seq<string>): (r: seq<int>)
    ensures |r| == |header| && forall j :: 0 <= j < |header| ==> r[j] == Column(sizes, header[j])
  {
    seq(|header|, j requires 0 <= j < |header| => Column(sizes, header[j]))
  }

  function FinalRowOf(row: Row, header: seq<string>): FinalRow {
    FinalRow(row.kind, ImageCell(row.imageUrl), row.modelCode, row.link, row.color,
             SizeColumnsOf(row.sizes, header), row.totalStock, row.purchasePrice)
  }

  /** When the header lists every size of the row, each of the row's stocks sits in the
      column of its size, every other size column holds 0, and the total is kept. */
  lemma FinalRowKeepsStock(row: Row, header: seq<string>)
    requires forall k :: k in row.sizes ==> k in header
    ensures var f := FinalRowOf(row, header);
            && |f.sizeColumns| == |header| && f.totalStock == row.totalStock
            && (forall k :: k in row.sizes ==> exists j :: 0 <= j < |header| && header[j] == k && f.sizeColumns[j] == row.sizes[k])
            && (forall j :: 0 <= j < |header| && header[j] !in row.sizes ==> f.sizeColumns[j] == 0)
  {
    var f := FinalRowOf(row, header);
    forall k | k in row.sizes
      ensures exists j :: 0 <= j < |header| && header[j] == k && f.sizeColumns[j] == row.sizes[k]
    {
      var j :| 0 <= j < |header| && header[j] == k;
      assert f.sizeColumns[j] == row.sizes[k];
    }
  }

  /** The size loop of one final row. */
  method SizeColumns(sizes: map<string, int>, header: seq<string>) returns (cols: seq<int>)
    ensures cols == SizeColumnsOf(sizes, header)
  {
    cols := [];
    for j := 0 to |header|
      invariant |cols| == j && forall m :: 0 <= m < j ==> cols[m] == Column(sizes, header[m])
    {
      var stock := 0;
      if header[j] in sizes {
        stock := sizes[header[j]];
      }
      cols := cols + [stock];
    }
  }

  /** Step 5 of `process_data`: one final row per row of the table, in its order. */
  method BuildFinalRows(t: Table, header: seq<string>) returns (rows: seq<FinalRow>)
    requires TableValid(t)
    ensures |rows| == |t.keys| && forall i :: 0 <= i < |t.keys| ==> rows[i] == FinalRowOf(t.rows[t.keys[i]], header)
  {
    rows := [];
    for i := 0 to |t.keys|
      invariant |rows| == i && forall m :: 0 <= m < i ==> rows[m] == FinalRowOf(t.rows[t.keys[m]], header)
    {
      var data := t.rows[t.keys[i]];
      var cols := SizeColumns(data.sizes, header);
      rows := rows + [FinalRow(data.kind, ImageCell(data.imageUrl), data.modelCode, data.link, data.color,
                               cols, data.totalStock, data.purchasePrice)];
    }
  }

  /** What `process_data` ends with: a failure, None for no rows, or the sheet. */
  datatype ExportOutcome = PageFailed | NoRows | Exported(header: seq<string>, rows: seq<FinalRow>)

  /** Steps 2 to 5 of `process_data` over the products already fetched and filtered, with
      `sentos` the answers for the base codes collected; the lookup skips the empty code,
      so it is never a key. */
  method ProcessData(products: seq<Product>, storeUrl: string, sentos: map<string, SentosInfo>) returns (r: ExportOutcome)
    requires "" !in sentos
    ensures Processed(products, storeUrl).None? <==> r.PageFailed?
    ensures Processed(products, storeUrl).Some? ==>
              var t := Merged(Processed(products, storeUrl).value, sentos);
              && TableValid(t)
              && (r.NoRows? <==> t.keys == [])
              && (r.Exported? ==>
                    && SizesSorted(r.header) && (forall x :: x in r.header <==> x in t.sizes)
                    && |r.rows| == |t.keys|
                    && forall i :: 0 <= i < |t.keys| ==> r.rows[i] == FinalRowOf(t.rows[t.keys[i]], r.header))
  {
    var processed := ProcessProducts(products, storeUrl);
    if processed.None? {
      return PageFailed;
    }
    var t := MergeSentos(processed.value, sentos);
    var header := SortSizes(t.sizes);
    var rows := BuildFinalRows(t, header);
    if rows == [] {
      return NoRows;
    }
    return Exported(header, rows);
  }
}
