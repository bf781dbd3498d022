/** utils.py: the apparel size sort key and the colour/size readers for a
    source-system variant record. */
module Utils {
  import opened Wrappers
  import opened Strs
  import opened Json

  /** The tuple `(tier, rank, original)` Python compares element by element. */
  datatype SortKey = SortKey(tier: int, rank: int, original: Json)

  const UnrankedTier := 3
  const UnrankedRank := 9999

  /** The fixed size table, looked up with the trimmed, upper-cased size. */
  function SizeRank(u: string): Option<int> {
    if u == "XXS" then Some(0)
    else if u == "XS" then Some(1)
    else if u == "S" then Some(2)
    else if u == "M" then Some(3)
    else if u == "L" then Some(4)
    else if u == "XL" then Some(5)
    else if u == "XXL" || u == "2XL" then Some(6)
    else if u == "3XL" || u == "XXXL" then Some(7)
    else if u == "4XL" || u == "XXXXL" then Some(8)
    else if u == "5XL" || u == "XXXXXL" then Some(9)
    else if u == "TEK EBAT" || u == "STANDART" then Some(100)
    else None
  }

  /** The first maximal run of decimal digits, as `re.findall(r'\d+', s)[0]` finds it,
      with the index it starts at. */
  function FirstDigitRun(s: string): (r: Option<(nat, string)>)
    ensures r.Some? ==> |r.value.1| > 0 && r.value.0 + |r.value.1| <= |s|
    ensures r.Some? ==> forall j :: 0 <= j < |r.value.1| ==> IsDigit(r.value.1[j])
  {
    if |s| == 0 then None
    else if !IsDigit(s[0]) then
      match FirstDigitRun(s[1..])
      case None => None
      case Some((i, run)) => Some((i + 1, run))
    else Some((0, DigitPrefix(s)))
  }

  /** `s[i..i + |run|]` is a maximal run of digits with no digit before it. */
  predicate FirstRunAt(s: string, i: nat, run: string) {
    && i + |run| <= |s| && s[i..i + |run|] == run
    && (forall j :: 0 <= j < |run| ==> IsDigit(run[j]))
    && (forall j :: 0 <= j < i ==> !IsDigit(s[j]))
    && (i + |run| == |s| || !IsDigit(s[i + |run|]))
  }

  /** There is no run exactly when the string holds no digit. */
  lemma {:induction false} FirstDigitRunNone(s: string)
    ensures FirstDigitRun(s).None? <==> forall j :: 0 <= j < |s| ==> !IsDigit(s[j])
    decreases |s|
  {
    if |s| > 0 && !IsDigit(s[0]) {
      FirstDigitRunNone(s[1..]);
      assert forall j :: 1 <= j < |s| ==> s[j] == s[1..][j - 1];
    }
  }

  /** A run found is made of digits, is preceded by no digit and is not followed by one. */
  lemma {:induction false} FirstDigitRunFound(s: string)
    requires FirstDigitRun(s).Some?
    ensures FirstRunAt(s, FirstDigitRun(s).value.0, FirstDigitRun(s).value.1)
    decreases |s|
  {
    if !IsDigit(s[0]) {
      FirstDigitRunFound(s[1..]);
      var (i, run) := FirstDigitRun(s[1..]).value;
      assert s[i + 1..i + 1 + |run|] == s[1..][i..i + |run|];
      assert forall j :: 1 <= j <= i ==> s[j] == s[1..][j - 1];
    }
  }

  /** The longest prefix made of digits. */
  function DigitPrefix(s: string): (run: string)
    ensures |run| <= |s| && s[..|run|] == run
    ensures forall j :: 0 <= j < |run| ==> IsDigit(run[j])
    ensures |run| == |s| || !IsDigit(s[|run|])
  {
    if |s| > 0 && IsDigit(s[0]) then
      var t := DigitPrefix(s[1..]);
      assert s[..|t| + 1] == [s[0]] + t;
      [s[0]] + t
    else ""
  }

  /** `get_apparel_sort_key` (also copied verbatim as `_get_apparel_sort_key` in the export page). */
  function ApparelSortKey(size: Json): (k: SortKey)
    ensures k.original == size
    ensures k.tier == 1 || k.tier == 2 || k.tier == 3
    ensures k.tier == 3 ==> k.rank == UnrankedRank
    ensures k.tier < 3 ==> size.JStr?
  {
    match size
    case JStr(s) =>
      var u := Upper(Trim(s));
      if SizeRank(u).Some? then SortKey(1, SizeRank(u).value, size)
      else if FirstDigitRun(s).Some? then
        var (_, run) := FirstDigitRun(s).value;
        SortKey(2, DigitsValue(run), size)
      else SortKey(UnrankedTier, UnrankedRank, size)
    case _ => SortKey(UnrankedTier, UnrankedRank, size)
  }

  /** Python's `a < b` on strings: lexicographic by code point. */
  predicate StrLess(a: string, b: string)
    decreases |a|
  {
    if |a| == 0 then |b| > 0
    else if |b| == 0 then false
    else a[0] < b[0] || (a[0] == b[0] && StrLess(a[1..], b[1..]))
  }

  /** The order `sorted(..., key=get_apparel_sort_key)` puts two size strings in. */
  predicate SizeBefore(a: string, b: string) {
    var ka := ApparelSortKey(JStr(a));
    var kb := ApparelSortKey(JStr(b));
    ka.tier < kb.tier
    || (ka.tier == kb.tier && ka.rank < kb.rank)
    || (ka.tier == kb.tier && ka.rank == kb.rank && StrLess(a, b))
  }

  lemma {:induction false} StrLessIrreflexive(a: string)
    ensures !StrLess(a, a)
    decreases |a|
  {
    if |a| > 0 { StrLessIrreflexive(a[1..]); }
  }

  lemma {:induction false} StrLessTransitive(a: string, b: string, c: string)
    requires StrLess(a, b) && StrLess(b, c)
    ensures StrLess(a, c)
    decreases |a|
  {
    if |a| > 0 && |b| > 0 && |c| > 0 && a[0] == b[0] && b[0] == c[0] {
      StrLessTransitive(a[1..], b[1..], c[1..]);
    }
  }

  lemma {:induction false} StrLessTotal(a: string, b: string)
    requires a != b
    ensures StrLess(a, b) || StrLess(b, a)
    decreases |a|
  {
    if |a| > 0 && |b| > 0 && a[0] == b[0] {
      assert a == [a[0]] + a[1..] && b == [b[0]] + b[1..];
      StrLessTotal(a[1..], b[1..]);
    }
  }

  /** The size order is a strict total order on strings, so sorting a set of sizes
      by it has exactly one result. */
  lemma SizeBeforeStrictTotal(a: string, b: string, c: string)
    ensures !SizeBefore(a, a)
    ensures SizeBefore(a, b) && SizeBefore(b, c) ==> SizeBefore(a, c)
    ensures a != b ==> SizeBefore(a, b) || SizeBefore(b, a)
  {
    StrLessIrreflexive(a);
    if SizeBefore(a, b) && SizeBefore(b, c) && StrLess(a, b) && StrLess(b, c) {
      StrLessTransitive(a, b, c);
    }
    if a != b { StrLessTotal(a, b); }
  }

  /** Every size in the table sorts before every size that is not in it. */
  lemma TableSizesFirst(a: string, b: string)
    requires SizeRank(Upper(Trim(a))).Some? && SizeRank(Upper(Trim(b))).None?
    ensures SizeBefore(a, b)
  {
  }

  /** Sizes outside the table but holding a number sort by that number, after the table,
      and before sizes holding no digit. */
  lemma NumberedSizesNext(a: string, b: string)
    requires SizeRank(Upper(Trim(a))).None? && FirstDigitRun(a).Some?
    requires SizeRank(Upper(Trim(b))).None? && FirstDigitRun(b).None?
    ensures SizeBefore(a, b)
    ensures ApparelSortKey(JStr(a)).rank == DigitsValue(FirstDigitRun(a).value.1)
  {
  }

  lemma SharedRanks()
    ensures SizeRank("XXL") == SizeRank("2XL") == Some(6)
    ensures SizeRank("TEK EBAT") == SizeRank("STANDART") == Some(100)
  {
  }

  /** The `model` entry of a variant record: absent, null, a string, a number, or a
      dict that may hold a string 'value'. */
  datatype ModelField = NoModel | NullModel | ModelText(text: string) | ModelNumber(n: int) | ModelDict(value: Option<string>)

  /** `get_variant_size`: the dict's 'value' or `str(model)`, trimmed; None when empty. */
  function VariantSize(m: ModelField): (r: Option<string>)
    ensures m.NoModel? ==> r.None?
  {
    TrimmedOrNone(ModelString(m))
  }

  /** A size is the non-empty trimmed model text; a null model reads as "None". */
  lemma VariantSizeSpec(m: ModelField)
    ensures var r := VariantSize(m);
            && (r.Some? ==> r.value != [] && !IsSpace(r.value[0]) && !IsSpace(r.value[|r.value| - 1]))
            && (r.Some? ==> r.value == Trim(ModelString(m)))
            && (r.None? <==> Trim(ModelString(m)) == [])
            && (m.NullModel? ==> r == Some("None"))
  {
    TrimmedOrNoneSpec(ModelString(m));
    if m.NullModel? {
      assert !IsSpace('N') && !IsSpace('e');
      TrimUnchanged("None");
    }
  }

  /** The text the size is read from: the dict's 'value' (default ""), or `str(model)`. */
  function ModelString(m: ModelField): string {
    match m
    case NoModel => ""
    case NullModel => "None"
    case ModelText(t) => t
    case ModelNumber(n) => IntToString(n)
    case ModelDict(v) => if v.Some? then v.value else ""
  }

  /** `get_variant_color`: the trimmed colour, None when missing, null or blank. */
  function VariantColor(color: Option<string>): (r: Option<string>)
    ensures color.None? ==> r.None?
  {
    TrimmedOrNone(if color.Some? then color.value else "")
  }

  /** A colour is the non-empty trimmed colour text. */
  lemma VariantColorSpec(color: Option<string>)
    ensures var r := VariantColor(color);
            && (r.Some? ==> r.value != [] && !IsSpace(r.value[0]) && !IsSpace(r.value[|r.value| - 1]))
            && (r.Some? ==> color.Some? && r.value == Trim(color.value))
            && (color.Some? ==> (r.None? <==> Trim(color.value) == []))
  {
    TrimmedOrNoneSpec(if color.Some? then color.value else "");
  }

  /** `s.strip() or None` */
  function TrimmedOrNone(s: string): (r: Option<string>)
  {
    var t := Trim(s);
    if t == [] then None else Some(t)
  }

  /** `s.strip() or None` is the stripped text exactly when that is not empty. */
  lemma TrimmedOrNoneSpec(s: string)
    ensures var r := TrimmedOrNone(s);
            && (r.Some? ==> r.value == Trim(s) && r.value != [])
            && (r.Some? ==> !IsSpace(r.value[0]) && !IsSpace(r.value[|r.value| - 1]))
            && (r.None? <==> Trim(s) == [])
  {
    TrimSpec(s);
  }
}
