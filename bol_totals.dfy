/** The cargo lines of a bill of lading as both of its exporters walk them,
    container after container, and the two totals both exporters compute. */
module BolTotals {
  import opened Common
  import opened Numeric
  import M = BolModel

  // ---- Flattening -------------------------------------------------------------------

  /** Every cargo line: those of the first container, then those of the next. */
  function Flatten(cs: seq<M.Container>): seq<M.CargoItem>
  {
    if |cs| == 0 then [] else cs[0].cargoItems + Flatten(cs[1..])
  }

  /** The number of cargo lines over all containers. */
  function ItemCount(cs: seq<M.Container>): nat
  {
    if |cs| == 0 then 0 else |cs[0].cargoItems| + ItemCount(cs[1..])
  }

  lemma {:induction false} FlattenLength(cs: seq<M.Container>)
    ensures |Flatten(cs)| == ItemCount(cs)
  {
    if |cs| > 0 { FlattenLength(cs[1..]); }
  }

  lemma {:induction false} FlattenAppend(a: seq<M.Container>, b: seq<M.Container>)
    ensures Flatten(a + b) == Flatten(a) + Flatten(b)
  {
    if |a| > 0 {
      assert (a + b)[1..] == a[1..] + b;
      FlattenAppend(a[1..], b);
    } else {
      assert a + b == b;
    }
  }

  /** Line `j` of container `i` sits after every line of the containers before `i`
      and after the first `j` lines of its own. */
  lemma FlattenIndex(cs: seq<M.Container>, i: nat, j: nat)
    requires i < |cs| && j < |cs[i].cargoItems|
    ensures ItemCount(cs[..i]) + j < ItemCount(cs) == |Flatten(cs)|
    ensures Flatten(cs)[ItemCount(cs[..i]) + j] == cs[i].cargoItems[j]
  {
    var before, after := cs[..i], cs[i + 1..];
    assert cs == before + ([cs[i]] + after);
    FlattenAppend(before, [cs[i]] + after);
    assert ([cs[i]] + after)[1..] == after;
    assert Flatten([cs[i]] + after) == cs[i].cargoItems + Flatten(after);
    FlattenLength(before);
    FlattenLength(cs);
  }

  /** The lines of the first `i + 1` containers: those of the first `i` and
      then container `i`'s. */
  lemma ItemCountNext(cs: seq<M.Container>, i: nat)
    requires i < |cs|
    ensures ItemCount(cs[..i + 1]) == ItemCount(cs[..i]) + |cs[i].cargoItems|
  {
    assert cs[..i + 1] == cs[..i] + [cs[i]];
    FlattenAppend(cs[..i], [cs[i]]);
    assert [cs[i]][1..] == [];
    assert Flatten([cs[i]]) == cs[i].cargoItems;
    FlattenLength(cs[..i + 1]);
    FlattenLength(cs[..i]);
  }

  /** The first `i` containers hold at most all the lines. */
  lemma ItemCountPrefix(cs: seq<M.Container>, i: nat)
    requires i <= |cs|
    ensures ItemCount(cs[..i]) <= ItemCount(cs)
  {
    assert cs == cs[..i] + cs[i..];
    FlattenAppend(cs[..i], cs[i..]);
    FlattenLength(cs[..i]);
    FlattenLength(cs);
  }

  /** Container `ci`'s lines sit right after those of the containers before it. */
  lemma ContainerLines(cs: seq<M.Container>, ci: nat)
    requires ci < |cs|
    ensures var before, items := ItemCount(cs[..ci]), cs[ci].cargoItems;
      ItemCount(cs[..ci + 1]) == before + |items| <= |Flatten(cs)|
      && Flatten(cs)[before..before + |items|] == items
  {
    var before, items := ItemCount(cs[..ci]), cs[ci].cargoItems;
    ItemCountNext(cs, ci);
    ItemCountPrefix(cs, ci + 1);
    FlattenLength(cs);
    forall j | 0 <= j < |items|
      ensures Flatten(cs)[before + j] == items[j]
    {
      FlattenIndex(cs, ci, j);
    }
  }

  // ---- Totals -------------------------------------------------------------------------

  /** `parseInt(item.packages || '0')` for each line. */
  function PackageCounts(items: seq<M.CargoItem>): seq<Option<int>>
  {
    seq(|items|, i requires 0 <= i < |items| => ParseInt(Or(items[i].packages, "0")))
  }

  /** `parseFloat(item.weight || '0')` for each line. */
  function WeightValues(items: seq<M.CargoItem>): seq<Option<Decimal>>
  {
    seq(|items|, i requires 0 <= i < |items| => ParseFloat(Or(items[i].weight, "0")))
  }

  /** The outer `reduce` over containers of the inner `reduce` over their lines. */
  function TotalPackages(cs: seq<M.Container>): Option<int>
  {
    if |cs| == 0 then Some(0) else AddInt(SumInts(PackageCounts(cs[0].cargoItems)), TotalPackages(cs[1..]))
  }

  function TotalWeight(cs: seq<M.Container>): Option<Decimal>
  {
    if |cs| == 0 then Some(Zero()) else AddDecimal(SumDecimals(WeightValues(cs[0].cargoItems)), TotalWeight(cs[1..]))
  }

  lemma PackageCountsAppend(a: seq<M.CargoItem>, b: seq<M.CargoItem>)
    ensures PackageCounts(a + b) == PackageCounts(a) + PackageCounts(b)
  {
  }

  lemma WeightValuesAppend(a: seq<M.CargoItem>, b: seq<M.CargoItem>)
    ensures WeightValues(a + b) == WeightValues(a) + WeightValues(b)
  {
  }

  /** Summing per container and then over containers gives the sum over all
      lines of the flattened list. */
  lemma {:induction false} TotalPackagesFlat(cs: seq<M.Container>)
    ensures TotalPackages(cs) == SumInts(PackageCounts(Flatten(cs)))
  {
    if |cs| > 0 {
      TotalPackagesFlat(cs[1..]);
      PackageCountsAppend(cs[0].cargoItems, Flatten(cs[1..]));
      SumIntsAppend(PackageCounts(cs[0].cargoItems), PackageCounts(Flatten(cs[1..])));
    }
  }

  /** The same for the weight: NaN exactly when the flat sum is, and otherwise
      of the same value. */
  lemma {:induction false} TotalWeightFlat(cs: seq<M.Container>)
    ensures TotalWeight(cs).None? <==> SumDecimals(WeightValues(Flatten(cs))).None?
    ensures TotalWeight(cs).Some? ==>
      TotalWeight(cs).value.Value() == SumDecimals(WeightValues(Flatten(cs))).value.Value()
  {
    if |cs| > 0 {
      TotalWeightFlat(cs[1..]);
      WeightValuesAppend(cs[0].cargoItems, Flatten(cs[1..]));
      SumDecimalsAppendValue(WeightValues(cs[0].cargoItems), WeightValues(Flatten(cs[1..])));
    }
  }

  /** The package total is NaN exactly when some line's package count does not
      parse; an empty count reads as 0. */
  lemma TotalPackagesMeaning(cs: seq<M.Container>)
    ensures TotalPackages(cs).None? <==>
      exists k :: 0 <= k < |Flatten(cs)| && ParseInt(Or(Flatten(cs)[k].packages, "0")).None?
  {
    TotalPackagesFlat(cs);
    var xs := PackageCounts(Flatten(cs));
    SumIntsMeaning(xs);
    assert forall k :: 0 <= k < |xs| ==> xs[k] == ParseInt(Or(Flatten(cs)[k].packages, "0"));
  }

  /** The weight total is NaN exactly when some line's weight does not parse. */
  lemma TotalWeightMeaning(cs: seq<M.Container>)
    ensures TotalWeight(cs).None? <==>
      exists k :: 0 <= k < |Flatten(cs)| && ParseFloat(Or(Flatten(cs)[k].weight, "0")).None?
  {
    TotalWeightFlat(cs);
    var xs := WeightValues(Flatten(cs));
    SumDecimalsMeaning(xs);
    assert forall k :: 0 <= k < |xs| ==> xs[k] == ParseFloat(Or(Flatten(cs)[k].weight, "0"));
  }
}
