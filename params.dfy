/** The request side of the grid: the flat arguments DataTables sends
    (`search[value]`, `columns[i][data]`, `columns[i][search][value]`,
    `order[i][column]`, `order[i][dir]`), the allow-list that turns a column
    name into a column, and the index scans that stop at the first absent
    index. */
module Params {
  import opened Options
  import opened Strings
  import opened Tables
  import opened Query

  /** `request.args`: argument names to their (first) values. */
  type Args = map<string, string>

  /** `request.args.get(key)`. */
  function Get(args: Args, key: string): Option<string> {
    if key in args then Some(args[key]) else None
  }

  const SearchKey: string := "search[value]"

  /** `columns[{index}][data]`. The index is text: the sort loop splices in
      the raw value of `order[i][column]`. */
  function ColumnDataKey(index: string): string {
    "columns[" + index + "][data]"
  }

  function ColumnSearchKey(i: nat): string {
    "columns[" + NatToString(i) + "][search][value]"
  }

  function OrderColumnKey(i: nat): string {
    "order[" + NatToString(i) + "][column]"
  }

  function OrderDirKey(i: nat): string {
    "order[" + NatToString(i) + "][dir]"
  }

  /** The handler's allow-list of column names a request may use, in its order. */
  const AllowedNames: seq<string> := ["pet_name", "pet_age", "pet_type", "owner_name", "owner_email"]

  /** The grid's columns as an explicit table from name to column: the
      reference the string-based resolution is checked against. */
  const Catalog: map<string, Column> := map[
    "pet_name" := PetName, "pet_age" := PetAge, "pet_type" := PetType,
    "owner_name" := OwnerName, "owner_email" := OwnerEmail]

  /** The column a possibly absent column name selects: its entry in the
      table when the name is on the allow-list, and `pet_name` otherwise
      (an unknown name, or none at all, falls back to the pet's name). */
  function Resolve(name: Option<string>): Column {
    if name.Some? && name.value in Catalog then Catalog[name.value] else PetName
  }

  /** The allow-list and the table name the same five columns. */
  lemma AllowedNamesAreCatalog()
    ensures forall n :: n in AllowedNames <==> n in Catalog
  {
  }

  /** The prefix convention the column names follow: an allowed name either
      starts with `pet_`, and the rest names its column on `Pet` and does not
      itself start with `owner_`; or it starts with `owner_`, and the rest
      names its column on `Owner`. Either way the column is the table's. */
  lemma {:induction false} PrefixConvention(name: string)
    requires name in AllowedNames
    ensures StartsWith(name, "pet_") ==>
              PetAttribute(name[4..]) == Some(Catalog[name]) && !StartsWith(name[4..], "owner_")
    ensures !StartsWith(name, "pet_") ==>
              StartsWith(name, "owner_") && OwnerAttribute(name[6..]) == Some(Catalog[name])
  {
    if name[..4] == "pet_" {
      assert name in ["pet_name", "pet_age", "pet_type"] by {
        assert name[0] == 'p';
      }
    } else {
      assert name in ["owner_name", "owner_email"] by {
        assert "pet_name"[..4] == "pet_" && "pet_age"[..4] == "pet_" && "pet_type"[..4] == "pet_";
      }
    }
  }

  /** Whatever the request says, only one of the five displayed columns is
      ever searched or sorted on: never an id, age, address or phone of an owner. */
  lemma ResolveDisplayed(name: Option<string>)
    ensures Resolve(name) in Catalog.Values
    ensures Resolve(name) !in {PetId, PetOwnerId, OwnerId, OwnerAge, OwnerAddress, OwnerPhone}
  {
    assert PetName == Catalog["pet_name"];
  }

  // ----- termination of the index scans -----

  /** A length no key of the request exceeds. */
  ghost function MaxKeyLength(keys: set<string>): (m: nat)
    ensures forall k :: k in keys ==> |k| <= m
  {
    if keys == {} then 0
    else
      var k :| k in keys;
      var m := MaxKeyLength(keys - {k});
      if |k| > m then |k| else m
  }

  /** No index at or above this bound appears in a request key. */
  ghost function ScanBound(args: Args): nat {
    Pow10(MaxKeyLength(args.Keys))
  }

  lemma {:induction false} Pow10Monotone(a: nat, b: nat)
    requires a <= b
    ensures Pow10(a) <= Pow10(b)
  {
    if a < b {
      Pow10Monotone(a, b - 1);
    }
  }

  lemma IndexBelowBound(args: Args, prefix: string, i: nat, suffix: string)
    requires prefix + NatToString(i) + suffix in args
    ensures i < ScanBound(args)
  {
    NatToStringBound(i);
    Pow10Monotone(|NatToString(i)|, MaxKeyLength(args.Keys));
  }

  // ----- the scans of data() -----

  /** Global search text: `if search:` skips an absent or empty value. */
  function GlobalSearch(args: Args): (r: Option<string>)
    ensures r.Some? ==> Get(args, SearchKey) == r && r.value != ""
    ensures r.None? ==> Get(args, SearchKey) in {None, Some("")}
  {
    if SearchKey in args && args[SearchKey] != "" then Some(args[SearchKey]) else None
  }

  /** The predicate index `i` of the column search adds when its text is not empty. */
  function FilterAt(args: Args, i: nat): ColumnFilter
    requires ColumnSearchKey(i) in args
  {
    ColumnFilter(Resolve(Get(args, ColumnDataKey(NatToString(i)))), args[ColumnSearchKey(i)])
  }

  /** The column-search predicates from index `i` on, up to the first index
      whose `columns[i][search][value]` is absent. */
  function ColumnFiltersFrom(args: Args, i: nat): seq<ColumnFilter>
    decreases ScanBound(args) - i
  {
    if ColumnSearchKey(i) !in args then []
    else
      IndexBelowBound(args, "columns[", i, "][search][value]");
      (if args[ColumnSearchKey(i)] == "" then [] else [FilterAt(args, i)]) + ColumnFiltersFrom(args, i + 1)
  }

  /** A present index contributes its predicate, if any, ahead of the later ones. */
  lemma ColumnFiltersFromStep(args: Args, i: nat, query: seq<ColumnFilter>)
    requires ColumnSearchKey(i) in args
    ensures query + ColumnFiltersFrom(args, i) ==
            (query + if args[ColumnSearchKey(i)] == "" then [] else [FilterAt(args, i)]) + ColumnFiltersFrom(args, i + 1)
  {
  }

  /** The column search stops at the first absent index. */
  lemma ColumnFiltersFromEnd(args: Args, i: nat)
    requires Get(args, ColumnSearchKey(i)).None?
    ensures ColumnFiltersFrom(args, i) == []
  {
  }

  function ColumnFilters(args: Args): seq<ColumnFilter> {
    ColumnFiltersFrom(args, 0)
  }

  /** Every index from `i` through `j` has a column-search argument. */
  ghost predicate SearchedThrough(args: Args, i: nat, j: nat) {
    forall m :: i <= m <= j ==> ColumnSearchKey(m) in args
  }

  /** Each collected predicate comes from an index the scan reached, whose text is not empty. */
  lemma {:induction false} ColumnFilterSource(args: Args, i: nat, f: ColumnFilter) returns (j: nat)
    requires f in ColumnFiltersFrom(args, i)
    ensures i <= j && SearchedThrough(args, i, j) && args[ColumnSearchKey(j)] != "" && f == FilterAt(args, j)
    decreases ScanBound(args) - i
  {
    IndexBelowBound(args, "columns[", i, "][search][value]");
    if args[ColumnSearchKey(i)] != "" && f == FilterAt(args, i) {
      j := i;
    } else {
      j := ColumnFilterSource(args, i + 1, f);
    }
  }

  /** Each index the scan reaches with a non-empty text contributes its predicate. */
  lemma {:induction false} ColumnFilterCollected(args: Args, i: nat, j: nat)
    requires i <= j && SearchedThrough(args, i, j) && args[ColumnSearchKey(j)] != ""
    ensures FilterAt(args, j) in ColumnFiltersFrom(args, i)
    decreases j - i
  {
    assert ColumnSearchKey(i) in args;
    if i < j {
      IndexBelowBound(args, "columns[", i, "][search][value]");
      ColumnFilterCollected(args, i + 1, j);
    }
  }

  /** The column search collects exactly the predicates of the indices with
      non-empty text that come before the first absent index; an empty text
      adds nothing but does not stop the scan. */
  lemma ColumnFiltersSpec(args: Args, f: ColumnFilter)
    ensures f in ColumnFilters(args) <==>
            exists j: nat :: SearchedThrough(args, 0, j) && args[ColumnSearchKey(j)] != "" && f == FilterAt(args, j)
  {
    if f in ColumnFilters(args) {
      var j := ColumnFilterSource(args, 0, f);
    }
    if j: nat :| SearchedThrough(args, 0, j) && args[ColumnSearchKey(j)] != "" && f == FilterAt(args, j) {
      ColumnFilterCollected(args, 0, j);
    }
  }

  /** The sort term for position `i`: the column named by `columns[c][data]`
      where `c` is the raw text of `order[i][column]`, descending exactly
      when `order[i][dir]` is `desc`. */
  function SortTermAt(args: Args, i: nat): SortTerm
    requires OrderColumnKey(i) in args
  {
    SortTerm(Resolve(Get(args, ColumnDataKey(args[OrderColumnKey(i)]))), Get(args, OrderDirKey(i)) == Some("desc"))
  }

  /** The sort terms from position `i` on, up to the first absent `order[i][column]`. */
  function SortTermsFrom(args: Args, i: nat): seq<SortTerm>
    decreases ScanBound(args) - i
  {
    if OrderColumnKey(i) !in args then []
    else
      IndexBelowBound(args, "order[", i, "][column]");
      [SortTermAt(args, i)] + SortTermsFrom(args, i + 1)
  }

  /** A present position contributes its term ahead of the later ones. */
  lemma SortTermsFromStep(args: Args, i: nat, order: seq<SortTerm>)
    requires OrderColumnKey(i) in args
    ensures order + SortTermsFrom(args, i) == (order + [SortTermAt(args, i)]) + SortTermsFrom(args, i + 1)
  {
  }

  /** The sort key ends at the first absent position. */
  lemma SortTermsFromEnd(args: Args, i: nat)
    requires Get(args, OrderColumnKey(i)).None?
    ensures SortTermsFrom(args, i) == []
  {
  }

  function SortTerms(args: Args): seq<SortTerm> {
    SortTermsFrom(args, 0)
  }

  /** The first absent position `g` is where the sort key ends. */
  lemma {:induction false} SortTermsFromGap(args: Args, i: nat, g: nat)
    requires g == i + |SortTermsFrom(args, i)|
    ensures OrderColumnKey(g) !in args
    decreases ScanBound(args) - i
  {
    if OrderColumnKey(i) in args {
      IndexBelowBound(args, "order[", i, "][column]");
      SortTermsFromGap(args, i + 1, g);
    }
  }

  /** The term at offset `j - i` of the key comes from position `j`, which is present. */
  lemma {:induction false} SortTermsFromAt(args: Args, i: nat, j: nat)
    requires i <= j < i + |SortTermsFrom(args, i)|
    ensures OrderColumnKey(j) in args && SortTermsFrom(args, i)[j - i] == SortTermAt(args, j)
    decreases j - i
  {
    assert OrderColumnKey(i) in args;
    if i < j {
      IndexBelowBound(args, "order[", i, "][column]");
      SortTermsFromAt(args, i + 1, j);
    }
  }

  /** Term `j` of the sort key is built from position `j` (so position 0 is
      the primary key): its column is the one `columns[c][data]` names for
      the text `c` of `order[j][column]`, and it is descending exactly when
      `order[j][dir]` is `desc`. The key ends at the first absent
      `order[i][column]`, and every position before it is present. */
  lemma SortTermsSpec(args: Args)
    ensures OrderColumnKey(|SortTerms(args)|) !in args
    ensures forall j :: 0 <= j < |SortTerms(args)| ==>
              && OrderColumnKey(j) in args
              && SortTerms(args)[j].column == Resolve(Get(args, ColumnDataKey(args[OrderColumnKey(j)])))
              && (SortTerms(args)[j].descending <==> Get(args, OrderDirKey(j)) == Some("desc"))
  {
    SortTermsFromGap(args, 0, |SortTerms(args)|);
    forall j | 0 <= j < |SortTerms(args)|
      ensures OrderColumnKey(j) in args && SortTerms(args)[j] == SortTermAt(args, j)
    {
      SortTermsFromAt(args, 0, j);
    }
  }
}
