/** The `/api/data` endpoint of the demo: `data()` turns the DataTables
    request into a filtered, sorted page of the pet/owner join, and shapes
    each row into one flat record. `Translate` states what the response is;
    `Data` computes it step by step as the handler does. */
module Grid {
  import opened Options
  import opened Strings
  import opened Tables
  import opened Query
  import opened Params
  import opened Dicts

  /** A request: its arguments, and `start`, `length` and `draw` as
      `request.args.get(..., type=int)` has already parsed them. */
  datatype Request = Request(args: Args, start: Option<int>, length: Option<int>, draw: Option<int>)

  /** The JSON object DataTables receives. */
  datatype Response = Response(
    data: seq<map<string, Value>>,
    recordsFiltered: nat,
    recordsTotal: nat,
    draw: Option<int>)

  /** The record of one joined row: `merge_dicts(pet.to_dict(prefix="pet_"),
      pet.owner.to_dict(prefix="owner_"))`. */
  function RowRecord(row: Row): map<string, Value> {
    MergeAll([PetToDict(row.pet, "pet_"), OwnerToDict(row.owner, "owner_")])
  }

  /** The join after the global search, if there is one. */
  function Searched(db: Database, args: Args): seq<Row> {
    var global := GlobalSearch(args);
    if global.Some? then Select(Join(db), AnyContains(global.value)) else Join(db)
  }

  /** The rows after the column searches as well. */
  function Filtered(db: Database, args: Args): seq<Row> {
    var filters := ColumnFilters(args);
    if filters != [] then Select(Searched(db, args), AllOf(filters)) else Searched(db, args)
  }

  /** The filtered rows in the order the sort terms ask for. */
  function Ordered(db: Database, args: Args): seq<Row> {
    var terms := SortTerms(args);
    if terms != [] then SortRows(Filtered(db, args), terms) else Filtered(db, args)
  }

  /** The response `data()` returns for this database and request. */
  function Translate(db: Database, req: Request): Response {
    var page := Page(Ordered(db, req.args), req.start, req.length);
    Response(
      seq(|page|, k requires 0 <= k < |page| => RowRecord(page[k])),
      |Filtered(db, req.args)|,
      |db.pets|,
      req.draw)
  }

  /** `data()`: the global filter, the column-search loop, the sort loop,
      pagination and the row-shaping loop, in the handler's order. */
  method Data(db: Database, req: Request) returns (resp: Response)
    ensures resp == Translate(db, req)
  {
    var args := req.args;
    var query := Join(db);

    var search := Get(args, SearchKey);
    if search.Some? && search.value != "" {
      query := Select(query, AnyContains(search.value));
    }
    var totalFiltered := |query|;

    var columnQuery := ColumnSearch(args);
    if columnQuery != [] {
      query := Select(query, AllOf(columnQuery));
      totalFiltered := |query|;
    }

    var order := SortOrder(args);
    if order != [] {
      query := SortRows(query, order);
    }

    query := Page(query, req.start, req.length);
    var queryData := ShapeRows(query);
    resp := Response(queryData, totalFiltered, |db.pets|, req.draw);
  }

  /** The column-search loop of `data()`: indices 0, 1, ... until
      `columns[i][search][value]` is absent; a non-empty text adds a
      predicate on the column `columns[i][data]` resolves to. */
  method ColumnSearch(args: Args) returns (columnQuery: seq<ColumnFilter>)
    ensures columnQuery == ColumnFilters(args)
  {
    var i: nat := 0;
    columnQuery := [];
    while true
      invariant ColumnFilters(args) == columnQuery + ColumnFiltersFrom(args, i)
      decreases ScanBound(args) - i
    {
      var colSearch := Get(args, ColumnSearchKey(i));
      if colSearch.None? {
        ColumnFiltersFromEnd(args, i);
        break;
      }
      IndexBelowBound(args, "columns[", i, "][search][value]");
      columnQuery := SearchStep(args, i, colSearch.value, columnQuery);
      i := i + 1;
    }
  }

  /** One index of the column search: a non-empty text appends the predicate
      on the column `columns[i][data]` names, an empty one appends nothing. */
  method SearchStep(args: Args, i: nat, text: string, columnQuery: seq<ColumnFilter>) returns (next: seq<ColumnFilter>)
    requires Get(args, ColumnSearchKey(i)) == Some(text)
    requires ColumnFilters(args) == columnQuery + ColumnFiltersFrom(args, i)
    ensures ColumnSearchKey(i) in args
    ensures next == columnQuery + if text == "" then [] else [FilterAt(args, i)]
    ensures ColumnFilters(args) == next + ColumnFiltersFrom(args, i + 1)
  {
    var added;
    ColumnFiltersFromStep(args, i, columnQuery);
    if text != "" {
      var col := ResolveColumn(Get(args, ColumnDataKey(NatToString(i))));
      added := [ColumnFilter(col, text)];
    } else {
      added := [];
    }
    next := columnQuery + added;
  }

  /** The sort loop of `data()`: positions 0, 1, ... until
      `order[i][column]` is absent, each giving one term of the key. */
  method SortOrder(args: Args) returns (order: seq<SortTerm>)
    ensures order == SortTerms(args)
  {
    var i: nat := 0;
    order := [];
    while true
      invariant SortTerms(args) == order + SortTermsFrom(args, i)
      decreases ScanBound(args) - i
    {
      var colIndex := Get(args, OrderColumnKey(i));
      if colIndex.None? {
        SortTermsFromEnd(args, i);
        break;
      }
      IndexBelowBound(args, "order[", i, "][column]");
      order := SortStep(args, i, colIndex.value, order);
      i := i + 1;
    }
  }

  /** One position of the sort: appends the column `columns[c][data]` names, where
      `c` is the text of `order[i][column]`, descending when `order[i][dir]`
      is `desc`. */
  method SortStep(args: Args, i: nat, colIndex: string, order: seq<SortTerm>) returns (next: seq<SortTerm>)
    requires Get(args, OrderColumnKey(i)) == Some(colIndex)
    requires SortTerms(args) == order + SortTermsFrom(args, i)
    ensures OrderColumnKey(i) in args
    ensures next == order + [SortTermAt(args, i)]
    ensures SortTerms(args) == next + SortTermsFrom(args, i + 1)
  {
    SortTermsFromStep(args, i, order);
    var col := ResolveColumn(Get(args, ColumnDataKey(colIndex)));
    var descending := Get(args, OrderDirKey(i)) == Some("desc");
    next := order + [SortTerm(col, descending)];
  }

  /** How both loops of `data()` turn `columns[i][data]` into a column: a
      name off the allow-list becomes `pet_name`; then the `pet_` prefix is
      stripped and the rest looked up on `Pet`, and the `owner_` prefix
      stripped and the rest looked up on `Owner`. Every allowed name reaches
      exactly the column the table gives it. */
  method ResolveColumn(colName: Option<string>) returns (col: Column)
    ensures col == Resolve(colName)
  {
    var name := if colName.Some? && colName.value in AllowedNames then colName.value else "pet_name";
    AllowedNamesAreCatalog();
    PrefixConvention(name);
    var attr: Option<Column> := None;
    if StartsWith(name, "pet_") {
      name := name[4..];
      attr := PetAttribute(name);
    }
    if StartsWith(name, "owner_") {
      name := name[6..];
      attr := OwnerAttribute(name);
    }
    col := attr.value;
  }

  /** The row-shaping loop of `data()`: one merged record per row, in order. */
  method ShapeRows(rows: seq<Row>) returns (queryData: seq<map<string, Value>>)
    ensures |queryData| == |rows|
    ensures forall k :: 0 <= k < |rows| ==> queryData[k] == RowRecord(rows[k])
  {
    queryData := [];
    for k := 0 to |rows|
      invariant |queryData| == k
      invariant forall j :: 0 <= j < k ==> queryData[j] == RowRecord(rows[j])
    {
      var petData := PetToDict(rows[k].pet, "pet_");
      var ownerData := OwnerToDict(rows[k].owner, "owner_");
      var bothData := MergeDicts([petData, ownerData]);
      queryData := queryData + [bothData];
    }
  }
}
