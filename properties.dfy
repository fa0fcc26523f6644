/** What the response of `/api/data` promises, stated about `Translate`:
    which rows are counted as filtered, what the three counters are, which
    rows make up the page and in what order, and what every record holds. */
module Properties {
  import opened Options
  import opened Strings
  import opened Tables
  import opened Query
  import opened Params
  import opened Dicts
  import opened Grid

  /** The searches a request asks for accept a row: the global search, if
      there is one, matches it, and so does every column search. */
  predicate Passes(row: Row, args: Args) {
    && (GlobalSearch(args).Some? ==> MatchesGlobal(row, GlobalSearch(args).value))
    && (forall f :: f in ColumnFilters(args) ==> MatchesFilter(row, f))
  }

  /** A row survives the searches exactly when it is a row of the join, the
      global search (if any) matches it and every column search matches it. */
  lemma FilteredMembership(db: Database, args: Args, row: Row)
    ensures row in Filtered(db, args) <==> row in Join(db) && Passes(row, args)
  {
  }

  /** The filtered rows are the rows of the join the searches accept, each
      exactly as often as the join has it: `recordsFiltered` counts these. */
  lemma FilteredCounts(db: Database, args: Args, row: Row)
    ensures multiset(Filtered(db, args))[row] == if Passes(row, args) then multiset(Join(db))[row] else 0
  {
    var global := GlobalSearch(args);
    if global.Some? {
      SelectCounts(Join(db), AnyContains(global.value), row);
    }
    if ColumnFilters(args) != [] {
      SelectCounts(Searched(db, args), AllOf(ColumnFilters(args)), row);
    }
  }

  /** The ordered rows are the filtered rows, each as often as before, in
      the order of the sort key; with no sort key they keep the join's order. */
  lemma OrderedCorrect(db: Database, args: Args)
    ensures multiset(Ordered(db, args)) == multiset(Filtered(db, args))
    ensures Sorted(Ordered(db, args), SortTerms(args))
    ensures SortTerms(args) == [] ==> Ordered(db, args) == Filtered(db, args)
  {
    if SortTerms(args) != [] {
      SortRowsCorrect(Filtered(db, args), SortTerms(args));
    }
  }

  /** The counters: `recordsTotal` is the size of the pet table whatever the
      request, `draw` is echoed, `recordsFiltered` counts the filtered join,
      and the page never holds more rows than were filtered. */
  lemma ResponseCounts(db: Database, req: Request)
    ensures Translate(db, req).recordsTotal == |db.pets|
    ensures Translate(db, req).draw == req.draw
    ensures Translate(db, req).recordsFiltered == |Filtered(db, req.args)|
    ensures forall row :: multiset(Filtered(db, req.args))[row] ==
              if Passes(row, req.args) then multiset(Join(db))[row] else 0
    ensures |Translate(db, req).data| <= Translate(db, req).recordsFiltered <= |Join(db)|
  {
    forall row
      ensures multiset(Filtered(db, req.args))[row] == if Passes(row, req.args) then multiset(Join(db))[row] else 0
    {
      FilteredCounts(db, req.args, row);
    }
    OrderedCorrect(db, req.args);
    assert |Ordered(db, req.args)| == |Filtered(db, req.args)| by {
      assert |multiset(Ordered(db, req.args))| == |multiset(Filtered(db, req.args))|;
    }
  }

  /** In a consistent database the join has one row per pet, so no more
      rows are ever counted as filtered than there are pets, and a request
      without any search counts every pet. */
  lemma ConsistentCounts(db: Database, req: Request)
    requires Consistent(db)
    ensures Translate(db, req).recordsFiltered <= Translate(db, req).recordsTotal
    ensures GlobalSearch(req.args).None? && ColumnFilters(req.args) == [] ==>
            Translate(db, req).recordsFiltered == Translate(db, req).recordsTotal
  {
    JoinSize(db.pets, db.owners);
  }

  /** A request with no parameters at all, against a consistent database,
      shows every pet: nothing is filtered and no page size is imposed. */
  lemma EmptyRequestShowsAll(db: Database, draw: Option<int>)
    requires Consistent(db)
    ensures var r := Translate(db, Request(map[], None, None, draw));
      r.recordsFiltered == r.recordsTotal == |r.data| == |db.pets|
  {
    ConsistentCounts(db, Request(map[], None, None, draw));
  }

  /** The page: record `k` is the record of ordered row `Offset(start) + k`,
      there are `length` of them when that many remain, and none when the
      offset is past the last filtered row. */
  lemma ResponsePage(db: Database, req: Request)
    ensures var r := Translate(db, req); var rows := Ordered(db, req.args);
      && (forall k :: 0 <= k < |r.data| ==>
            Offset(req.start) + k < |rows| && r.data[k] == RowRecord(rows[Offset(req.start) + k]))
      && (Offset(req.start) >= |rows| ==> r.data == [])
      && (req.length.Some? && 0 <= req.length.value && Offset(req.start) + req.length.value <= |rows| ==>
            |r.data| == req.length.value)
      && (req.length.None? ==> |r.data| == Remaining(rows, req.start))
  {
  }

  /** The pet's half of a record, with its keys written out. */
  lemma PetRecord(pet: Pet)
    ensures PetToDict(pet, "pet_") == map["pet_name" := Str(pet.name), "pet_type" := Str(pet.species), "pet_age" := Int(pet.age)]
  {
    assert "pet_" + "name" == "pet_name" && "pet_" + "type" == "pet_type" && "pet_" + "age" == "pet_age";
  }

  /** The owner's half of a record, with its keys written out. */
  lemma OwnerRecord(owner: Owner)
    ensures OwnerToDict(owner, "owner_") == map["owner_name" := Str(owner.name), "owner_email" := Str(owner.email)]
  {
    assert "owner_" + "name" == "owner_name" && "owner_" + "email" == "owner_email";
  }

  /** A row's record, with its five keys written out. */
  lemma RowRecordLiteral(row: Row)
    ensures RowRecord(row) == map[
      "pet_name" := Str(row.pet.name), "pet_type" := Str(row.pet.species), "pet_age" := Int(row.pet.age),
      "owner_name" := Str(row.owner.name), "owner_email" := Str(row.owner.email)]
  {
    MergePair(PetToDict(row.pet, "pet_"), OwnerToDict(row.owner, "owner_"));
    PetRecord(row.pet);
    OwnerRecord(row.owner);
  }

  /** Merging two dictionaries is updating the first with the second. */
  lemma MergePair(first: map<string, Value>, second: map<string, Value>)
    ensures MergeAll([first, second]) == first + second
  {
    assert MergeAll([first]) == first by {
      assert [first][..0] == [];
    }
    assert [first, second][..1] == [first];
  }

  /** A pet's record holds exactly the five names of the grid's columns, and
      under each name the value of the column that name searches and sorts
      on: what is shown is what is searched. */
  lemma RecordShape(row: Row)
    ensures forall n :: n in RowRecord(row) <==> n in Catalog
    ensures forall n :: n in Catalog ==> RowRecord(row)[n] == ValueAt(row, Catalog[n])
  {
    RowRecordLiteral(row);
    forall n | n in Catalog
      ensures RowRecord(row)[n] == ValueAt(row, Catalog[n])
    {
      assert n in Catalog.Keys;
      assert n == "pet_name" || n == "pet_age" || n == "pet_type" || n == "owner_name" || n == "owner_email";
    }
  }
}
