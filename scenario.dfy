/** A worked request against a two-pet database: a global search for `dog`
    finds Alice's dog Rex and not Bob's cat Tom. */
module Scenario {
  import opened Options
  import opened Strings
  import opened Tables
  import opened Query
  import opened Params
  import opened Grid
  import opened Properties

  const Alice := Owner(1, "Alice", 30, "1 Main St", "555-0100", "alice@x.com")
  const Bob := Owner(2, "Bob", 40, "2 Side St", "555-0101", "bob@x.com")
  const Rex := Pet(1, Some(1), "Rex", "dog", 3)
  const Tom := Pet(2, Some(2), "Tom", "cat", 2)
  const Sample := Database([Alice, Bob], [Rex, Tom])

  /** Each pet of the sample is joined with its own owner only. */
  lemma SampleJoin()
    ensures Join(Sample) == [Row(Rex, Alice), Row(Tom, Bob)]
  {
    var owners := [Alice, Bob];
    assert owners[1..] == [Bob] && [Bob][1..] == [];
    assert OwnersOf(Rex, [Bob]) == [];
    assert OwnersOf(Rex, owners) == [Alice];
    assert OwnersOf(Tom, [Bob]) == [Bob];
    assert OwnersOf(Tom, owners) == [Bob];
    assert PairWith(Rex, [Alice]) == [Row(Rex, Alice)];
    assert PairWith(Tom, [Bob]) == [Row(Tom, Bob)];
    assert [Rex, Tom][1..] == [Tom] && [Tom][1..] == [];
    assert JoinRows([Tom], owners) == [Row(Tom, Bob)];
  }

  /** Rex's type is `dog`. */
  lemma RexMatches()
    ensures MatchesGlobal(Row(Rex, Alice), "dog")
  {
    assert OccursAt(Rex.species, "dog", 0);
  }

  /** No searched column of Tom's row has a `d` in it. */
  lemma TomMisses()
    ensures !MatchesGlobal(Row(Tom, Bob), "dog")
  {
    MissingFirstChar(Bob.name, "dog");
    MissingFirstChar(Bob.email, "dog");
    MissingFirstChar(Tom.name, "dog");
    MissingFirstChar(Tom.species, "dog");
  }

  /** Searching the sample's join for `dog` keeps Rex's row alone. */
  lemma SampleSearch()
    ensures Select([Row(Rex, Alice), Row(Tom, Bob)], AnyContains("dog")) == [Row(Rex, Alice)]
  {
    RexMatches();
    TomMisses();
    var rows := [Row(Rex, Alice), Row(Tom, Bob)];
    assert rows[1..] == [Row(Tom, Bob)] && [Row(Tom, Bob)][1..] == [];
  }

  /** A request that carries only a global search has no column search and no sort key. */
  lemma OnlyGlobalSearch(text: string)
    ensures ColumnFilters(map[SearchKey := text]) == []
    ensures SortTerms(map[SearchKey := text]) == []
  {
  }

  /** `search[value]=dog` with no column search, no sort and no paging
      returns only Rex's record, counts one filtered row and two pets. */
  lemma SearchForDog(draw: Option<int>)
    ensures Translate(Sample, Request(map[SearchKey := "dog"], None, None, draw)) ==
            Response.Response(
              [map["pet_name" := Str("Rex"), "pet_type" := Str("dog"), "pet_age" := Int(3),
                   "owner_name" := Str("Alice"), "owner_email" := Str("alice@x.com")]],
              1, 2, draw)
  {
    var args := map[SearchKey := "dog"];
    OnlyGlobalSearch("dog");
    SampleJoin();
    SampleSearch();
    assert Filtered(Sample, args) == [Row(Rex, Alice)];
    assert Ordered(Sample, args) == [Row(Rex, Alice)];
    var page := Page(Ordered(Sample, args), None, None);
    assert page == [Row(Rex, Alice)];
    RowRecordLiteral(page[0]);
  }
}
