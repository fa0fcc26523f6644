/** What the database does with the query `data()` builds: keep the
    rows a filter accepts (`query.filter`), order them by a composite key
    (`query.order_by`), and cut out one page (`query.offset(...).limit(...)`). */
module Query {
  import opened Options
  import opened Strings
  import opened Tables

  /** `column.like('%text%')`, one predicate of the per-column search. */
  datatype ColumnFilter = ColumnFilter(column: Column, text: string)

  /** One `order_by` term: the column, and whether `.desc()` was applied. */
  datatype SortTerm = SortTerm(column: Column, descending: bool)

  /** A condition handed to `query.filter`. */
  datatype Condition =
    | AnyContains(text: string)          // the global search: an OR over four columns
    | AllOf(filters: seq<ColumnFilter>)  // the column searches: an AND

  /** `value LIKE '%text%'`, with `LIKE` read as a plain substring test. An
      integer is matched through its decimal text; NULL matches nothing. */
  predicate Like(v: Value, text: string)
    ensures Like(v, text) ==> v != Null
    ensures text == "" ==> (Like(v, text) <==> v != Null)
  {
    match v
    case Null => false
    case Int(i) => ContainsEmpty(IntToString(i)); Contains(IntToString(i), text)
    case Str(s) => ContainsEmpty(s); Contains(s, text)
  }

  /** The global search: owner name, owner email, pet name or pet type. */
  predicate MatchesGlobal(row: Row, text: string)
    ensures text == "" ==> MatchesGlobal(row, text)
  {
    || Like(ValueAt(row, OwnerName), text)
    || Like(ValueAt(row, OwnerEmail), text)
    || Like(ValueAt(row, PetName), text)
    || Like(ValueAt(row, PetType), text)
  }

  predicate MatchesFilter(row: Row, f: ColumnFilter) {
    Like(ValueAt(row, f.column), f.text)
  }

  predicate Holds(row: Row, cond: Condition) {
    match cond
    case AnyContains(text) => MatchesGlobal(row, text)
    case AllOf(filters) => forall f :: f in filters ==> MatchesFilter(row, f)
  }

  /** `query.filter(cond)`: the rows that satisfy the condition, in their order. */
  function Select(rows: seq<Row>, cond: Condition): (r: seq<Row>)
    ensures |r| <= |rows|
    ensures forall x :: x in r <==> x in rows && Holds(x, cond)
  {
    if rows == [] then []
    else (if Holds(rows[0], cond) then [rows[0]] else []) + Select(rows[1..], cond)
  }

  /** Filtering keeps every row that satisfies the condition exactly as often
      as it occurs, and drops every other row: `query.count()` after a
      filter counts the matching rows of the join, duplicates included. */
  lemma {:induction false} SelectCounts(rows: seq<Row>, cond: Condition, x: Row)
    ensures multiset(Select(rows, cond))[x] == if Holds(x, cond) then multiset(rows)[x] else 0
  {
    if rows != [] {
      SelectCounts(rows[1..], cond, x);
      assert rows == [rows[0]] + rows[1..];
    }
  }

  /** A first row that satisfies the condition is kept in front of the rest. */
  lemma SelectKeepsHead(x: Row, rest: seq<Row>, cond: Condition)
    requires Holds(x, cond)
    ensures Select([x] + rest, cond) == [x] + Select(rest, cond)
  {
    assert ([x] + rest)[0] == x && ([x] + rest)[1..] == rest;
  }

  /** A first row that fails the condition is dropped. */
  lemma SelectDropsHead(x: Row, rest: seq<Row>, cond: Condition)
    requires !Holds(x, cond)
    ensures Select([x] + rest, cond) == Select(rest, cond)
  {
    assert ([x] + rest)[0] == x && ([x] + rest)[1..] == rest;
  }

  /** Concatenation of row sequences associates. */
  lemma AppendAssociates(p: seq<Row>, q: seq<Row>, r: seq<Row>)
    ensures p + (q + r) == (p + q) + r
  {
  }

  /** Filtering keeps the rows' order: filtering two runs one after the
      other is filtering each and putting the results one after the other. */
  lemma {:induction false} SelectAppend(a: seq<Row>, b: seq<Row>, cond: Condition)
    ensures Select(a + b, cond) == Select(a, cond) + Select(b, cond)
  {
    if a == [] {
      assert a + b == b;
    } else {
      var x, rest := a[0], a[1..];
      assert a + b == [x] + (rest + b) && a == [x] + rest;
      SelectAppend(rest, b, cond);
      if Holds(x, cond) {
        SelectKeepsHead(x, rest + b, cond);
        SelectKeepsHead(x, rest, cond);
        AppendAssociates([x], Select(rest, cond), Select(b, cond));
      } else {
        SelectDropsHead(x, rest + b, cond);
        SelectDropsHead(x, rest, cond);
      }
    }
  }

  /** The global search matches a row exactly when one of the four text
      columns of the grid matches it as a column search would: the pet's age
      is never searched globally. */
  lemma GlobalIsColumnDisjunction(row: Row, text: string)
    ensures MatchesGlobal(row, text) <==>
            exists c :: c in [PetName, PetType, OwnerName, OwnerEmail] && MatchesFilter(row, ColumnFilter(c, text))
  {
    var shown := [PetName, PetType, OwnerName, OwnerEmail];
    assert shown[0] == PetName && shown[1] == PetType && shown[2] == OwnerName && shown[3] == OwnerEmail;
    if MatchesGlobal(row, text) {
      if MatchesFilter(row, ColumnFilter(OwnerName, text)) {
        assert OwnerName in shown;
      } else if MatchesFilter(row, ColumnFilter(OwnerEmail, text)) {
        assert OwnerEmail in shown;
      } else if MatchesFilter(row, ColumnFilter(PetName, text)) {
        assert PetName in shown;
      } else {
        assert PetType in shown;
      }
    }
  }

  /** The global search does not look at the pet's age. */
  lemma GlobalIgnoresAge(row: Row, text: string, age: int)
    ensures MatchesGlobal(row.(pet := row.pet.(age := age)), text) == MatchesGlobal(row, text)
  {
  }

  // ----- ordering -----

  /** The database's order on values: NULL, then integers, then text. */
  function CompareValues(a: Value, b: Value): Ordering {
    match (a, b)
    case (Null, Null) => Equal
    case (Null, _) => Less
    case (_, Null) => Greater
    case (Int(x), Int(y)) => if x < y then Less else if y < x then Greater else Equal
    case (Int(_), Str(_)) => Less
    case (Str(_), Int(_)) => Greater
    case (Str(x), Str(y)) => CompareStrings(x, y)
  }

  /** One `order_by` term: `.desc()` reverses the column's order. */
  function CompareOn(x: Row, y: Row, t: SortTerm): Ordering {
    var o := CompareValues(ValueAt(x, t.column), ValueAt(y, t.column));
    if t.descending then o.Flip() else o
  }

  /** `order_by(*terms)`: the first term decides, later terms break its ties. */
  function CompareRows(x: Row, y: Row, terms: seq<SortTerm>): Ordering {
    if terms == [] then Equal
    else
      var o := CompareOn(x, y, terms[0]);
      if o == Equal then CompareRows(x, y, terms[1..]) else o
  }

  predicate Sorted(rows: seq<Row>, terms: seq<SortTerm>) {
    forall i, j :: 0 <= i < j < |rows| ==> CompareRows(rows[i], rows[j], terms) != Greater
  }

  lemma CompareValuesFlip(a: Value, b: Value)
    ensures CompareValues(b, a) == CompareValues(a, b).Flip()
  {
    if a.Str? && b.Str? {
      CompareStringsFlip(a.s, b.s);
    }
  }

  lemma CompareValuesEqual(a: Value, b: Value)
    ensures CompareValues(a, b) == Equal <==> a == b
  {
    if a.Str? && b.Str? {
      CompareStringsEqual(a.s, b.s);
    }
  }

  lemma CompareValuesTransitive(a: Value, b: Value, c: Value)
    requires CompareValues(a, b) != Greater && CompareValues(b, c) != Greater
    ensures CompareValues(a, c) != Greater
  {
    if a.Str? && b.Str? && c.Str? {
      CompareStringsTransitive(a.s, b.s, c.s);
    }
  }

  /** Comparing the other way round gives the flipped outcome. */
  lemma {:induction false} CompareRowsFlip(x: Row, y: Row, terms: seq<SortTerm>)
    ensures CompareRows(y, x, terms) == CompareRows(x, y, terms).Flip()
  {
    if terms != [] {
      var c := terms[0].column;
      CompareValuesFlip(ValueAt(x, c), ValueAt(y, c));
      CompareRowsFlip(x, y, terms[1..]);
    }
  }

  /** The composite order is transitive, so sorting by it is meaningful. */
  lemma {:induction false} CompareRowsTransitive(x: Row, y: Row, z: Row, terms: seq<SortTerm>)
    requires CompareRows(x, y, terms) != Greater && CompareRows(y, z, terms) != Greater
    ensures CompareRows(x, z, terms) != Greater
  {
    if terms != [] {
      var t := terms[0];
      var a, b, c := ValueAt(x, t.column), ValueAt(y, t.column), ValueAt(z, t.column);
      CompareValuesEqual(a, b);
      CompareValuesEqual(b, c);
      CompareValuesEqual(a, c);
      CompareValuesFlip(a, b);
      CompareValuesFlip(b, c);
      CompareValuesFlip(a, c);
      if t.descending {
        if CompareValues(c, b) != Greater && CompareValues(b, a) != Greater {
          CompareValuesTransitive(c, b, a);
        }
      } else {
        if CompareValues(a, b) != Greater && CompareValues(b, c) != Greater {
          CompareValuesTransitive(a, b, c);
        }
      }
      if CompareOn(x, y, t) == Equal && CompareOn(y, z, t) == Equal {
        CompareRowsTransitive(x, y, z, terms[1..]);
      }
    }
  }

  /** Places `x` before the first row it does not come after; rows that
      compare equal keep their relative order. */
  function Insert(x: Row, rows: seq<Row>, terms: seq<SortTerm>): (r: seq<Row>)
    ensures |r| == |rows| + 1
  {
    if rows == [] then [x]
    else if CompareRows(x, rows[0], terms) != Greater then [x] + rows
    else [rows[0]] + Insert(x, rows[1..], terms)
  }

  /** `query.order_by(*terms)` on the rows, by insertion. Rows that tie on
      every term are left in the order they came in. */
  function SortRows(rows: seq<Row>, terms: seq<SortTerm>): (r: seq<Row>)
    ensures |r| == |rows|
  {
    if rows == [] then [] else Insert(rows[0], SortRows(rows[1..], terms), terms)
  }

  lemma {:induction false} InsertPermutes(x: Row, rows: seq<Row>, terms: seq<SortTerm>)
    ensures multiset(Insert(x, rows, terms)) == multiset(rows) + multiset{x}
  {
    if rows != [] && CompareRows(x, rows[0], terms) == Greater {
      InsertPermutes(x, rows[1..], terms);
      assert rows == [rows[0]] + rows[1..];
    }
  }

  lemma {:induction false} InsertSorted(x: Row, rows: seq<Row>, terms: seq<SortTerm>)
    requires Sorted(rows, terms)
    ensures Sorted(Insert(x, rows, terms), terms)
  {
    var r := Insert(x, rows, terms);
    if rows == [] {
    } else if CompareRows(x, rows[0], terms) != Greater {
      forall j | 1 <= j < |r| ensures CompareRows(x, r[j], terms) != Greater {
        if j > 1 {
          assert r[j] == rows[j - 1];
          CompareRowsTransitive(x, rows[0], r[j], terms);
        }
      }
    } else {
      var rest := Insert(x, rows[1..], terms);
      InsertSorted(x, rows[1..], terms);
      InsertPermutes(x, rows[1..], terms);
      CompareRowsFlip(x, rows[0], terms);
      forall j | 0 <= j < |rest| ensures CompareRows(rows[0], rest[j], terms) != Greater {
        assert rest[j] in multiset(rest);
        if rest[j] != x {
          assert rest[j] in multiset(rows[1..]);
          var k :| 0 <= k < |rows[1..]| && rows[1..][k] == rest[j];
          assert rows[k + 1] == rest[j];
        }
      }
    }
  }

  /** Sorting keeps every row exactly as often as it was there and puts
      them in the order of the composite key. */
  lemma {:induction false} SortRowsCorrect(rows: seq<Row>, terms: seq<SortTerm>)
    ensures multiset(SortRows(rows, terms)) == multiset(rows)
    ensures Sorted(SortRows(rows, terms), terms)
  {
    if rows != [] {
      SortRowsCorrect(rows[1..], terms);
      InsertPermutes(rows[0], SortRows(rows[1..], terms), terms);
      InsertSorted(rows[0], SortRows(rows[1..], terms), terms);
      assert rows == [rows[0]] + rows[1..];
    }
  }

  /** Without sort terms no order is applied: the rows stay as they are. */
  lemma {:induction false} SortRowsNoTerms(rows: seq<Row>)
    ensures SortRows(rows, []) == rows
  {
    if rows != [] {
      SortRowsNoTerms(rows[1..]);
      assert rows == [rows[0]] + rows[1..];
    }
  }

  /** A descending term orders exactly opposite to the ascending one. */
  lemma DescendingReverses(x: Row, y: Row, c: Column)
    ensures CompareOn(x, y, SortTerm(c, true)) == CompareOn(y, x, SortTerm(c, false))
  {
    CompareValuesFlip(ValueAt(x, c), ValueAt(y, c));
  }

  // ----- pagination -----

  /** The rows `OFFSET start` skips: none when `start` is absent, and a
      negative offset counts as zero. */
  function Offset(start: Option<int>): nat {
    if start.Some? && start.value > 0 then start.value else 0
  }

  /** How many rows remain once the first `Offset(start)` are skipped. */
  function Remaining(rows: seq<Row>, start: Option<int>): nat {
    if Offset(start) <= |rows| then |rows| - Offset(start) else 0
  }

  /** `query.offset(start).limit(length)`: the run of rows that begins at
      the offset, cut to `length` when that is given and not negative (an
      absent or negative `length` is no limit), and empty when the offset is
      past the end. */
  function Page(rows: seq<Row>, start: Option<int>, length: Option<int>): (p: seq<Row>)
    ensures |p| == if length.Some? && 0 <= length.value < Remaining(rows, start) then length.value else Remaining(rows, start)
    ensures forall k :: 0 <= k < |p| ==> Offset(start) + k < |rows| && p[k] == rows[Offset(start) + k]
  {
    var s := Offset(start);
    var rest := if s <= |rows| then rows[s..] else [];
    if length.Some? && 0 <= length.value < |rest| then rest[..length.value] else rest
  }
}
