# Server-side DataTables grid over a pet/owner join

This project models the `/api/data` endpoint of the Flask demo in `demo.py`.
The endpoint answers the DataTables server-side protocol for a grid of pets
joined to their owners. Given the flat request arguments (`search[value]`,
`columns[i][data]`, `columns[i][search][value]`, `order[i][column]`,
`order[i][dir]`, `start`, `length`, `draw`), `data()`:

1. joins every pet to its owner;
2. keeps the rows the global search matches in owner name, owner email, pet
   name or pet type;
3. scans `columns[0..]` until the first absent search value and ANDs one
   substring predicate per non-empty value;
4. scans `order[0..]` until the first absent column and builds a composite
   sort key;
5. cuts out the page `start`/`length`;
6. turns each row into one flat record with `pet_`/`owner_` prefixed keys,
   merged by `merge_dicts`.

The database is replaced by plain values: the two tables are sequences of
`Owner` and `Pet` rows, a filter is a `Select` over a sequence, `ORDER BY` is
a sort by a composite comparison, and `OFFSET`/`LIMIT` is a slice.

Modules:

- `Strings`: decimal rendering of indices, substring test, string order.
- `Tables`: the rows, the join, `getattr` on the two models, and `to_dict`.
- `Query`: what the database does with the query: filtering, ordering and
  pagination.
- `Dicts`: `merge_dicts`.
- `Params`: the request arguments, the column-name allow-list, and the two
  index scans as functions.
- `Grid`: `data()` itself. `Translate` states the response as one value.
  `Data` and its loops (`ColumnSearch`, `SortOrder`, `ShapeRows`) compute it
  statement by statement.
- `Properties`: what the response promises.
- `Scenario`: a worked two-pet request.

The allow-list maps names to columns through an explicit table (`Catalog`).
`Grid.ResolveColumn` does what the handler does: the allow-list check, then
prefix stripping and `getattr`. It is proved to agree with the table.

## Model

| member | source | states |
|---|---|---|
| Grid.Data | demo.py:94-243 | The handler's statements produce exactly `Translate(db, req)`. That value is the page of the filtered, ordered join, with `recordsFiltered` recomputed only when a column predicate exists, `recordsTotal` the pet count, and `draw` echoed. |
| Grid.ColumnSearch | demo.py:120-167 | The `while True` column-search loop returns exactly `ColumnFilters(args)`: the scan from index 0 to the first absent `columns[i][search][value]`. |
| Grid.SearchStep | demo.py:124-166 | One iteration at a present index `i` keeps the loop invariant. A non-empty text appends exactly the predicate of index `i` (its text on the column `columns[i][data]` resolves to). An empty text appends nothing. |
| Grid.SortOrder | demo.py:182-209 | The `while True` sort loop returns exactly `SortTerms(args)`: one term per position up to the first absent `order[i][column]`. |
| Grid.SortStep | demo.py:185-208 | One iteration at a present position `i` appends exactly the term of position `i` (the column `columns[c][data]` names, descending iff `order[i][dir]` is `desc`) and keeps the loop invariant. |
| Grid.RowRecord | demo.py:228-230 | One record per row: the pet's dictionary with prefix `pet_` merged with the owner's with prefix `owner_`. Its keys and values are stated by Properties.RecordShape. |
| Grid.ResolveColumn | demo.py:131-159 | Coercing to the allow-list, stripping `pet_` and calling `getattr(Pet, ..)`, then stripping `owner_` and calling `getattr(Owner, ..)`, always selects a column. That column is the table's entry for the name, or `pet_name` for any other or absent name. |
| Grid.ShapeRows | demo.py:226-231 | The row-shaping loop yields one record per row, in order. Record `k` is the merge of row `k`'s pet and owner dictionaries. |
| Params.PrefixConvention | demo.py:148-159 | Each allowed name either starts with `pet_`, and its rest is a `Pet` attribute that does not start with `owner_`, or it starts with `owner_`, and its rest is an `Owner` attribute. Either way the attribute is the table's column. |
| Params.GlobalSearch | demo.py:105-106 | The global search is present iff `search[value]` is given and non-empty, and it is then that text. |
| Params.ResolveDisplayed | demo.py:136-137 | Whatever the request says, the resolved column is one of the five displayed columns. It is never an id, an owner's age, an address or a phone number. |
| Params.ColumnFiltersSpec | demo.py:120-167 | A predicate is collected iff it comes from an index `j` such that every index `0..j` has a search argument and index `j`'s text is non-empty. So an empty text does not stop the scan, and the first absent index does. |
| Params.SortTermsSpec | demo.py:182-209 | Term `j` of the key comes from position `j`, so position 0 is the primary key. Its column is the one `columns[c][data]` names. It is descending iff `order[j][dir] == 'desc'`. The key ends exactly at the first absent `order[i][column]`. |
| Query.Select | demo.py:106-112 | Filtering keeps exactly the rows that satisfy the condition and never adds rows. |
| Query.SelectCounts | demo.py:106-113 | Filtering keeps every copy of a row that satisfies the condition and no copy of one that does not: its multiset is the input's restricted to the condition. |
| Query.SelectAppend | demo.py:106-112 | Filtering distributes over concatenation, so the kept rows stay in their input order. |
| Query.Like | demo.py:107-112 | `LIKE '%text%'` never matches NULL. An empty text matches every non-NULL value. |
| Query.MatchesGlobal | demo.py:107-112 | The global search for an empty text matches every row. |
| Query.GlobalIsColumnDisjunction | demo.py:107-112 | The global search matches a row iff a column search for the same text on one of pet name, pet type, owner name or owner email would. |
| Query.GlobalIgnoresAge | demo.py:107-112 | Changing a pet's age never changes whether the global search matches its row. |
| Query.CompareRowsFlip | demo.py:210-211 | The composite sort order is antisymmetric: comparing the other way round flips the outcome. |
| Query.CompareRowsTransitive | demo.py:210-211 | The composite sort order is transitive, for any mix of ascending and descending terms. |
| Query.SortRowsCorrect | demo.py:210-211 | Ordering returns a permutation of its input (same multiset), sorted by the composite key. |
| Query.SortRowsNoTerms | demo.py:210-211 | With no sort term, the rows keep their order. |
| Query.SortRows | demo.py:210-211 | Ordering neither adds nor drops rows: the result has the input's length (the permutation is Query.SortRowsCorrect). |
| Query.DescendingReverses | demo.py:206-207 | A `.desc()` term orders two rows exactly as the ascending term orders them swapped. |
| Query.Page | demo.py:215-217 | The page is the run of rows that starts at the offset. Its length is `length` when that many rows remain, and otherwise all remaining rows. It is empty past the end. An absent or negative `start` counts as 0, and an absent or negative `length` imposes no limit. |
| Tables.JoinRows | demo.py:100 | Every joined row pairs a pet of the pet table with an owner of the owner table whose id is the pet's foreign key. |
| Tables.OwnersOf | demo.py:100 | A pet is paired with exactly the owners whose id is its foreign key. |
| Tables.JoinMembership | demo.py:100 | A row is in the join iff its pet is in the pet table, its owner is in the owner table, and the pet's foreign key is the owner's id. |
| Tables.JoinSize | demo.py:100 | With unique owner ids, the join has at most one row per pet. It has exactly one per pet when every pet's owner exists. |
| Tables.PetToDictGetattr | demo.py:56-77 | For any prefix, `Pet.to_dict(prefix)` has key `prefix + a` iff `a` is `name`, `type` or `age`. Under that key it holds the value `getattr(Pet, a)` reads. |
| Tables.PetToDict | demo.py:73-77 | `Pet.to_dict(prefix)` has three distinct keys whatever the prefix. |
| Tables.OwnerToDict | demo.py:41-44 | `Owner.to_dict(prefix)` has two distinct keys whatever the prefix. |
| Tables.OwnerToDictGetattr | demo.py:30-44 | For any prefix, `Owner.to_dict(prefix)` has key `prefix + a` iff `a` is `name` or `email`. Under that key it holds the value `getattr(Owner, a)` reads. |
| Dicts.MergeDicts | demo.py:246-255 | The `update` loop returns a dictionary whose keys are the union of the arguments' keys. On a shared key, the last dictionary holding it wins. The arguments are values and stay unchanged. |
| Dicts.MergeAllKeys | demo.py:252-255 | A key is in the merge iff some argument holds it. |
| Dicts.MergeAllLastWins | demo.py:250-255 | A key's merged value is the one in the last argument that holds it. |
| Properties.FilteredMembership | demo.py:105-173 | A row counts as filtered iff it is in the join and passes the request: it matches the global search when one is given, and every column predicate (OR within the global search, AND across the rest). |
| Properties.FilteredCounts | demo.py:105-173 | The filtered rows hold each passing join row as often as the join does, and no failing one. |
| Properties.OrderedCorrect | demo.py:182-211 | The ordered rows are a permutation of the filtered rows, sorted by the request's key. They are the filtered rows unchanged when there is no key. |
| Properties.ResponseCounts | demo.py:113-243 | `recordsTotal` is the pet count and `draw` is echoed. `recordsFiltered` counts the filtered rows. `|data| <= recordsFiltered <= |join|`, and the filtered rows are the join's passing rows, counted with multiplicity. |
| Properties.ConsistentCounts | demo.py:238-243 | In a consistent database, `recordsFiltered <= recordsTotal`. The two are equal when the request has no global and no column search. |
| Properties.EmptyRequestShowsAll | demo.py:94-243 | A request without parameters, against a consistent database, returns every pet: no page size is imposed. |
| Properties.ResponsePage | demo.py:215-231 | Record `k` of `data` is the record of ordered row `start + k`. There are `length` records when that many rows remain, and all remaining rows when `length` is absent. There are none when `start` is past the end. |
| Properties.RecordShape | demo.py:226-231 | Each record has exactly the keys `pet_name`, `pet_type`, `pet_age`, `owner_name` and `owner_email`. Under each key it holds the value of the very column that name searches and sorts on. |
| Scenario.SearchForDog | demo.py:105-113 | Rex the dog (owner Alice) and Tom the cat (owner Bob) are in the database. `search[value]=dog` returns only Rex's record, with `recordsFiltered = 1` and `recordsTotal = 2`. |

## Left out

- Flask routing, `render_template`, the `/` and `/getinfo/<email>` handlers and `app.run`. They are web plumbing and template rendering.
- The SQLAlchemy models as ORM objects, `db.create_all()` and the record-count prints at start-up. They are persistence and I/O. The tables are modelled as sequences of rows.
- `create_fake_users.py`. It generates random data through Faker and `random`.
- Query.Like: SQL `LIKE` is modelled as a case-sensitive substring test. SQLite's ASCII case-insensitivity is not modelled. Nor are `%` and `_` in the user's text acting as wildcards (the text is not escaped). Both belong to the database.
- Query.SortRows: nothing is claimed about the order of rows that tie on every sort term, since the database does not promise one. Strings are compared by character code, as SQLite's default binary collation does. The model puts NULL before numbers and numbers before text.
- Grid.Translate: when there is no `ORDER BY`, the row order is taken to be the join's pet-by-pet order. The database does not promise that order either.
- Text columns are never NULL in the model, which has no NULL strings. Only the pet's foreign key may be absent. A pet with no owner, or with a dangling key, drops out of the inner join but still counts in `recordsTotal`.
- Grid.Request: `start`, `length` and `draw` arrive already parsed. `request.args.get(..., type=int)` yields nothing for text that is not an integer, and that parsing is not modelled.
- Query.Page: an explicit `length=0` gives an empty page, and a negative `length` (DataTables sends `-1` for "all") imposes no limit, as in SQLite. No default page size exists in the handler, so the model has none.
- Grid.ResolveColumn: the table has an entry for every allowed name, so `getattr` never fails and the `col` of an earlier iteration is never reused. The model therefore has no error path.
- `request.args` is a map from each argument name to one value. Repeated arguments are not modelled.
