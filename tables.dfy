/** The two tables of the demo database (`Owner`, `Pet`), the values their
    columns hold, the join of every pet to its owner, and the dictionaries
    `Owner.to_dict` and `Pet.to_dict` make of a row. */
module Tables {
  import opened Options
  import opened Strings

  /** A row of the `owner` table. Only `name` and `email` are ever shown in the grid. */
  datatype Owner = Owner(id: int, name: string, age: int, address: string, phone: string, email: string)

  /** A row of the `pet` table; `ownerId` is the nullable foreign key `id_owner`
      and `species` is the column `Pet.type`. */
  datatype Pet = Pet(id: int, ownerId: Option<int>, name: string, species: string, age: int)

  /** What a column holds, and what a record of the response maps its keys to. */
  datatype Value = Null | Int(i: int) | Str(s: string)

  /** Every mapped column of the two models: what `getattr(Pet, x)` or
      `getattr(Owner, x)` can return for a column attribute `x`. */
  datatype Column =
    | PetId | PetOwnerId | PetName | PetType | PetAge
    | OwnerId | OwnerName | OwnerAge | OwnerAddress | OwnerPhone | OwnerEmail

  /** One row of `Pet.query.join(Owner)`: a pet next to its owner. */
  datatype Row = Row(pet: Pet, owner: Owner)

  /** The whole database as the `/api/data` handler sees it. */
  datatype Database = Database(owners: seq<Owner>, pets: seq<Pet>)

  /** `getattr(Pet, attr)` restricted to the mapped columns. */
  function PetAttribute(attr: string): Option<Column> {
    if attr == "id" then Some(PetId)
    else if attr == "id_owner" then Some(PetOwnerId)
    else if attr == "name" then Some(PetName)
    else if attr == "type" then Some(PetType)
    else if attr == "age" then Some(PetAge)
    else None
  }

  /** `getattr(Owner, attr)` restricted to the mapped columns. */
  function OwnerAttribute(attr: string): Option<Column> {
    if attr == "id" then Some(OwnerId)
    else if attr == "name" then Some(OwnerName)
    else if attr == "age" then Some(OwnerAge)
    else if attr == "address" then Some(OwnerAddress)
    else if attr == "phone" then Some(OwnerPhone)
    else if attr == "email" then Some(OwnerEmail)
    else None
  }

  /** The value of column `c` in a joined row. */
  function ValueAt(row: Row, c: Column): Value {
    match c
    case PetId => Int(row.pet.id)
    case PetOwnerId => if row.pet.ownerId.Some? then Int(row.pet.ownerId.value) else Null
    case PetName => Str(row.pet.name)
    case PetType => Str(row.pet.species)
    case PetAge => Int(row.pet.age)
    case OwnerId => Int(row.owner.id)
    case OwnerName => Str(row.owner.name)
    case OwnerAge => Int(row.owner.age)
    case OwnerAddress => Str(row.owner.address)
    case OwnerPhone => Str(row.owner.phone)
    case OwnerEmail => Str(row.owner.email)
  }

  /** The owners whose primary key is the pet's foreign key: the rows the join pairs it with. */
  function OwnersOf(pet: Pet, owners: seq<Owner>): (r: seq<Owner>)
    ensures forall o :: o in r <==> o in owners && pet.ownerId == Some(o.id)
  {
    if owners == [] then []
    else (if pet.ownerId == Some(owners[0].id) then [owners[0]] else []) + OwnersOf(pet, owners[1..])
  }

  /** The inner join `Pet.query.join(Owner)`, pet by pet. */
  function JoinRows(pets: seq<Pet>, owners: seq<Owner>): (r: seq<Row>)
    ensures forall row :: row in r ==> row.pet in pets && row.owner in owners && row.pet.ownerId == Some(row.owner.id)
  {
    if pets == [] then []
    else PairWith(pets[0], OwnersOf(pets[0], owners)) + JoinRows(pets[1..], owners)
  }

  function PairWith(pet: Pet, owners: seq<Owner>): (r: seq<Row>)
    ensures |r| == |owners|
    ensures forall k :: 0 <= k < |r| ==> r[k] == Row(pet, owners[k])
  {
    if owners == [] then [] else [Row(pet, owners[0])] + PairWith(pet, owners[1..])
  }

  function Join(db: Database): seq<Row> {
    JoinRows(db.pets, db.owners)
  }

  /** A row is in the join exactly when its pet is in the table and its owner
      is an owner whose id is that pet's foreign key. */
  lemma {:induction false} JoinMembership(pets: seq<Pet>, owners: seq<Owner>, row: Row)
    ensures row in JoinRows(pets, owners) <==>
            row.pet in pets && row.owner in owners && row.pet.ownerId == Some(row.owner.id)
  {
    if pets != [] {
      JoinMembership(pets[1..], owners, row);
      var head := PairWith(pets[0], OwnersOf(pets[0], owners));
      assert row in head <==> row.pet == pets[0] && row.owner in OwnersOf(pets[0], owners) by {
        if row in head {
          var k :| 0 <= k < |head| && head[k] == row;
        }
        if row.pet == pets[0] && row.owner in OwnersOf(pets[0], owners) {
          var k :| 0 <= k < |OwnersOf(pets[0], owners)| && OwnersOf(pets[0], owners)[k] == row.owner;
          assert head[k] == row;
        }
      }
      assert pets == [pets[0]] + pets[1..];
    }
  }

  /** Owner ids are a primary key, and every pet's foreign key names an owner. */
  predicate Consistent(db: Database) {
    && (forall j, k :: 0 <= j < k < |db.owners| ==> db.owners[j].id != db.owners[k].id)
    && (forall p :: p in db.pets ==> p.ownerId.Some? && exists o :: o in db.owners && o.id == p.ownerId.value)
  }

  lemma {:induction false} OwnersOfNone(pet: Pet, owners: seq<Owner>)
    requires forall o :: o in owners ==> pet.ownerId != Some(o.id)
    ensures OwnersOf(pet, owners) == []
  {
    if owners != [] {
      OwnersOfNone(pet, owners[1..]);
    }
  }

  /** With unique owner ids each pet joins at most one owner. */
  lemma {:induction false} OwnersOfAtMostOne(pet: Pet, owners: seq<Owner>)
    requires forall j, k :: 0 <= j < k < |owners| ==> owners[j].id != owners[k].id
    ensures |OwnersOf(pet, owners)| <= 1
    ensures (exists o :: o in owners && pet.ownerId == Some(o.id)) ==> |OwnersOf(pet, owners)| == 1
  {
    if owners != [] {
      OwnersOfAtMostOne(pet, owners[1..]);
      if pet.ownerId == Some(owners[0].id) {
        forall o | o in owners[1..]
          ensures pet.ownerId != Some(o.id)
        {
          var k :| 0 <= k < |owners[1..]| && owners[1..][k] == o;
          assert owners[k + 1] == o;
        }
        OwnersOfNone(pet, owners[1..]);
      } else {
        assert forall o :: o in owners && pet.ownerId == Some(o.id) ==> o in owners[1..];
      }
    }
  }

  /** The join never has more rows than the pet table, and exactly as many
      when the database is consistent. */
  lemma {:induction false} JoinSize(pets: seq<Pet>, owners: seq<Owner>)
    requires forall j, k :: 0 <= j < k < |owners| ==> owners[j].id != owners[k].id
    ensures |JoinRows(pets, owners)| <= |pets|
    ensures (forall p :: p in pets ==> p.ownerId.Some? && exists o :: o in owners && o.id == p.ownerId.value)
            ==> |JoinRows(pets, owners)| == |pets|
  {
    if pets != [] {
      OwnersOfAtMostOne(pets[0], owners);
      JoinSize(pets[1..], owners);
    }
  }

  /** `Pet.to_dict(prefix)`: name, type and age under prefixed keys, three
      distinct keys whatever the prefix. */
  function PetToDict(pet: Pet, prefix: string): (r: map<string, Value>)
    ensures |r| == 3
  {
    PrefixCancels(prefix, "name", "type");
    map[prefix + "name" := Str(pet.name), prefix + "type" := Str(pet.species), prefix + "age" := Int(pet.age)]
  }

  /** `Owner.to_dict(prefix)`: name and email under prefixed keys, two
      distinct keys whatever the prefix. */
  function OwnerToDict(owner: Owner, prefix: string): (r: map<string, Value>)
    ensures |r| == 2
  {
    map[prefix + "name" := Str(owner.name), prefix + "email" := Str(owner.email)]
  }

  /** Two keys with the same prefix are equal exactly when their rests are. */
  lemma PrefixCancels(prefix: string, a: string, b: string)
    ensures prefix + a == prefix + b <==> a == b
  {
    if prefix + a == prefix + b {
      assert a == (prefix + a)[|prefix|..];
      assert b == (prefix + b)[|prefix|..];
    }
  }

  /** Whatever the prefix, `Pet.to_dict` has a key `prefix + a` exactly for
      the attributes `name`, `type` and `age`, and holds under it the value
      `getattr(Pet, a)` reads from the row. */
  lemma PetToDictGetattr(row: Row, prefix: string, a: string)
    ensures prefix + a in PetToDict(row.pet, prefix) <==> a in ["name", "type", "age"]
    ensures prefix + a in PetToDict(row.pet, prefix) ==>
              PetAttribute(a).Some? && PetToDict(row.pet, prefix)[prefix + a] == ValueAt(row, PetAttribute(a).value)
  {
    PrefixCancels(prefix, a, "name");
    PrefixCancels(prefix, a, "type");
    PrefixCancels(prefix, a, "age");
  }

  /** Whatever the prefix, `Owner.to_dict` has a key `prefix + a` exactly for
      the attributes `name` and `email`, and holds under it the value
      `getattr(Owner, a)` reads from the row. */
  lemma OwnerToDictGetattr(row: Row, prefix: string, a: string)
    ensures prefix + a in OwnerToDict(row.owner, prefix) <==> a in ["name", "email"]
    ensures prefix + a in OwnerToDict(row.owner, prefix) ==>
              OwnerAttribute(a).Some? && OwnerToDict(row.owner, prefix)[prefix + a] == ValueAt(row, OwnerAttribute(a).value)
  {
    PrefixCancels(prefix, a, "name");
    PrefixCancels(prefix, a, "email");
  }
}
