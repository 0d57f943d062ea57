/** The user store behind the auth service: records with a unique email, looked up
    by id or by email, and inserted with a salted password hash. */
module Users {
  import opened Common
  import opened Decimal

  /** A stored user; `password` holds the bcrypt hash, never the plaintext. */
  datatype User = User(id: string, email: string, password: string, salt: string)

  /** The identity other services receive: id and email, no secrets. */
  datatype Identity = Identity(id: string, email: string)

  function IdentityOf(u: User): (i: Identity)
    ensures i.id == u.id && i.email == u.email
  {
    Identity(u.id, u.email)
  }

  /** The id the database gives the record inserted at `position`. */
  function IdAt(position: nat): string
  {
    "user-" + Digits(position)
  }

  lemma IdAtInjective(i: nat, j: nat)
    ensures IdAt(i) == IdAt(j) ==> i == j
  {
    if IdAt(i) == IdAt(j) {
      assert IdAt(i)[5..] == Digits(i);
      assert IdAt(j)[5..] == Digits(j);
      DigitsInjective(i, j);
    }
  }

  /** What the schema promises of the table: ids (the primary key) and emails (a
      unique key) are each distinct. */
  ghost predicate Unique(rows: seq<User>)
  {
    && (forall i, j :: 0 <= i < j < |rows| ==> rows[i].id != rows[j].id)
    && (forall i, j :: 0 <= i < j < |rows| ==> rows[i].email != rows[j].email)
  }

  /** Every id is the one the generator gave the record's insert position. */
  ghost predicate GeneratedIds(rows: seq<User>)
  {
    forall i :: 0 <= i < |rows| ==> rows[i].id == IdAt(i)
  }

  /** `findOne(id)`: the record with that id, or nothing. */
  function FindOne(rows: seq<User>, id: string): (r: Option<User>)
    ensures r.Some? ==> r.value in rows && r.value.id == id
    ensures r.None? <==> forall u :: u in rows ==> u.id != id
  {
    if rows == [] then None
    else if rows[0].id == id then Some(rows[0])
    else FindOne(rows[1..], id)
  }

  /** `findByEmail(email)`: the record with that email, or nothing. */
  function FindByEmail(rows: seq<User>, email: string): (r: Option<User>)
    ensures r.Some? ==> r.value in rows && r.value.email == email
    ensures r.None? <==> forall u :: u in rows ==> u.email != email
  {
    if rows == [] then None
    else if rows[0].email == email then Some(rows[0])
    else FindByEmail(rows[1..], email)
  }

  /** Generated ids never collide: no two records share an id. */
  lemma IdsUnique(rows: seq<User>, i: nat, j: nat)
    requires GeneratedIds(rows) && i < |rows| && j < |rows| && i != j
    ensures rows[i].id != rows[j].id
  {
    IdAtInjective(i, j);
  }

  /** In a table with unique ids, looking a record up by its id finds that record. */
  lemma {:induction false} FindOneFinds(rows: seq<User>, k: nat)
    requires Unique(rows) && k < |rows|
    ensures FindOne(rows, rows[k].id) == Some(rows[k])
  {
    var r := FindOne(rows, rows[k].id);
    var i :| 0 <= i < |rows| && rows[i] == r.value;
  }

  /** In a table with unique emails, looking a record up by its email finds that record. */
  lemma FindByEmailFinds(rows: seq<User>, k: nat)
    requires Unique(rows) && k < |rows|
    ensures FindByEmail(rows, rows[k].email) == Some(rows[k])
  {
    var r := FindByEmail(rows, rows[k].email);
    var i :| 0 <= i < |rows| && rows[i] == r.value;
  }

  /** The user service over its table. */
  class UserService {
    var rows: seq<User>

    ghost predicate Valid()
      reads this
    {
      GeneratedIds(rows) && Unique(rows)
    }

    constructor ()
      ensures Valid() && rows == []
    {
      rows := [];
    }

    /** `findAll()`: every stored record, in insertion order. */
    function FindAll(): (all: seq<User>)
      reads this
      ensures |all| == |rows|
      ensures forall u :: u in all <==> u in rows
    {
      rows
    }

    /** `create({email, password})` with the salt bcrypt generated and bcrypt's hash. */
    method Create(email: string, password: string, salt: string, hash: (string, string) -> string)
      returns (r: Result<User, HttpError>)
      requires Valid()
      modifies this
      ensures Valid()
      ensures FindByEmail(old(rows), email).Some? ==>
        r == Err(BadRequest("User with this email already exists")) && rows == old(rows)
      ensures FindByEmail(old(rows), email).None? ==>
        && r == Ok(User(IdAt(|old(rows)|), email, hash(password, salt), salt))
        && rows == old(rows) + [r.value]
      ensures r.Ok? ==> FindByEmail(rows, email) == Some(r.value) && FindOne(rows, r.value.id) == Some(r.value)
    {
      var existing := FindByEmail(rows, email);
      if existing.Some? {
        return Err(BadRequest("User with this email already exists"));
      }
      var hashedPassword := hash(password, salt);
      var user := User(IdAt(|rows|), email, hashedPassword, salt);
      rows := rows + [user];
      r := Ok(user);
      forall i | 0 <= i < |rows| - 1
        ensures rows[i].id != user.id
      {
        IdsUnique(rows, i, |rows| - 1);
      }
      FindByEmailFinds(rows, |rows| - 1);
      FindOneFinds(rows, |rows| - 1);
    }
  }
}
