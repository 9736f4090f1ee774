/** The `users` table shared by both versions of `create_user` / `get_user`.

    A row is `User { id, discord_id, anilist_username }`; `id` is the
    AUTO_INCREMENT primary key. The table is kept as the sequence of its rows
    in insertion order, which is also ascending `id` order, together with the
    counter that stands for AUTO_INCREMENT. The width of `discord_id` differs
    between the two versions of the code, so it is the type parameter `D`. */
module Schema {

  datatype Option<+T> = None | Some(value: T)

  datatype Result<+T, +E> = Ok(value: T) | Err(error: E)

  /** How a Rust call ends: it returns a value, or `.expect(...)` panics with the message. */
  datatype Completion<+T> = Returned(value: T) | Panicked(message: string)

  /** The two ways a Diesel call fails here: the database reports an error,
      or `first` finds no row. */
  datatype DbError = DatabaseError | NotFound

  /** Which steps of the `create_user` transaction the database fails:
      BEGIN, the insert, the read-back, COMMIT. */
  datatype Faults = Faults(begin: bool, insert: bool, readBack: bool, commit: bool)
  {
    predicate AnyFails() { begin || insert || readBack || commit }

    /** AUTO_INCREMENT values a failed transaction uses up: the insert ran
        exactly when BEGIN and the insert itself succeeded. */
    function IdsConsumed(): nat { if begin || insert then 0 else 1 }
  }

  /** A stored row (the `Queryable` struct `User`). */
  datatype User<D> = User(id: int, discordId: D, anilistUsername: string)

  /** The `Insertable` struct `NewUser`: a row without its generated `id`. */
  datatype NewUser<D> = NewUser(discordId: D, anilistUsername: string)

  /** Row ids strictly increase along the table. */
  ghost predicate IdsAscending<D>(rows: seq<User<D>>)
  {
    forall i, j :: 0 <= i < j < |rows| ==> rows[i].id < rows[j].id
  }

  /** `users.filter(discord_id.eq(d)).load(conn)`: the matching rows, in the
      order the table holds them. */
  function Matching<D(==)>(rows: seq<User<D>>, d: D): (r: seq<User<D>>)
    ensures |r| <= |rows|
    ensures forall u :: u in r ==> u in rows && u.discordId == d
  {
    if rows == [] then []
    else if rows[|rows| - 1].discordId == d then Matching(rows[..|rows| - 1], d) + [rows[|rows| - 1]]
    else Matching(rows[..|rows| - 1], d)
  }

  /** Every stored row with the wanted `discord_id` is loaded. */
  lemma {:induction false} MatchingComplete<D>(rows: seq<User<D>>, d: D, u: User<D>)
    requires u in rows && u.discordId == d
    ensures u in Matching(rows, d)
  {
    var last := rows[|rows| - 1];
    if u != last {
      assert rows == rows[..|rows| - 1] + [last];
      MatchingComplete(rows[..|rows| - 1], d, u);
    }
  }

  /** What `Vec::pop` leaves behind and what it hands back. */
  datatype Popped<T> = Popped(rest: seq<T>, top: Option<T>)

  /** `Vec::pop`: removes and returns the last element, or `None` on an empty vector. */
  function Pop<T>(v: seq<T>): (r: Popped<T>)
    ensures v == [] ==> r == Popped(v, None)
    ensures v != [] ==> r.top.Some? && r.rest + [r.top.value] == v
  {
    if v == [] then Popped(v, None) else Popped(v[..|v| - 1], Some(v[|v| - 1]))
  }

  /** What `get_user` answers: the last loaded row with that `discord_id`, if any. */
  function LastMatch<D(==)>(rows: seq<User<D>>, d: D): (r: Option<User<D>>)
    ensures r.Some? ==> r.value in rows && r.value.discordId == d
  {
    Pop(Matching(rows, d)).top
  }

  /** `get_user` finds nothing exactly when no stored row carries that `discord_id`. */
  lemma LastMatchNoneIff<D>(rows: seq<User<D>>, d: D)
    ensures LastMatch(rows, d).None? <==> forall u :: u in rows ==> u.discordId != d
  {
    if u :| u in rows && u.discordId == d {
      MatchingComplete(rows, d, u);
    }
  }

  /** With ids ascending, the last match is the match with the largest id:
      the most recently created link wins. */
  lemma {:induction false} LastMatchIsNewest<D>(rows: seq<User<D>>, d: D, u: User<D>)
    requires IdsAscending(rows)
    requires u in rows && u.discordId == d
    ensures LastMatch(rows, d).Some? && u.id <= LastMatch(rows, d).value.id
  {
    var n := |rows|;
    var prefix := rows[..n - 1];
    assert rows == prefix + [rows[n - 1]];
    if rows[n - 1].discordId == d {
      var k :| 0 <= k < n && rows[k] == u;
      assert u.id <= rows[n - 1].id;
    } else {
      assert u in prefix;
      LastMatchIsNewest(prefix, d, u);
    }
  }

  /** After appending a row, looking it up by its `discord_id` yields that row;
      a lookup for any other `discord_id` is unaffected. */
  lemma LastMatchAfterAppend<D>(rows: seq<User<D>>, u: User<D>, d: D)
    ensures LastMatch(rows + [u], d) == if u.discordId == d then Some(u) else LastMatch(rows, d)
  {
    assert (rows + [u])[..|rows|] == rows;
  }

  /** `users.order(users::id.desc()).first(conn)`: the row with the largest id,
      or `None` on an empty table. */
  function MaxIdRow<D>(rows: seq<User<D>>): (r: Option<User<D>>)
    ensures r.None? <==> rows == []
    ensures r.Some? ==> r.value in rows && forall v :: v in rows ==> v.id <= r.value.id
  {
    if rows == [] then None
    else match MaxIdRow(rows[1..])
      case None => Some(rows[0])
      case Some(m) => if m.id < rows[0].id then Some(rows[0]) else Some(m)
  }

  /** With ids ascending, the read-back ordered by id descending returns the
      last row of the table, that is the one inserted most recently. */
  lemma MaxIdRowIsLast<D>(rows: seq<User<D>>)
    requires IdsAscending(rows) && rows != []
    ensures MaxIdRow(rows) == Some(rows[|rows| - 1])
  {
    var n := |rows|;
    var m := MaxIdRow(rows).value;
    assert rows[n - 1] in rows;
    var k :| 0 <= k < n && rows[k] == m;
    assert rows[n - 1].id <= rows[k].id;
    assert k == n - 1;
  }

  /** The `users` table behind one MySQL connection. */
  class UserTable<D(==)> {
    /** The stored rows, in insertion order. */
    var rows: seq<User<D>>
    /** The id AUTO_INCREMENT hands out next. */
    var nextId: int

    /** Ids start at 1, are below the counter and ascend with insertion order. */
    ghost predicate Valid()
      reads this
    {
      1 <= nextId &&
      IdsAscending(rows) &&
      forall u :: u in rows ==> 1 <= u.id < nextId
    }

    /** An empty table whose AUTO_INCREMENT starts at 1. */
    constructor ()
      ensures Valid() && rows == [] && nextId == 1
    {
      rows := [];
      nextId := 1;
    }

    /** `diesel::insert_into(users::table).values(&new_user).execute(conn)`:
        on success one row with a fresh id is appended and the affected-row
        count 1 is returned. */
    method Insert(nu: NewUser<D>, fails: bool) returns (r: Result<nat, DbError>)
      requires Valid()
      modifies this
      ensures Valid()
      ensures fails ==> r == Err(DatabaseError) && rows == old(rows) && nextId == old(nextId)
      ensures !fails ==> r == Ok(1) && nextId == old(nextId) + 1 &&
                         rows == old(rows) + [User(old(nextId), nu.discordId, nu.anilistUsername)]
    {
      if fails {
        return Err(DatabaseError);
      }
      var u := User(nextId, nu.discordId, nu.anilistUsername);
      forall i, j | 0 <= i < j < |rows + [u]| ensures (rows + [u])[i].id < (rows + [u])[j].id {
        assert (rows + [u])[i] in rows;
      }
      rows := rows + [u];
      nextId := nextId + 1;
      r := Ok(1);
    }

    /** `users.order(users::id.desc()).select(User::as_select()).first(conn)`. */
    method FirstByIdDesc(fails: bool) returns (r: Result<User<D>, DbError>)
      requires Valid()
      ensures fails ==> r == Err(DatabaseError)
      ensures !fails && rows == [] ==> r == Err(NotFound)
      ensures !fails && rows != [] ==> r == Ok(rows[|rows| - 1])
      ensures r.Ok? ==> r.value in rows && forall v :: v in rows ==> v.id <= r.value.id
    {
      if fails {
        return Err(DatabaseError);
      }
      match MaxIdRow(rows)
      case None =>
        r := Err(NotFound);
      case Some(m) =>
        MaxIdRowIsLast(rows);
        r := Ok(m);
    }

    /** `users.filter(discord_id.eq(d)).select(User::as_select()).load(conn)`.
        The query has no ORDER BY; the model assumes MySQL hands the rows back
        in storage order, which is ascending id order. */
    method LoadByDiscordId(d: D, fails: bool) returns (r: Result<seq<User<D>>, DbError>)
      ensures fails ==> r == Err(DatabaseError)
      ensures !fails ==> r == Ok(Matching(rows, d))
    {
      if fails {
        return Err(DatabaseError);
      }
      r := Ok(Matching(rows, d));
    }

    /** Transaction rollback: the rows go back to those saved when the
        transaction began. A consumed AUTO_INCREMENT value is not handed back. */
    method Rollback(saved: seq<User<D>>)
      requires Valid() && saved <= rows
      modifies this
      ensures Valid() && rows == saved && nextId == old(nextId)
    {
      forall i, j | 0 <= i < j < |saved| ensures saved[i].id < saved[j].id {
        assert saved[i] == rows[i] && saved[j] == rows[j];
      }
      rows := saved;
    }

    /** The transaction of `create_user`, `conn.transaction(|conn| { ... })`:
        BEGIN, insert `nu`, read back the row with the largest id, COMMIT.
        If BEGIN fails nothing runs; if a later step fails the transaction is
        rolled back; either way the error is reported. */
    method InsertAndReadBack(nu: NewUser<D>, faults: Faults) returns (r: Result<User<D>, DbError>)
      requires Valid()
      modifies this
      ensures Valid()
      ensures r.Ok? <==> !faults.AnyFails()
      ensures r.Ok? ==> r.value == User(old(nextId), nu.discordId, nu.anilistUsername)
      ensures r.Ok? ==> forall u :: u in old(rows) ==> u.id < r.value.id
      ensures r.Ok? ==> rows == old(rows) + [r.value] && nextId == old(nextId) + 1
      ensures r.Err? ==> r.error == DatabaseError && rows == old(rows)
      ensures r.Err? ==> nextId == old(nextId) + faults.IdsConsumed()
    {
      if faults.begin {
        return Err(DatabaseError);
      }
      var saved := rows;
      var inserted := Insert(nu, faults.insert);
      if inserted.Err? {
        Rollback(saved);
        return Err(inserted.error);
      }
      r := FirstByIdDesc(faults.readBack);
      if r.Err? {
        Rollback(saved);
      } else if faults.commit {
        Rollback(saved);
        r := Err(DatabaseError);
      }
    }
  }
}
