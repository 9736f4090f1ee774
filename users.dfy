/** src/models/users.rs: the version of the user-link table whose
    `discord_id` is an `i64`, with `create_user` and `get_user`. */
module Users {
  import opened Schema

  /** Rust's `i64`. */
  type I64 = x: int | -0x8000_0000_0000_0000 <= x < 0x8000_0000_0000_0000

  const SaveErrorMessage := "Error while saving user"
  const LoadErrorMessage := "Error loading user"

  /** A database on which every step of the transaction succeeds. */
  const NoFaults := Faults(false, false, false, false)

  /** `create_user`: inside one transaction, insert the new link and read back
      the row with the largest id; if BEGIN, either step or COMMIT fails, nothing
      is committed and `.expect` panics. The read-back row is discarded, as in the
      source, which returns `()`. */
  method CreateUser(conn: UserTable<I64>, discordId: I64, anilistUsername: string,
                    faults: Faults)
    returns (c: Completion<()>)
    requires conn.Valid()
    modifies conn
    ensures conn.Valid()
    ensures c.Returned? <==> !faults.AnyFails()
    ensures c.Returned? ==>
              conn.rows == old(conn.rows) + [User(old(conn.nextId), discordId, anilistUsername)] &&
              conn.nextId == old(conn.nextId) + 1
    ensures c.Panicked? ==> c.message == SaveErrorMessage && conn.rows == old(conn.rows) &&
                            conn.nextId == old(conn.nextId) + faults.IdsConsumed()
  {
    var newUser := NewUser(discordId, anilistUsername);
    var saved := conn.InsertAndReadBack(newUser, faults);
    if saved.Err? {
      return Panicked(SaveErrorMessage);
    }
    c := Returned(());
  }

  /** `get_user`: load the rows with this `discord_id` and pop the last one. */
  method GetUser(conn: UserTable<I64>, idValue: I64, loadFails: bool)
    returns (c: Completion<Option<User<I64>>>)
    requires conn.Valid()
    ensures loadFails ==> c == Panicked(LoadErrorMessage)
    ensures !loadFails ==> c == Returned(LastMatch(conn.rows, idValue))
    ensures c.Returned? && c.value.Some? ==>
              c.value.value in conn.rows && c.value.value.discordId == idValue
    ensures c.Returned? ==>
              (c.value.None? <==> forall u :: u in conn.rows ==> u.discordId != idValue)
    ensures c.Returned? && c.value.Some? ==>
              forall u :: u in conn.rows && u.discordId == idValue ==> u.id <= c.value.value.id
  {
    var loaded := conn.LoadByDiscordId(idValue, loadFails);
    if loaded.Err? {
      return Panicked(LoadErrorMessage);
    }
    var results := loaded.value;
    LastMatchNoneIff(conn.rows, idValue);
    if |results| > 0 {
      var Popped(rest, top) := Pop(results);
      results := rest;
      // `unwrap` cannot panic: the vector was not empty.
      assert top.Some?;
      var user := top.value;
      forall u | u in conn.rows && u.discordId == idValue ensures u.id <= user.id {
        LastMatchIsNewest(conn.rows, idValue, u);
      }
      return Returned(Some(user));
    }
    c := Returned(None);
  }

  /** Creating a link and then looking it up: the lookup finds the new row,
      and a second lookup with no create in between answers the same. */
  method CreateThenGet(discordId: I64, anilistUsername: string)
  {
    var conn := new UserTable<I64>();
    var created := CreateUser(conn, discordId, anilistUsername, NoFaults);
    var first := GetUser(conn, discordId, false);
    LastMatchAfterAppend([], User(1, discordId, anilistUsername), discordId);
    assert first == Returned(Some(User(1, discordId, anilistUsername)));
    var second := GetUser(conn, discordId, false);
    assert second == first;
  }

  /** A second link for the same `discord_id` wins over the first one. */
  method MostRecentWins(conn: UserTable<I64>, discordId: I64, older: string, newer: string)
    requires conn.Valid()
    modifies conn
  {
    ghost var id := conn.nextId + 1;
    var firstLink := CreateUser(conn, discordId, older, NoFaults);
    ghost var rowsBefore := conn.rows;
    var secondLink := CreateUser(conn, discordId, newer, NoFaults);
    LastMatchAfterAppend(rowsBefore, User(id, discordId, newer), discordId);
    var found := GetUser(conn, discordId, false);
    assert found == Returned(Some(User(id, discordId, newer)));
  }

  /** A COMMIT that fails leaves no row behind, and the two links created
      afterwards get consecutive ids after the one the failed insert used up. */
  method FailedCommitThenTwoLinks(discordId: I64, anilistUsername: string)
  {
    var conn := new UserTable<I64>();
    var failed := CreateUser(conn, discordId, anilistUsername, Faults(false, false, false, true));
    assert failed == Panicked(SaveErrorMessage) && conn.rows == [];
    var first := CreateUser(conn, discordId, anilistUsername, NoFaults);
    var second := CreateUser(conn, discordId, anilistUsername, NoFaults);
    assert conn.rows[0].id == 2 && conn.rows[1].id == 3;
  }
}
