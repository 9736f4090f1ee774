/** src/lib.rs with the record types of src/models.rs: the version of the
    user-link table whose `discord_id` is an `i32`. It has `create_user` only. */
module Lib {
  import opened Schema

  /** Rust's `i32`. */
  type I32 = x: int | -0x8000_0000 <= x < 0x8000_0000

  const SaveErrorMessage := "Error while saving user"

  /** `create_user`: inside one transaction, insert the new link and read back
      the row with the largest id; if BEGIN, either step or COMMIT fails, nothing
      is committed and `.expect` panics. */
  method CreateUser(conn: UserTable<I32>, discordId: I32, anilistUsername: string,
                    faults: Faults)
    returns (c: Completion<()>)
    requires conn.Valid()
    modifies conn
    ensures conn.Valid()
    ensures c.Returned? <==> !faults.AnyFails()
    ensures c.Returned? ==>
              conn.rows == old(conn.rows) + [User(old(conn.nextId), discordId, anilistUsername)] &&
              conn.nextId == old(conn.nextId) + 1
    ensures c.Panicked? ==> c.message == SaveErrorMessage && conn.rows == old(conn.rows) &&
                            conn.nextId == old(conn.nextId) + faults.IdsConsumed()
  {
    var newUser := NewUser(discordId, anilistUsername);
    var saved := conn.InsertAndReadBack(newUser, faults);
    if saved.Err? {
      return Panicked(SaveErrorMessage);
    }
    c := Returned(());
  }
}
