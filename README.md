# User-link table of damq-backend, modelled in Dafny

The backend links a Discord account to an AniList username. It stores each
link as a row of the MySQL table `users` (`id` AUTO_INCREMENT, `discord_id`,
`anilist_username`) through Diesel. Two operations touch the table:

- `create_user` inserts a row and then, in the same transaction, reads back
  the row with the largest `id`. If BEGIN, either step or COMMIT fails,
  nothing is committed, and `.expect("Error while saving user")` panics.
- `get_user` loads every row with the given `discord_id`, pops the last
  one, and returns it. It returns `None` when nothing matched. If the load
  fails, `.expect("Error loading user")` panics.

The code exists twice. `src/models/users.rs` has both operations with an
`i64` `discord_id`. `src/lib.rs` has only `create_user`, with the `i32`
`discord_id` of the records in `src/models.rs`.

Layout:

- `schema.dfy`, module `Schema`: the records `User<D>` and `NewUser<D>`,
  generic in the `discord_id` type `D`. It also holds the two queries as
  functions on the row sequence: `Matching` is the WHERE filter and
  `MaxIdRow` is ORDER BY `id` DESC with `first`. `Pop` models `Vec::pop`.
  The class `UserTable<D>` holds the rows in insertion order and the
  `nextId` counter that stands for AUTO_INCREMENT. Its methods are the
  Diesel calls (`Insert`, `FirstByIdDesc`, `LoadByDiscordId`, `Rollback`)
  and the transaction body of `create_user` (`InsertAndReadBack`).
- `users.dfy`, module `Users`: `src/models/users.rs`, with `I64` as the
  `discord_id` type. It holds `CreateUser` and `GetUser`. Two client
  methods, `CreateThenGet` and `MostRecentWins`, show what callers can
  derive from the contracts alone. A third, `FailedCommitThenTwoLinks`,
  covers a COMMIT that fails.
- `lib.dfy`, module `Lib`: `src/lib.rs`, with `I32` as the `discord_id`
  type. It holds `CreateUser`.

Storage failures cannot be predicted, so each Diesel call takes a flag
saying whether it fails. For the transaction of `create_user`, the record
`Faults` holds one flag each for BEGIN, the insert, the read-back and
COMMIT. A panic is the `Panicked(message)` case of `Completion`, carrying
the source's message.

Assumptions of the model:

- The `get_user` query has no ORDER BY. The model assumes MySQL returns
  rows in storage order, which is ascending `id` order. Only under this
  assumption is "last loaded match" the same as "largest-`id` match".
- A rolled-back insert gives back its row but not its AUTO_INCREMENT value.
  `nextId` stays advanced, as InnoDB does.
- `UserTable.Valid` is the table invariant: ids start at 1, stay below
  `nextId`, and strictly ascend along the rows. Every method keeps it.

## Model

| member | source | states |
|---|---|---|
| Schema.Matching | src/models/users.rs:37-41 | The filtered load returns only stored rows whose `discord_id` equals the key, and it is no longer than the table. |
| Schema.MatchingComplete | src/models/users.rs:37-41 | Every stored row whose `discord_id` equals the key is among the loaded rows. |
| Schema.Pop | src/models/users.rs:44 | `Vec::pop` returns `None` on an empty vector and leaves it unchanged. On a non-empty vector it returns the last element as `top`, and `rest` followed by `top` is the original vector. |
| Schema.LastMatch | src/models/users.rs:43-48 | The row `get_user` returns is a stored row with the requested `discord_id`. |
| Schema.LastMatchNoneIff | src/models/users.rs:43-48 | The lookup yields `None` exactly when no stored row has the requested `discord_id`. |
| Schema.LastMatchIsNewest | src/models/users.rs:37-45 | When ids ascend, the lookup finds a row whenever some row matches, and no matching row has a larger `id` than the one returned. |
| Schema.LastMatchAfterAppend | src/models/users.rs:22-25 | After a row is appended, a lookup by its `discord_id` returns that row, and a lookup by any other `discord_id` is unchanged. |
| Schema.MaxIdRow | src/models/users.rs:27-30 | ORDER BY `id` DESC with `first` yields nothing exactly on an empty table; otherwise it yields a stored row whose `id` no other row exceeds. |
| Schema.MaxIdRowIsLast | src/models/users.rs:27-30 | When ids ascend, the max-`id` row is the last row of the table, the one inserted most recently. |
| Schema.UserTable.constructor | src/models/users.rs:7 | A new table is empty and satisfies the invariant. Its `id` counter starts at 1, which is MySQL's default AUTO_INCREMENT start, not something the code sets. |
| Schema.UserTable.Insert | src/models/users.rs:25 | On success, exactly one row is appended. It carries the current counter as `id` plus the given `discord_id` and username, and the call reports one affected row. On failure, rows and counter are unchanged. |
| Schema.UserTable.FirstByIdDesc | src/models/users.rs:27-30 | The read-back fails with a database error when storage fails and with `NotFound` on an empty table. Otherwise it returns the last row, which is a stored row with the maximal `id`. |
| Schema.UserTable.LoadByDiscordId | src/models/users.rs:37-41 | The load fails only when storage fails; otherwise it returns exactly the matching rows in table order. |
| Schema.UserTable.Rollback | src/models/users.rs:24-31 | Rolling back restores the rows saved at the start of the transaction and keeps the invariant. |
| Schema.UserTable.InsertAndReadBack | src/models/users.rs:24-31 | The transaction succeeds exactly when none of BEGIN, insert, read-back and COMMIT fails. On success it returns the inserted row, whose `id` exceeds every earlier `id`. That row is the only one added, and the counter moves up by one. On failure, nothing is committed and a database error is reported. The counter keeps any value a rolled-back insert used up. |
| Users.CreateUser | src/models/users.rs:19-32 | The call returns exactly when BEGIN, insert, read-back and COMMIT all succeed. It then adds exactly one row with the given `i64` `discord_id` and username, leaves every earlier row unchanged, and moves the `id` counter up by one. Otherwise it panics with "Error while saving user" and the rows are as before. The counter has moved up by one exactly when the insert ran. |
| Users.GetUser | src/models/users.rs:34-49 | A failed load panics with "Error loading user". Otherwise the result is the last matching row. `Some(u)` only for a stored row with that `discord_id`, `None` exactly when no row matches, and no match has a larger `id`. The table is not modified, so repeated calls agree. |
| Lib.CreateUser | src/lib.rs:7-20 | Same as `Users.CreateUser` for the `i32` `discord_id` of `src/models.rs`. It returns exactly when BEGIN, insert, read-back and COMMIT all succeed. It then adds exactly the one requested row, keeps every earlier row, and moves the `id` counter up by one. Otherwise it panics with "Error while saving user" and commits nothing. |

## Left out

- `src/main.rs` is not part of this model. It holds the actix-web routes, the Discord OAuth token proxy, environment loading and the server loop, which are all I/O.
- Diesel and MySQL internals (connections, SQL text, driver errors) are replaced by the in-memory table. Whether each call fails is an input flag.
- A failure of the rollback itself, and a panic that escapes the transaction, are not modelled. Diesel's transaction manager is not visible here.
- The 32-bit `id` column is an unbounded integer: AUTO_INCREMENT overflow is neither checked nor handled by the code.
- Concurrent connections and the row order MySQL uses without ORDER BY are not modelled. The load is assumed to return rows in `id` order.
- Schema.UserTable.LoadByDiscordId: it returns rows in table order. MySQL promises no order here, so "last match is the newest" rests on this assumption.
