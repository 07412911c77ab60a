# sled-es query repository, modelled in Dafny

This project models the view repository of `sled-es` (`src/queries.rs`): the
read-model store of an event-sourced application that keeps one persisted
projection ("view") per query name and aggregate instance id in a sled
database, and updates it by loading the stored view (or the default view),
folding a batch of events into it in order, and committing the result under
the same key.

Modules:

- `Wrappers` (`wrappers.dfy`): `Option` and `Result`.
- `Json` (`json.dfy`): the shape of a serde_json `Value`, `as_str`, and the
  UTF-8 bytes of a `&str`.
- `Storage` (`storage.dfy`): the sled database as a map from tree name to key
  to bytes (`Store`), its total `Lookup` and overwriting `Put`, and the shared
  `Db` handle, a class whose `store` field every repository reads and writes.
- `Views` (`views.dfy`): what a view type supplies (`ViewType`: `Default`,
  `Query::update`, serde's `to_value`, serde_json's `from_slice`, all kept
  uninterpreted), the left fold of events, the bytes `commit` writes
  (`Encode`), and the panics that can end a call.
- `Queries` (`queries.dfy`): `QueryContext` and its `Commit`,
  `GenericQueryRepository` (a class with the `Db`, the query name, the
  optional error handler and a log of handler calls), the value-level effect
  of `apply_events` on a store (`Apply`), and lemmas about it.
- `Scenarios` (`scenarios.dfy`): an account-balance projection worked through
  `Apply`.

Calls that panic in the source return `Some(panic)` in the model's `fatal`
out-parameter and leave the store as it was; the handler log records every
call of the error handler as `Invocation(handler, error)`, where a handler is
identified by a `HandlerId`.

Nothing in the code makes a stored view read back as itself: `commit` stores
the contents of the JSON string that `to_value` produced (line 146), while
`load` and `load_mut` parse the stored bytes as JSON text (lines 53 and 93).
The lemmas that need a view to survive a write and a read take that as the
hypothesis `RoundTrips(vt, v)`.

Behaviour of the code worth knowing:

- A stored record that does not decode makes `apply_events` panic
  (`unwrap` at line 53); it is not reported to the error handler, and the
  handler branch at lines 80-83 can never run. `ApplyEvents` leaves the
  handler log unchanged on every path.
- An integer view, as in the account-balance example, cannot be committed:
  `to_value` gives a JSON number, and `as_str().unwrap()` at line 146 panics.
  `BalanceScenario` shows the fold reaching 12 and the commit panicking.
  Only views whose JSON value is a string are ever written.
- A storage read error is not turned into `None` by `load`: `get(..).unwrap()`
  at line 91 panics. Storage errors are outside this model (see below).

## Model

| member | source | states |
|---|---|---|
| `Json.AsStr` | src/queries.rs:146 | `as_str` yields the string's contents exactly for a JSON string and nothing for every other JSON value |
| `Json.CharUtf8` | src/queries.rs:147 | the bytes of one character: the first byte gives the sequence's length, and the sequence decodes back to the character's scalar value |
| `Json.Utf8` | src/queries.rs:146-147 | the bytes `insert` stores for the `&str`: at least one byte per character and exactly one for an ASCII string; `Utf8Append` proves that the bytes of a concatenation are the concatenated bytes, and `Utf8Injective` that distinct strings give distinct bytes |
| `Json.Utf8Append` | src/queries.rs:146-147 | the bytes of `a + b` are the bytes of `a` followed by the bytes of `b` |
| `Json.Utf8Injective` | src/queries.rs:147 | distinct strings are stored as distinct bytes |
| `Storage.Lookup` | src/queries.rs:48-50 | `open_tree` then `get` finds bytes exactly when the tree exists and holds the key, and then finds the bytes stored there; a tree never written reads as empty |
| `Storage.Put` | src/queries.rs:143-147 | an insert makes the written key read back as the written bytes, leaves every other (tree, key) cell and every other tree as it was, and adds at most the written tree |
| `Storage.PutPut` | src/queries.rs:147 | records are overwritten, not versioned: a second insert under the same key gives the same store as the second insert alone |
| `Views.Fold` | src/queries.rs:75-77 | no events leave the view as it was; a single event is exactly one `update` |
| `Views.FoldAppend` | src/queries.rs:75-77 | folding `e1 + e2` equals folding `e2` into the result of folding `e1` |
| `Views.FoldSnoc` | src/queries.rs:75-77 | the last event of a batch is applied last, by exactly one `update` on the fold of the events before it |
| `Views.FoldIsFoldBack` | src/queries.rs:75-77 | the front-to-back fold the loop computes agrees with an independent back-to-front definition on every input |
| `Views.Encode` | src/queries.rs:134-146 | commit's bytes exist exactly when `to_value` succeeds with a JSON string, and are that string's UTF-8 bytes; a `to_value` error and a non-string value are two distinct panics |
| `Queries.Report` | src/queries.rs:96-99 | a failed decode produces exactly one handler call, carrying the registered handler and the error, when a handler is set, and no call otherwise |
| `Queries.Start` | src/queries.rs:51-68 | no record gives the default view; a record gives a view exactly when its bytes decode, and then the decoded view; otherwise the `from_slice(..).unwrap()` panic |
| `Queries.Apply` | src/queries.rs:72-78 | a completed apply leaves the record of (name, id) present, changes no other cell, and adds at most the repository's tree; an apply on an id without a record completes whenever the folded default encodes |
| `Queries.QueryContext.Commit` | src/queries.rs:132-156 | writes the encoded view under exactly the context's own name and id and changes nothing else; on either serialization panic nothing is written |
| `Queries.GenericQueryRepository.constructor` | src/queries.rs:29-36 | `new` stores the given name and database, `ViewName` returns exactly that name, no handler is set and no handler call has happened |
| `Queries.GenericQueryRepository.WithErrorHandler` | src/queries.rs:38-40 | afterwards exactly the given handler is set, whatever was set before; the store and the handler log are untouched |
| `Queries.GenericQueryRepository.ViewName` | src/queries.rs:42-44 | `view_name` returns exactly the name the repository was created with |
| `Queries.GenericQueryRepository.LoadMut` | src/queries.rs:46-70 | the context always carries the repository's name and the requested id; no record gives the default view, a decodable record its decoded view, an undecodable record the unwrap panic |
| `Queries.GenericQueryRepository.ApplyEvents` | src/queries.rs:72-85 | the new store is `Apply` of the old store (load or default, left fold in event order, commit); on a panic the store is unchanged; the handler log is never extended |
| `Queries.GenericQueryRepository.Dispatch` | src/queries.rs:114-116 | has exactly the effect of `ApplyEvents` with the same arguments |
| `Queries.GenericQueryRepository.Load` | src/queries.rs:87-105 | no record: `None`, no handler call; a decodable record: `Some` of the decoded view, no handler call; an undecodable record: `None` and exactly one handler call with the decode error if a handler is set, none otherwise; the store is never changed |
| `Queries.ApplyTouchesOneCell` | src/queries.rs:72-78 | a completed apply sets the cell of (name, id) to the encoded fold and leaves every other cell of every tree as it was |
| `Queries.ApplyPanics` | src/queries.rs:73-78 | an apply panics exactly when the stored record does not decode or the folded view does not encode |
| `Queries.ApplyIsSequential` | src/queries.rs:72-78 | two applies of `e1` then `e2` store the same as one apply of `e1 + e2` (including the same panic), given that the view written by the first reads back as itself |
| `Queries.ApplyEmptyIsIdempotent` | src/queries.rs:72-78 | applying no events rewrites the record so that it loads as the same view, and repeating it stores the same thing, given that view reads back as itself |
| `Queries.ApplyThenLoad` | src/queries.rs:72-105 | the view an apply writes is the view the next load decodes, given that the folded view reads back as itself |
| `Queries.ApplyEmptyOnAbsent` | src/queries.rs:61-67 | applying no events to an id without a record writes the encoded default view, after which the record is no longer absent |
| `Scenarios.BalanceScenario` | src/queries.rs:146 | for an integer balance view, deposits 10 and 5 and a withdrawal of 3 fold to 12, and committing that view panics because its JSON value is not a string |

## Left out

- sled I/O failures: `open_tree`, `get` and `insert` and their `unwrap`s (lines 48, 50, 89, 91, 144, 147) are total map operations; a storage error panics in the source and never reaches the handler, and the model has no storage errors.
- `open_tree` creating an empty tree: an absent tree and an empty tree read the same for every operation here, so the tree opened by `load_mut` (line 48), by `load` (line 89) and by `commit` (line 144) is not added to the store. In `commit` the tree is opened before the `as_str().unwrap()` panic at line 146, so the source can leave a new empty tree behind on that panic, where `Commit` and `ApplyEvents` leave the store exactly as it was.
- serde and serde_json internals: `to_value` and `from_slice` are uninterpreted functions supplied with the view type; JSON numbers are integers only (no floating point), and serde's error values are reduced to their messages.
- The conversion of a serde_json error into the framework's `AggregateError` (line 98) is kept abstract as `DeserializationError(cause)`.
- Error handler bodies: the boxed closure is a foreign call; the model records each call and its argument in `errors` and does not model what the closure does.
- Panic message text (lines 137-139 and 150-152), including the swapped id and name in their wording.
- `PhantomData`, the generic trait bounds and the cqrs_es traits: replaced by the `ViewType` record and an event type parameter; event envelopes are plain events.
- Concurrency: interleaved `apply_events` calls on the same id (last write wins) are outside a sequential model.
- The commented-out test module at lines 159-166.
