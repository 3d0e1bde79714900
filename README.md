# Healthcare data-access contract, modelled in Dafny

This project models `HealthcareDataContract`, a Soroban smart contract in
which patients register references to healthcare data, providers request
access, and patients revoke it. The contract keeps its state in one
key-value store:

- the aggregate counters `DataAccessStatus { granted, pending, revoked, total }` under `ALL_DATA`;
- a sequence counter under `COUNT_DATA`;
- one `HealthRecord` per `HealthData::Data(id)` key;
- one `Admincontrol` grant per `Adminbook::Admincontrol(id)` key.

Files:

- `ledger.dfy` (module `Ledger`): the value types, the store, the three
  reads with their defaults, and `create_data`, `revoke_access` and
  `request_access` as pure transitions from a store to a store and a reply.
  `Step` and `Run` apply calls one atomic step each.
- `contract.dfy` (module `Contract`): the class `HealthcareDataContract`.
  Its fields are the four storage entries. Its methods read the store, change
  local copies and write them back in the contract's order. Each method is
  proved equal to its pure transition and to keep the invariant `Inv`.
- `properties.dfy` (module `LedgerProperties`): the lemmas.

Modelling choices:

- `u64` is a newtype over 0..2^64-1. Every `+= 1` and `-= 1` on a counter is
  checked: at the bound the call aborts with `ArithmeticOverflow` or
  `ArithmeticUnderflow`. This is what Rust does when overflow checks are on.
  The crate's build profile is not part of this model. The model assumes the
  checks are on, as in the standard Soroban template's release profile.
- A `panic!` becomes an `Err` reply with the store left exactly as it was.
  Every panic in the contract happens before its first `set`.
- `ALL_DATA` and `COUNT_DATA` are `Option`s, so "never written" and "written"
  stay distinct, as they are in storage. The reads supply the contract's
  defaults.
- The ledger clock (`env.ledger().timestamp()`) is the `time` parameter of
  `CreateData`.
- `revoke_access` writes the record back under the record's own `record_id`
  field, not under the id it was called with. The model keeps this.
  `RevokeAccessInPlace` shows the two keys coincide when every stored record
  carries its own key.

What the proofs show about the code as written:

- **No record can ever be created.** `view_data` answers a missing key with
  a sentinel marked revoked. `create_data` goes on only if the record at
  `COUNT_DATA + 1` is stored and unrevoked. On the empty store, therefore,
  `create_data` always aborts. `revoke_access` aborts too, because every
  id reads as the revoked sentinel. `request_access` aborts because
  `pending` is 0 and the decrement underflows. So the freshly deployed store
  is a fixpoint of every call (`RunFromEmptyStore`), and in every reachable
  state every call aborts (`EveryReachableCallAborts`).
- **`COUNT_DATA` equals `total`.** Both are bumped together and only in
  `create_data`. This is part of `Inv`, together with "every record carries
  its own key" and "every key is in 1..total". Every call keeps `Inv`.
  Under `Inv`, `create_data` always aborts (`CreateDataAbortsUnderInv`).
- **A revoked record is never overwritten or unrevoked** once `COUNT_DATA`
  equals `total` and records carry their keys (`RevokedRecordStaysFrozen`).

## Model

| member | source | states |
|---|---|---|
| Ledger.CreateData | contracts/hello_world/src/lib.rs:58-91 | succeeds if and only if `COUNT_DATA < u64::MAX`, the record read at `COUNT_DATA + 1` is unrevoked, and `pending` and `total` are below `u64::MAX`; an abort writes nothing; on success the reply is `old total + 1`, that id now reads back as `{id, patient_id, data_hash, time, unrevoked}`, and `total` equals the reply |
| Ledger.RevokeAccess | contracts/hello_world/src/lib.rs:95-111 | succeeds if and only if the record read for the id is unrevoked and `revoked < u64::MAX`; an abort writes nothing; on success the record reads as revoked under its own id and `revoked` went up by one |
| Ledger.RequestAccess | contracts/hello_world/src/lib.rs:114-134 | succeeds if and only if the grant read for the id is false, `granted < u64::MAX` and `pending > 0`; an abort writes nothing; on success the grant reads as `{record_id, true}`, `granted` went up by one and `pending` down by one |
| Ledger.ViewAllDataStatus | contracts/hello_world/src/lib.rs:137-144 | the stored counters when `ALL_DATA` is set, otherwise all four are zero (full statement in `ViewAllDataStatusDefault`) |
| Ledger.ViewData | contracts/hello_world/src/lib.rs:147-156 | a missing id reads as revoked with id 0; an unrevoked result is always a stored record (sentinel values in `ViewDataDefault`) |
| Ledger.ViewAdminControl | contracts/hello_world/src/lib.rs:159-165 | a missing id reads as `{0, false}`; a granted result is always a stored grant (full statement in `ViewAdminControlDefault`) |
| Ledger.CountData | contracts/hello_world/src/lib.rs:59 | the stored `COUNT_DATA`, or 0 when it was never written |
| Contract.HealthcareDataContract.constructor | contracts/hello_world/src/lib.rs:52-53 | a freshly deployed contract has no storage key set (`EmptyStore`), so every read returns its default, and it satisfies `Valid()` |
| LedgerProperties.ViewAllDataStatusDefault | contracts/hello_world/src/lib.rs:137-144 | the counters read back as stored, or all four are zero when `ALL_DATA` was never written |
| LedgerProperties.ViewDataDefault | contracts/hello_world/src/lib.rs:147-156 | a stored record reads back as stored; a missing id reads as `{0, "Not Found", "Not Found", 0, revoked}` |
| LedgerProperties.ViewAdminControlDefault | contracts/hello_world/src/lib.rs:159-165 | a stored grant reads back as stored; a missing id reads as `{record_id: 0, access_granted: false}` |
| LedgerProperties.CreateDataGuard | contracts/hello_world/src/lib.rs:58-91 | `create_data` succeeds if and only if the record at `COUNT_DATA + 1` is stored and unrevoked and no bumped counter is at `u64::MAX` |
| LedgerProperties.CreateDataEffect | contracts/hello_world/src/lib.rs:66-88 | on success: the record `{total+1, patient_id, data_hash, time, unrevoked}` is stored under `total + 1`; `pending`, `total` and `COUNT_DATA` go up by one; `granted`, `revoked` and the grants stay the same; the reply is the new total |
| LedgerProperties.CreateDataAbortsOnEmptyStore | contracts/hello_world/src/lib.rs:59-90 | on the freshly deployed store `create_data` aborts with the "revoked or pending" error and writes nothing |
| LedgerProperties.CreateDataWritesCheckedSlot | contracts/hello_world/src/lib.rs:59-84 | when `COUNT_DATA == total`, the key written is the key checked, and it held an unrevoked record |
| LedgerProperties.CreateDataAbortsUnderInv | contracts/hello_world/src/lib.rs:59-90 | under `Inv`, `create_data` always aborts and leaves the store unchanged |
| LedgerProperties.RevokeAccessGuard | contracts/hello_world/src/lib.rs:95-110 | `revoke_access` succeeds if and only if a record is stored for the id, it is unrevoked, and `revoked < u64::MAX` |
| LedgerProperties.RevokeAccessEffect | contracts/hello_world/src/lib.rs:96-105 | on success the record, now revoked with all other fields kept, is written under its own `record_id`; only `revoked` goes up; `COUNT_DATA` and the grants stay the same |
| LedgerProperties.RevokeAccessInPlace | contracts/hello_world/src/lib.rs:96-104 | when every record carries its own key, a successful revoke changes exactly the called id's entry, to revoked |
| LedgerProperties.RevokeAccessTwiceAborts | contracts/hello_world/src/lib.rs:95-110 | when every stored record carries its own key, after a successful revoke, revoking the same id again aborts with "revoked or missing" and changes nothing |
| LedgerProperties.RevokeAccessAbortsOnEmptyStore | contracts/hello_world/src/lib.rs:96-109 | on the freshly deployed store `revoke_access` aborts for every id and writes nothing |
| LedgerProperties.RequestAccessEffect | contracts/hello_world/src/lib.rs:114-128 | on success the grant `{record_id, true}` is stored; `granted` goes up by one and `pending` down by one; the records and `COUNT_DATA` stay the same |
| LedgerProperties.RequestAccessIgnoresRecords | contracts/hello_world/src/lib.rs:114-128 | the reply and the effect of `request_access` do not depend on which records are stored |
| LedgerProperties.RequestAccessTwiceAborts | contracts/hello_world/src/lib.rs:115-133 | after a successful request, requesting the same id again aborts with "already granted" and changes nothing |
| LedgerProperties.RequestAccessAbortsOnEmptyStore | contracts/hello_world/src/lib.rs:123-125 | on the freshly deployed store `pending` is 0, so `request_access` aborts on the underflow for every id |
| LedgerProperties.AbortsIffUnchanged | contracts/hello_world/src/lib.rs:58-133 | a call aborts if and only if it leaves the whole store as it was |
| LedgerProperties.StepKeepsAgreementAndIds | contracts/hello_world/src/lib.rs:58-128 | `COUNT_DATA == total` and "each record is stored under its own id" survive every call |
| LedgerProperties.StepKeepsInv | contracts/hello_world/src/lib.rs:58-128 | every call keeps `Inv`: `COUNT_DATA == total`, records under their own ids, keys in 1..total |
| LedgerProperties.EmptyStoreSatisfiesInv | contracts/hello_world/src/lib.rs:137-156 | the freshly deployed store satisfies `Inv` |
| LedgerProperties.RunKeepsInv | contracts/hello_world/src/lib.rs:58-133 | `Inv` holds after any sequence of calls that starts in a store satisfying it |
| LedgerProperties.RevokedRecordIsFrozen | contracts/hello_world/src/lib.rs:60-104 | when `COUNT_DATA == total` and records carry their ids, no call overwrites or unrevokes a revoked record |
| LedgerProperties.RevokedRecordStaysFrozen | contracts/hello_world/src/lib.rs:60-104 | the same along any sequence of calls |
| LedgerProperties.EmptyStoreIsFixpoint | contracts/hello_world/src/lib.rs:58-156 | on the freshly deployed store every call aborts and the store stays empty |
| LedgerProperties.RunFromEmptyStore | contracts/hello_world/src/lib.rs:58-156 | any sequence of calls leaves the freshly deployed store exactly as it was |
| LedgerProperties.NoRecordIsEverCreated | contracts/hello_world/src/lib.rs:63-65 | in every reachable state no record is stored, `view_data` returns the sentinel for every id, and `COUNT_DATA == total` |
| LedgerProperties.EveryReachableCallAborts | contracts/hello_world/src/lib.rs:58-133 | in every reachable state `create_data` aborts as "revoked or pending", `revoke_access` as "revoked or missing", and `request_access` on the underflow |
| Contract.HealthcareDataContract.CreateData | contracts/hello_world/src/lib.rs:58-91 | the method's new storage and reply are exactly `Ledger.CreateData` of the old storage; from a valid store it aborts and the store stays valid |
| Contract.HealthcareDataContract.RevokeAccess | contracts/hello_world/src/lib.rs:95-111 | the method's new storage and reply are exactly `Ledger.RevokeAccess` of the old storage, and it keeps `Valid()` |
| Contract.HealthcareDataContract.RequestAccess | contracts/hello_world/src/lib.rs:114-134 | the method's new storage and reply are exactly `Ledger.RequestAccess` of the old storage, and it keeps `Valid()` |

## Left out

- The Soroban SDK (`#[contract]`, `#[contracttype]`, `Env`, `Symbol`, `symbol_short!`): storage is modelled as plain fields and maps keyed by `u64`.
- Soroban `String` values are modelled as Dafny strings. `String::from_str` is just the literal.
- `log!` calls: they only produce output.
- Panic messages: each of the three `panic!` sites becomes its own `Error` value instead; the five implicit overflow sites (lib.rs:60, 76, 77, 102, 124) all become `ArithmeticOverflow` and the `pending -= 1` site (lib.rs:125) becomes `ArithmeticUnderflow`.
- The ledger clock is an input. The unused clock read in `request_access` is not modelled.
- Transaction atomicity and concurrency: the host runs each call as one atomic step. Calls run one after another in `Run`.
- Caller authentication: the contract has none.
- Rust builds without overflow checks: there `pending -= 1` at 0 and `+= 1` at `u64::MAX` wrap around instead of aborting. The model covers only checked arithmetic.
