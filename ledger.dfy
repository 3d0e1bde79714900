/**
 * The state of the healthcare data-access contract and its operations as
 * pure transitions over that state.
 *
 * The contract keeps everything in one key-value store ("instance storage"):
 * the aggregate counters under ALL_DATA, a sequence counter under COUNT_DATA,
 * one HealthRecord per Data(id) key and one AdminControl per Admincontrol(id)
 * key. A key that was never written is absent; every read supplies a default.
 */
module Ledger {

  /** Rust's u64. Every addition and subtraction below is checked explicitly. */
  newtype u64 = x: int | 0 <= x < 0x1_0000_0000_0000_0000
  const U64_MAX: u64 := 0xFFFF_FFFF_FFFF_FFFF

  /** The aggregate counters, stored under ALL_DATA. */
  datatype DataAccessStatus = DataAccessStatus(granted: u64, pending: u64, revoked: u64, total: u64)

  /** The access grant for one record id, stored under Admincontrol(id). */
  datatype AdminControl = AdminControl(recordId: u64, accessGranted: bool)

  /** One healthcare data submission, stored under Data(id). */
  datatype HealthRecord = HealthRecord(
    recordId: u64,
    patientId: string,
    dataHash: string,
    timestamp: u64,
    isRevoked: bool)

  /**
   * Why a call aborts. The contract panics in each of these cases, before it
   * writes anything. The arithmetic cases are the panics Rust's overflow
   * checks raise (the crate's build profile is not part of this model; the
   * model assumes overflow checks are on, as in release builds of Soroban
   * contracts generated by the standard template).
   */
  datatype Error =
    | ArithmeticOverflow   // a u64 counter would pass U64_MAX
    | ArithmeticUnderflow  // `pending -= 1` with pending == 0
    | RevokedOrPending     // create_data: the slot it checks is revoked or absent
    | RevokedOrMissing     // revoke_access: the record is revoked or absent
    | AlreadyGranted       // request_access: access was granted before

  datatype Result<T> = Ok(value: T) | Err(error: Error)

  /** The contract's instance storage. */
  datatype Store = Store(
    allData: Option<DataAccessStatus>,      // ALL_DATA
    countData: Option<u64>,                 // COUNT_DATA
    data: map<u64, HealthRecord>,           // HealthData::Data(id)
    admin: map<u64, AdminControl>)          // Adminbook::Admincontrol(id)

  datatype Option<T> = None | Some(value: T)

  /** A store and the reply of the call that produced it. */
  datatype Outcome<T> = Outcome(store: Store, result: Result<T>)

  /** The storage of a freshly deployed contract: no key is set. */
  function EmptyStore(): Store {
    Store(None, None, map[], map[])
  }

  const ZeroStatus: DataAccessStatus := DataAccessStatus(0, 0, 0, 0)
  const NotFoundRecord: HealthRecord := HealthRecord(0, "Not Found", "Not Found", 0, true)
  const NoGrant: AdminControl := AdminControl(0, false)

  /** view_all_data_status: the counters, all zero when ALL_DATA is absent. */
  function ViewAllDataStatus(s: Store): (r: DataAccessStatus)
    ensures s.allData.None? ==> r == DataAccessStatus(0, 0, 0, 0)
    ensures s.allData.Some? ==> r == s.allData.value
  {
    match s.allData
    case Some(status) => status
    case None => ZeroStatus
  }

  /**
   * view_data: the record stored for `recordId`, or a sentinel marked as
   * revoked when there is none.
   */
  function ViewData(s: Store, recordId: u64): (r: HealthRecord)
    ensures recordId !in s.data ==> r.isRevoked && r.recordId == 0
    ensures !r.isRevoked ==> recordId in s.data && r == s.data[recordId]
  {
    if recordId in s.data then s.data[recordId] else NotFoundRecord
  }

  /** view_admin_control: the grant stored for `recordId`, or "not granted". */
  function ViewAdminControl(s: Store, recordId: u64): (r: AdminControl)
    ensures recordId !in s.admin ==> r == AdminControl(0, false)
    ensures r.accessGranted ==> recordId in s.admin && r == s.admin[recordId]
  {
    if recordId in s.admin then s.admin[recordId] else NoGrant
  }

  /** The COUNT_DATA counter as create_data reads it: 0 when absent. */
  function CountData(s: Store): (r: u64)
    ensures s.countData.None? ==> r == 0
    ensures s.countData.Some? ==> r == s.countData.value
  {
    match s.countData
    case Some(n) => n
    case None => 0
  }

  /**
   * create_data. It bumps the sequence counter, looks at the record stored
   * under the bumped value and carries on only if that record is NOT revoked
   * (a missing record reads as the revoked sentinel). It then bumps pending
   * and total and stores the new record under the new total.
   */
  function CreateData(s: Store, patientId: string, dataHash: string, time: u64): (o: Outcome<u64>)
    ensures o.result.Err? ==> o.store == s
    ensures o.result.Ok? <==>
      CountData(s) < U64_MAX && !ViewData(s, CountData(s) + 1).isRevoked &&
      ViewAllDataStatus(s).pending < U64_MAX && ViewAllDataStatus(s).total < U64_MAX
    ensures o.result.Ok? ==>
      ViewAllDataStatus(s).total < U64_MAX && o.result.value == ViewAllDataStatus(s).total + 1 &&
      ViewData(o.store, o.result.value) == HealthRecord(o.result.value, patientId, dataHash, time, false) &&
      ViewAllDataStatus(o.store).total == o.result.value
  {
    var count := CountData(s);
    if count == U64_MAX then Outcome(s, Err(ArithmeticOverflow)) else
    var next := count + 1;
    var record := ViewData(s, next);
    if record.isRevoked then Outcome(s, Err(RevokedOrPending)) else
    var status := ViewAllDataStatus(s);
    if status.pending == U64_MAX || status.total == U64_MAX then Outcome(s, Err(ArithmeticOverflow)) else
    var status' := status.(pending := status.pending + 1, total := status.total + 1);
    var record' := record.(recordId := status'.total, patientId := patientId, dataHash := dataHash,
                           timestamp := time, isRevoked := false);
    Outcome(Store(Some(status'), Some(next), s.data[record'.recordId := record'], s.admin), Ok(record'.recordId))
  }

  /**
   * revoke_access. It marks an unrevoked record as revoked and bumps the
   * revoked counter. The record is written back under its own recordId
   * field, not under the key it was read from.
   */
  function RevokeAccess(s: Store, recordId: u64): (o: Outcome<()>)
    ensures o.result.Err? ==> o.store == s
    ensures o.result.Ok? <==> !ViewData(s, recordId).isRevoked && ViewAllDataStatus(s).revoked < U64_MAX
    ensures o.result.Ok? ==>
      ViewData(o.store, ViewData(s, recordId).recordId).isRevoked &&
      ViewAllDataStatus(o.store).revoked == ViewAllDataStatus(s).revoked + 1
  {
    var record := ViewData(s, recordId);
    if record.isRevoked then Outcome(s, Err(RevokedOrMissing)) else
    var status := ViewAllDataStatus(s);
    if status.revoked == U64_MAX then Outcome(s, Err(ArithmeticOverflow)) else
    var record' := record.(isRevoked := true);
    var status' := status.(revoked := status.revoked + 1);
    Outcome(Store(Some(status'), s.countData, s.data[record'.recordId := record'], s.admin), Ok(()))
  }

  /**
   * request_access. It grants access for `recordId` unless already granted,
   * bumps granted and lowers pending. It does not look at the records.
   */
  function RequestAccess(s: Store, recordId: u64): (o: Outcome<()>)
    ensures o.result.Err? ==> o.store == s
    ensures o.result.Ok? <==>
      !ViewAdminControl(s, recordId).accessGranted &&
      ViewAllDataStatus(s).granted < U64_MAX && ViewAllDataStatus(s).pending > 0
    ensures o.result.Ok? ==>
      ViewAdminControl(o.store, recordId) == AdminControl(recordId, true) &&
      ViewAllDataStatus(o.store).granted == ViewAllDataStatus(s).granted + 1 &&
      ViewAllDataStatus(o.store).pending == ViewAllDataStatus(s).pending - 1
  {
    var grant := ViewAdminControl(s, recordId);
    if grant.accessGranted then Outcome(s, Err(AlreadyGranted)) else
    var status := ViewAllDataStatus(s);
    if status.granted == U64_MAX then Outcome(s, Err(ArithmeticOverflow)) else
    if status.pending == 0 then Outcome(s, Err(ArithmeticUnderflow)) else
    var grant' := grant.(recordId := recordId, accessGranted := true);
    var status' := status.(granted := status.granted + 1, pending := status.pending - 1);
    Outcome(Store(Some(status'), s.countData, s.data, s.admin[recordId := grant']), Ok(()))
  }

  /** One invocation of a mutating entry point, with the host clock as an input. */
  datatype Call =
    | CreateDataCall(patientId: string, dataHash: string, time: u64)
    | RevokeAccessCall(recordId: u64)
    | RequestAccessCall(recordId: u64)

  /** The store after one call (unchanged when the call aborts). */
  function Step(s: Store, c: Call): Store {
    match c
    case CreateDataCall(p, h, t) => CreateData(s, p, h, t).store
    case RevokeAccessCall(id) => RevokeAccess(s, id).store
    case RequestAccessCall(id) => RequestAccess(s, id).store
  }

  /** Whether the call aborts. */
  predicate Aborts(s: Store, c: Call) {
    match c
    case CreateDataCall(p, h, t) => CreateData(s, p, h, t).result.Err?
    case RevokeAccessCall(id) => RevokeAccess(s, id).result.Err?
    case RequestAccessCall(id) => RequestAccess(s, id).result.Err?
  }

  /** The store after a sequence of calls, one atomic step each. */
  function Run(s: Store, calls: seq<Call>): Store
    decreases |calls|
  {
    if |calls| == 0 then s else Run(Step(s, calls[0]), calls[1..])
  }

  /** COUNT_DATA and total move together. */
  predicate CountersAgree(s: Store) {
    CountData(s) == ViewAllDataStatus(s).total
  }

  /** Every stored record carries the key it is stored under. */
  predicate KeysMatchIds(s: Store) {
    forall k :: k in s.data ==> s.data[k].recordId == k
  }

  /** Every stored record's key lies in 1..total. */
  predicate KeysWithinTotal(s: Store) {
    forall k :: k in s.data ==> 1 <= k <= ViewAllDataStatus(s).total
  }

  /** An invariant that holds of the empty store and that every call keeps. */
  predicate Inv(s: Store) {
    CountersAgree(s) && KeysMatchIds(s) && KeysWithinTotal(s)
  }
}
