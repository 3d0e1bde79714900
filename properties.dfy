/**
 * What the contract's entry points do, proved about the pure transitions in
 * Ledger: the read defaults, the guard and the effect of each mutating call,
 * that an aborted call writes nothing, an invariant every call keeps, and
 * that from the empty store no call can ever succeed.
 */
module LedgerProperties {
  import opened Ledger

  // ---------------------------------------------------------------------
  // Reads with defaults

  /** view_data returns the stored record, or the revoked "Not Found" sentinel. */
  lemma ViewDataDefault(s: Store, recordId: u64)
    ensures recordId !in s.data ==>
      ViewData(s, recordId) == HealthRecord(0, "Not Found", "Not Found", 0, true)
    ensures recordId in s.data ==> ViewData(s, recordId) == s.data[recordId]
  {
  }

  /** view_all_data_status returns the stored counters, or all zeros. */
  lemma ViewAllDataStatusDefault(s: Store)
    ensures s.allData.None? ==> ViewAllDataStatus(s) == DataAccessStatus(0, 0, 0, 0)
    ensures s.allData.Some? ==> ViewAllDataStatus(s) == s.allData.value
  {
  }

  /** view_admin_control returns the stored grant, or "not granted" for id 0. */
  lemma ViewAdminControlDefault(s: Store, recordId: u64)
    ensures recordId !in s.admin ==> ViewAdminControl(s, recordId) == AdminControl(0, false)
    ensures recordId in s.admin ==> ViewAdminControl(s, recordId) == s.admin[recordId]
  {
  }

  // ---------------------------------------------------------------------
  // create_data

  /**
   * create_data succeeds exactly when the record at COUNT_DATA + 1 is stored
   * and unrevoked and none of the three counters it bumps is at U64_MAX.
   */
  lemma CreateDataGuard(s: Store, patientId: string, dataHash: string, time: u64)
    ensures CreateData(s, patientId, dataHash, time).result.Ok? <==>
      CountData(s) < U64_MAX &&
      CountData(s) + 1 in s.data && !s.data[CountData(s) + 1].isRevoked &&
      ViewAllDataStatus(s).pending < U64_MAX &&
      ViewAllDataStatus(s).total < U64_MAX
  {
  }

  /**
   * A successful create_data stores a fresh unrevoked record under
   * total + 1, bumps pending, total and COUNT_DATA by one, leaves granted,
   * revoked and the grants alone, and returns the new total.
   */
  lemma CreateDataEffect(s: Store, patientId: string, dataHash: string, time: u64)
    requires CreateData(s, patientId, dataHash, time).result.Ok?
    ensures
      var o := CreateData(s, patientId, dataHash, time);
      var st := ViewAllDataStatus(s);
      st.total < U64_MAX && st.pending < U64_MAX && CountData(s) < U64_MAX &&
      o.result == Ok(st.total + 1) &&
      o.store.data == s.data[st.total + 1 := HealthRecord(st.total + 1, patientId, dataHash, time, false)] &&
      ViewAllDataStatus(o.store) == DataAccessStatus(st.granted, st.pending + 1, st.revoked, st.total + 1) &&
      CountData(o.store) == CountData(s) + 1 &&
      o.store.admin == s.admin
  {
  }

  /** From the freshly deployed store, create_data always aborts. */
  lemma CreateDataAbortsOnEmptyStore(patientId: string, dataHash: string, time: u64)
    ensures CreateData(EmptyStore(), patientId, dataHash, time) == Outcome(EmptyStore(), Err(RevokedOrPending))
  {
  }

  /**
   * When COUNT_DATA equals total, the slot create_data checks is the slot it
   * writes, so a successful create only ever replaces an unrevoked record.
   */
  lemma CreateDataWritesCheckedSlot(s: Store, patientId: string, dataHash: string, time: u64)
    requires CountersAgree(s)
    requires CreateData(s, patientId, dataHash, time).result.Ok?
    ensures
      var written := CreateData(s, patientId, dataHash, time).result.value;
      written == CountData(s) + 1 && written in s.data && !s.data[written].isRevoked
  {
  }

  /** Under Inv the slot COUNT_DATA + 1 is never stored, so create_data aborts. */
  lemma CreateDataAbortsUnderInv(s: Store, patientId: string, dataHash: string, time: u64)
    requires Inv(s)
    ensures CreateData(s, patientId, dataHash, time).result.Err?
    ensures CreateData(s, patientId, dataHash, time).store == s
  {
  }

  // ---------------------------------------------------------------------
  // revoke_access

  /**
   * revoke_access succeeds exactly when a record is stored for the id, it is
   * not revoked and the revoked counter is below U64_MAX.
   */
  lemma RevokeAccessGuard(s: Store, recordId: u64)
    ensures RevokeAccess(s, recordId).result.Ok? <==>
      recordId in s.data && !s.data[recordId].isRevoked && ViewAllDataStatus(s).revoked < U64_MAX
  {
  }

  /**
   * A successful revoke_access writes the record, now revoked and otherwise
   * unchanged, under the record's own id field, bumps revoked only, and
   * changes neither COUNT_DATA nor the grants.
   */
  lemma RevokeAccessEffect(s: Store, recordId: u64)
    requires RevokeAccess(s, recordId).result.Ok?
    ensures
      var o := RevokeAccess(s, recordId);
      var st := ViewAllDataStatus(s);
      recordId in s.data && st.revoked < U64_MAX &&
      var rec := s.data[recordId];
      o.store.data == s.data[rec.recordId := HealthRecord(rec.recordId, rec.patientId, rec.dataHash, rec.timestamp, true)] &&
      ViewAllDataStatus(o.store) == DataAccessStatus(st.granted, st.pending, st.revoked + 1, st.total) &&
      o.store.countData == s.countData &&
      o.store.admin == s.admin
  {
  }

  /** When every record carries its own key, revoke_access revokes in place. */
  lemma RevokeAccessInPlace(s: Store, recordId: u64)
    requires KeysMatchIds(s)
    requires RevokeAccess(s, recordId).result.Ok?
    ensures recordId in s.data
    ensures RevokeAccess(s, recordId).store.data == s.data[recordId := s.data[recordId].(isRevoked := true)]
  {
  }

  /** Revoking the same record twice: the second call aborts and writes nothing. */
  lemma RevokeAccessTwiceAborts(s: Store, recordId: u64)
    requires KeysMatchIds(s)
    requires RevokeAccess(s, recordId).result.Ok?
    ensures
      var s' := RevokeAccess(s, recordId).store;
      RevokeAccess(s', recordId) == Outcome(s', Err(RevokedOrMissing))
  {
    RevokeAccessInPlace(s, recordId);
  }

  /** On the freshly deployed store revoke_access aborts for every id. */
  lemma RevokeAccessAbortsOnEmptyStore(recordId: u64)
    ensures RevokeAccess(EmptyStore(), recordId) == Outcome(EmptyStore(), Err(RevokedOrMissing))
  {
  }

  // ---------------------------------------------------------------------
  // request_access

  /**
   * A successful request_access stores a true grant for the id, bumps
   * granted, lowers pending, and changes neither records nor COUNT_DATA.
   */
  lemma RequestAccessEffect(s: Store, recordId: u64)
    requires RequestAccess(s, recordId).result.Ok?
    ensures
      var o := RequestAccess(s, recordId);
      var st := ViewAllDataStatus(s);
      st.granted < U64_MAX && st.pending > 0 &&
      o.store.admin == s.admin[recordId := AdminControl(recordId, true)] &&
      ViewAllDataStatus(o.store) == DataAccessStatus(st.granted + 1, st.pending - 1, st.revoked, st.total) &&
      o.store.data == s.data &&
      o.store.countData == s.countData
  {
  }

  /** request_access does not depend on the stored records at all. */
  lemma RequestAccessIgnoresRecords(s: Store, recordId: u64, records: map<u64, HealthRecord>)
    ensures RequestAccess(s.(data := records), recordId).result == RequestAccess(s, recordId).result
    ensures RequestAccess(s.(data := records), recordId).store ==
            RequestAccess(s, recordId).store.(data := records)
  {
  }

  /** Requesting the same access twice: the second call aborts and writes nothing. */
  lemma RequestAccessTwiceAborts(s: Store, recordId: u64)
    requires RequestAccess(s, recordId).result.Ok?
    ensures
      var s' := RequestAccess(s, recordId).store;
      RequestAccess(s', recordId) == Outcome(s', Err(AlreadyGranted))
  {
  }

  /** On the freshly deployed store pending is 0, so request_access underflows. */
  lemma RequestAccessAbortsOnEmptyStore(recordId: u64)
    ensures RequestAccess(EmptyStore(), recordId) == Outcome(EmptyStore(), Err(ArithmeticUnderflow))
  {
  }

  // ---------------------------------------------------------------------
  // Every call

  /** A call aborts exactly when it leaves the store as it was. */
  lemma AbortsIffUnchanged(s: Store, c: Call)
    ensures Aborts(s, c) <==> Step(s, c) == s
  {
    match c
    case CreateDataCall(p, h, t) =>
      if !Aborts(s, c) {
        assert Step(s, c).countData != s.countData by {
          assert Step(s, c).countData == Some(CountData(s) + 1);
        }
      }
    case RevokeAccessCall(id) =>
      if !Aborts(s, c) {
        assert ViewAllDataStatus(Step(s, c)).revoked == ViewAllDataStatus(s).revoked + 1;
      }
    case RequestAccessCall(id) =>
      if !Aborts(s, c) {
        assert ViewAllDataStatus(Step(s, c)).granted == ViewAllDataStatus(s).granted + 1;
      }
  }

  /** COUNT_DATA == total and "records carry their keys" survive every call. */
  lemma StepKeepsAgreementAndIds(s: Store, c: Call)
    requires CountersAgree(s) && KeysMatchIds(s)
    ensures CountersAgree(Step(s, c)) && KeysMatchIds(Step(s, c))
  {
    match c
    case CreateDataCall(p, h, t) =>
    case RevokeAccessCall(id) =>
      if !Aborts(s, c) {
        RevokeAccessInPlace(s, id);
      }
    case RequestAccessCall(id) =>
  }

  /** Every call keeps Inv. */
  lemma StepKeepsInv(s: Store, c: Call)
    requires Inv(s)
    ensures Inv(Step(s, c))
  {
    match c
    case CreateDataCall(p, h, t) =>
      CreateDataAbortsUnderInv(s, p, h, t);
    case RevokeAccessCall(id) =>
      StepKeepsAgreementAndIds(s, c);
      if !Aborts(s, c) {
        RevokeAccessInPlace(s, id);
        assert ViewAllDataStatus(Step(s, c)).total == ViewAllDataStatus(s).total;
      }
    case RequestAccessCall(id) =>
  }

  /** The freshly deployed store satisfies Inv. */
  lemma EmptyStoreSatisfiesInv()
    ensures Inv(EmptyStore())
  {
  }

  /** Inv holds after any sequence of calls from a store satisfying it. */
  lemma {:induction false} RunKeepsInv(s: Store, calls: seq<Call>)
    requires Inv(s)
    ensures Inv(Run(s, calls))
    decreases |calls|
  {
    if |calls| > 0 {
      StepKeepsInv(s, calls[0]);
      RunKeepsInv(Step(s, calls[0]), calls[1..]);
    }
  }

  /**
   * Once COUNT_DATA equals total and records carry their keys, a revoked
   * record is never overwritten and never becomes unrevoked by one call.
   */
  lemma RevokedRecordIsFrozen(s: Store, c: Call, k: u64)
    requires CountersAgree(s) && KeysMatchIds(s)
    requires k in s.data && s.data[k].isRevoked
    ensures k in Step(s, c).data && Step(s, c).data[k] == s.data[k]
  {
    match c
    case CreateDataCall(p, h, t) =>
      if !Aborts(s, c) {
        CreateDataWritesCheckedSlot(s, p, h, t);
      }
    case RevokeAccessCall(id) =>
      if !Aborts(s, c) {
        RevokeAccessInPlace(s, id);
      }
    case RequestAccessCall(id) =>
  }

  /** The same along any sequence of calls. */
  lemma {:induction false} RevokedRecordStaysFrozen(s: Store, calls: seq<Call>, k: u64)
    requires CountersAgree(s) && KeysMatchIds(s)
    requires k in s.data && s.data[k].isRevoked
    ensures k in Run(s, calls).data && Run(s, calls).data[k] == s.data[k]
    decreases |calls|
  {
    if |calls| > 0 {
      RevokedRecordIsFrozen(s, calls[0], k);
      StepKeepsAgreementAndIds(s, calls[0]);
      RevokedRecordStaysFrozen(Step(s, calls[0]), calls[1..], k);
    }
  }

  // ---------------------------------------------------------------------
  // Reachable states

  /** Every call aborts on the freshly deployed store and leaves it empty. */
  lemma EmptyStoreIsFixpoint(c: Call)
    ensures Aborts(EmptyStore(), c)
    ensures Step(EmptyStore(), c) == EmptyStore()
  {
    match c
    case CreateDataCall(p, h, t) => CreateDataAbortsOnEmptyStore(p, h, t);
    case RevokeAccessCall(id) => RevokeAccessAbortsOnEmptyStore(id);
    case RequestAccessCall(id) => RequestAccessAbortsOnEmptyStore(id);
  }

  /** No sequence of calls moves the contract away from its deployed state. */
  lemma {:induction false} RunFromEmptyStore(calls: seq<Call>)
    ensures Run(EmptyStore(), calls) == EmptyStore()
    decreases |calls|
  {
    if |calls| > 0 {
      EmptyStoreIsFixpoint(calls[0]);
      RunFromEmptyStore(calls[1..]);
    }
  }

  /**
   * In every reachable state no record exists: view_data returns the
   * sentinel for every id, and COUNT_DATA equals total.
   */
  lemma NoRecordIsEverCreated(calls: seq<Call>, recordId: u64)
    ensures Run(EmptyStore(), calls).data == map[]
    ensures ViewData(Run(EmptyStore(), calls), recordId) == NotFoundRecord
    ensures CountersAgree(Run(EmptyStore(), calls))
  {
    RunFromEmptyStore(calls);
  }

  /**
   * In every reachable state every call aborts: create_data because its
   * slot reads as revoked, revoke_access because the record is missing,
   * request_access because pending is 0.
   */
  lemma EveryReachableCallAborts(calls: seq<Call>, c: Call)
    ensures Aborts(Run(EmptyStore(), calls), c)
    ensures c.CreateDataCall? ==>
      CreateData(Run(EmptyStore(), calls), c.patientId, c.dataHash, c.time).result == Err(RevokedOrPending)
    ensures c.RevokeAccessCall? ==>
      RevokeAccess(Run(EmptyStore(), calls), c.recordId).result == Err(RevokedOrMissing)
    ensures c.RequestAccessCall? ==>
      RequestAccess(Run(EmptyStore(), calls), c.recordId).result == Err(ArithmeticUnderflow)
  {
    RunFromEmptyStore(calls);
    EmptyStoreIsFixpoint(c);
  }
}
