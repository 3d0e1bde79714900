/**
 * The contract object: its instance storage as fields, and the three
 * mutating entry points as methods that read the store, change local copies
 * and write them back, in the order the contract does. Each method is
 * proved to do exactly what the matching pure transition in Ledger does;
 * the properties of those transitions are proved in LedgerProperties.
 */
module Contract {
  import opened Ledger
  import LedgerProperties

  class HealthcareDataContract {
    var allData: Option<DataAccessStatus>
    var countData: Option<u64>
    var data: map<u64, HealthRecord>
    var admin: map<u64, AdminControl>

    /** The storage as a value. */
    function Snapshot(): Store
      reads this
    {
      Store(allData, countData, data, admin)
    }

    /** The contract's object invariant: Ledger.Inv of its storage. */
    ghost predicate Valid()
      reads this
    {
      Inv(Snapshot())
    }

    /** A freshly deployed contract: no storage key is set. */
    constructor ()
      ensures Snapshot() == EmptyStore()
      ensures Valid()
    {
      allData, countData, data, admin := None, None, map[], map[];
      LedgerProperties.EmptyStoreSatisfiesInv();
    }

    /** create_data, with the host clock reading passed in as `time`. */
    method CreateData(patientId: string, dataHash: string, time: u64) returns (r: Result<u64>)
      modifies this
      ensures Outcome(Snapshot(), r) == Ledger.CreateData(old(Snapshot()), patientId, dataHash, time)
      ensures old(Valid()) ==> Valid() && r.Err?
    {
      ghost var s := Snapshot();
      var count: u64 := if countData.Some? then countData.value else 0;
      if count == U64_MAX {
        return Err(ArithmeticOverflow);
      }
      count := count + 1;
      var record := ViewData(Snapshot(), count);
      if !record.isRevoked {
        record := record.(patientId := patientId, dataHash := dataHash, timestamp := time, isRevoked := false);
        var status := ViewAllDataStatus(Snapshot());
        if status.pending == U64_MAX {
          return Err(ArithmeticOverflow);
        }
        status := status.(pending := status.pending + 1);
        if status.total == U64_MAX {
          return Err(ArithmeticOverflow);
        }
        status := status.(total := status.total + 1);
        record := record.(recordId := status.total);
        data := data[record.recordId := record];
        allData := Some(status);
        countData := Some(count);
        r := Ok(record.recordId);
      } else {
        r := Err(RevokedOrPending);
      }
      if Inv(s) {
        LedgerProperties.CreateDataAbortsUnderInv(s, patientId, dataHash, time);
      }
    }

    /** revoke_access. */
    method RevokeAccess(recordId: u64) returns (r: Result<()>)
      modifies this
      ensures Outcome(Snapshot(), r) == Ledger.RevokeAccess(old(Snapshot()), recordId)
      ensures old(Valid()) ==> Valid()
    {
      ghost var s := Snapshot();
      var record := ViewData(Snapshot(), recordId);
      if !record.isRevoked {
        record := record.(isRevoked := true);
        var status := ViewAllDataStatus(Snapshot());
        if status.revoked == U64_MAX {
          return Err(ArithmeticOverflow);
        }
        status := status.(revoked := status.revoked + 1);
        data := data[record.recordId := record];
        allData := Some(status);
        r := Ok(());
      } else {
        r := Err(RevokedOrMissing);
      }
      if Inv(s) {
        LedgerProperties.StepKeepsInv(s, RevokeAccessCall(recordId));
      }
    }

    /** request_access. */
    method RequestAccess(recordId: u64) returns (r: Result<()>)
      modifies this
      ensures Outcome(Snapshot(), r) == Ledger.RequestAccess(old(Snapshot()), recordId)
      ensures old(Valid()) ==> Valid()
    {
      ghost var s := Snapshot();
      var grant := ViewAdminControl(Snapshot(), recordId);
      if !grant.accessGranted {
        grant := grant.(recordId := recordId, accessGranted := true);
        var status := ViewAllDataStatus(Snapshot());
        if status.granted == U64_MAX {
          return Err(ArithmeticOverflow);
        }
        status := status.(granted := status.granted + 1);
        // u64 subtraction: panics at zero under Rust's overflow checks.
        if status.pending == 0 {
          return Err(ArithmeticUnderflow);
        }
        status := status.(pending := status.pending - 1);
        admin := admin[recordId := grant];
        allData := Some(status);
        r := Ok(());
      } else {
        r := Err(AlreadyGranted);
      }
      if Inv(s) {
        LedgerProperties.StepKeepsInv(s, RequestAccessCall(recordId));
      }
    }
  }
}
