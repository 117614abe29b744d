/**
 * Record reconciliation for the netcup provider: identity lookup, the batches
 * submitted for an append and for a set, and the conversion between the
 * provider's records and the caller's records.
 *
 * Each operation is a method with the loop of the original; each method is
 * specified by a function over sequences that the lemmas of UtilProperties
 * are about.
 */
module Util {
  import opened Types

  datatype Option<T> = None | Some(value: T)

  const TwoTo63: int := 0x8000_0000_0000_0000
  const TwoTo64: int := 0x1_0000_0000_0000_0000

  /** Nanoseconds in a second (`time.Second`). */
  const NanosPerSecond: int := 1_000_000_000

  /** The largest TTL, in seconds, whose duration in nanoseconds fits an int64. */
  const MaxExactTtl: int := 9_223_372_036

  /** The int64 that Go's wrapping arithmetic produces for the mathematical value `x`. */
  function WrapInt64(x: int): (r: Int64)
    ensures -TwoTo63 <= x < TwoTo63 ==> r as int == x
    ensures (x - r as int) % TwoTo64 == 0
  {
    var m := x % TwoTo64;
    if m < TwoTo63 then m as Int64 else (m - TwoTo64) as Int64
  }

  /** `time.Duration(ttl * int64(time.Second))`: the product is taken in int64. */
  function SecondsToDuration(ttl: Int64): (d: Int64)
    ensures -MaxExactTtl <= ttl as int <= MaxExactTtl ==> d as int == ttl as int * NanosPerSecond
    ensures (ttl as int * NanosPerSecond - d as int) % TwoTo64 == 0
  {
    WrapInt64(ttl as int * NanosPerSecond)
  }

  // ---------------------------------------------------------------------------
  // Identity lookup

  /** The three ways an existing record is looked up. */
  datatype LookupKey =
    | ById(id: string)
    | ByNameAndType(hostName: string, recType: string)
    | ByNameAndTypeAndPriority(hostName: string, recType: string, priority: int)

  predicate Matches(key: LookupKey, rec: DnsRecord) {
    match key
    case ById(id) => rec.id == id
    case ByNameAndType(hostName, recType) =>
      rec.hostName == hostName && rec.recType == recType
    case ByNameAndTypeAndPriority(hostName, recType, priority) =>
      rec.hostName == hostName && rec.recType == recType && rec.priority == priority
  }

  /** The first record of `records` that `key` matches, if any. */
  function FirstMatch(key: LookupKey, records: seq<DnsRecord>): Option<DnsRecord> {
    if records == [] then None
    else if Matches(key, records[0]) then Some(records[0])
    else FirstMatch(key, records[1..])
  }

  /** `i` is the position of the first record of `records` that `key` matches. */
  ghost predicate IsFirstMatchAt(key: LookupKey, records: seq<DnsRecord>, i: int) {
    && 0 <= i < |records|
    && Matches(key, records[i])
    && forall j | 0 <= j < i :: !Matches(key, records[j])
  }

  method FindRecordById(id: string, records: seq<DnsRecord>) returns (found: Option<DnsRecord>)
    ensures found == FirstMatch(ById(id), records)
  {
    var i := 0;
    while i < |records|
      invariant 0 <= i <= |records|
      invariant FirstMatch(ById(id), records[i..]) == FirstMatch(ById(id), records)
    {
      if records[i].id == id {
        return Some(records[i]);
      }
      assert records[i..][1..] == records[i + 1..];
      i := i + 1;
    }
    return None;
  }

  method FindRecordByNameAndType(hostName: string, recType: string, records: seq<DnsRecord>)
    returns (found: Option<DnsRecord>)
    ensures found == FirstMatch(ByNameAndType(hostName, recType), records)
  {
    var i := 0;
    while i < |records|
      invariant 0 <= i <= |records|
      invariant FirstMatch(ByNameAndType(hostName, recType), records[i..])
             == FirstMatch(ByNameAndType(hostName, recType), records)
    {
      if records[i].hostName == hostName && records[i].recType == recType {
        return Some(records[i]);
      }
      assert records[i..][1..] == records[i + 1..];
      i := i + 1;
    }
    return None;
  }

  method FindRecordByNameAndTypeAndPriority(hostName: string, recType: string, priority: int, records: seq<DnsRecord>)
    returns (found: Option<DnsRecord>)
    ensures found == FirstMatch(ByNameAndTypeAndPriority(hostName, recType, priority), records)
  {
    var i := 0;
    while i < |records|
      invariant 0 <= i <= |records|
      invariant FirstMatch(ByNameAndTypeAndPriority(hostName, recType, priority), records[i..])
             == FirstMatch(ByNameAndTypeAndPriority(hostName, recType, priority), records)
    {
      if records[i].hostName == hostName && records[i].recType == recType && records[i].priority == priority {
        return Some(records[i]);
      }
      assert records[i..][1..] == records[i + 1..];
      i := i + 1;
    }
    return None;
  }

  /** The lookup used for records arriving without an id: MX records are told
      apart by their priority (the preference of section 3.3.9 of RFC 1035). */
  function AppendKey(rec: DnsRecord): LookupKey {
    if rec.recType != "MX" then ByNameAndType(rec.hostName, rec.recType)
    else ByNameAndTypeAndPriority(rec.hostName, rec.recType, rec.priority)
  }

  /** The lookup used when setting records: by id when the record carries one. */
  function SetKey(rec: DnsRecord): LookupKey {
    if rec.id != "" then ById(rec.id) else AppendKey(rec)
  }

  // ---------------------------------------------------------------------------
  // The append batch

  /** A desired record is appended unless the record it resolves to already has
      its destination. */
  predicate KeepForAppend(rec: DnsRecord, existingRecords: seq<DnsRecord>) {
    match FirstMatch(AppendKey(rec), existingRecords)
    case None => true
    case Some(found) => found.destination != rec.destination
  }

  function RecordsToAppend(updateRecords: seq<DnsRecord>, existingRecords: seq<DnsRecord>): seq<DnsRecord>
    decreases |updateRecords|
  {
    if updateRecords == [] then []
    else
      var n := |updateRecords| - 1;
      RecordsToAppend(updateRecords[..n], existingRecords)
        + (if KeepForAppend(updateRecords[n], existingRecords) then [updateRecords[n]] else [])
  }

  method GetRecordsToAppend(updateRecords: seq<DnsRecord>, existingRecords: seq<DnsRecord>)
    returns (recordsToAppend: seq<DnsRecord>)
    ensures recordsToAppend == RecordsToAppend(updateRecords, existingRecords)
  {
    recordsToAppend := [];
    for i := 0 to |updateRecords|
      invariant recordsToAppend == RecordsToAppend(updateRecords[..i], existingRecords)
    {
      var record := updateRecords[i];
      var foundRecord: Option<DnsRecord>;
      if record.recType != "MX" {
        foundRecord := FindRecordByNameAndType(record.hostName, record.recType, existingRecords);
      } else {
        foundRecord := FindRecordByNameAndTypeAndPriority(record.hostName, record.recType, record.priority, existingRecords);
      }
      if foundRecord.None? || foundRecord.value.destination != record.destination {
        recordsToAppend := recordsToAppend + [record];
      }
      assert updateRecords[..i + 1][..i] == updateRecords[..i];
    }
    assert updateRecords[..|updateRecords|] == updateRecords;
  }

  // ---------------------------------------------------------------------------
  // The set batch

  /** What a set does with one desired record. */
  datatype SetDecision =
    | Update(record: DnsRecord)   // resolved to a different record: overwrite it
    | Append(record: DnsRecord)   // resolved to nothing: create it
    | Unchanged                   // resolved to an equal record: nothing to write

  function DecideSet(rec: DnsRecord, existingRecords: seq<DnsRecord>): SetDecision {
    match FirstMatch(SetKey(rec), existingRecords)
    case Some(found) => if !Equals(found, rec) then Update(rec.(id := found.id)) else Unchanged
    case None => Append(rec)
  }

  function SetUpdates(updateRecords: seq<DnsRecord>, existingRecords: seq<DnsRecord>): seq<DnsRecord>
    decreases |updateRecords|
  {
    if updateRecords == [] then []
    else
      var n := |updateRecords| - 1;
      var earlier := SetUpdates(updateRecords[..n], existingRecords);
      match DecideSet(updateRecords[n], existingRecords)
      case Update(rec) => earlier + [rec]
      case _ => earlier
  }

  function SetAppends(updateRecords: seq<DnsRecord>, existingRecords: seq<DnsRecord>): seq<DnsRecord>
    decreases |updateRecords|
  {
    if updateRecords == [] then []
    else
      var n := |updateRecords| - 1;
      var earlier := SetAppends(updateRecords[..n], existingRecords);
      match DecideSet(updateRecords[n], existingRecords)
      case Append(rec) => earlier + [rec]
      case _ => earlier
  }

  method GetRecordsToSet(updateRecords: seq<DnsRecord>, existingRecords: seq<DnsRecord>)
    returns (recordsToSet: seq<DnsRecord>)
    ensures recordsToSet == SetUpdates(updateRecords, existingRecords) + SetAppends(updateRecords, existingRecords)
  {
    var recordsToUpdate: seq<DnsRecord> := [];
    var recordsToAppend: seq<DnsRecord> := [];
    for i := 0 to |updateRecords|
      invariant recordsToUpdate == SetUpdates(updateRecords[..i], existingRecords)
      invariant recordsToAppend == SetAppends(updateRecords[..i], existingRecords)
    {
      var record := updateRecords[i];
      var foundRecord: Option<DnsRecord>;
      if record.id != "" {
        foundRecord := FindRecordById(record.id, existingRecords);
      } else if record.recType != "MX" {
        foundRecord := FindRecordByNameAndType(record.hostName, record.recType, existingRecords);
      } else {
        foundRecord := FindRecordByNameAndTypeAndPriority(record.hostName, record.recType, record.priority, existingRecords);
      }
      if foundRecord.Some? && !Equals(foundRecord.value, record) {
        record := record.(id := foundRecord.value.id);
        recordsToUpdate := recordsToUpdate + [record];
      } else if foundRecord.None? {
        recordsToAppend := recordsToAppend + [record];
      }
      assert updateRecords[..i + 1][..i] == updateRecords[..i];
    }
    assert updateRecords[..|updateRecords|] == updateRecords;
    recordsToSet := recordsToUpdate + recordsToAppend;
  }

  // ---------------------------------------------------------------------------
  // Conversion at the boundary

  /** The caller's record type (libdns.Record), with the fields this code uses.
      `ttl` is a duration in nanoseconds. */
  datatype LibdnsRecord = LibdnsRecord(
    id: string,
    recType: string,
    name: string,
    value: string,
    ttl: Int64,
    priority: int)

  function ToLibdnsRecord(rec: DnsRecord, ttl: Int64): LibdnsRecord {
    LibdnsRecord(rec.id, rec.recType, rec.hostName, rec.destination, SecondsToDuration(ttl), rec.priority)
  }

  function ToNetcupRecord(rec: LibdnsRecord): DnsRecord {
    DnsRecord(rec.id, rec.name, rec.recType, rec.priority, rec.value, false)
  }

  function LibdnsRecordsOf(netcupRecords: seq<DnsRecord>, ttl: Int64): seq<LibdnsRecord> {
    seq(|netcupRecords|, i requires 0 <= i < |netcupRecords| => ToLibdnsRecord(netcupRecords[i], ttl))
  }

  function NetcupRecordsOf(libdnsRecords: seq<LibdnsRecord>): seq<DnsRecord> {
    seq(|libdnsRecords|, i requires 0 <= i < |libdnsRecords| => ToNetcupRecord(libdnsRecords[i]))
  }

  method ToLibdnsRecords(netcupRecords: seq<DnsRecord>, ttl: Int64) returns (libdnsRecords: seq<LibdnsRecord>)
    ensures libdnsRecords == LibdnsRecordsOf(netcupRecords, ttl)
  {
    libdnsRecords := [];
    for i := 0 to |netcupRecords|
      invariant |libdnsRecords| == i
      invariant forall k | 0 <= k < i :: libdnsRecords[k] == ToLibdnsRecord(netcupRecords[k], ttl)
    {
      var record := netcupRecords[i];
      var libdnsRecord := LibdnsRecord(
        record.id, record.recType, record.hostName, record.destination,
        SecondsToDuration(ttl), record.priority);
      libdnsRecords := libdnsRecords + [libdnsRecord];
    }
  }

  method ToNetcupRecords(libdnsRecords: seq<LibdnsRecord>) returns (netcupRecords: seq<DnsRecord>)
    ensures netcupRecords == NetcupRecordsOf(libdnsRecords)
  {
    netcupRecords := [];
    for i := 0 to |libdnsRecords|
      invariant |netcupRecords| == i
      invariant forall k | 0 <= k < i :: netcupRecords[k] == ToNetcupRecord(libdnsRecords[k])
    {
      var record := libdnsRecords[i];
      var netcupRecord := DnsRecord(record.id, record.name, record.recType, record.priority, record.value, false);
      netcupRecords := netcupRecords + [netcupRecord];
    }
  }
}
