/**
 * What the reconciliation functions of Util promise: first-match lookup, the
 * append batch as an order-preserving selection of the desired records, the
 * set batch as updates followed by appends, and lossless conversion.
 */
module UtilProperties {
  import opened Types
  import opened Util

  ghost predicate StrictlyIncreasing(idx: seq<int>) {
    forall k, l | 0 <= k < l < |idx| :: idx[k] < idx[l]
  }

  // ---------------------------------------------------------------------------
  // First match

  /** A lookup finds nothing exactly when no record matches. */
  lemma {:induction false} FirstMatchAbsent(key: LookupKey, records: seq<DnsRecord>)
    ensures FirstMatch(key, records).None? <==> forall i | 0 <= i < |records| :: !Matches(key, records[i])
  {
    if records != [] {
      FirstMatchAbsent(key, records[1..]);
      assert forall i | 1 <= i < |records| :: records[i] == records[1..][i - 1];
    }
  }

  /** The record at the first matching position is the one found. */
  lemma {:induction false} FirstMatchAt(key: LookupKey, records: seq<DnsRecord>, i: int)
    requires IsFirstMatchAt(key, records, i)
    ensures FirstMatch(key, records) == Some(records[i])
  {
    if i > 0 {
      assert forall j | 0 <= j < i - 1 :: records[1..][j] == records[j + 1];
      FirstMatchAt(key, records[1..], i - 1);
    }
  }

  /** A record that is found sits at the first matching position. */
  lemma {:induction false} FirstMatchFound(key: LookupKey, records: seq<DnsRecord>) returns (i: int)
    requires FirstMatch(key, records).Some?
    ensures IsFirstMatchAt(key, records, i)
    ensures FirstMatch(key, records).value == records[i]
  {
    if Matches(key, records[0]) {
      i := 0;
    } else {
      var j := FirstMatchFound(key, records[1..]);
      i := j + 1;
      assert forall k | 1 <= k < i :: records[k] == records[1..][k - 1];
    }
  }

  /** An MX lookup only ever finds an MX record of the same host and priority. */
  lemma MxLookupMatchesPriority(rec: DnsRecord, existingRecords: seq<DnsRecord>, found: DnsRecord)
    requires rec.recType == "MX"
    requires FirstMatch(AppendKey(rec), existingRecords) == Some(found)
    ensures found in existingRecords
    ensures found.hostName == rec.hostName && found.recType == "MX" && found.priority == rec.priority
  {
    var i := FirstMatchFound(AppendKey(rec), existingRecords);
  }

  /** Two MX records of one host with different priorities are resolved independently. */
  lemma MxDisambiguation()
    ensures
      var mx10 := DnsRecord("1", "mail", "MX", 10, "mx1.example.", false);
      var mx20 := DnsRecord("2", "mail", "MX", 20, "mx2.example.", false);
      && FirstMatch(AppendKey(DnsRecord("", "mail", "MX", 20, "mx3.example.", false)), [mx10, mx20]) == Some(mx20)
      && FirstMatch(AppendKey(DnsRecord("", "mail", "MX", 10, "mx3.example.", false)), [mx10, mx20]) == Some(mx10)
  {
  }

  // ---------------------------------------------------------------------------
  // The append batch

  /** A desired record is kept exactly when nothing matches it, or when the first
      record that matches it has another destination. */
  lemma KeepForAppendRule(rec: DnsRecord, existingRecords: seq<DnsRecord>)
    ensures KeepForAppend(rec, existingRecords) <==>
      || (forall i | 0 <= i < |existingRecords| :: !Matches(AppendKey(rec), existingRecords[i]))
      || (exists i :: IsFirstMatchAt(AppendKey(rec), existingRecords, i)
                      && existingRecords[i].destination != rec.destination)
  {
    FirstMatchAbsent(AppendKey(rec), existingRecords);
    if FirstMatch(AppendKey(rec), existingRecords).Some? {
      var i := FirstMatchFound(AppendKey(rec), existingRecords);
      forall j | IsFirstMatchAt(AppendKey(rec), existingRecords, j)
        ensures j == i
      {
        FirstMatchAt(AppendKey(rec), existingRecords, j);
        assert !(j < i) && !(i < j);
      }
    }
  }

  /** The append batch selects desired records, unchanged and in input order:
      `idx` gives the position in the input of each record of the batch, and
      every position whose record is to be kept is among them. */
  lemma {:induction false} RecordsToAppendSelects(updateRecords: seq<DnsRecord>, existingRecords: seq<DnsRecord>)
    returns (idx: seq<int>)
    ensures |idx| == |RecordsToAppend(updateRecords, existingRecords)| <= |updateRecords|
    ensures StrictlyIncreasing(idx)
    ensures forall k | 0 <= k < |idx| ::
      && 0 <= idx[k] < |updateRecords|
      && RecordsToAppend(updateRecords, existingRecords)[k] == updateRecords[idx[k]]
      && KeepForAppend(updateRecords[idx[k]], existingRecords)
    ensures forall i | 0 <= i < |updateRecords| && KeepForAppend(updateRecords[i], existingRecords) :: i in idx
  {
    if updateRecords == [] {
      idx := [];
    } else {
      var n := |updateRecords| - 1;
      var earlier := updateRecords[..n];
      var earlierIdx := RecordsToAppendSelects(earlier, existingRecords);
      var batch := RecordsToAppend(updateRecords, existingRecords);
      var earlierBatch := RecordsToAppend(earlier, existingRecords);
      assert forall i | 0 <= i < n :: earlier[i] == updateRecords[i];
      if KeepForAppend(updateRecords[n], existingRecords) {
        assert batch == earlierBatch + [updateRecords[n]];
        idx := earlierIdx + [n];
      } else {
        assert batch == earlierBatch;
        idx := earlierIdx;
      }
    }
  }

  /** A record is in the append batch exactly when it is desired and kept. */
  lemma RecordsToAppendMembers(updateRecords: seq<DnsRecord>, existingRecords: seq<DnsRecord>)
    ensures forall rec :: rec in RecordsToAppend(updateRecords, existingRecords) <==>
      rec in updateRecords && KeepForAppend(rec, existingRecords)
  {
    var batch := RecordsToAppend(updateRecords, existingRecords);
    var idx := RecordsToAppendSelects(updateRecords, existingRecords);
    forall rec | rec in updateRecords && KeepForAppend(rec, existingRecords)
      ensures rec in batch
    {
      var i :| 0 <= i < |updateRecords| && updateRecords[i] == rec;
      var k :| 0 <= k < |idx| && idx[k] == i;
      assert batch[k] == rec;
    }
  }

  /** Appending records that the zone already resolves to the same destination
      submits nothing. */
  lemma {:induction false} AppendIdempotent(updateRecords: seq<DnsRecord>, existingRecords: seq<DnsRecord>)
    requires forall rec | rec in updateRecords :: exists i ::
      IsFirstMatchAt(AppendKey(rec), existingRecords, i) && existingRecords[i].destination == rec.destination
    ensures RecordsToAppend(updateRecords, existingRecords) == []
  {
    if updateRecords != [] {
      var n := |updateRecords| - 1;
      assert forall rec | rec in updateRecords[..n] :: rec in updateRecords;
      AppendIdempotent(updateRecords[..n], existingRecords);
      var rec := updateRecords[n];
      var i :| IsFirstMatchAt(AppendKey(rec), existingRecords, i) && existingRecords[i].destination == rec.destination;
      FirstMatchAt(AppendKey(rec), existingRecords, i);
    }
  }

  /** Only the first record resolved is compared: a desired A record equal to the
      second A record of its host is still appended. */
  lemma AppendComparesFirstMatchOnly()
    ensures
      var a1 := DnsRecord("1", "www", "A", 0, "1.1.1.1", false);
      var a2 := DnsRecord("2", "www", "A", 0, "2.2.2.2", false);
      var desired := DnsRecord("", "www", "A", 0, "2.2.2.2", false);
      RecordsToAppend([desired], [a1, a2]) == [desired]
  {
  }

  /** Only the destination is compared: outside MX, a desired record that differs
      from the existing one only in priority is not appended. */
  lemma AppendIgnoresPriorityOutsideMx()
    ensures
      var existing := DnsRecord("1", "www", "A", 5, "1.1.1.1", false);
      var desired := DnsRecord("", "www", "A", 0, "1.1.1.1", false);
      !Equals(existing, desired) && RecordsToAppend([desired], [existing]) == []
  {
  }

  /** Appending a TXT record to an empty zone submits it unchanged. */
  lemma AppendToEmptyZone()
    ensures
      var txt := DnsRecord("", "@", "TXT", 0, "v=spf1", false);
      RecordsToAppend([txt], []) == [txt]
  {
  }

  // ---------------------------------------------------------------------------
  // The set batch

  /** How one desired record is classified, in terms of the existing records. */
  lemma DecideSetRule(rec: DnsRecord, existingRecords: seq<DnsRecord>)
    ensures DecideSet(rec, existingRecords).Append? <==>
      forall i | 0 <= i < |existingRecords| :: !Matches(SetKey(rec), existingRecords[i])
    ensures DecideSet(rec, existingRecords).Append? ==> DecideSet(rec, existingRecords).record == rec
    ensures DecideSet(rec, existingRecords).Update? ==> exists i ::
      && IsFirstMatchAt(SetKey(rec), existingRecords, i)
      && !Equals(existingRecords[i], rec)
      && DecideSet(rec, existingRecords).record == rec.(id := existingRecords[i].id)
    ensures DecideSet(rec, existingRecords).Unchanged? <==> exists i ::
      IsFirstMatchAt(SetKey(rec), existingRecords, i) && Equals(existingRecords[i], rec)
  {
    FirstMatchAbsent(SetKey(rec), existingRecords);
    if FirstMatch(SetKey(rec), existingRecords).Some? {
      var i := FirstMatchFound(SetKey(rec), existingRecords);
      forall j | IsFirstMatchAt(SetKey(rec), existingRecords, j)
        ensures j == i
      {
        FirstMatchAt(SetKey(rec), existingRecords, j);
        assert !(j < i) && !(i < j);
      }
    }
  }

  /** An update takes over the id of an existing record and keeps everything
      else of the desired record; a record set by its id keeps that id. */
  lemma UpdateTakesMatchedId(rec: DnsRecord, existingRecords: seq<DnsRecord>, updated: DnsRecord)
    requires DecideSet(rec, existingRecords) == Update(updated)
    ensures exists found :: found in existingRecords && found.id == updated.id && !Equals(found, updated)
    ensures updated == rec.(id := updated.id)
    ensures rec.id != "" ==> updated.id == rec.id
  {
    var i := FirstMatchFound(SetKey(rec), existingRecords);
    assert existingRecords[i] in existingRecords;
  }

  /** The update part of the set batch: one record per desired record classified
      as an update, in input order, and no other. */
  lemma {:induction false} SetUpdatesSelects(updateRecords: seq<DnsRecord>, existingRecords: seq<DnsRecord>)
    returns (idx: seq<int>)
    ensures |idx| == |SetUpdates(updateRecords, existingRecords)|
    ensures StrictlyIncreasing(idx)
    ensures forall k | 0 <= k < |idx| ::
      && 0 <= idx[k] < |updateRecords|
      && DecideSet(updateRecords[idx[k]], existingRecords) == Update(SetUpdates(updateRecords, existingRecords)[k])
    ensures forall i | 0 <= i < |updateRecords| && DecideSet(updateRecords[i], existingRecords).Update? :: i in idx
  {
    if updateRecords == [] {
      idx := [];
    } else {
      var n := |updateRecords| - 1;
      var earlier := updateRecords[..n];
      var earlierIdx := SetUpdatesSelects(earlier, existingRecords);
      var batch := SetUpdates(updateRecords, existingRecords);
      var earlierBatch := SetUpdates(earlier, existingRecords);
      assert forall i | 0 <= i < n :: earlier[i] == updateRecords[i];
      match DecideSet(updateRecords[n], existingRecords)
      case Update(rec) =>
        assert batch == earlierBatch + [rec];
        idx := earlierIdx + [n];
      case _ =>
        assert batch == earlierBatch;
        idx := earlierIdx;
    }
  }

  /** The append part of the set batch: the desired records that resolve to
      nothing, unchanged (id included) and in input order, and no other. */
  lemma {:induction false} SetAppendsSelects(updateRecords: seq<DnsRecord>, existingRecords: seq<DnsRecord>)
    returns (idx: seq<int>)
    ensures |idx| == |SetAppends(updateRecords, existingRecords)|
    ensures StrictlyIncreasing(idx)
    ensures forall k | 0 <= k < |idx| ::
      && 0 <= idx[k] < |updateRecords|
      && SetAppends(updateRecords, existingRecords)[k] == updateRecords[idx[k]]
      && DecideSet(updateRecords[idx[k]], existingRecords).Append?
    ensures forall i | 0 <= i < |updateRecords| && DecideSet(updateRecords[i], existingRecords).Append? :: i in idx
  {
    if updateRecords == [] {
      idx := [];
    } else {
      var n := |updateRecords| - 1;
      var earlier := updateRecords[..n];
      var earlierIdx := SetAppendsSelects(earlier, existingRecords);
      var batch := SetAppends(updateRecords, existingRecords);
      var earlierBatch := SetAppends(earlier, existingRecords);
      assert forall i | 0 <= i < n :: earlier[i] == updateRecords[i];
      match DecideSet(updateRecords[n], existingRecords)
      case Append(rec) =>
        assert batch == earlierBatch + [rec];
        idx := earlierIdx + [n];
      case _ =>
        assert batch == earlierBatch;
        idx := earlierIdx;
    }
  }

  /** The set batch never holds more records than were desired. */
  lemma {:induction false} SetBatchSize(updateRecords: seq<DnsRecord>, existingRecords: seq<DnsRecord>)
    ensures |SetUpdates(updateRecords, existingRecords)| + |SetAppends(updateRecords, existingRecords)| <= |updateRecords|
  {
    if updateRecords != [] {
      SetBatchSize(updateRecords[..|updateRecords| - 1], existingRecords);
    }
  }

  /** Setting records that the zone already holds, equal, writes nothing. */
  lemma {:induction false} SetNoRedundantWrites(updateRecords: seq<DnsRecord>, existingRecords: seq<DnsRecord>)
    requires forall rec | rec in updateRecords :: exists i ::
      IsFirstMatchAt(SetKey(rec), existingRecords, i) && Equals(existingRecords[i], rec)
    ensures SetUpdates(updateRecords, existingRecords) == []
    ensures SetAppends(updateRecords, existingRecords) == []
  {
    if updateRecords != [] {
      var n := |updateRecords| - 1;
      assert forall rec | rec in updateRecords[..n] :: rec in updateRecords;
      SetNoRedundantWrites(updateRecords[..n], existingRecords);
      var rec := updateRecords[n];
      var i :| IsFirstMatchAt(SetKey(rec), existingRecords, i) && Equals(existingRecords[i], rec);
      FirstMatchAt(SetKey(rec), existingRecords, i);
    }
  }

  /** Setting a new address for an existing A record updates it under its id. */
  lemma SetCarriesIdOver()
    ensures
      var existing := DnsRecord("1", "www", "A", 0, "1.1.1.1", false);
      var desired := DnsRecord("", "www", "A", 0, "2.2.2.2", false);
      SetUpdates([desired], [existing]) + SetAppends([desired], [existing])
        == [DnsRecord("1", "www", "A", 0, "2.2.2.2", false)]
  {
  }

  /** A desired record whose id the zone does not know is appended with that id. */
  lemma SetUnknownIdIsAppended()
    ensures
      var existing := DnsRecord("1", "www", "A", 0, "1.1.1.1", false);
      var desired := DnsRecord("7", "www", "A", 0, "2.2.2.2", false);
      SetUpdates([desired], [existing]) == [] && SetAppends([desired], [existing]) == [desired]
  {
    var existing := DnsRecord("1", "www", "A", 0, "1.1.1.1", false);
    var desired := DnsRecord("7", "www", "A", 0, "2.2.2.2", false);
    assert [existing][1..] == [] && [desired][..0] == [];
    assert FirstMatch(ById("7"), [existing]) == None;
    assert DecideSet(desired, [existing]) == Append(desired);
  }

  // ---------------------------------------------------------------------------
  // Conversion

  /** Converting to the caller's records and back loses only the deletion flag. */
  lemma ConversionRoundTrip(netcupRecords: seq<DnsRecord>, ttl: Int64)
    ensures NetcupRecordsOf(LibdnsRecordsOf(netcupRecords, ttl))
      == seq(|netcupRecords|, i requires 0 <= i < |netcupRecords| => netcupRecords[i].(deleteRecord := false))
  {
  }

  /** Converting the caller's records to the provider's and back loses only the
      TTL, which becomes the zone's. */
  lemma ConversionRoundTripFromLibdns(libdnsRecords: seq<LibdnsRecord>, ttl: Int64)
    ensures LibdnsRecordsOf(NetcupRecordsOf(libdnsRecords), ttl)
      == seq(|libdnsRecords|, i requires 0 <= i < |libdnsRecords| => libdnsRecords[i].(ttl := SecondsToDuration(ttl)))
  {
  }

  /** A TTL beyond 9223372036 seconds overflows int64 nanoseconds and wraps negative. */
  lemma LargeTtlWraps()
    ensures SecondsToDuration(9_223_372_037) < 0
  {
  }
}
