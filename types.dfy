/**
 * The netcup provider's record and zone types and its record equality.
 */
module Types {

  /** Go's `int64`. */
  newtype Int64 = x: int | -0x8000_0000_0000_0000 <= x < 0x8000_0000_0000_0000

  /** A record as the netcup DNS API stores it. `id` is assigned by the provider
      and is empty for a record that does not exist yet; `deleteRecord` is only
      set on records submitted for deletion. */
  datatype DnsRecord = DnsRecord(
    id: string,
    hostName: string,
    recType: string,
    priority: int,
    destination: string,
    deleteRecord: bool)

  /** A zone: its name and the TTL, in seconds, that every record of the zone shares. */
  datatype DnsZone = DnsZone(name: string, ttl: Int64)

  /** Record equality as the provider code sees it: the provider-assigned id and
      the deletion flag take no part. */
  predicate Equals(rec: DnsRecord, otherRec: DnsRecord) {
    && rec.hostName == otherRec.hostName
    && rec.recType == otherRec.recType
    && rec.destination == otherRec.destination
    && rec.priority == otherRec.priority
  }

  /** The part of a record that says what it publishes: everything but the id
      and the deletion flag, which are reset to their zero values. */
  function Content(rec: DnsRecord): DnsRecord {
    rec.(id := "", deleteRecord := false)
  }

  /** Equality is exactly sameness of content. */
  lemma EqualsIffSameContent(a: DnsRecord, b: DnsRecord)
    ensures Equals(a, b) <==> Content(a) == Content(b)
  {
  }

  /** Changing the id or the deletion flag of either side never changes the verdict. */
  lemma EqualsIgnoresIdAndFlag(a: DnsRecord, b: DnsRecord, idA: string, idB: string, flagA: bool, flagB: bool)
    ensures Equals(a.(id := idA, deleteRecord := flagA), b.(id := idB, deleteRecord := flagB)) == Equals(a, b)
  {
  }

  /** Equality is an equivalence relation on records. */
  lemma EqualsIsEquivalence()
    ensures forall a: DnsRecord :: Equals(a, a)
    ensures forall a: DnsRecord, b: DnsRecord :: Equals(a, b) ==> Equals(b, a)
    ensures forall a: DnsRecord, b: DnsRecord, c: DnsRecord :: Equals(a, b) && Equals(b, c) ==> Equals(a, c)
  {
  }
}
