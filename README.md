# netcup DNS record reconciliation, in Dafny

This project models the record-reconciliation core of the libdns provider for
the netcup DNS API. Given the records a caller wants and the records the zone
already holds, it decides what to submit:

- **Identity lookup.** An existing record is found by its provider-assigned id,
  by host name and type, or, for MX records, by host name, type and priority.
  Priority here is the MX preference of section 3.3.9 of RFC 1035.
- **Append batch.** Every desired record is kept, except those whose resolved
  record already points at the same destination.
- **Set batch.** Desired records that resolve to a different record become
  updates, and each update takes over the id of the record it resolved to.
  Desired records that resolve to nothing become appends. The batch is all
  updates followed by all appends. Records that resolve to an equal record are
  dropped.
- **Boundary conversion.** Provider records are converted to the caller's
  libdns records and back. The zone-wide TTL, given in seconds, becomes a
  duration in nanoseconds.

Modules:

- `Types` (`types.dfy`) holds the provider record, the zone, Go's `int64`,
  and record equality.
- `Util` (`util.dfy`) holds the operations of `util.go`. Each is a method with
  the loop of the original, specified by a function over sequences.
- `UtilProperties` (`util_properties.dfy`) holds the lemmas about those
  functions.

Go's `*dnsRecord` result from a lookup is an `Option<DnsRecord>`. The pointer
points at the loop's copy, so the value is all a caller sees. Go slices are
Dafny sequences. A nil slice and an empty slice are both `[]`. The input
slices are never written, because `getRecordsToSet` only changes its loop
copy, and a Dafny sequence is a value.

## Model

| member | source | states |
|---|---|---|
| `Types.EqualsIffSameContent` | types.go:16-18 | two records are equal exactly when they agree once id and deletion flag are cleared, i.e. host name, type, destination and priority all match |
| `Types.EqualsIgnoresIdAndFlag` | types.go:16-18 | changing the id or the deletion flag of either record never changes whether they are equal |
| `Types.EqualsIsEquivalence` | types.go:17 | record equality is reflexive, symmetric and transitive |
| `Util.WrapInt64` | util.go:17 | the int64 result of Go arithmetic is congruent to the exact value modulo 2^64, and equal to it when it fits |
| `Util.SecondsToDuration` | util.go:17 | the TTL in seconds times 10^9, taken in int64; exact for TTLs up to 9223372036 seconds in magnitude |
| `UtilProperties.LargeTtlWraps` | util.go:17 | a TTL of 9223372037 seconds overflows and yields a negative duration |
| `Util.FindRecordById` | util.go:57-65 | returns the first existing record whose id equals the given one, or nothing |
| `Util.FindRecordByNameAndType` | util.go:67-75 | returns the first existing record with the given host name and type, or nothing |
| `Util.FindRecordByNameAndTypeAndPriority` | util.go:77-85 | returns the first existing record with the given host name, type and priority, or nothing |
| `UtilProperties.FirstMatchAbsent` | util.go:57-85 | a lookup returns nothing exactly when no record matches |
| `UtilProperties.FirstMatchAt` | util.go:57-85 | when a record matches and none before it does, the lookup returns that record |
| `UtilProperties.FirstMatchFound` | util.go:57-85 | a record the lookup returns is an element of the list, matches, and no earlier record matches |
| `UtilProperties.MxLookupMatchesPriority` | util.go:77-85 | an MX lookup only returns an existing MX record with the same host name and priority |
| `UtilProperties.MxDisambiguation` | util.go:101-105 | two MX records of one host with different priorities are each found only by their own priority |
| `Util.GetRecordsToAppend` | util.go:97-111 | the append batch the loop builds is the specification `RecordsToAppend` of the desired and existing records |
| `UtilProperties.KeepForAppendRule` | util.go:101-107 | a desired record is appended exactly when no existing record matches it, or the first one that matches has another destination; the lookup uses priority for MX only |
| `UtilProperties.RecordsToAppendSelects` | util.go:99-110 | the append batch is a subsequence of the desired records, unchanged and in input order, no longer than the input, holding every kept position and only kept positions |
| `UtilProperties.RecordsToAppendMembers` | util.go:99-110 | a record is in the append batch exactly when it is desired and kept |
| `UtilProperties.AppendIdempotent` | util.go:106 | when every desired record's resolved record has its destination, the append batch is empty |
| `UtilProperties.AppendComparesFirstMatchOnly` | util.go:101-106 | a desired A record equal to the second A record of its host is still appended, because only the first match is compared |
| `UtilProperties.AppendIgnoresPriorityOutsideMx` | util.go:101-106 | a non-MX desired record differing from its match only in priority is not appended |
| `UtilProperties.AppendToEmptyZone` | util.go:97-111 | appending a TXT record to an empty zone submits it unchanged |
| `Util.GetRecordsToSet` | util.go:113-134 | the set batch the loop builds is all updates followed by all appends, as `SetUpdates` and `SetAppends` specify |
| `UtilProperties.DecideSetRule` | util.go:118-131 | the lookup is by id when the record has one, else by host and type, with priority added for MX; no match means append of the record as given, a match that is not equal means update with the matched id, and an equal match means nothing |
| `UtilProperties.UpdateTakesMatchedId` | util.go:126-128 | an update carries the id of an existing record that is not equal to it, keeps every other field of the desired record, and keeps the id a record was looked up by |
| `UtilProperties.SetUpdatesSelects` | util.go:126-128 | the update part holds exactly one entry per desired record classified as an update, in input order |
| `UtilProperties.SetAppendsSelects` | util.go:129-130 | the append part holds exactly the desired records that resolve to nothing, unchanged and with their id, in input order |
| `UtilProperties.SetBatchSize` | util.go:113-134 | the set batch is never longer than the desired list |
| `UtilProperties.SetNoRedundantWrites` | util.go:126-131 | when every desired record resolves to an equal record, both parts of the set batch are empty |
| `UtilProperties.SetCarriesIdOver` | util.go:126-128 | a new address for an existing A record becomes an update under the existing record's id |
| `UtilProperties.SetUnknownIdIsAppended` | util.go:118-119 | a desired record whose id the zone does not know is appended, id kept |
| `Util.ToLibdnsRecords` | util.go:9-23 | converts each provider record, in order, to a libdns record with the zone TTL as a duration |
| `Util.ToNetcupRecords` | util.go:25-38 | converts each libdns record, in order, to a provider record with the deletion flag cleared |
| `UtilProperties.ConversionRoundTrip` | util.go:9-38 | converting provider records to libdns records and back gives the same records with the deletion flag cleared |
| `UtilProperties.ConversionRoundTripFromLibdns` | util.go:9-38 | converting libdns records to provider records and back gives the same records with the zone TTL in place of their own |

## Left out

- The HTTP and JSON client (`client.go`) is not part of this model. It covers login, logout, zone and record queries and record updates, and its only decision is that a status other than "success" is an error.
- `provider.go` is not part of this model. It holds an older variant of the types, the mutex that serialises callers, and entry points that return "not implemented" or only chain login, HTTP and conversion.
- The JSON encoding details (string-encoded priority and TTL, `omitempty`, the raw response payload) are left to Go's standard library.
- The commented-out `difference` and `findRecordByExample` in `util.go` are not live code.
- A delete batch and a post-update result diff do not exist in this code, so they are not modelled.
- Priority is an unbounded integer. It is only copied and compared, never computed with, so Go's `int` width does not matter.
- Logging through `fmt.Printf` is not modelled.

## Notes on the code

- The append batch compares only the destination of the **first** record the
  lookup finds. It does not check full equality. Two consequences follow:
  - Outside MX, a difference in priority alone does not cause an append
    (`AppendIgnoresPriorityOutsideMx`).
  - A desired record equal to a later record of the same host and type is
    appended again (`AppendComparesFirstMatchOnly`).
- So appending is idempotent only under the first-match condition of
  `AppendIdempotent`. An equal record somewhere in the zone is not enough.
  The model follows the code here.
