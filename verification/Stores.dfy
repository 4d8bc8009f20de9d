/** The records the stores hold, and the in-memory stores that meet the seam contracts.
    Each store operation first pops the next scripted outcome of the error queue. */
module Stores {
  import opened Common
  import opened Tokens

  datatype RefreshRecord = RefreshRecord(
    subject: string,
    fingerprint: Digest,
    issuedAt: Instant,
    expiresAt: Instant,
    consumed: bool)

  datatype HandoffRecord = HandoffRecord(
    digest: Digest,
    subject: string,
    email: Option<string>,
    issuedAt: Instant,
    expiresAt: Instant,
    consumed: bool)

  /** What a read answers: a record, a miss, or the store's own error. */
  datatype Answer<+T> = Found(record: T) | Missing | Failed(cause: string)

  class MemoryTokenStore {
    var entries: map<string, AccessToken>
    var errors: seq<Option<string>>
    // The ttls writes asked for, oldest first; this store keeps no clock and enforces none.
    ghost var ttls: seq<Duration>

    constructor ()
      ensures entries == map[] && errors == [] && ttls == []
    {
      entries, errors, ttls := map[], [], [];
    }

    method Shift() returns (fault: Option<string>)
      modifies this`errors
      ensures fault == NextFault(old(errors)) && errors == RestFaults(old(errors))
    {
      fault := None;
      if errors != [] {
        fault, errors := errors[0], errors[1..];
      }
    }

    method Get(key: string) returns (answer: Answer<AccessToken>)
      modifies this`errors
      ensures errors == RestFaults(old(errors))
      ensures answer.Failed? <==> NextFault(old(errors)).Some?
      ensures !answer.Failed? ==> answer == if key in entries then Found(entries[key]) else Missing
    {
      var fault := Shift();
      if fault.Some? {
        return Failed(fault.value);
      }
      return if key in entries then Found(entries[key]) else Missing;
    }

    method Set(key: string, token: AccessToken, ttl: Duration) returns (fault: Option<string>)
      modifies this
      ensures ttls == old(ttls) + [ttl]
      ensures fault == NextFault(old(errors)) && errors == RestFaults(old(errors))
      ensures entries == if fault.None? then old(entries)[key := token] else old(entries)
    {
      ttls := ttls + [ttl];
      fault := Shift();
      if fault.None? {
        entries := entries[key := token];
      }
    }

    method Delete(key: string) returns (fault: Option<string>)
      modifies this
      ensures ttls == old(ttls)
      ensures fault == NextFault(old(errors)) && errors == RestFaults(old(errors))
      ensures entries == if fault.None? then old(entries) - {key} else old(entries)
    {
      fault := Shift();
      if fault.None? {
        entries := entries - {key};
      }
    }
  }

  class MemoryRefreshStore {
    var records: map<Digest, RefreshRecord>
    var errors: seq<Option<string>>
    // The ttls writes asked for, oldest first; this store keeps no clock and enforces none.
    ghost var ttls: seq<Duration>

    constructor ()
      ensures records == map[] && errors == [] && ttls == []
    {
      records, errors, ttls := map[], [], [];
    }

    method Shift() returns (fault: Option<string>)
      modifies this`errors
      ensures fault == NextFault(old(errors)) && errors == RestFaults(old(errors))
    {
      fault := None;
      if errors != [] {
        fault, errors := errors[0], errors[1..];
      }
    }

    method Read(fingerprint: Digest) returns (answer: Answer<RefreshRecord>)
      modifies this`errors
      ensures errors == RestFaults(old(errors))
      ensures answer.Failed? <==> NextFault(old(errors)).Some?
      ensures !answer.Failed? ==> answer == if fingerprint in records then Found(records[fingerprint]) else Missing
    {
      var fault := Shift();
      if fault.Some? {
        return Failed(fault.value);
      }
      return if fingerprint in records then Found(records[fingerprint]) else Missing;
    }

    /** The record replaces whatever is filed under its fingerprint. */
    method Write(record: RefreshRecord, ttl: Duration) returns (fault: Option<string>)
      modifies this
      ensures ttls == old(ttls) + [ttl]
      ensures fault == NextFault(old(errors)) && errors == RestFaults(old(errors))
      ensures records == if fault.None? then old(records)[record.fingerprint := record] else old(records)
    {
      ttls := ttls + [ttl];
      fault := Shift();
      if fault.None? {
        records := records[record.fingerprint := record];
      }
    }
  }

  class MemoryDeferredStore {
    var records: map<Digest, HandoffRecord>
    var errors: seq<Option<string>>
    // The ttls writes asked for, oldest first; this store keeps no clock and enforces none.
    ghost var ttls: seq<Duration>

    constructor ()
      ensures records == map[] && errors == [] && ttls == []
    {
      records, errors, ttls := map[], [], [];
    }

    method Shift() returns (fault: Option<string>)
      modifies this`errors
      ensures fault == NextFault(old(errors)) && errors == RestFaults(old(errors))
    {
      fault := None;
      if errors != [] {
        fault, errors := errors[0], errors[1..];
      }
    }

    method Put(record: HandoffRecord, ttl: Duration) returns (fault: Option<string>)
      modifies this
      ensures ttls == old(ttls) + [ttl]
      ensures fault == NextFault(old(errors)) && errors == RestFaults(old(errors))
      ensures records == if fault.None? then old(records)[record.digest := record] else old(records)
    {
      ttls := ttls + [ttl];
      fault := Shift();
      if fault.None? {
        records := records[record.digest := record];
      }
    }

    /** Marks the record consumed and answers it as it was before, in one step. */
    method Consume(digest: Digest) returns (answer: Answer<HandoffRecord>)
      modifies this
      ensures ttls == old(ttls)
      ensures errors == RestFaults(old(errors))
      ensures answer.Failed? <==> NextFault(old(errors)).Some?
      ensures !answer.Failed? ==> answer == if digest in old(records) then Found(old(records)[digest]) else Missing
      ensures records ==
        if answer.Found? then old(records)[digest := old(records)[digest].(consumed := true)] else old(records)
    {
      var fault := Shift();
      if fault.Some? {
        return Failed(fault.value);
      }
      if digest !in records {
        return Missing;
      }
      var record := records[digest];
      records := records[digest := record.(consumed := true)];
      return Found(record);
    }
  }
}
