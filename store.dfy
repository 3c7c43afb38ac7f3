/**
 * The record store that lib/data.js provides: JSON documents under a
 * (collection, key) pair. Its code is not part of this model; only the two
 * operations the user handler calls are modelled, each with an explicit
 * I/O fault parameter standing for a failure of the file system.
 */
module Data {
  import opened Wrappers
  import opened Json

  datatype StoreError = NoSuchRecord | RecordExists | IoFailure

  /** A record's address: its collection and its key within it. */
  datatype Address = Address(collection: string, key: string)

  class Store {
    /** The live records. */
    var records: map<Address, Value>

    constructor ()
      ensures records == map[]
    {
      records := map[];
    }

    /** `_data.read`: the document, or an error when it is absent or cannot be read. */
    method Read(collection: string, key: string, ioFault: bool) returns (r: Result<Value, StoreError>)
      ensures r.Success? <==> Address(collection, key) in records && !ioFault
      ensures r.Success? ==> r.value == records[Address(collection, key)]
      ensures Address(collection, key) !in records ==> r == Failure(NoSuchRecord)
    {
      var at := Address(collection, key);
      if at !in records {
        return Failure(NoSuchRecord);
      } else if ioFault {
        return Failure(IoFailure);
      }
      return Success(records[at]);
    }

    /** `_data.create`: inserts a new record; an existing one is never overwritten. */
    method Create(collection: string, key: string, doc: Value, ioFault: bool) returns (err: Option<StoreError>)
      modifies this
      ensures err.None? <==> Address(collection, key) !in old(records) && !ioFault
      ensures err.None? ==> records == old(records)[Address(collection, key) := doc]
      ensures err.Some? ==> records == old(records)
    {
      var at := Address(collection, key);
      if at in records {
        return Some(RecordExists);
      } else if ioFault {
        return Some(IoFailure);
      }
      records := records[at := doc];
      return None;
    }
  }
}
