/**
  The driver capability: an external key-value store of payloads keyed by session id.
 */
module Drivers {
  import opened Wrappers
  import opened Serializers

  type Records = map<string, Payload>

  /**
    A store reached through a driver. `records` is what the backend holds; when the
    backend is not `online` every call reports an error and nothing changes.
   */
  class MapDriver {
    var records: Records
    var online: bool

    constructor (records: Records, online: bool)
      ensures this.records == records && this.online == online
    {
      this.records := records;
      this.online := online;
    }

    /** `Store(session, params)`: writes the payload under the key. */
    method Store(key: string, payload: Payload) returns (ok: bool)
      modifies this`records
      ensures ok == online
      ensures records == if online then old(records)[key := payload] else old(records)
    {
      ok := online;
      if online {
        records := records[key := payload];
      }
    }

    /** `Retrieve(session)`: the payload under the key; an error when absent or offline. */
    method Retrieve(key: string) returns (r: Option<Payload>)
      ensures r.Some? <==> online && key in records
      ensures r.Some? ==> r.value == records[key]
    {
      if online && key in records {
        r := Some(records[key]);
      } else {
        r := None;
      }
    }

    /** `Remove(session)`: deletes the key; removing an absent key succeeds. */
    method Remove(key: string) returns (ok: bool)
      modifies this`records
      ensures ok == online
      ensures records == if online then old(records) - {key} else old(records)
    {
      ok := online;
      if online {
        records := records - {key};
      }
    }
  }
}
