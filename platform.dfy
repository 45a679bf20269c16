/**
 The two platform services the phone's data manager talks to: the app's
 key-value store (`UserDefaults`) and the watch session (`WCSession`).
 Only the parts the manager uses are here.
 */
module Platform {

  import opened Wrappers
  import opened JsonCoding

  /** A value in a `[String: Any]` message. */
  datatype Value = Text(text: string) | Blob(data: Bytes) | Other

  /** A message, reply or application context. */
  type Payload = map<string, Value>

  /** `UserDefaults.standard`, restricted to `Data` values. */
  class UserDefaults {
    var slots: map<string, Bytes>

    constructor(slots: map<string, Bytes>)
      ensures this.slots == slots
    {
      this.slots := slots;
    }

    /** `data(forKey:)`: the stored bytes, or `None` when nothing is stored. */
    method Data(key: string) returns (d: Option<Bytes>)
      ensures d.Some? <==> key in slots
      ensures d.Some? ==> d.value == slots[key]
    {
      d := if key in slots then Some(slots[key]) else None;
    }

    /** `set(_:forKey:)`: overwrites one slot. */
    method Set(d: Bytes, key: string)
      modifies this
      ensures slots == old(slots)[key := d]
    {
      slots := slots[key := d];
    }
  }

  /**
   `WCSession.default` as the phone sees it. Whether the watch is reachable
   and whether the system accepts a context update are environment facts;
   `sentContexts` records every context the system accepted.
   */
  class Session {
    var isReachable: bool
    var acceptsContext: bool
    var applicationContext: Payload
    ghost var sentContexts: seq<Payload>

    constructor(isReachable: bool, acceptsContext: bool)
      ensures this.isReachable == isReachable && this.acceptsContext == acceptsContext
      ensures applicationContext == map[] && sentContexts == []
    {
      this.isReachable := isReachable;
      this.acceptsContext := acceptsContext;
      applicationContext := map[];
      sentContexts := [];
    }

    /** `updateApplicationContext(_:)`; `ok` is false where the call throws. */
    method UpdateApplicationContext(context: Payload) returns (ok: bool)
      modifies this`applicationContext, this`sentContexts
      ensures ok == acceptsContext
      ensures applicationContext == if ok then context else old(applicationContext)
      ensures sentContexts == old(sentContexts) + if ok then [context] else []
    {
      ok := acceptsContext;
      if ok {
        applicationContext := context;
        sentContexts := sentContexts + [context];
      }
    }
  }

}
