/**
 The phone's list store (RandomChoice/PhoneDataManager.swift): the lists the
 user edits, their copy in the app's key-value store, and the copy pushed to
 the watch.
 */
module PhoneData {

  import opened Wrappers
  import opened Models
  import opened JsonCoding
  import opened Offsets
  import opened Platform

  /** The storage key of the phone's lists. */
  const SaveKey: string := "PhoneLists"

  /** The demonstration lists installed when nothing is stored yet: food with four options, then films. */
  function SeedWithoutData(first: Uuid, second: Uuid): (r: seq<DecisionList>)
    ensures |r| == 2 && r[0].id == first && r[1].id == second
    ensures |r[0].options| == 4 && |r[1].options| == 3
  {
    [ NewDecisionList(first, "Что поесть?", ["Пицца", "Суши", "Бургер", "Паста"]),
      NewDecisionList(second, "Что посмотреть?", ["Фильм", "Сериал", "Ютуб"]) ]
  }

  /** The demonstration lists installed when the stored data does not decode: food with three options, then places. */
  function SeedAfterDecodeError(first: Uuid, second: Uuid): (r: seq<DecisionList>)
    ensures |r| == 2 && r[0].id == first && r[1].id == second
    ensures |r[0].options| == 3 && |r[1].options| == 3
  {
    [ NewDecisionList(first, "Что поесть?", ["Пицца", "Суши", "Бургер"]),
      NewDecisionList(second, "Куда пойти?", ["Кино", "Парк", "Кафе"]) ]
  }

  /** What `data(forKey: saveKey)` finds in these slots. */
  function Stored(slots: map<string, Bytes>): Option<Bytes> {
    if SaveKey in slots then Some(slots[SaveKey]) else None
  }

  /**
   The lists `loadLocally` installs: the first seed pair when nothing is
   stored, the second when what is stored does not decode, otherwise the
   decoded lists. `first` and `second` are the fresh identifiers of the seeds.
   The user only ever starts with no lists when the stored data decodes to
   no lists.
   */
  function Loaded(stored: Option<Bytes>, first: Uuid, second: Uuid): (r: seq<DecisionList>)
    ensures r == [] ==> stored.Some? && Deserialize(stored.value) == Some([])
    ensures stored.Some? && Deserialize(stored.value).Some? ==> r == Deserialize(stored.value).value
  {
    match stored
    case None => SeedWithoutData(first, second)
    case Some(data) =>
      match Deserialize(data)
      case None => SeedAfterDecodeError(first, second)
      case Some(lists) => lists
  }

  /** The slots after `saveLocally`: the encoding in the phone's slot, or no change when encoding threw. */
  function Persisted(slots: map<string, Bytes>, encoded: Option<Bytes>): map<string, Bytes> {
    match encoded
    case None => slots
    case Some(data) => slots[SaveKey := data]
  }

  /** The application context and the reply that carry the lists: `["lists": data]`. */
  function ListsPayload(data: Bytes): Payload {
    map["lists" := Blob(data)]
  }

  /** The contexts one call of `sendToWatch` hands to the system. */
  function WatchPush(reachable: bool, accepted: bool, encoded: Option<Bytes>): seq<Payload> {
    if reachable && accepted && encoded.Some? then [ListsPayload(encoded.value)] else []
  }

  /** `message["request"] as? String == "data"`. */
  predicate IsDataRequest(message: Payload) {
    "request" in message && message["request"] == Text("data")
  }

  /** The reply to a data request. */
  function DataReply(encoded: Option<Bytes>): Payload {
    match encoded
    case None => map["error" := Text("Encoding failed")]
    case Some(data) => ListsPayload(data)
  }

  /** Why loading failed decides which seed pair the user sees: the two pairs always differ. */
  lemma SeedsDependOnCause(a: Uuid, b: Uuid, c: Uuid, d: Uuid)
    ensures SeedWithoutData(a, b) != SeedAfterDecodeError(c, d)
    ensures |SeedWithoutData(a, b)| == 2 && |SeedAfterDecodeError(c, d)| == 2
    ensures |SeedWithoutData(a, b)[0].options| == 4 && |SeedAfterDecodeError(c, d)[0].options| == 3
    ensures SeedWithoutData(a, b)[1].name != SeedAfterDecodeError(c, d)[1].name
  {
    assert SeedWithoutData(a, b)[0].options != SeedAfterDecodeError(c, d)[0].options;
  }

  /** An empty stored value counts as corrupt, not as missing. */
  lemma EmptyDataLoadsSecondSeed(first: Uuid, second: Uuid)
    ensures Loaded(Some([]), first, second) == SeedAfterDecodeError(first, second)
  {
    EmptyDataIsCorrupt();
  }

  /** Loading after a successful save restores exactly the saved lists. */
  lemma LoadAfterSave(slots: map<string, Bytes>, encoder: JsonEncoder, lists: seq<DecisionList>, first: Uuid, second: Uuid)
    requires !encoder.refuses(lists)
    ensures Loaded(Stored(Persisted(slots, encoder.Encode(lists))), first, second) == lists
  {
  }

  /** A save whose encoding throws leaves the store as it was. */
  lemma RefusedSaveKeepsSlots(slots: map<string, Bytes>, encoder: JsonEncoder, lists: seq<DecisionList>)
    requires encoder.refuses(lists)
    ensures Persisted(slots, encoder.Encode(lists)) == slots
  {
  }

  /** Saving the same lists twice stores what saving them once stores. */
  lemma SaveIsIdempotent(slots: map<string, Bytes>, encoded: Option<Bytes>)
    ensures Persisted(Persisted(slots, encoded), encoded) == Persisted(slots, encoded)
  {
  }

  /** Saving touches no slot but the phone's own. */
  lemma SaveTouchesOnlyItsSlot(slots: map<string, Bytes>, encoded: Option<Bytes>, key: string)
    requires key != SaveKey
    ensures key in Persisted(slots, encoded) <==> key in slots
    ensures key in slots ==> Persisted(slots, encoded)[key] == slots[key]
  {
  }

  class PhoneDataManager {
    var lists: seq<DecisionList>
    const defaults: UserDefaults
    /** `nil` where the platform has no watch connectivity. */
    const session: Session?
    const encoder: JsonEncoder

    /**
     `init()`: loads the stored lists. `first` and `second` are the identifiers
     a seed pair would get.
     */
    constructor(defaults: UserDefaults, session: Session?, encoder: JsonEncoder, first: Uuid, second: Uuid)
      ensures this.defaults == defaults && this.session == session && this.encoder == encoder
      ensures lists == Loaded(Stored(defaults.slots), first, second)
    {
      this.defaults := defaults;
      this.session := session;
      this.encoder := encoder;
      lists := [];
      new;
      LoadLocally(first, second);
    }

    /** `loadLocally()`: replaces the lists by what the store holds, or by a seed pair. */
    method LoadLocally(first: Uuid, second: Uuid)
      modifies this`lists
      ensures lists == Loaded(Stored(defaults.slots), first, second)
    {
      var data := defaults.Data(SaveKey);
      match data {
        case None =>
          lists := SeedWithoutData(first, second);
        case Some(bytes) =>
          var decoded := Deserialize(bytes);
          match decoded {
            case Some(ls) => lists := ls;
            case None => lists := SeedAfterDecodeError(first, second);
          }
      }
    }

    /** `saveLocally()`: writes the encoded lists to the phone's slot; an encoding error is swallowed. */
    method SaveLocally()
      modifies defaults
      ensures defaults.slots == Persisted(old(defaults.slots), encoder.Encode(lists))
    {
      var encoded := encoder.Encode(lists);
      if encoded.Some? {
        defaults.Set(encoded.value, SaveKey);
      }
    }

    /** The session, if any, took exactly the contexts `sendToWatch` hands over, and nothing else about it changed. */
    twostate predicate PushedToWatch()
      reads this, session
    {
      session != null ==>
        && session.isReachable == old(session.isReachable)
        && session.acceptsContext == old(session.acceptsContext)
        && var pushed := WatchPush(session.isReachable, session.acceptsContext, encoder.Encode(lists));
           && session.sentContexts == old(session.sentContexts) + pushed
           && session.applicationContext == if pushed == [] then old(session.applicationContext) else pushed[0]
    }

    /**
     `sendToWatch()`: only with a session and a reachable watch does it encode
     the lists and update the application context; every failure is swallowed.
     */
    method SendToWatch()
      modifies session
      ensures PushedToWatch()
    {
      if session == null || !session.isReachable {
        return;
      }
      var encoded := encoder.Encode(lists);
      if encoded.Some? {
        var _ := session.UpdateApplicationContext(ListsPayload(encoded.value));
      }
    }

    /** `addList(_:)`: appends, saves, and pushes to the watch. */
    method AddList(list: DecisionList)
      modifies this`lists, defaults, session
      ensures lists == old(lists) + [list]
      ensures defaults.slots == Persisted(old(defaults.slots), encoder.Encode(lists))
      ensures PushedToWatch()
    {
      lists := lists + [list];
      SaveLocally();
      SendToWatch();
    }

    /** `deleteList(at:)`: removes the lists at `offsets`, keeping the others in order, then saves and pushes. */
    method DeleteList(offsets: set<nat>)
      requires InBounds(offsets, |lists|)
      modifies this`lists, defaults, session
      ensures lists == RemoveAtOffsets(old(lists), offsets)
      ensures |lists| == |old(lists)| - |offsets|
      ensures defaults.slots == Persisted(old(defaults.slots), encoder.Encode(lists))
      ensures PushedToWatch()
    {
      RemovedLength(lists, offsets);
      lists := RemoveAtOffsets(lists, offsets);
      SaveLocally();
      SendToWatch();
    }

    /**
     `session(_:didReceiveMessage:replyHandler:)`: `reply` is what the reply
     handler is called with, `None` when it is not called.
     */
    method DidReceiveMessage(message: Payload) returns (reply: Option<Payload>)
      ensures reply.Some? <==> IsDataRequest(message)
      ensures reply.Some? ==> reply.value == DataReply(encoder.Encode(lists))
      ensures reply.Some? && "lists" in reply.value ==>
                reply.value["lists"].Blob? && Deserialize(reply.value["lists"].data) == Some(lists)
      ensures reply.Some? && "lists" !in reply.value ==> encoder.refuses(lists)
    {
      if "request" in message && message["request"] == Text("data") {
        var encoded := encoder.Encode(lists);
        match encoded {
          case Some(data) => reply := Some(ListsPayload(data));
          case None => reply := Some(map["error" := Text("Encoding failed")]);
        }
      } else {
        reply := None;
      }
    }
  }

}
