/** The chat of one match: the `messages` sub-collection under the match
    document, the live list ordered by server timestamp, sending a text
    message or a date request, and how an entry is drawn. */
module Chat {
  import opened Common

  /** A stored message document. */
  datatype StoredDoc = StoredDoc(id: string, data: Fields)

  /** The store's resolution of the `serverTimestamp()` placeholders of a
      written document. */
  function Resolve(data: Fields, now: Time): (r: Fields)
    ensures r.Keys == data.Keys
    ensures forall k :: k in data ==> r[k] == if data[k] == ServerTimestamp then Stamp(now) else data[k]
  {
    map k | k in data :: if data[k] == ServerTimestamp then Stamp(now) else data[k]
  }

  /** Only documents holding a timestamp take part in `orderBy('timestamp')`. */
  predicate Stamped(d: StoredDoc)
  {
    "timestamp" in d.data && d.data["timestamp"].Stamp?
  }

  /** The stored time of a stamped document. */
  function At(d: StoredDoc): Time
  {
    if Stamped(d) then d.data["timestamp"].at else 0
  }

  /** The documents the query sees, in store order. */
  function StampedDocs(log: seq<StoredDoc>): (r: seq<StoredDoc>)
    ensures forall d :: d in r <==> d in log && Stamped(d)
  {
    if log == [] then []
    else
      assert forall d :: d in log <==> d == log[0] || d in log[1..];
      if Stamped(log[0]) then [log[0]] + StampedDocs(log[1..]) else StampedDocs(log[1..])
  }

  predicate Chronological(s: seq<StoredDoc>)
  {
    Ascending(At, s)
  }

  /** `orderBy('timestamp', 'asc')` over a match's messages. */
  function Ordered(log: seq<StoredDoc>): seq<StoredDoc>
  {
    SortByKey(At, StampedDocs(log))
  }

  /** `snapshot.docs.map(doc => ({ id: doc.id, ...doc.data() }))`. */
  function Project(docs: seq<StoredDoc>): (entries: seq<Fields>)
    ensures |entries| == |docs|
    ensures forall i :: 0 <= i < |docs| ==> entries[i] == Attach(docs[i].id, docs[i].data)
  {
    if docs == [] then [] else [Attach(docs[0].id, docs[0].data)] + Project(docs[1..])
  }

  /** The visible list is every stamped message exactly once (as often as it
      is stored), oldest first, each shown as its id plus its fields. */
  lemma VisibleList(log: seq<StoredDoc>)
    ensures Chronological(Ordered(log))
    ensures multiset(Ordered(log)) == multiset(StampedDocs(log))
    ensures forall d :: d in Ordered(log) <==> d in log && Stamped(d)
    ensures |Project(Ordered(log))| == |StampedDocs(log)|
  {
    var o := Ordered(log);
    SortByKeyAscending(At, StampedDocs(log));
    forall d
      ensures d in o <==> d in log && Stamped(d)
    {
      assert d in o <==> d in multiset(o);
      assert d in StampedDocs(log) <==> d in multiset(StampedDocs(log));
    }
    assert |o| == |multiset(o)| == |multiset(StampedDocs(log))| == |StampedDocs(log)|;
  }

  /** The fields of a text message, or nothing for blank input. */
  function ComposeMessage(text: string, sender: Uid): (r: Option<Fields>)
    ensures r.None? <==> forall i :: 0 <= i < |text| ==> IsSpace(text[i])
    ensures r.Some? ==>
      && r.value.Keys == {"text", "senderId", "timestamp"}
      && r.value["text"] == Str(Trim(text))
      && r.value["senderId"] == Str(sender)
      && r.value["timestamp"] == ServerTimestamp
  {
    if Trim(text) == "" then None
    else Some(map["text" := Str(Trim(text)), "senderId" := Str(sender), "timestamp" := ServerTimestamp])
  }

  /** The fields of a date request carrying the formatted date. */
  function ComposeDateRequest(formatted: string, sender: Uid): (r: Fields)
    ensures r.Keys == {"type", "text", "senderId", "timestamp"}
    ensures r["type"] == Str("date_request") && r["text"] == Str(formatted)
    ensures r["senderId"] == Str(sender) && r["timestamp"] == ServerTimestamp
  {
    map["type" := Str("date_request"), "text" := Str(formatted), "senderId" := Str(sender), "timestamp" := ServerTimestamp]
  }

  /** How an entry is drawn. */
  datatype View = DateCard(text: Option<Value>) | Bubble(text: Option<Value>, isMe: bool)

  function Render(entry: Fields, viewer: Uid): (v: View)
    ensures v.DateCard? <==> Get(entry, "type") == Some(Str("date_request"))
    ensures v.text == Get(entry, "text")
    ensures v.Bubble? ==> (v.isMe <==> Get(entry, "senderId") == Some(Str(viewer)))
  {
    if Get(entry, "type") == Some(Str("date_request")) then DateCard(Get(entry, "text"))
    else Bubble(Get(entry, "text"), Get(entry, "senderId") == Some(Str(viewer)))
  }

  /** A sent text message comes back as a bubble with the trimmed text,
      marked as the viewer's own exactly when the viewer sent it. */
  lemma SentMessageRendersAsBubble(text: string, sender: Uid, id: string, now: Time, viewer: Uid)
    requires ComposeMessage(text, sender).Some?
    ensures var e := Attach(id, Resolve(ComposeMessage(text, sender).value, now));
      Render(e, viewer) == Bubble(Some(Str(Trim(text))), sender == viewer)
  {
  }

  /** A sent date request comes back as a date card with the date text. */
  lemma DateRequestRendersAsCard(formatted: string, sender: Uid, id: string, now: Time, viewer: Uid)
    ensures var e := Attach(id, Resolve(ComposeDateRequest(formatted, sender), now));
      Render(e, viewer) == DateCard(Some(Str(formatted)))
  {
  }

  /** The `messages` sub-collections, by match id, in the order written. */
  class MessageStore {
    var logs: map<string, seq<StoredDoc>>

    constructor (logs: map<string, seq<StoredDoc>>)
      ensures this.logs == logs
    {
      this.logs := logs;
    }

    function Log(matchId: string): seq<StoredDoc>
      reads this
    {
      if matchId in logs then logs[matchId] else []
    }

    /** `add(data)`: a new document with a fresh id, its placeholders
        resolved to `now`. */
    method Add(matchId: string, id: string, data: Fields, now: Time)
      modifies this
      ensures logs == old(logs)[matchId := old(Log(matchId)) + [StoredDoc(id, Resolve(data, now))]]
    {
      logs := logs[matchId := Log(matchId) + [StoredDoc(id, Resolve(data, now))]];
    }
  }

  /** The chat screen of one match. */
  class ChatScreen {
    const matchId: string
    var messages: seq<Fields>
    var text: string
    var showDateModal: bool

    constructor (matchId: string)
      ensures this.matchId == matchId && messages == [] && text == "" && !showDateModal
    {
      this.matchId := matchId;
      messages, text, showDateModal := [], "", false;
    }

    /** A snapshot replaces the whole list. */
    method OnSnapshot(store: MessageStore)
      modifies this
      ensures messages == Project(Ordered(store.Log(matchId)))
      ensures text == old(text) && showDateModal == old(showDateModal)
    {
      messages := Project(Ordered(store.Log(matchId)));
    }

    /** `sendMessage` by `uid`: blank input does nothing; the input is
        cleared only once the write resolves. `newId` is the generated
        document id and `now` the store's clock. */
    method SendMessage(store: MessageStore, uid: Uid, newId: string, now: Time, writeOk: bool)
      modifies this, store
      ensures var c := ComposeMessage(old(text), uid);
        && (c.Some? && writeOk ==>
              store.logs == old(store.logs)[matchId := old(store.Log(matchId)) + [StoredDoc(newId, Resolve(c.value, now))]]
              && text == "")
        && (!(c.Some? && writeOk) ==> store.logs == old(store.logs) && text == old(text))
      ensures messages == old(messages) && showDateModal == old(showDateModal)
    {
      var c := ComposeMessage(text, uid);
      if c.None? {
        return;
      }
      if !writeOk {
        return;
      }
      store.Add(matchId, newId, c.value, now);
      text := "";
    }

    /** `sendDateRequest` with the date's text `formatted`: the modal
        closes only once the write resolves. */
    method SendDateRequest(store: MessageStore, uid: Uid, formatted: string, newId: string, now: Time, writeOk: bool)
      modifies this, store
      ensures writeOk ==>
        store.logs == old(store.logs)[matchId := old(store.Log(matchId)) +
                                                 [StoredDoc(newId, Resolve(ComposeDateRequest(formatted, uid), now))]]
        && !showDateModal
      ensures !writeOk ==> store.logs == old(store.logs) && showDateModal == old(showDateModal)
      ensures messages == old(messages) && text == old(text)
    {
      if !writeOk {
        return;
      }
      store.Add(matchId, newId, ComposeDateRequest(formatted, uid), now);
      showDateModal := false;
    }
  }
}
