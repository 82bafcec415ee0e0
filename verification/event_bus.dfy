/**
 * The event bus of `src/events/bus.js`: live server-sent-event subscribers
 * kept per tenant, the text frame written to each of them, and the webhook
 * requests an event produces. Response streams are opaque handles; the
 * JSON serialiser, the HMAC and the delivery ids are supplied by the
 * caller, and the network send itself is not modelled.
 */
module EventBus {
  import opened Base
  import opened Json
  import WebhookStore

  /** One live subscription: its identity, the stream it writes to and the tenant it listens for. */
  datatype Entry = Entry(id: nat, stream: nat, tenantId: string)

  /** The subscriber set in insertion order, and the identity the next subscription gets. */
  datatype Subscribers = Subscribers(entries: seq<Entry>, nextId: nat)

  predicate DifferentIds(a: Entry, b: Entry) {
    a.id != b.id
  }

  /** Every entry has its own identity, and all were handed out before `nextId`. */
  predicate Valid(s: Subscribers) {
    (forall i :: 0 <= i < |s.entries| ==> s.entries[i].id < s.nextId) &&
    OrderedBy(s.entries, DifferentIds)
  }

  /** `subscribeSse`: adds a fresh entry; the returned id is what the unsubscribe callback removes. */
  function Subscribe(s: Subscribers, stream: nat, tenantId: string): (r: (Subscribers, nat))
    ensures r.0.entries == s.entries + [Entry(r.1, stream, tenantId)]
    ensures Valid(s) ==> forall e :: e in s.entries ==> e.id != r.1
    ensures Valid(s) ==> Valid(r.0)
  {
    (Subscribers(s.entries + [Entry(s.nextId, stream, tenantId)], s.nextId + 1), s.nextId)
  }

  predicate Keeps(id: nat, e: Entry) {
    e.id != id
  }

  /** The unsubscribe callback: drops the one entry with that identity and keeps the rest in order. */
  function Unsubscribe(s: Subscribers, id: nat): (r: Subscribers)
    ensures forall e :: e in r.entries <==> e in s.entries && e.id != id
    ensures r.nextId == s.nextId
    ensures Valid(s) ==> Valid(r)
  {
    var kept := Filter(s.entries, e => Keeps(id, e));
    assert forall e :: e in s.entries && e.id != id ==> e in kept by {
      forall e | e in s.entries && e.id != id ensures e in kept {
        var i :| 0 <= i < |s.entries| && s.entries[i] == e;
      }
    }
    assert Valid(s) ==> Valid(Subscribers(kept, s.nextId)) by {
      if Valid(s) {
        FilterOrderedBy(s.entries, e => Keeps(id, e), DifferentIds);
      }
    }
    Subscribers(kept, s.nextId)
  }

  /** Subscribing and then unsubscribing leaves the subscriber set as it was. */
  lemma SubscribeThenUnsubscribe(s: Subscribers, stream: nat, tenantId: string)
    requires Valid(s)
    ensures var (t, id) := Subscribe(s, stream, tenantId); Unsubscribe(t, id).entries == s.entries
  {
    var (t, id) := Subscribe(s, stream, tenantId);
    var p := (e: Entry) => Keeps(id, e);
    FilterConcat(s.entries, [Entry(id, stream, tenantId)], p);
    assert Filter([Entry(id, stream, tenantId)], p) == [];
    FilterAll(s.entries, p);
  }

  // ---------------------------------------------------------------------------
  // Frames
  // ---------------------------------------------------------------------------

  /** `writeSse`: an `event:` line naming the event, then a `data:` line and a blank line. */
  function Frame(eventType: string, data: string): string {
    "event: " + eventType + "\n" + "data: " + data + "\n\n"
  }

  /** The first position of `c` in `s`, if any. */
  function IndexOf(s: string, c: char): (r: Option<nat>)
    ensures r.None? ==> c !in s
    ensures r.Some? ==> r.value < |s| && s[r.value] == c && c !in s[..r.value]
  {
    if |s| == 0 then None
    else if s[0] == c then Some(0)
    else
      var k := IndexOf(s[1..], c);
      if k.None? then None
      else
        assert s[..k.value + 1] == [s[0]] + s[1..][..k.value];
        Some(k.value + 1)
  }

  /** Reads a frame back: the event name up to the first newline, and the data line's text. */
  function ParseFrame(f: string): Option<(string, string)> {
    if |f| < 7 || f[..7] != "event: " then None
    else
      var rest := f[7..];
      var k := IndexOf(rest, '\n');
      if k.None? then None
      else
        var body := rest[k.value + 1..];
        if |body| < 8 || body[..6] != "data: " || body[|body| - 2..] != "\n\n" then None
        else Some((rest[..k.value], body[6..|body| - 2]))
  }

  /** A frame whose event name has no line break reads back as the event and data that built it. */
  lemma FrameRoundTrip(eventType: string, data: string)
    requires '\n' !in eventType
    ensures ParseFrame(Frame(eventType, data)) == Some((eventType, data))
  {
    var f := Frame(eventType, data);
    var body := "data: " + data + "\n\n";
    assert f == "event: " + (eventType + "\n" + body);
    var rest := f[7..];
    assert rest == eventType + ("\n" + body);
    var k := IndexOf(rest, '\n');
    assert rest[|eventType|] == '\n';
    assert k.Some? && k.value <= |eventType|;
    assert rest[..k.value] == eventType[..k.value];
    assert k.value == |eventType|;
    assert rest[k.value + 1..] == body;
    assert body[..6] == "data: ";
    assert body[6..|body| - 2] == data;
  }

  // ---------------------------------------------------------------------------
  // Publishing
  // ---------------------------------------------------------------------------

  /** One frame written to one stream. */
  datatype Write = Write(stream: nat, frame: string)

  predicate ListensTo(tenantId: string, e: Entry) {
    e.tenantId == tenantId
  }

  function WriteFor(frame: string, e: Entry): Write {
    Write(e.stream, frame)
  }

  /** The SSE part of `publishEvent`: one frame per subscriber of the tenant, in subscription order. */
  function SseWrites(s: Subscribers, tenantId: string, eventType: string, data: string): (w: seq<Write>)
    ensures |w| == Count(s.entries, e => ListensTo(tenantId, e))
    ensures forall i :: 0 <= i < |w| ==> w[i].frame == Frame(eventType, data)
    ensures forall e :: e in s.entries && e.tenantId == tenantId ==> Write(e.stream, Frame(eventType, data)) in w
    ensures forall i :: 0 <= i < |w| ==> exists e :: e in s.entries && e.tenantId == tenantId && e.stream == w[i].stream
  {
    var frame := Frame(eventType, data);
    var p := (e: Entry) => ListensTo(tenantId, e);
    var f := (e: Entry) => WriteFor(frame, e);
    var w := MapSeq(Filter(s.entries, p), f);
    ListenersServed(s.entries, tenantId, frame, p, f);
    CountIsFilterLength(s.entries, p);
    w
  }

  /** Each listener of the tenant gets a write, and each write goes to such a listener. */
  lemma ListenersServed(entries: seq<Entry>, tenantId: string, frame: string, p: Entry -> bool, f: Entry -> Write)
    requires forall e :: p(e) == ListensTo(tenantId, e)
    requires forall e :: f(e) == WriteFor(frame, e)
    ensures forall e :: e in entries && e.tenantId == tenantId ==> Write(e.stream, frame) in MapSeq(Filter(entries, p), f)
    ensures forall j :: 0 <= j < |MapSeq(Filter(entries, p), f)| ==>
      exists e :: e in entries && e.tenantId == tenantId && e.stream == MapSeq(Filter(entries, p), f)[j].stream
  {
    var w := MapSeq(Filter(entries, p), f);
    forall e | e in entries && e.tenantId == tenantId ensures Write(e.stream, frame) in w {
      var i :| 0 <= i < |entries| && entries[i] == e;
      FilterMapHas(entries, p, f, i);
    }
    forall j | 0 <= j < |w| ensures exists e :: e in entries && e.tenantId == tenantId && e.stream == w[j].stream {
      FilterMapFrom(entries, p, f, j);
      var i :| 0 <= i < |entries| && p(entries[i]) && w[j] == f(entries[i]);
      assert entries[i] in entries && entries[i].tenantId == tenantId && entries[i].stream == w[j].stream;
    }
  }

  /** Counting is the length of the filtered list. */
  lemma {:induction false} CountIsFilterLength<T>(s: seq<T>, p: T -> bool)
    ensures Count(s, p) == |Filter(s, p)|
    decreases |s|
  {
    if |s| > 0 {
      CountIsFilterLength(s[1..], p);
    }
  }

  /** The headers of one webhook delivery; the signature only for a webhook with a non-empty secret. */
  datatype Headers = Headers(contentType: string, event: string, deliveryId: string, signature: Option<string>)

  datatype WebhookRequest = WebhookRequest(url: string, httpMethod: string, headers: Headers, body: string)

  /** `if (webhook.secret)`: a secret that is present and not the empty string. */
  predicate HasSecret(w: WebhookStore.Webhook) {
    w.secret.Some? && w.secret.value != ""
  }

  /** `dispatchWebhook`: the POST it sends; `hmac(secret, body)` is the hex HMAC-SHA256 of the body. */
  function DispatchRequest(w: WebhookStore.Webhook, eventType: string, body: string, deliveryId: string,
                           hmac: (string, string) -> string): (r: WebhookRequest)
    ensures r.url == w.url && r.httpMethod == "POST" && r.body == body
    ensures r.headers.contentType == "application/json"
    ensures r.headers.event == eventType && r.headers.deliveryId == deliveryId
    ensures r.headers.signature.Some? <==> HasSecret(w)
    ensures HasSecret(w) ==> r.headers.signature == Some(hmac(w.secret.value, body))
  {
    var signature := if HasSecret(w) then Some(hmac(w.secret.value, body)) else None;
    WebhookRequest(w.url, "POST", Headers("application/json", eventType, deliveryId, signature), body)
  }

  /** Everything one `publishEvent` call sends: frames to live streams and webhook requests. */
  datatype Publication = Publication(writes: seq<Write>, requests: seq<WebhookRequest>)

  /**
   * `publishEvent`: `stringify` is `JSON.stringify`, `deliveryIds(i)` the
   * fresh id of the i-th webhook delivery.
   */
  function Publish(s: Subscribers, table: WebhookStore.Table, tenantId: string, eventType: string, payload: Raw,
                   stringify: Raw -> string, hmac: (string, string) -> string,
                   deliveryIds: nat -> string): (p: Publication)
    ensures p.writes == SseWrites(s, tenantId, eventType, stringify(payload))
    ensures var hooks := WebhookStore.ActiveWebhooksForEvent(table, tenantId, eventType);
      |p.requests| == |hooks| &&
      forall i :: 0 <= i < |hooks| ==>
        p.requests[i] == DispatchRequest(hooks[i], eventType, stringify(payload), deliveryIds(i), hmac)
  {
    var body := stringify(payload);
    var hooks := WebhookStore.ActiveWebhooksForEvent(table, tenantId, eventType);
    Publication(SseWrites(s, tenantId, eventType, body),
                seq(|hooks|, i requires 0 <= i < |hooks| => DispatchRequest(hooks[i], eventType, body, deliveryIds(i), hmac)))
  }

  /** A stream subscribed only for other tenants receives no frame. */
  lemma OtherTenantsGetNoFrame(s: Subscribers, tenantId: string, eventType: string, data: string, stream: nat)
    requires forall e :: e in s.entries && e.stream == stream ==> e.tenantId != tenantId
    ensures forall w :: w in SseWrites(s, tenantId, eventType, data) ==> w.stream != stream
  {
  }
}
