/**
 * Webhook subscriptions of `src/persistence/webhook-store.js` over an
 * in-memory table: rows in insertion order, creation times from a clock
 * that never runs backwards, and the event filter that decides which
 * subscriptions receive an event.
 */
module WebhookStore {
  import opened Base

  /** One subscription row, with its events already read back from their JSON column. */
  datatype Webhook = Webhook(
    id: string,
    tenantId: string,
    url: string,
    secret: Option<string>,
    events: seq<string>,
    active: bool,
    createdAt: nat)

  /** The subscription table, oldest row first. */
  type Table = seq<Webhook>

  predicate Earlier(a: Webhook, b: Webhook) { a.createdAt <= b.createdAt }
  predicate Later(a: Webhook, b: Webhook) { a.createdAt >= b.createdAt }

  /** Creation times never decrease along the table. */
  predicate Chronological(table: Table) {
    OrderedBy(table, Earlier)
  }

  /** Creation times never increase along a listing. */
  predicate NewestFirst(s: seq<Webhook>) {
    OrderedBy(s, Later)
  }

  /** A filter keeps every element that passes it. */
  lemma FilterKeeps(s: seq<Webhook>, p: Webhook -> bool)
    ensures forall w :: w in s && p(w) ==> w in Filter(s, p)
  {
    forall w | w in s && p(w) ensures w in Filter(s, p) {
      var i :| 0 <= i < |s| && s[i] == w;
    }
  }

  predicate OfTenant(tenantId: string, w: Webhook) {
    w.tenantId == tenantId
  }

  /** `listWebhooks`: the tenant's subscriptions, newest first. */
  function ListWebhooks(table: Table, tenantId: string): (r: seq<Webhook>)
    ensures forall i :: 0 <= i < |r| ==> r[i].tenantId == tenantId && r[i] in table
    ensures forall w :: w in r <==> w in table && w.tenantId == tenantId
    ensures Chronological(table) ==> NewestFirst(r)
  {
    var mine := Filter(table, w => OfTenant(tenantId, w));
    FilterKeeps(table, w => OfTenant(tenantId, w));
    ReverseMembers(mine);
    assert Chronological(table) ==> Chronological(mine) by {
      if Chronological(table) {
        FilterOrderedBy(table, w => OfTenant(tenantId, w), Earlier);
      }
    }
    Reverse(mine)
  }

  /** `createWebhook`: a new active row with the given events, stamped `now`; returns its id. */
  function CreateWebhook(table: Table, id: string, tenantId: string, url: string, secret: Option<string>,
                         events: seq<string>, now: nat): (r: (Table, string))
    ensures |r.0| == |table| + 1 && r.0[..|table|] == table
    ensures r.0[|table|] == Webhook(id, tenantId, url, secret, events, true, now)
    ensures r.1 == id
  {
    (table + [Webhook(id, tenantId, url, secret, events, true, now)], id)
  }

  /** A row created no earlier than every existing row keeps the table in time order. */
  lemma CreateKeepsChronological(table: Table, id: string, tenantId: string, url: string,
                                 secret: Option<string>, events: seq<string>, now: nat)
    requires Chronological(table)
    requires forall w :: w in table ==> w.createdAt <= now
    ensures Chronological(CreateWebhook(table, id, tenantId, url, secret, events, now).0)
  {
    var t := CreateWebhook(table, id, tenantId, url, secret, events, now).0;
    assert forall i :: 0 <= i < |table| ==> t[i] == table[i];
  }

  /** The newly created subscription is the first one its tenant's listing shows. */
  lemma CreatedWebhookListedFirst(table: Table, id: string, tenantId: string, url: string,
                                  secret: Option<string>, events: seq<string>, now: nat)
    ensures var listed := ListWebhooks(CreateWebhook(table, id, tenantId, url, secret, events, now).0, tenantId);
      |listed| > 0 && listed[0] == Webhook(id, tenantId, url, secret, events, true, now)
  {
    var w := Webhook(id, tenantId, url, secret, events, true, now);
    FilterConcat(table, [w], x => OfTenant(tenantId, x));
    assert Filter([w], x => OfTenant(tenantId, x)) == [w];
  }

  /**
   * Whether a subscription receives an event: it must be active; an empty
   * event list receives everything; otherwise the list must name the event
   * or `*`.
   */
  predicate Receives(w: Webhook, eventType: string) {
    w.active && (|w.events| == 0 || eventType in w.events || "*" in w.events)
  }

  /** `getActiveWebhooksForEvent`: the tenant's listing, kept in order, restricted to receivers. */
  function ActiveWebhooksForEvent(table: Table, tenantId: string, eventType: string): (r: seq<Webhook>)
    ensures forall w :: w in r <==> w in table && w.tenantId == tenantId && Receives(w, eventType)
    ensures Chronological(table) ==> NewestFirst(r)
  {
    var listed := ListWebhooks(table, tenantId);
    FilterKeeps(listed, w => Receives(w, eventType));
    assert Chronological(table) ==> NewestFirst(Filter(listed, w => Receives(w, eventType))) by {
      if Chronological(table) {
        FilterOrderedBy(listed, w => Receives(w, eventType), Later);
      }
    }
    Filter(listed, w => Receives(w, eventType))
  }

  /** An inactive subscription receives nothing. */
  lemma InactiveNeverReceives(table: Table, tenantId: string, eventType: string, w: Webhook)
    requires !w.active
    ensures w !in ActiveWebhooksForEvent(table, tenantId, eventType)
  {
  }

  /** An active subscription with no event list receives every event of its tenant. */
  lemma EmptyEventListReceivesAll(table: Table, tenantId: string, eventType: string, w: Webhook)
    requires w in table && w.tenantId == tenantId && w.active && w.events == []
    ensures w in ActiveWebhooksForEvent(table, tenantId, eventType)
  {
  }

  /** A subscription never receives another tenant's events. */
  lemma OtherTenantNeverReceives(table: Table, tenantId: string, eventType: string, w: Webhook)
    requires w.tenantId != tenantId
    ensures w !in ActiveWebhooksForEvent(table, tenantId, eventType)
  {
  }
}
