/** The block-event broadcaster: each new block becomes one signed kind-2121
    event, queued once per relay under the key `id:url`, and a debounced
    pass publishes the queue relay by relay. Signing is a deterministic
    function value; connecting, publishing and subscribing are oracle
    outcomes indexed by relay position (and queue key). */
module Broadcast {
  import opened Wrappers
  import opened Decimal
  import opened BlockLedger

  /** The event kind of a block notification. */
  const BlockEventKind: int := 2121

  /** The unsigned event handed to the signer. */
  datatype Payload = Payload(kind: int, createdAt: int, content: string, tags: seq<seq<string>>)

  /** A signed event: the id the signer derived and the payload it covers. */
  datatype Event = Event(id: string, payload: Payload)

  /** `finalizeEvent` as far as the queue sees it: the event id as a
      function of the payload and the secret key. */
  type Signer = (Payload, string) -> string

  /** A signing key is usable when it is set and not empty. */
  predicate HasKey(key: Option<string>)
  {
    key.Some? && key.value != ""
  }

  /** The payload built for a block: its timestamp as creation time, empty
      content, a hash tag and a decimal height tag. */
  function BlockPayload(b: Block): Payload
  {
    Payload(BlockEventKind, b.timestamp, "", [["hash", b.hash], ["height", IntString(b.height)]])
  }

  /** What a subscriber reads back from a block payload. */
  function ReadBlock(p: Payload): Option<Block>
  {
    if p.kind == BlockEventKind && p.content == "" && |p.tags| == 2
       && |p.tags[0]| == 2 && p.tags[0][0] == "hash"
       && |p.tags[1]| == 2 && p.tags[1][0] == "height"
    then
      match ParseInt(p.tags[1][1])
      case Some(h) => Some(Block(p.createdAt, h, p.tags[0][1]))
      case None => None
    else None
  }

  /** The payload carries the whole block. */
  lemma PayloadRoundTrip(b: Block)
    ensures ReadBlock(BlockPayload(b)) == Some(b)
  {
    ParseIntString(b.height);
  }

  /** Distinct blocks give distinct payloads. */
  lemma BlockPayloadInjective(a: Block, b: Block)
    requires BlockPayload(a) == BlockPayload(b)
    ensures a == b
  {
    PayloadRoundTrip(a);
    PayloadRoundTrip(b);
  }

  /** `composeEvent(block)`: nothing without a signing key; otherwise the
      signed block payload, so one block and one key always give one id. */
  function ComposeEvent(b: Block, key: Option<string>, sign: Signer): (e: Option<Event>)
    ensures e.Some? <==> HasKey(key)
    ensures e.Some? ==>
      && e.value.payload.kind == BlockEventKind
      && e.value.payload.createdAt == b.timestamp
      && e.value.payload.content == ""
      && e.value.payload.tags == [["hash", b.hash], ["height", IntString(b.height)]]
      && e.value.id == sign(e.value.payload, key.value)
      && ReadBlock(e.value.payload) == Some(b)
  {
    if HasKey(key) then
      PayloadRoundTrip(b);
      Some(Event(sign(BlockPayload(b), key.value), BlockPayload(b)))
    else None
  }

  // ---------------------------------------------------------------- the queue

  /** The queue key of an event bound for one relay. */
  function QueueKey(id: string, url: string): (k: string)
    ensures ':' in k
  {
    assert (id + ":" + url)[|id|] == ':';
    id + ":" + url
  }

  /** For one event, each relay url has its own queue key. */
  lemma QueueKeyInjective(id: string, u: string, v: string)
    requires QueueKey(id, u) == QueueKey(id, v)
    ensures u == v
  {
    assert u == QueueKey(id, u)[|id| + 1..];
    assert v == QueueKey(id, v)[|id| + 1..];
  }

  /** The keys of one event bound for each of `urls`. */
  function AddressedKeys(id: string, urls: seq<string>): set<string>
  {
    set u | u in urls :: QueueKey(id, u)
  }

  /** The queue after `broadcastQueue.set(id:url, event)` for each url in turn. */
  function Enqueue(q: map<string, Event>, urls: seq<string>, e: Event): (r: map<string, Event>)
    ensures q.Keys <= r.Keys
    ensures forall u :: u in urls ==> QueueKey(e.id, u) in r && r[QueueKey(e.id, u)] == e
  {
    if urls == [] then q
    else Enqueue(q, urls[..|urls| - 1], e)[QueueKey(e.id, urls[|urls| - 1]) := e]
  }

  /** Enqueueing adds exactly one entry per relay url, holding the event,
      and leaves every other entry as it was. */
  lemma {:induction false} EnqueueContents(q: map<string, Event>, urls: seq<string>, e: Event)
    ensures Enqueue(q, urls, e).Keys == q.Keys + AddressedKeys(e.id, urls)
    ensures forall k :: k in AddressedKeys(e.id, urls) ==> Enqueue(q, urls, e)[k] == e
    ensures forall k :: k in q && k !in AddressedKeys(e.id, urls) ==> Enqueue(q, urls, e)[k] == q[k]
  {
    if urls != [] {
      var init, last := urls[..|urls| - 1], urls[|urls| - 1];
      assert urls == init + [last];
      assert AddressedKeys(e.id, urls) == AddressedKeys(e.id, init) + {QueueKey(e.id, last)};
      EnqueueContents(q, init, e);
    }
  }

  /** Handling the same event again before it is published changes nothing. */
  lemma EnqueueIdempotent(q: map<string, Event>, urls: seq<string>, e: Event)
    ensures Enqueue(Enqueue(q, urls, e), urls, e) == Enqueue(q, urls, e)
  {
    EnqueueContents(q, urls, e);
    EnqueueContents(Enqueue(q, urls, e), urls, e);
  }

  // ---------------------------------------------------------------- publishing

  /** The queue and the set of ids already broadcast. */
  datatype Outbox = Outbox(queue: map<string, Event>, sent: set<string>)

  /** The ids of the entries of `q` that are no longer in `rest`. */
  function DeletedIds(q: map<string, Event>, rest: map<string, Event>): set<string>
  {
    set k | k in q && k !in rest :: q[k].id
  }

  /** `after` only drops entries of `before`, keeping the rest unchanged,
      and only adds to the sent set. */
  ghost predicate Drains(before: Outbox, after: Outbox)
  {
    && after.queue.Keys <= before.queue.Keys
    && before.sent <= after.sent
    && forall k :: k in after.queue ==> after.queue[k] == before.queue[k]
  }

  /** Every entry of `before` that relay `i` accepts is gone from `after`,
      and its id is recorded as sent. */
  ghost predicate Settled(before: Outbox, after: Outbox, i: nat, publishOk: (nat, string) -> bool)
  {
    forall k :: k in before.queue && publishOk(i, k) ==> k !in after.queue && before.queue[k].id in after.sent
  }

  /** One relay's pass, relay `i` connected: every entry still queued is
      published to it; a success deletes the entry and records its id. */
  function Offer(o: Outbox, i: nat, publishOk: (nat, string) -> bool): (r: Outbox)
    ensures Drains(o, r)
    ensures Settled(o, r, i, publishOk)
  {
    Outbox(map k | k in o.queue && !publishOk(i, k) :: o.queue[k],
           o.sent + set k | k in o.queue && publishOk(i, k) :: o.queue[k].id)
  }

  /** The end state of the relay loop and the relay whose connect failed. */
  datatype Flushed = Flushed(outbox: Outbox, failedRelay: Option<nat>)

  /** The relay loop of `broadcastEvents` from relay `i` of `n` on: a relay
      that cannot be connected to aborts the remaining relays. */
  function Flush(o: Outbox, i: nat, n: nat, connectOk: nat -> bool, publishOk: (nat, string) -> bool): (f: Flushed)
    decreases n - i
    ensures Drains(o, f.outbox)
    ensures f.failedRelay.Some? ==> i <= f.failedRelay.value < n && !connectOk(f.failedRelay.value)
  {
    if i >= n then Flushed(o, None)
    else if !connectOk(i) then Flushed(o, Some(i))
    else Flush(Offer(o, i, publishOk), i + 1, n, connectOk, publishOk)
  }

  /** The relay at which the loop ended: the failed one, else `n`. */
  function StopOf(f: Flushed, n: nat): nat
  {
    if f.failedRelay.Some? then f.failedRelay.value else n
  }

  /** No relay in `[i, stop)` accepted entry `k`. */
  ghost predicate NeverPublished(k: string, i: nat, stop: nat, publishOk: (nat, string) -> bool)
  {
    forall j :: i <= j < stop ==> !publishOk(j, k)
  }

  /** The bookkeeping of the relay loop: an entry stays queued, unchanged,
      exactly when no relay visited before the stop accepted it; the ids of
      the deleted entries are added to the sent set and nothing else is;
      the loop stops only at a relay whose connect failed, every earlier
      relay having connected. */
  lemma {:induction false} FlushEffect(o: Outbox, i: nat, n: nat, connectOk: nat -> bool, publishOk: (nat, string) -> bool)
    requires i <= n
    decreases n - i
    ensures var f := Flush(o, i, n, connectOk, publishOk);
      && i <= StopOf(f, n) <= n
      && (forall k :: k in f.outbox.queue <==> k in o.queue && NeverPublished(k, i, StopOf(f, n), publishOk))
      && (forall k :: k in f.outbox.queue ==> f.outbox.queue[k] == o.queue[k])
      && f.outbox.sent == o.sent + DeletedIds(o.queue, f.outbox.queue)
      && (f.failedRelay.Some? ==> f.failedRelay.value < n && !connectOk(f.failedRelay.value))
      && (forall j :: i <= j < StopOf(f, n) ==> connectOk(j))
  {
    if i < n && connectOk(i) {
      var o' := Offer(o, i, publishOk);
      FlushEffect(o', i + 1, n, connectOk, publishOk);
      var f := Flush(o', i + 1, n, connectOk, publishOk);
      FlushQueueStep(o, i, StopOf(f, n), publishOk, f.outbox.queue);
      FlushSentStep(o, i, publishOk, f.outbox.queue);
    }
  }

  /** One relay's pass, then the rest: an entry survives both exactly when
      no relay from `i` up to `stop` accepted it. */
  lemma FlushQueueStep(o: Outbox, i: nat, stop: nat, publishOk: (nat, string) -> bool, rest: map<string, Event>)
    requires i < stop
    requires forall k :: k in rest <==> k in Offer(o, i, publishOk).queue && NeverPublished(k, i + 1, stop, publishOk)
    ensures forall k :: k in rest <==> k in o.queue && NeverPublished(k, i, stop, publishOk)
  {
    forall k | k in o.queue
      ensures k in rest <==> NeverPublished(k, i, stop, publishOk)
    {
      if NeverPublished(k, i, stop, publishOk) {
        assert !publishOk(i, k);
        assert NeverPublished(k, i + 1, stop, publishOk);
      }
    }
  }

  /** One relay's pass, then the rest: the ids recorded by both are those
      of every entry deleted by either. */
  lemma FlushSentStep(o: Outbox, i: nat, publishOk: (nat, string) -> bool, rest: map<string, Event>)
    requires rest.Keys <= Offer(o, i, publishOk).queue.Keys
    ensures Offer(o, i, publishOk).sent + DeletedIds(Offer(o, i, publishOk).queue, rest)
      == o.sent + DeletedIds(o.queue, rest)
  {
    var o' := Offer(o, i, publishOk);
    var gone := DeletedIds(o.queue, rest);
    var early := set k | k in o.queue && publishOk(i, k) :: o.queue[k].id;
    var late := DeletedIds(o'.queue, rest);
    forall x | x in gone
      ensures x in early + late
    {
      var k :| k in o.queue && k !in rest && o.queue[k].id == x;
      if !publishOk(i, k) {
        assert k in o'.queue;
      }
    }
    assert early + late <= gone;
  }

  /** What the relay loop says about single entries: an entry is deleted
      only if some relay accepted it, and its id is then recorded; an entry
      every relay refused stays queued; the queue only shrinks and the sent
      set only grows. */
  lemma FlushBookkeeping(o: Outbox, n: nat, connectOk: nat -> bool, publishOk: (nat, string) -> bool, k: string)
    ensures var f := Flush(o, 0, n, connectOk, publishOk);
      && f.outbox.queue.Keys <= o.queue.Keys
      && o.sent <= f.outbox.sent
      && (k in o.queue && k !in f.outbox.queue ==>
            o.queue[k].id in f.outbox.sent && exists j :: 0 <= j < n && publishOk(j, k))
      && (k in o.queue && (forall j :: 0 <= j < n ==> !publishOk(j, k)) ==> k in f.outbox.queue)
  {
    FlushEffect(o, 0, n, connectOk, publishOk);
    var f := Flush(o, 0, n, connectOk, publishOk);
    if k in o.queue && k !in f.outbox.queue {
      assert o.queue[k].id in DeletedIds(o.queue, f.outbox.queue);
      assert !NeverPublished(k, 0, StopOf(f, n), publishOk);
    }
  }

  /** What `broadcastEvents` resolves to. */
  datatype Broadcasted = NoRelays | NothingQueued | ConnectFailed(relay: nat) | Delivered

  /** `broadcastEvents` over `relayCount` relays: the early returns, then the
      relay loop. */
  function BroadcastOutcome(relayCount: nat, o: Outbox, connectOk: nat -> bool, publishOk: (nat, string) -> bool): (r: (Outbox, Broadcasted))
    ensures relayCount == 0 ==> r == (o, NoRelays)
    ensures relayCount > 0 && o.queue == map[] ==> r == (o, NothingQueued)
    ensures r.0.queue.Keys <= o.queue.Keys && o.sent <= r.0.sent
    ensures r.1.ConnectFailed? ==> r.1.relay < relayCount && !connectOk(r.1.relay)
  {
    if relayCount == 0 then (o, NoRelays)
    else if o.queue == map[] then (o, NothingQueued)
    else
      var f := Flush(o, 0, relayCount, connectOk, publishOk);
      FlushEffect(o, 0, relayCount, connectOk, publishOk);
      (f.outbox, if f.failedRelay.Some? then ConnectFailed(f.failedRelay.value) else Delivered)
  }

  /** Publishing ignores the url in the key: with relays "a" and "b", both
      connected, and only relay 0 accepting, the entry addressed to "b" is
      deleted although it never reached "b". */
  lemma EntryForSecondRelayDeletedByFirst()
    ensures var e := Event("e", BlockPayload(Block(0, 1, "h")));
      var q := Enqueue(map[], ["a", "b"], e);
      var f := Flush(Outbox(q, {}), 0, 2, AllConnect, FirstRelayOnly);
      && QueueKey("e", "b") in q
      && f.failedRelay == None
      && QueueKey("e", "b") !in f.outbox.queue
  {
    var e := Event("e", BlockPayload(Block(0, 1, "h")));
    EnqueueContents(map[], ["a", "b"], e);
    assert "b" in ["a", "b"];
    var q := Enqueue(map[], ["a", "b"], e);
    var o1 := Offer(Outbox(q, {}), 0, FirstRelayOnly);
    assert QueueKey("e", "b") !in o1.queue;
    var o2 := Offer(o1, 1, FirstRelayOnly);
    assert QueueKey("e", "b") !in o2.queue;
  }

  /** Every relay connects. */
  function AllConnect(i: nat): bool
  {
    true
  }

  /** Only relay 0 accepts publishes. */
  function FirstRelayOnly(i: nat, k: string): bool
  {
    i == 0
  }

  /** `k` is the key of its event bound for `url`. */
  predicate Addressed(k: string, e: Event, url: string)
  {
    k == QueueKey(e.id, url)
  }

  /** The intended pass for relay `i` at `url`: only the entries addressed
      to that relay are published to it. */
  function OfferOwn(o: Outbox, i: nat, url: string, publishOk: (nat, string) -> bool): Outbox
  {
    Outbox(map k | k in o.queue && !(Addressed(k, o.queue[k], url) && publishOk(i, k)) :: o.queue[k],
           o.sent + set k | k in o.queue && Addressed(k, o.queue[k], url) && publishOk(i, k) :: o.queue[k].id)
  }

  /** The intended relay loop, each relay offered its own entries. */
  function FlushOwn(o: Outbox, relays: seq<string>, i: nat, connectOk: nat -> bool,
                    publishOk: (nat, string) -> bool): Flushed
    decreases |relays| - i
  {
    if i >= |relays| then Flushed(o, None)
    else if !connectOk(i) then Flushed(o, Some(i))
    else FlushOwn(OfferOwn(o, i, relays[i], publishOk), relays, i + 1, connectOk, publishOk)
  }

  /** In the intended loop an entry leaves the queue only after the relay it
      is addressed to accepted it, and its id is then recorded. */
  lemma {:induction false} FlushOwnDelivers(o: Outbox, relays: seq<string>, i: nat, connectOk: nat -> bool,
                                            publishOk: (nat, string) -> bool)
    decreases |relays| - i
    ensures var f := FlushOwn(o, relays, i, connectOk, publishOk);
      && (forall k :: k in f.outbox.queue ==> k in o.queue && f.outbox.queue[k] == o.queue[k])
      && o.sent <= f.outbox.sent
      && (forall k :: k in o.queue && k !in f.outbox.queue ==>
            o.queue[k].id in f.outbox.sent
            && exists j :: i <= j < |relays| && Addressed(k, o.queue[k], relays[j]) && publishOk(j, k))
  {
    if i < |relays| && connectOk(i) {
      var o' := OfferOwn(o, i, relays[i], publishOk);
      FlushOwnDelivers(o', relays, i + 1, connectOk, publishOk);
      var f := FlushOwn(o', relays, i + 1, connectOk, publishOk);
      forall k | k in o.queue && k !in f.outbox.queue
        ensures o.queue[k].id in f.outbox.sent
        ensures exists j :: i <= j < |relays| && Addressed(k, o.queue[k], relays[j]) && publishOk(j, k)
      {
        if k in o'.queue {
          assert o'.queue[k] == o.queue[k];
        } else {
          assert o.queue[k].id in o'.sent;
        }
      }
    }
  }

  /** The counterpart of `EntryForSecondRelayDeletedByFirst`: in the intended
      loop the entry addressed to "b" stays queued when "b" refuses it. */
  lemma EntryForSecondRelayKeptByOwnLoop()
    ensures var e := Event("e", BlockPayload(Block(0, 1, "h")));
      var q := Enqueue(map[], ["a", "b"], e);
      var f := FlushOwn(Outbox(q, {}), ["a", "b"], 0, AllConnect, FirstRelayOnly);
      QueueKey("e", "b") in f.outbox.queue
  {
    var e := Event("e", BlockPayload(Block(0, 1, "h")));
    var relays := ["a", "b"];
    EnqueueContents(map[], relays, e);
    assert "b" in relays;
    var q := Enqueue(map[], relays, e);
    var kb := QueueKey("e", "b");
    assert kb in q && q[kb] == e;
    if kb == QueueKey("e", "a") {
      QueueKeyInjective("e", "b", "a");
    }
    var o1 := OfferOwn(Outbox(q, {}), 0, "a", FirstRelayOnly);
    assert kb in o1.queue;
    var o2 := OfferOwn(o1, 1, "b", FirstRelayOnly);
    assert kb in o2.queue;
  }

  // ---------------------------------------------------------------- restoring

  /** An event a relay holds, as the subscription sees it. */
  datatype StoredEvent = StoredEvent(id: string, kind: int, author: string)

  /** The ids a relay reports for the filter `{kinds: [2121], authors: [author]}`. */
  function Observed(events: seq<StoredEvent>, author: string): set<string>
  {
    set e | e in events && e.kind == BlockEventKind && e.author == author :: e.id
  }

  /** `restorePrevious` from relay `i` of `n` on: relay `j` answers with its
      events, or fails (None) and is skipped. */
  function Restored(sent: set<string>, i: nat, n: nat, stored: nat -> Option<seq<StoredEvent>>, author: string): (r: set<string>)
    decreases n - i
    ensures sent <= r
    ensures forall j :: i <= j < n && stored(j).Some? ==> Observed(stored(j).value, author) <= r
  {
    if i >= n then sent
    else
      var seen := if stored(i).Some? then Observed(stored(i).value, author) else {};
      Restored(sent + seen, i + 1, n, stored, author)
  }

  /** Restoring only adds: the old ids stay, every id added was reported by
      some answering relay, and every reported id is added. */
  lemma {:induction false} RestoreOnlyAdds(sent: set<string>, i: nat, n: nat, stored: nat -> Option<seq<StoredEvent>>, author: string)
    decreases n - i
    ensures sent <= Restored(sent, i, n, stored, author)
    ensures forall x :: x in Restored(sent, i, n, stored, author) && x !in sent ==>
      exists j :: i <= j < n && stored(j).Some? && x in Observed(stored(j).value, author)
    ensures forall j :: i <= j < n && stored(j).Some? ==>
      Observed(stored(j).value, author) <= Restored(sent, i, n, stored, author)
  {
    if i < n {
      var seen := if stored(i).Some? then Observed(stored(i).value, author) else {};
      RestoreOnlyAdds(sent + seen, i + 1, n, stored, author);
    }
  }

  /** The author filter as written: the secret key read as hex and written
      back as hex, which is the secret key itself. */
  function FilterAuthor(secretKey: string): string
  {
    secretKey
  }

  /** With the secret key as author filter, relays that hold only events
      signed under the matching public key report nothing, so nothing is
      restored. */
  lemma RestoreBySecretKeyFindsNothing(sent: set<string>, n: nat, stored: nat -> Option<seq<StoredEvent>>,
                                       secretKey: string, publicKey: string)
    requires publicKey != secretKey
    requires forall j: nat, e :: stored(j).Some? && e in stored(j).value ==> e.author == publicKey
    ensures Restored(sent, 0, n, stored, FilterAuthor(secretKey)) == sent
  {
    RestoreOnlyAdds(sent, 0, n, stored, FilterAuthor(secretKey));
    forall j: nat | stored(j).Some?
      ensures Observed(stored(j).value, FilterAuthor(secretKey)) == {}
    {
      assert forall e :: e in stored(j).value ==> e.author != secretKey;
    }
  }

  /** With the public key derived from the secret key as author filter,
      every own block event held by an answering relay is restored. */
  lemma RestoreByPublicKeyFindsOwn(sent: set<string>, n: nat, stored: nat -> Option<seq<StoredEvent>>,
                                   secretKey: string, publicKeyOf: string -> string, j: nat, e: StoredEvent)
    requires j < n && stored(j).Some? && e in stored(j).value
    requires e.kind == BlockEventKind && e.author == publicKeyOf(secretKey)
    ensures e.id in Restored(sent, 0, n, stored, publicKeyOf(secretKey))
  {
    RestoreOnlyAdds(sent, 0, n, stored, publicKeyOf(secretKey));
    assert e.id in Observed(stored(j).value, publicKeyOf(secretKey));
  }

  // ---------------------------------------------------------------- the interface

  /** What `handleBlock` did. */
  datatype Handled =
    | NoSigningKey               // composeEvent returned nothing; reading its id throws
    | AlreadyHandled             // the id was found by the dedup check
    | Queued(scheduled: bool)    // entries written; whether a broadcast was scheduled

  /** The broadcaster: its relays and key, the ids already broadcast, the
      queue and the debounce flag (set while a broadcast is scheduled). */
  class NostrInterface {
    const relays: seq<string>
    const signingKey: Option<string>
    const sign: Signer
    var alreadyBroadcasted: set<string>
    var broadcastQueue: map<string, Event>
    var broadcastPending: bool

    /** Every queue key is a composite `id:url` key. */
    ghost predicate Valid()
      reads this
    {
      forall k :: k in broadcastQueue ==> ':' in k
    }

    constructor (relays: seq<string>, signingKey: Option<string>, sign: Signer)
      ensures Valid()
      ensures this.relays == relays && this.signingKey == signingKey && this.sign == sign
      ensures alreadyBroadcasted == {} && broadcastQueue == map[] && !broadcastPending
    {
      this.relays := relays;
      this.signingKey := signingKey;
      this.sign := sign;
      alreadyBroadcasted := {};
      broadcastQueue := map[];
      broadcastPending := false;
    }

    /** `handleBlock(block)`: compose the event; skip it when its id is
        found in the queue or in the sent set; otherwise write one entry per
        relay and schedule a broadcast unless one is pending. */
    method HandleBlock(b: Block) returns (r: Handled)
      requires Valid()
      modifies this`broadcastQueue, this`broadcastPending
      ensures Valid()
      ensures ComposeEvent(b, signingKey, sign).None? ==>
        r == NoSigningKey && broadcastQueue == old(broadcastQueue) && broadcastPending == old(broadcastPending)
      ensures ComposeEvent(b, signingKey, sign).Some? ==>
        var e := ComposeEvent(b, signingKey, sign).value;
        && (':' !in e.id ==> (r == AlreadyHandled <==> e.id in alreadyBroadcasted))
        && (r == AlreadyHandled <==> e.id in old(broadcastQueue) || e.id in alreadyBroadcasted)
        && (r == AlreadyHandled ==> broadcastQueue == old(broadcastQueue) && broadcastPending == old(broadcastPending))
        && (r != AlreadyHandled ==>
              && broadcastQueue == Enqueue(old(broadcastQueue), relays, e)
              && broadcastPending
              && r == Queued(!old(broadcastPending)))
    {
      var ev := ComposeEvent(b, signingKey, sign);
      if ev.None? {
        return NoSigningKey;
      }
      var e := ev.value;
      if e.id in broadcastQueue || e.id in alreadyBroadcasted {
        return AlreadyHandled;
      }
      var i := 0;
      while i < |relays|
        invariant 0 <= i <= |relays|
        invariant broadcastQueue == Enqueue(old(broadcastQueue), relays[..i], e)
        invariant forall k :: k in broadcastQueue ==> ':' in k
        invariant broadcastPending == old(broadcastPending)
      {
        assert relays[..i + 1][..i] == relays[..i];
        broadcastQueue := broadcastQueue[QueueKey(e.id, relays[i]) := e];
        i := i + 1;
      }
      assert relays[..i] == relays;
      if !broadcastPending {
        broadcastPending := true;
        r := Queued(true);
      } else {
        r := Queued(false);
      }
    }

    /** `broadcastEvents()`: return early without relays or without queued
        entries; otherwise connect to each relay in turn and publish every
        entry still queued to it. */
    method BroadcastEvents(connectOk: nat -> bool, publishOk: (nat, string) -> bool) returns (r: Broadcasted)
      requires Valid()
      modifies this`alreadyBroadcasted, this`broadcastQueue
      ensures Valid()
      ensures (Outbox(broadcastQueue, alreadyBroadcasted), r)
        == BroadcastOutcome(|relays|, Outbox(old(broadcastQueue), old(alreadyBroadcasted)), connectOk, publishOk)
    {
      if |relays| == 0 {
        return NoRelays;
      }
      if broadcastQueue == map[] {
        return NothingQueued;
      }
      ghost var o0 := Outbox(broadcastQueue, alreadyBroadcasted);
      var i := 0;
      while i < |relays|
        invariant 0 <= i <= |relays|
        invariant Valid()
        invariant Flush(o0, 0, |relays|, connectOk, publishOk)
               == Flush(Outbox(broadcastQueue, alreadyBroadcasted), i, |relays|, connectOk, publishOk)
      {
        if !connectOk(i) {
          return ConnectFailed(i);
        }
        PublishAll(i, publishOk);
        i := i + 1;
      }
      r := Delivered;
    }

    /** The inner loop of `broadcastEvents` for connected relay `i`. */
    method PublishAll(i: nat, publishOk: (nat, string) -> bool)
      requires Valid()
      modifies this`alreadyBroadcasted, this`broadcastQueue
      ensures Valid()
      ensures Outbox(broadcastQueue, alreadyBroadcasted) == Offer(Outbox(old(broadcastQueue), old(alreadyBroadcasted)), i, publishOk)
    {
      var pending := broadcastQueue.Keys;
      ghost var q0, s0 := broadcastQueue, alreadyBroadcasted;
      while pending != {}
        invariant pending <= q0.Keys
        invariant broadcastQueue == map k | k in q0 && (k in pending || !publishOk(i, k)) :: q0[k]
        invariant alreadyBroadcasted == s0 + set k | k in q0 && k !in pending && publishOk(i, k) :: q0[k].id
        invariant Valid()
        decreases pending
      {
        var k :| k in pending;
        if publishOk(i, k) {
          alreadyBroadcasted := alreadyBroadcasted + {broadcastQueue[k].id};
          broadcastQueue := broadcastQueue - {k};
        }
        pending := pending - {k};
      }
    }

    /** The scheduled callback: run the broadcast, then clear the flag. */
    method OnTimer(connectOk: nat -> bool, publishOk: (nat, string) -> bool) returns (r: Broadcasted)
      requires Valid() && broadcastPending
      modifies this`alreadyBroadcasted, this`broadcastQueue, this`broadcastPending
      ensures Valid() && !broadcastPending
      ensures (Outbox(broadcastQueue, alreadyBroadcasted), r)
        == BroadcastOutcome(|relays|, Outbox(old(broadcastQueue), old(alreadyBroadcasted)), connectOk, publishOk)
    {
      r := BroadcastEvents(connectOk, publishOk);
      broadcastPending := false;
    }

    /** `restorePrevious()`: ask every relay for its kind-2121 events by the
        filter author, adding each reported id to the sent set; a relay that
        fails is skipped. Without a key, reading it as hex throws. */
    method RestorePrevious(stored: nat -> Option<seq<StoredEvent>>) returns (ok: bool)
      requires Valid()
      modifies this`alreadyBroadcasted
      ensures Valid()
      ensures ok <==> signingKey.Some?
      ensures !ok ==> alreadyBroadcasted == old(alreadyBroadcasted)
      ensures ok ==> alreadyBroadcasted == Restored(old(alreadyBroadcasted), 0, |relays|, stored, FilterAuthor(signingKey.value))
    {
      if signingKey.None? {
        return false;
      }
      var author := FilterAuthor(signingKey.value);
      var i := 0;
      while i < |relays|
        invariant 0 <= i <= |relays|
        invariant Restored(old(alreadyBroadcasted), 0, |relays|, stored, author)
               == Restored(alreadyBroadcasted, i, |relays|, stored, author)
      {
        var answer := stored(i);
        var seen := if answer.Some? then Observed(answer.value, author) else {};
        alreadyBroadcasted := alreadyBroadcasted + seen;
        i := i + 1;
      }
      return true;
    }
  }
}
