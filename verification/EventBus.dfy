/**
 One stream of the trace event bus: a sequence counter, the last events for replay, and the queues of its
 subscribers. Queue objects are modelled by numbers. The bus is a dictionary of such streams by trace.
 */
module EventBus {
  import opened Options

  datatype Event = Event(sequence: int, kind: string, source: string, step: Option<int>, data: string)

  datatype Subscription = Subscribed(queue: int) | QueueFull

  /** What a queue has been through: it holds and has handed out the events of its trace from one position
      up to another. */
  datatype Seen = Seen(from: nat, to: nat, taken: seq<Event>)

  predicate Increasing(events: seq<Event>) {
    forall i, j :: 0 <= i < j < |events| ==> events[i].sequence < events[j].sequence
  }

  predicate IsEnd(part: seq<Event>, all: seq<Event>) {
    |part| <= |all| && part == all[|all| - |part|..]
  }

  /** The last `limit` events, or all of them. */
  predicate IsReplay(replay: seq<Event>, all: seq<Event>, limit: nat) {
    IsEnd(replay, all) && |replay| == if |all| < limit then |all| else limit
  }

  lemma EndAppend(part: seq<Event>, all: seq<Event>, e: Event)
    requires IsEnd(part, all)
    ensures IsEnd(part + [e], all + [e])
  {
  }

  lemma EndTail(part: seq<Event>, all: seq<Event>)
    requires IsEnd(part, all) && part != []
    ensures IsEnd(part[1..], all)
  {
  }

  predicate IsAfter(e: Event, after: Option<int>) {
    after.None? || e.sequence > after.value
  }

  /** The events after a sequence number among the first `n`; all of them without a number. */
  function AfterOf(events: seq<Event>, after: Option<int>, n: nat): seq<Event>
    requires n <= |events|
  {
    if n == 0 then []
    else
      var rest := AfterOf(events, after, n - 1);
      if IsAfter(events[n - 1], after) then rest + [events[n - 1]] else rest
  }

  function After(events: seq<Event>, after: Option<int>): seq<Event> {
    AfterOf(events, after, |events|)
  }

  /** The position from which events count. */
  predicate Splits(events: seq<Event>, after: Option<int>, k: nat) {
    k <= |events| && forall i :: 0 <= i < |events| ==> (IsAfter(events[i], after) <==> k <= i)
  }

  lemma {:induction false} AfterOfAt(events: seq<Event>, after: Option<int>, k: nat, n: nat)
    requires Splits(events, after, k) && n <= |events|
    ensures AfterOf(events, after, n) == if k <= n then events[k..n] else []
  {
    if n > 0 {
      AfterOfAt(events, after, k, n - 1);
      if k <= n - 1 {
        assert events[k..n] == events[k..n - 1] + [events[n - 1]];
      }
    }
  }

  lemma AfterAt(events: seq<Event>, after: Option<int>, k: nat)
    requires Splits(events, after, k)
    ensures After(events, after) == events[k..]
  {
    AfterOfAt(events, after, k, |events|);
  }

  /** Of increasing events the last ones count. */
  lemma AfterIsEnd(events: seq<Event>, after: Option<int>) returns (k: nat)
    requires Increasing(events)
    ensures Splits(events, after, k) && After(events, after) == events[k..]
  {
    k := |events|;
    while k > 0 && IsAfter(events[k - 1], after)
      invariant k <= |events| && forall i :: k <= i < |events| ==> IsAfter(events[i], after)
    {
      k := k - 1;
    }
    AfterAt(events, after, k);
  }

  /** Of the end of increasing events the part after a number is again an end. */
  lemma AfterOfEnd(part: seq<Event>, all: seq<Event>, after: Option<int>)
    requires Increasing(all) && IsEnd(part, all)
    ensures IsEnd(After(part, after), all)
  {
    var start := |all| - |part|;
    assert forall i :: 0 <= i < |part| ==> part[i] == all[start + i];
    var k := AfterIsEnd(part, after);
    assert part[k..] == all[start + k..];
  }

  /** Resubscribing after the event at position `j` misses nothing if and only if all later events are still in
      the replay. */
  lemma ResubscribeLosesNothing(all: seq<Event>, replay: seq<Event>, limit: nat, j: nat)
    requires Increasing(all) && IsReplay(replay, all, limit) && j < |all|
    ensures After(replay, Some(all[j].sequence)) == all[j + 1..] <==> |all| - (j + 1) <= limit
  {
    var start := |all| - |replay|;
    if j + 1 >= start {
      ReplaySplit(all, replay, start, j);
      AfterAt(replay, Some(all[j].sequence), j + 1 - start);
      assert replay[j + 1 - start..] == all[j + 1..];
    } else {
      var k := AfterIsEnd(replay, Some(all[j].sequence));
      assert |replay[k..]| < |all[j + 1..]|;
    }
  }

  lemma ReplaySplit(all: seq<Event>, replay: seq<Event>, start: nat, j: nat)
    requires Increasing(all) && start <= j + 1 <= |all| && replay == all[start..]
    ensures Splits(replay, Some(all[j].sequence), j + 1 - start)
  {
    forall i | 0 <= i < |replay| ensures IsAfter(replay[i], Some(all[j].sequence)) <==> j + 1 - start <= i {
      assert replay[i] == all[start + i];
    }
  }

  // ---- One stream ----

  /** The numbers increase and do not pass the counter. */
  predicate Numbered(all: seq<Event>, sequence: int) {
    Increasing(all) && 0 <= sequence && forall i :: 0 <= i < |all| ==> 0 < all[i].sequence <= sequence
  }

  lemma NumberedNext(all: seq<Event>, sequence: int, e: Event)
    requires Numbered(all, sequence) && e.sequence == sequence + 1
    ensures Numbered(all + [e], sequence + 1)
  {
  }

  /** A queue holds, after what was taken from it, the events from one position up to another. */
  predicate GapFree(all: seq<Event>, items: seq<Event>, v: Seen) {
    v.from <= v.to <= |all| && v.taken + items == all[v.from..v.to]
  }

  /** One more event: a queue that misses it stays gap-free, and so does one that was up to date and gets it. */
  lemma GapFreeNext(all: seq<Event>, items: seq<Event>, v: Seen, e: Event)
    requires GapFree(all, items, v)
    ensures GapFree(all + [e], items + [], v)
    ensures v.to == |all| ==> GapFree(all + [e], items + [e], v.(to := |all| + 1))
  {
    assert items + [] == items;
    assert (all + [e])[v.from..v.to] == all[v.from..v.to];
    if v.to == |all| {
      assert (all + [e])[v.from..] == all[v.from..v.to] + [e];
      assert v.taken + (items + [e]) == v.taken + items + [e];
    }
  }

  lemma GapFreeStart(all: seq<Event>, part: seq<Event>)
    requires IsEnd(part, all)
    ensures GapFree(all, part, Seen(|all| - |part|, |all|, []))
  {
    assert [] + part == part;
  }

  class TraceStream {
    const replayLimit: nat
    /** A size of zero or less means no bound. */
    const queueSize: int
    var sequence: int
    var replay: seq<Event>
    var subscribers: set<int>
    var closed: bool
    var queues: map<int, seq<Event>>
    var nextQueue: int
    /** All events of the stream, and what each queue has been through. */
    ghost var all: seq<Event>
    ghost var seen: map<int, Seen>

    constructor (replayLimit: nat, queueSize: int, initial: int)
      ensures Valid() && this.replayLimit == replayLimit && this.queueSize == queueSize
      ensures sequence == (if initial > 0 then initial else 0) && all == [] && queues == map[] && subscribers == {}
              && !closed
    {
      this.replayLimit, this.queueSize := replayLimit, queueSize;
      sequence := if initial > 0 then initial else 0;
      replay, subscribers, closed, queues, nextQueue, all, seen := [], {}, false, map[], 0, [], map[];
    }

    ghost predicate QueueOk(q: int)
      reads this
    {
      && q in queues && q in seen && 0 <= q < nextQueue && GapFree(all, queues[q], seen[q])
      && (q in subscribers ==> seen[q].to == |all|) && Fits(queueSize, queues[q])
    }

    /** The sequence numbers increase; replay is the last events; every queue is gap-free and within its size, and that
        of a subscriber is up to date. */
    ghost predicate Valid()
      reads this
    {
      Numbered(all, sequence) && IsReplay(replay, all, replayLimit) && QueuesOk() && 0 <= nextQueue
    }

    ghost predicate QueuesOk()
      reads this
    {
      forall q :: q in queues || q in subscribers ==> QueueOk(q)
    }

    /** `ensure_trace` on a known trace: the counter never goes back. */
    method EnsureTrace(initial: int)
      requires Valid()
      modifies `sequence
      ensures Valid() && sequence == if initial > old(sequence) then initial else old(sequence)
    {
      sequence := if initial > sequence then initial else sequence;
    }

    /** `reopen_trace`: numbering goes on above what has been persisted. */
    method Reopen(initial: int)
      requires Valid()
      modifies `sequence, `closed
      ensures Valid() && !closed && sequence == if initial > old(sequence) then initial else old(sequence)
    {
      EnsureTrace(initial);
      closed := false;
    }

    method Close()
      requires Valid()
      modifies `closed
      ensures Valid() && closed
    {
      closed := true;
    }

    /** `publish` on the stream. A subscriber whose queue is full is dropped with what it has. */
    method Publish(kind: string, source: string, step: Option<int>, data: string) returns (e: Event)
      requires Valid()
      modifies `sequence, `replay, `subscribers, `queues, `all, `seen
      ensures Valid() && sequence == old(sequence) + 1 && e == Event(sequence, kind, source, step, data)
      ensures all == old(all) + [e] && queues.Keys == old(queues.Keys)
      ensures forall q :: q in subscribers <==>
                          q in old(subscribers) && (queueSize > 0 ==> |old(queues)[q]| < queueSize)
      ensures forall q :: q in queues ==> queues[q] == old(queues)[q] + if q in subscribers then [e] else []
    {
      e := Event(sequence + 1, kind, source, step, data);
      NumberedNext(all, sequence, e);
      EndAppend(replay, all, e);
      var replay' := KeepLast(replay + [e], all + [e], replayLimit);
      hide IsReplay, IsEnd, Numbered, GapFree;
      Deliver(e);
      sequence, replay := sequence + 1, replay';
    }

    /** The event goes into the queues of the subscribers that have room. */
    method Deliver(e: Event)
      requires QueuesOk() && 0 <= nextQueue
      modifies `subscribers, `queues, `all, `seen
      ensures QueuesOk() && all == old(all) + [e] && queues.Keys == old(queues.Keys)
      ensures forall q :: q in subscribers <==> q in old(subscribers) && !Full(queueSize, old(queues)[q])
      ensures forall q :: q in queues ==> queues[q] == old(queues)[q] + if q in subscribers then [e] else []
    {
      assert forall q :: q in subscribers ==> QueueOk(q);
      var queues', dead := PutAll(queues, subscribers, nextQueue, queueSize, e);
      ghost var seen' := map q | q in seen :: if q in subscribers - dead then seen[q].(to := |all| + 1) else seen[q];
      Commit(e, subscribers - dead, queues', seen');
    }

    /** The effect of a publication on the queues. */
    method Commit(e: Event, live: set<int>, queues': map<int, seq<Event>>, ghost seen': map<int, Seen>)
      requires QueuesOk()
      requires live <= subscribers && queues'.Keys == queues.Keys && seen'.Keys == seen.Keys
      requires forall q :: q in queues ==> queues'[q] == queues[q] + if q in live then [e] else []
      requires forall q :: q in live ==> !Full(queueSize, queues[q])
      requires forall q :: q in seen ==> seen'[q] == if q in live then seen[q].(to := |all| + 1) else seen[q]
      modifies `subscribers, `queues, `all, `seen
      ensures subscribers == live && queues == queues' && seen == seen' && all == old(all) + [e]
      ensures QueuesOk()
    {
      forall q | q in queues ensures GapFree(all + [e], queues'[q], seen'[q]) {
        assert QueueOk(q);
        GapFreeNext(all, queues[q], seen[q], e);
      }
      assert forall q :: q in live ==> QueueOk(q);
      subscribers, queues, all, seen := live, queues', all + [e], seen';
    }

    /** A new queue with the replayed events after a number. If they do not fit, the subscription fails. */
    method Subscribe(after: Option<int>) returns (r: Subscription, ghost part: seq<Event>)
      requires Valid()
      modifies `subscribers, `queues, `nextQueue, `seen
      ensures Valid() && part == After(replay, after) && Offered(part, r, old(subscribers), old(queues), old(seen))
    {
      var replayed := ReplayAfter(replay, after);
      AfterOfEnd(replay, all, after);
      part := replayed;
      r := Offer(replayed);
    }

    /** What has become of an offer: a new queue with exactly this part, or nothing if the part does not fit. */
    ghost predicate Offered(part: seq<Event>, r: Subscription, subscribers0: set<int>, queues0: map<int, seq<Event>>,
                            seen0: map<int, Seen>)
      reads `subscribers, `queues, `seen, `all
    {
      && (r == QueueFull <==> queueSize > 0 && |part| > queueSize)
      && (r == QueueFull ==> subscribers == subscribers0 && queues == queues0)
      && (r.Subscribed? ==>
            && r.queue !in queues0 && queues == queues0[r.queue := part] && subscribers == subscribers0 + {r.queue}
            && |part| <= |all| && seen == seen0[r.queue := Seen(|all| - |part|, |all|, [])])
    }

    method Offer(part: seq<Event>) returns (r: Subscription)
      requires Valid() && IsEnd(part, all)
      modifies `subscribers, `queues, `nextQueue, `seen
      ensures Valid() && Offered(part, r, old(subscribers), old(queues), old(seen))
    {
      if queueSize > 0 && |part| > queueSize {
        return QueueFull;
      }
      r := Add(part);
    }

    /** A new queue that starts with an end of what has been published. */
    method Add(part: seq<Event>) returns (r: Subscription)
      requires Valid() && IsEnd(part, all) && Fits(queueSize, part)
      modifies `subscribers, `queues, `nextQueue, `seen
      ensures Valid() && r.Subscribed? && r.queue !in old(queues) && queues == old(queues)[r.queue := part]
      ensures subscribers == old(subscribers) + {r.queue}
              && seen == old(seen)[r.queue := Seen(|all| - |part|, |all|, [])]
    {
      GapFreeStart(all, part);
      hide GapFree, IsEnd, IsReplay, Numbered;
      assert forall q :: q in subscribers ==> QueueOk(q);
      var q := nextQueue;
      queues, seen := queues[q := part], seen[q := Seen(|all| - |part|, |all|, [])];
      subscribers, nextQueue := subscribers + {q}, q + 1;
      forall p | p in queues ensures QueueOk(p) {
        assert p != q ==> old(QueueOk(p));
      }
      r := Subscribed(q);
    }

    method Unsubscribe(q: int)
      requires Valid()
      modifies `subscribers
      ensures Valid() && subscribers == old(subscribers) - {q}
    {
      subscribers := subscribers - {q};
    }

    /** A consumer takes the oldest event of its queue. */
    method Take(q: int) returns (e: Event)
      requires Valid() && q in queues && queues[q] != []
      modifies `queues, `seen
      ensures Valid() && e == old(queues)[q][0] && queues == old(queues)[q := old(queues)[q][1..]]
      ensures seen == old(seen)[q := old(seen)[q].(taken := old(seen)[q].taken + [e])]
    {
      assert QueueOk(q);
      e := queues[q][0];
      assert seen[q].taken + queues[q] == (seen[q].taken + [e]) + queues[q][1..];
      queues, seen := queues[q := queues[q][1..]], seen[q := seen[q].(taken := seen[q].taken + [e])];
    }
  }

  /** A queue holds at most its size, if it has one. */
  predicate Fits(size: int, items: seq<Event>) {
    size > 0 ==> |items| <= size
  }

  predicate Full(size: int, items: seq<Event>) {
    size > 0 && |items| >= size
  }

  /** Pops the oldest events over the limit. */
  method KeepLast(events: seq<Event>, ghost all: seq<Event>, limit: nat) returns (r: seq<Event>)
    requires IsEnd(events, all) && (|events| >= limit || |events| == |all|)
    ensures IsReplay(r, all, limit)
  {
    r := events;
    while |r| > limit
      invariant IsEnd(r, all) && (|r| >= limit || |r| == |all|)
    {
      EndTail(r, all);
      r := r[1..];
    }
  }

  /** Puts the event into the queues of the subscribers and collects the full ones. */
  method PutAll(queues: map<int, seq<Event>>, subscribers: set<int>, next: int, size: int, e: Event)
    returns (r: map<int, seq<Event>>, dead: set<int>)
    requires forall q :: q in subscribers ==> q in queues && 0 <= q < next
    ensures r.Keys == queues.Keys
    ensures forall q :: q in queues ==> r[q] == queues[q] + if q in subscribers && q !in dead then [e] else []
    ensures forall q :: q in dead <==> q in subscribers && Full(size, queues[q])
  {
    r, dead := queues, {};
    var i := 0;
    while i < next
      invariant r.Keys == queues.Keys
      invariant forall q :: q in queues ==>
                              r[q] == queues[q] + if q in subscribers && q < i && q !in dead then [e] else []
      invariant forall q :: q in dead <==> q in subscribers && q < i && Full(size, queues[q])
    {
      if i in subscribers {
        if Full(size, r[i]) {
          dead := dead + {i};
        } else {
          r := r[i := r[i] + [e]];
        }
      }
      i := i + 1;
    }
  }

  /** The events of the replay that a subscription asks for. */
  method ReplayAfter(replay: seq<Event>, after: Option<int>) returns (part: seq<Event>)
    ensures part == After(replay, after)
  {
    part := [];
    for i := 0 to |replay|
      invariant part == AfterOf(replay, after, i)
    {
      if after.None? || replay[i].sequence > after.value {
        part := part + [replay[i]];
      }
    }
  }

  /** What a subscriber gets in the end, whenever it takes its events: all events of the trace from where it
      subscribed, each once and in order. */
  lemma SubscriberMissesNothing(stream: TraceStream, q: int)
    requires stream.Valid() && q in stream.subscribers
    ensures q in stream.queues && stream.seen[q].taken + stream.queues[q] == stream.all[stream.seen[q].from..]
  {
    assert stream.QueueOk(q);
  }
}
