/**
 The agents' message bus: a queue per registered agent, and a list of messages that a filtered receive has
 put aside. While a receive waits, others send; what arrives at which point and when the time is up is a
 parameter.
 */
module MessageBus {
  import opened Options

  datatype Message = Message(id: string, sender: string, receiver: string, priority: int, expired: bool)

  datatype Received = Received(message: Message) | TimedOut | StillWaiting | NotRegistered

  /** What happens before one look at the queue: messages arrive, or the time is up. */
  datatype Tick = Tick(arrivals: seq<Message>, timesOut: bool)

  predicate Meets(filter: Option<int>, m: Message) {
    filter.None? || m.priority >= filter.value
  }

  predicate NoneMeets(filter: Option<int>, ms: seq<Message>) {
    forall i :: 0 <= i < |ms| ==> !Meets(filter, ms[i])
  }

  /** The end of a receive that has looked at `k` messages of the stream of queued and arriving messages. A
      success returns the first one that meets the filter, and everything put aside goes behind the rest of
      the queue. Without one, what it has looked at stays aside. */
  predicate EndsAt(stream: seq<Message>, deferred: seq<Message>, filter: Option<int>, r: Received, queue': seq<Message>,
                   deferred': seq<Message>, k: nat) {
    && k <= |stream| && NoneMeets(filter, stream[..k])
    && match r
       case Received(m) =>
         k < |stream| && m == stream[k] && Meets(filter, m) && queue' == stream[k + 1..] + (deferred + stream[..k])
         && deferred' == []
       case TimedOut => queue' == stream[k..] && deferred' == deferred + stream[..k]
       case StillWaiting => k == |stream| && queue' == [] && deferred' == deferred + stream
       case NotRegistered => false
  }

  /** A receive that has looked at `k` messages in vain. */
  predicate Looked(stream: seq<Message>, deferred: seq<Message>, filter: Option<int>, queue': seq<Message>,
                   deferred': seq<Message>, k: nat) {
    k <= |stream| && queue' == stream[k..] && deferred' == deferred + stream[..k] && NoneMeets(filter, stream[..k])
  }

  lemma LookMore(stream: seq<Message>, more: seq<Message>, deferred: seq<Message>, filter: Option<int>,
                 queue': seq<Message>, deferred': seq<Message>, k: nat)
    requires Looked(stream, deferred, filter, queue', deferred', k)
    ensures Looked(stream + more, deferred, filter, queue' + more, deferred', k)
  {
    assert (stream + more)[..k] == stream[..k];
  }

  lemma LookNext(stream: seq<Message>, deferred: seq<Message>, filter: Option<int>, queue': seq<Message>,
                 deferred': seq<Message>, k: nat)
    requires Looked(stream, deferred, filter, queue', deferred', k) && queue' != []
    ensures k < |stream| && queue'[0] == stream[k]
    ensures if Meets(filter, queue'[0])
            then EndsAt(stream, deferred, filter, Received(queue'[0]), queue'[1..] + deferred', [], k)
            else Looked(stream, deferred, filter, queue'[1..], deferred' + [queue'[0]], k + 1)
  {
    assert stream[..k + 1] == stream[..k] + [stream[k]];
    assert deferred + stream[..k + 1] == deferred + stream[..k] + [stream[k]];
  }

  /** The loop of `receive` on the queue and the list of one agent. */
  method ReceiveLoop(queue: seq<Message>, deferred: seq<Message>, filter: Option<int>, ticks: seq<Tick>)
    returns (r: Received, queue': seq<Message>, deferred': seq<Message>, arrived: seq<Message>, k: nat)
    ensures EndsAt(queue + arrived, deferred, filter, r, queue', deferred', k)
  {
    queue', deferred', arrived, k := queue, deferred, [], 0;
    var i := 0;
    while true
      invariant i <= |ticks| && Looked(queue + arrived, deferred, filter, queue', deferred', k)
      decreases |ticks| - i, |queue'|
    {
      if i < |ticks| {
        LookMore(queue + arrived, ticks[i].arrivals, deferred, filter, queue', deferred', k);
        assert queue + (arrived + ticks[i].arrivals) == queue + arrived + ticks[i].arrivals;
        arrived, queue' := arrived + ticks[i].arrivals, queue' + ticks[i].arrivals;
        if ticks[i].timesOut {
          return TimedOut, queue', deferred', arrived, k;
        }
        i := i + 1;
        if queue' == [] {
          continue;
        }
      } else if queue' == [] {
        assert (queue + arrived)[..k] == queue + arrived;
        return StillWaiting, queue', deferred', arrived, k;
      }
      LookNext(queue + arrived, deferred, filter, queue', deferred', k);
      var m := queue'[0];
      queue' := queue'[1..];
      if Meets(filter, m) {
        return Received(m), queue' + deferred', [], arrived, k;
      }
      deferred', k := deferred' + [m], k + 1;
    }
  }

  function Got(r: Received): multiset<Message> {
    if r.Received? then multiset{r.message} else multiset{}
  }

  /** Nothing is lost and nothing is doubled by a receive. */
  lemma ReceiveConserves(stream: seq<Message>, deferred: seq<Message>, filter: Option<int>, r: Received,
                         queue': seq<Message>, deferred': seq<Message>, k: nat)
    requires EndsAt(stream, deferred, filter, r, queue', deferred', k)
    ensures multiset(queue') + multiset(deferred') + Got(r) == multiset(stream) + multiset(deferred)
  {
    var a, b := stream[..k], stream[k..];
    assert stream == a + b;
    if r.Received? {
      var m, rest := stream[k], stream[k + 1..];
      assert b == [m] + rest;
      assert queue' == rest + (deferred + a) && deferred' == [] && Got(r) == multiset{m};
      hide EndsAt;
      TakenOut(a, m, rest, deferred);
    } else {
      assert queue' == b && deferred' == deferred + a;
      hide EndsAt;
      PutAside(a, b, deferred);
    }
  }

  lemma TakenOut(a: seq<Message>, m: Message, b: seq<Message>, c: seq<Message>)
    ensures multiset(b + (c + a)) + multiset([]) + multiset{m} == multiset(a + ([m] + b)) + multiset(c)
  {
  }

  lemma PutAside(a: seq<Message>, b: seq<Message>, c: seq<Message>)
    ensures multiset(b) + multiset(c + a) == multiset(a + b) + multiset(c)
  {
  }

  /** The order in which messages were sent is kept by a success if and only if nothing is put aside or nothing
      is left behind it, when the messages are different. */
  lemma OrderKeptIff(stream: seq<Message>, deferred: seq<Message>, filter: Option<int>, r: Received,
                     queue': seq<Message>, deferred': seq<Message>, k: nat)
    requires EndsAt(stream, deferred, filter, r, queue', deferred', k) && r.Received?
    requires forall i, j :: 0 <= i < j < |deferred + stream| ==> (deferred + stream)[i] != (deferred + stream)[j]
    ensures queue' == deferred + stream[..k] + stream[k + 1..] <==>
            deferred + stream[..k] == [] || stream[k + 1..] == []
  {
    var aside, rest := deferred + stream[..k], stream[k + 1..];
    if aside != [] && rest != [] {
      assert (deferred + stream)[0] == aside[0];
      assert (deferred + stream)[|deferred| + k + 1] == rest[0];
      assert queue'[0] == rest[0] && (aside + rest)[0] == aside[0];
    }
  }

  /** What was delivered is queued, put aside, received or dropped. */
  ghost predicate Balanced(queue: seq<Message>, aside: seq<Message>, delivered: multiset<Message>,
                           received: multiset<Message>, dropped: multiset<Message>) {
    multiset(queue) + multiset(aside) + received + dropped == delivered
  }

  lemma BalancedPut(queue: seq<Message>, more: seq<Message>, aside: seq<Message>, delivered: multiset<Message>,
                    received: multiset<Message>, dropped: multiset<Message>)
    requires Balanced(queue, aside, delivered, received, dropped)
    ensures Balanced(queue + more, aside, delivered + multiset(more), received, dropped)
  {
  }

  lemma MoveReceived(q': multiset<Message>, d': multiset<Message>, r: multiset<Message>, s: multiset<Message>,
                     d: multiset<Message>,
                     received: multiset<Message>, dropped: multiset<Message>, delivered: multiset<Message>)
    requires q' + d' + r == s + d && s + d + received + dropped == delivered
    ensures q' + d' + (received + r) + dropped == delivered
  {
    assert q' + d' + (received + r) + dropped == (q' + d' + r) + received + dropped;
  }

  lemma BalancedReceive(queue: seq<Message>, arrived: seq<Message>, aside: seq<Message>, delivered: multiset<Message>,
                        received: multiset<Message>, dropped: multiset<Message>, filter: Option<int>, r: Received,
                        queue': seq<Message>, aside': seq<Message>, k: nat)
    requires Balanced(queue, aside, delivered, received, dropped)
    requires EndsAt(queue + arrived, aside, filter, r, queue', aside', k)
    ensures Balanced(queue', aside', delivered + multiset(arrived), received + Got(r), dropped)
  {
    BalancedPut(queue, arrived, aside, delivered, received, dropped);
    ReceiveConserves(queue + arrived, aside, filter, r, queue', aside', k);
    MoveReceived(multiset(queue'), multiset(aside'), Got(r), multiset(queue + arrived),
                 multiset(aside), received, dropped, delivered + multiset(arrived));
  }

  /** The bus as one agent sees it. */
  class Mailbox {
    const agent: string
    var registered: bool
    var queue: seq<Message>
    var deferred: seq<Message>
    /** What was put into the queue, what was received, and what went with the queue or the list. */
    ghost var delivered: multiset<Message>
    ghost var received: multiset<Message>
    ghost var dropped: multiset<Message>

    constructor (agent: string)
      ensures Valid() && !registered && queue == [] && deferred == [] && this.agent == agent
      ensures delivered == received == dropped == multiset{}
    {
      this.agent, registered, queue, deferred := agent, false, [], [];
      delivered, received, dropped := multiset{}, multiset{}, multiset{};
    }

    ghost predicate Valid()
      reads this
    {
      (registered || queue == []) && Balanced(queue, deferred, delivered, received, dropped)
    }

    method Register()
      requires Valid()
      modifies `registered
      ensures Valid() && registered
    {
      registered := true;
    }

    /** The queue goes; the list of messages put aside stays. */
    method Unregister()
      requires Valid()
      modifies `registered, `queue, `dropped
      ensures Valid() && !registered && dropped == old(dropped) + multiset(old(queue))
    {
      dropped := dropped + multiset(queue);
      registered, queue := false, [];
    }

    predicate Reaches(m: Message)
      reads this
    {
      registered && !m.expired && if m.receiver == "*" then agent != m.sender else agent == m.receiver
    }

    /** `send`, for this agent: a message to it, or one to all that it has not sent itself. */
    method Send(m: Message)
      requires Valid()
      modifies `queue, `delivered
      ensures Valid()
      ensures queue == old(queue) + (if Reaches(m) then [m] else [])
      ensures delivered == old(delivered) + if Reaches(m) then multiset{m} else multiset{}
    {
      if m.expired || !registered {
        return;
      }
      var put := if m.receiver == "*" then agent != m.sender else agent == m.receiver;
      if put {
        BalancedPut(queue, [m], deferred, delivered, received, dropped);
        queue, delivered := queue + [m], delivered + multiset([m]);
      }
    }

    method Receive(filter: Option<int>, ticks: seq<Tick>) returns (r: Received, arrived: seq<Message>, k: nat)
      requires Valid()
      modifies `queue, `deferred, `delivered, `received
      ensures Valid() && (r == NotRegistered <==> !registered)
      ensures r == NotRegistered ==> queue == old(queue) && deferred == old(deferred)
      ensures r != NotRegistered ==> EndsAt(old(queue) + arrived, old(deferred), filter, r, queue, deferred, k)
      ensures received == old(received) + Got(r)
      ensures delivered == old(delivered) + multiset(arrived)
    {
      if !registered {
        return NotRegistered, [], 0;
      }
      ghost var queue0, deferred0 := queue, deferred;
      r, queue, deferred, arrived, k := ReceiveLoop(queue, deferred, filter, ticks);
      BalancedReceive(queue0, arrived, deferred0, delivered, received, dropped, filter, r, queue, deferred, k);
      delivered := delivered + multiset(arrived);
      received := received + Got(r);
    }

    /** `drain_deferred`. What was put aside for an agent that is not registered is lost. */
    method DrainDeferred()
      requires Valid()
      modifies `queue, `deferred, `dropped
      ensures Valid() && deferred == []
      ensures queue == if registered then old(queue) + old(deferred) else []
      ensures dropped == old(dropped) + if registered then multiset{} else multiset(old(deferred))
    {
      if registered {
        queue := queue + deferred;
      } else {
        dropped := dropped + multiset(deferred);
      }
      deferred := [];
    }
  }
}
