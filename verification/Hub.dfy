/** internal/api/hub.go: the live feed, broadcast to clients behind bounded queues that drop rather than block. */
module Hub {
  import opened Queues

  type ClientId = nat
  type Message = string

  const QUEUE_SIZE := 64

  /** One connected browser. `delivered`, `offered` and `dropped` are history: what its writer took from the
      queue, the broadcasts made while it was registered, and how many of those found its queue full. */
  datatype Client = Client(
    registered: bool, queue: seq<Message>, delivered: seq<Message>, offered: seq<Message>, dropped: nat)

  const NEW_CLIENT := Client(true, [], [], [], 0)

  /** A send on the client's channel, or nothing if that would block. */
  function Offer(c: Client, m: Message): Client {
    if !c.registered then c
    else if |c.queue| < QUEUE_SIZE then c.(queue := c.queue + [m], offered := c.offered + [m])
    else c.(offered := c.offered + [m], dropped := c.dropped + 1)
  }

  function Drained(c: Client): Client {
    if c.queue == [] then c else c.(queue := c.queue[1..], delivered := c.delivered + [c.queue[0]])
  }

  datatype Op = Add(id: ClientId) | Remove(id: ClientId) | Broadcast(m: Message) | Drain(id: ClientId)

  type Clients = map<ClientId, Client>

  /** A client that has left may still drain what it had. */
  function Exec(clients: Clients, op: Op): Clients {
    match op
    case Add(id) => if id in clients then clients else clients[id := NEW_CLIENT]
    case Remove(id) => if id in clients then clients[id := clients[id].(registered := false)] else clients
    case Broadcast(m) => map id | id in clients :: Offer(clients[id], m)
    case Drain(id) => if id in clients then clients[id := Drained(clients[id])] else clients
  }

  /** Visits the clients in any order. */
  method OfferAll(before: Clients, m: Message) returns (after: Clients)
    ensures after == map id | id in before :: Offer(before[id], m)
  {
    after := before;
    var todo := before.Keys;
    while todo != {}
      invariant todo <= before.Keys && after.Keys == before.Keys
      invariant forall id <- before :: after[id] == if id in todo then before[id] else Offer(before[id], m)
      decreases |todo|
    {
      var id :| id in todo;
      var c := after[id];
      if c.registered {
        if |c.queue| < QUEUE_SIZE {
          c := c.(queue := c.queue + [m], offered := c.offered + [m]);
        } else {
          c := c.(offered := c.offered + [m], dropped := c.dropped + 1);
        }
      }
      after := after[id := c];
      todo := todo - {id};
    }
  }

  class FeedHub {
    var clients: Clients

    constructor ()
      ensures clients == map[]
    {
      clients := map[];
    }

    method Register(id: ClientId)
      modifies this
      ensures clients == Exec(old(clients), Add(id))
    {
      if id !in clients {
        clients := clients[id := NEW_CLIENT];
      }
    }

    method Leave(id: ClientId)
      modifies this
      ensures clients == Exec(old(clients), Remove(id))
    {
      if id in clients {
        clients := clients[id := clients[id].(registered := false)];
      }
    }

    /** Offers the message to every client, and never waits for one. */
    method Send(m: Message)
      modifies this
      ensures clients == Exec(old(clients), Broadcast(m))
    {
      clients := OfferAll(clients, m);
    }

    /** One turn of the client's writer. */
    method Write(id: ClientId) returns (written: seq<Message>)
      modifies this
      ensures clients == Exec(old(clients), Drain(id))
      ensures id in clients ==> clients[id].delivered == old(clients)[id].delivered + written
    {
      written := [];
      if id in clients && clients[id].queue != [] {
        written := [clients[id].queue[0]];
        var c := clients[id];
        clients := clients[id := c.(queue := c.queue[1..], delivered := c.delivered + written)];
      }
    }
  }

  function Run(ops: seq<Op>): Clients {
    if ops == [] then map[] else Exec(Run(ops[..|ops| - 1]), ops[|ops| - 1])
  }

  /** What a client has seen or will see. */
  function Seen(c: Client): seq<Message> {
    c.delivered + c.queue
  }

  ghost predicate Faithful(c: Client) {
    && |c.queue| <= QUEUE_SIZE
    && Subsequence(Seen(c), c.offered)
    && |Seen(c)| + c.dropped == |c.offered|
    && (c.dropped == 0 ==> Seen(c) == c.offered)
  }

  lemma OfferKeepsFaith(c: Client, m: Message)
    requires Faithful(c)
    ensures Faithful(Offer(c, m))
  {
    SubsequenceGrows(Seen(c), c.offered, m);
    assert c.delivered + (c.queue + [m]) == Seen(c) + [m];
  }

  lemma DrainKeepsFaith(c: Client)
    requires Faithful(c)
    ensures Faithful(Drained(c))
  {
    if c.queue != [] {
      assert Seen(Drained(c)) == Seen(c);
    }
  }

  /** For every schedule of joining, leaving, broadcasting and writing: no queue exceeds its bound; what a client
      sees is a subsequence, in order, of what was broadcast while it was registered, short by exactly the broadcasts
      that found its queue full; so it is the whole feed exactly when none did. */
  lemma {:induction false} FeedIsFaithful(ops: seq<Op>, id: ClientId)
    requires id in Run(ops)
    ensures Faithful(Run(ops)[id])
    ensures Seen(Run(ops)[id]) == Run(ops)[id].offered <==> Run(ops)[id].dropped == 0
  {
    var before, op := ops[..|ops| - 1], ops[|ops| - 1];
    if id in Run(before) {
      FeedIsFaithful(before, id);
      if op.Broadcast? {
        OfferKeepsFaith(Run(before)[id], op.m);
      } else if op == Drain(id) {
        DrainKeepsFaith(Run(before)[id]);
      }
    }
  }

  /** The broadcasts made while the client is registered, read off the schedule alone. */
  function BroadcastsSince(ops: seq<Op>, id: ClientId): seq<Message> {
    if ops == [] then []
    else
      var before, op := ops[..|ops| - 1], ops[|ops| - 1];
      if op.Broadcast? && id in Run(before) && Run(before)[id].registered then BroadcastsSince(before, id) + [op.m]
      else BroadcastsSince(before, id)
  }

  lemma {:induction false} OfferedAreTheBroadcasts(ops: seq<Op>, id: ClientId)
    ensures (if id in Run(ops) then Run(ops)[id].offered else []) == BroadcastsSince(ops, id)
  {
    if ops != [] {
      OfferedAreTheBroadcasts(ops[..|ops| - 1], id);
    }
  }
}
