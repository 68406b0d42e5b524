/** The server's side of the lifecycle: the map from names to connections, and the functors it hands
    to the loops. Each method makes the steps of the protocol in module Lifecycle. */
module ConnectionTable {
  import opened Bytes
  import opened Lifecycle

  function NameOf(server: string, c: ConnId): string { server + "#" + Decimal(c) }

  /** The counter makes connection names unique, so erasing by name erases one connection. */
  lemma NamesAreDistinct(server: string, c: ConnId, d: ConnId)
    ensures NameOf(server, c) == NameOf(server, d) <==> c == d
  {
    if NameOf(server, c) == NameOf(server, d) {
      assert Decimal(c) == NameOf(server, c)[|server| + 1..];
      assert Decimal(d) == NameOf(server, d)[|server| + 1..];
      DecimalRoundTrip(c);
      DecimalRoundTrip(d);
    }
  }

  class TcpServer {
    const name: string
    var connections: map<string, ConnId>
    var nextConnId: nat
    /** The functors waiting on each loop. */
    var pending: map<LoopId, seq<Op>>

    constructor (name: string, loops: set<LoopId>)
      requires BASE in loops
      ensures Valid() && connections == map[] && pending.Keys == loops && this.name == name
    {
      this.name := name;
      connections, nextConnId, pending := map[], 1, map l | l in loops :: [];
    }

    ghost predicate Valid() reads this {
      && BASE in pending
      && forall n :: n in connections ==> n == NameOf(name, connections[n]) && connections[n] < nextConnId
    }

    /** What the world of the protocol says about the server and the queues. */
    ghost predicate Shows(w: World) reads this {
      && connections.Values == w.server && nextConnId == w.nextId
      && pending.Keys == w.loops.Keys
      && forall l :: l in pending ==> pending[l] == w.loops[l].pending
    }

    method QueueInLoop(l: LoopId, op: Op)
      requires l in pending
      modifies this`pending
      ensures pending == old(pending)[l := old(pending)[l] + [op]]
    {
      pending := pending[l := pending[l] + [op]];
    }

    /** runInLoop, called on the thread of the base loop: at once on that loop, queued on another. */
    method RunInLoop(l: LoopId, op: Op) returns (now: seq<Op>)
      requires l in pending
      modifies this`pending
      ensures l == BASE ==> now == [op] && pending == old(pending)
      ensures l != BASE ==> now == [] && pending == old(pending)[l := old(pending)[l] + [op]]
    {
      if l == BASE {
        now := [op];
      } else {
        now := [];
        QueueInLoop(l, op);
      }
    }

    /** now: what the thread goes on with. */
    method NewConnection(ioLoop: LoopId, ghost w: World) returns (c: ConnId, now: seq<Op>)
      requires Valid() && Shows(w) && Enabled(w, Accept(ioLoop))
      modifies this
      ensures Valid() && Shows(Next(w, Accept(ioLoop)))
      ensures now == if ioLoop == BASE then Next(w, Accept(ioLoop)).loops[BASE].todo else []
      ensures NameOf(name, c) !in old(connections) && c !in old(connections).Values
      ensures connections == old(connections)[NameOf(name, c) := c]
    {
      c := nextConnId;
      nextConnId := nextConnId + 1;
      NameIsFresh(c);
      connections := connections[NameOf(name, c) := c];
      now := RunInLoop(ioLoop, Establish(c));
    }

    lemma NameIsFresh(c: ConnId)
      requires forall n :: n in connections ==> n == NameOf(name, connections[n]) && connections[n] < c
      ensures NameOf(name, c) !in connections
      ensures connections[NameOf(name, c) := c].Values == connections.Values + {c}
    {
      if NameOf(name, c) in connections {
        NamesAreDistinct(name, c, connections[NameOf(name, c)]);
      } else {
        var table := connections[NameOf(name, c) := c];
        forall d | d in connections.Values + {c} ensures d in table.Values {
          if d != c {
            var n :| n in connections && connections[n] == d;
            assert table[n] == d;
          } else {
            assert table[NameOf(name, c)] == c;
          }
        }
      }
    }

    /** The close callback of connection c, on the thread of loop l. */
    method RemoveConnection(c: ConnId, l: LoopId, ioLoop: LoopId, ghost w: World)
      requires Valid() && Shows(w) && c in w.conns && w.conns[c].loop == ioLoop
      requires l in w.loops && ioLoop in w.loops && w.loops[l].todo != [] && w.loops[l].todo[0] == CloseCallback(c)
      modifies this
      ensures Valid() && Enabled(w, Work(l, Return))
      ensures var v := Next(w, Work(l, Return));
              if l == BASE then Enabled(v, Work(l, Return)) && Shows(Next(v, Work(l, Return))) else Shows(v)
    {
      if l == BASE {
        RemoveConnectionInLoop(c, ioLoop, Next(w, Work(l, Return)));
      } else {
        QueueInLoop(BASE, Remove(c));
      }
    }

    method RemoveConnectionInLoop(c: ConnId, ioLoop: LoopId, ghost w: World)
      requires Valid() && Shows(w) && c in w.conns && w.conns[c].loop == ioLoop
      requires BASE in w.loops && ioLoop in w.loops && w.loops[BASE].todo != [] && w.loops[BASE].todo[0] == Remove(c)
      modifies this
      ensures Valid() && Enabled(w, Work(BASE, Return)) && Shows(Next(w, Work(BASE, Return)))
      ensures connections == old(connections) - {NameOf(name, c)}
    {
      EraseTakesOne(c);
      connections := connections - {NameOf(name, c)};
      QueueInLoop(ioLoop, Destroy(c));
    }

    lemma EraseTakesOne(c: ConnId)
      requires Valid()
      ensures (connections - {NameOf(name, c)}).Values == connections.Values - {c}
    {
      var table := connections - {NameOf(name, c)};
      forall d | d in connections.Values - {c} ensures d in table.Values {
        var n :| n in connections && connections[n] == d;
        NamesAreDistinct(name, c, d);
        assert table[n] == d;
      }
      forall n | n in table ensures table[n] != c {
        assert n == NameOf(name, connections[n]);
      }
    }
  }
}
