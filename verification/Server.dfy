/** The server's side of a connection's life: its map of connections, in the server's own loop. */
module Server {
  import opened Tcp

  class TcpServer {
    const functors: Functors   // of the server's loop
    var connections: map<Id, TcpConnection>
    var nextConnId: Id
    var hasComplete: bool      // write_complete_cb_ is set

    ghost predicate Valid()
      reads this
    {
      forall id :: id in connections ==> id < nextConnId && connections[id].id == id
    }

    constructor (functors: Functors)
      ensures Valid() && connections == map[] && this.functors == functors
    {
      this.functors := functors;
      connections, nextConnId, hasComplete := map[], 1, false;
    }

    /** newConnection, for a connection on loop `l`: it is told at once if that is the server's own loop. */
    method NewConnection(l: nat, conns: Functors) returns (conn: TcpConnection, next: seq<Job>)
      requires Valid()
      modifies this, conns
      ensures Valid() && fresh(conn) && conn.Valid() && conn.functors == conns
      ensures nextConnId == old(nextConnId) + 1 && hasComplete == old(hasComplete)
      ensures old(nextConnId) !in old(connections) && connections == old(connections)[old(nextConnId) := conn]
      ensures conn.View() == Opened(Fresh(old(nextConnId), l, hasComplete), conns == functors)
      ensures var told := Opening(old(nextConnId), conns == functors);
              next == told.next && conns.queue == old(conns.queue) + told.queued
      ensures conns == functors ==>
                conn.View().state.Connected? && next == [Callback] && conns.queue == old(conns.queue)
      ensures conns != functors ==>
                conn.View().state.Connecting? && next == [] && conns.queue == old(conns.queue) + [Establish(conn.id)]
    {
      conn := new TcpConnection(nextConnId, l, conns);
      next := [];
      connections := connections[nextConnId := conn];
      nextConnId := nextConnId + 1;
      conn.hasComplete := hasComplete;
      if conns == functors {
        next := conn.ConnectEstablished();
      } else {
        conns.QueueInLoop(Establish(conn.id));
      }
    }

    /** removeConnection, called by close_cb_ on the connection's loop. */
    method RemoveConnection(conn: TcpConnection) returns (next: seq<Job>)
      modifies functors
      ensures var told := RunInLoop(Remove(conn.id), conn.functors == functors);
              next == told.next && functors.queue == old(functors.queue) + told.queued
      ensures conn.functors == functors ==> next == [Remove(conn.id)] && functors.queue == old(functors.queue)
      ensures conn.functors != functors ==> next == [] && functors.queue == old(functors.queue) + [Remove(conn.id)]
    {
      next := [];
      if conn.functors == functors {
        next := [Remove(conn.id)];
      } else {
        functors.QueueInLoop(Remove(conn.id));
      }
    }

    /** Exactly one entry goes; destruction is queued even on the same loop. */
    method RemoveConnectionInLoop(conn: TcpConnection)
      requires Valid() && conn.id in connections
      modifies this`connections, conn.functors
      ensures Valid() && connections == old(connections) - {conn.id} && |connections| == |old(connections)| - 1
      ensures conn.functors.queue == old(conn.functors.queue) + [Destroy(conn.id)]
    {
      assert connections.Keys - {conn.id} == (connections - {conn.id}).Keys;
      assert |connections| == |connections.Keys|;
      connections := connections - {conn.id};
      assert |connections| == |connections.Keys|;
      conn.functors.QueueInLoop(Destroy(conn.id));
    }
  }
}
