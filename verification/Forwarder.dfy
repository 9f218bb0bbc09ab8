/** The UDP forwarder's own methods, each run without interference from the other goroutines. */
module Forwarder {
  import opened Sessions
  import opened Wrappers

  class UdpForwarder {
    const timeout: int
    var clients: map<Key, Id>
    var open: set<Id>
    var active: map<Id, int>
    var next: Id

    /** Every mapped session is open, has been used at some time, and belongs to one client. */
    ghost predicate Valid()
      reads this
    {
      && (forall k | k in clients :: clients[k] in open && clients[k] in active)
      && (forall j, k | j in clients && k in clients && clients[j] == clients[k] :: j == k)
      && (forall id | id in open :: id < next)
    }

    predicate Idle(key: Key, now: int)
      requires key in clients && clients[key] in active
      reads this
    {
      now - active[clients[key]] > timeout
    }

    ghost function StillActive(now: int): map<Key, Id>
      requires Valid()
      reads this
    {
      map k | k in clients && !Idle(k, now) :: clients[k]
    }

    ghost function IdleSessions(now: int): set<Id>
      requires Valid()
      reads this
    {
      set k | k in clients && Idle(k, now) :: clients[k]
    }

    constructor (timeout: int)
      ensures Valid() && clients == map[] && open == {} && this.timeout == timeout
    {
      this.timeout := timeout;
      clients, open, active, next := map[], {}, map[], 0;
    }

    method CloseClient(key: Key, id: Id)
      modifies this`clients, this`open
      ensures clients == old(clients) - {key} && open == old(open) - {id}
    {
      clients := clients - {key};
      open := open - {id};
    }

    /** Passes one packet on over the client's session, dialling one if need be; says over which. */
    method HandlePacket(key: Key, now: int, dialOk: bool, writeOk: bool) returns (sent: Option<Id>)
      requires Valid()
      modifies this`clients, this`open, this`active, this`next
      ensures Valid()
      ensures sent.Some? <==> (key in old(clients) || dialOk) && writeOk
      ensures sent.Some? ==>
        && clients == old(clients)[key := sent.value]
        && open == old(open) + {sent.value}
        && (if key in old(clients) then sent.value == old(clients)[key] else sent.value !in old(open))
        && active == old(active)[sent.value := now]
      ensures sent.None? ==>
        && clients == (if dialOk || key in old(clients) then old(clients) - {key} else old(clients))
        && open == (if key in old(clients) then old(open) - {old(clients)[key]} else old(open))
        && active == (if key in old(clients) then old(active)[old(clients)[key] := now]
                      else if dialOk then old(active)[old(next) := now] else old(active))
      ensures next == (if key !in old(clients) && dialOk then old(next) + 1 else old(next))
    {
      if key !in clients {
        if !dialOk {
          return None;
        }
        open, active, clients := open + {next}, active[next := now], clients[key := next];
        next := next + 1;
      }
      var id := clients[key];
      active := active[id := now];
      if !writeOk {
        CloseClient(key, id);
        return None;
      }
      return Some(id);
    }

    /** The first half of a sweep: the keys, in the order the range over the map comes by them, that have expired. */
    method ExpiredKeys(now: int, visited: seq<Key>) returns (expired: seq<Key>)
      requires Valid()
      requires forall k | k in visited :: k in clients
      ensures forall k :: k in expired <==> k in visited && k in clients && now - active[clients[k]] > timeout
    {
      expired := [];
      for i := 0 to |visited|
        invariant forall k :: k in expired <==> k in visited[..i] && k in clients && Idle(k, now)
      {
        if Idle(visited[i], now) {
          expired := expired + [visited[i]];
        }
      }
    }

    /** One sweep closes exactly the sessions idle for longer than the timeout. */
    method CleanupExpiredClients(now: int, visited: seq<Key>)
      requires Valid()
      requires forall k :: k in visited <==> k in clients
      modifies this`clients, this`open
      ensures Valid()
      ensures clients == old(StillActive(now))
      ensures open == old(open) - old(IdleSessions(now))
      ensures forall k :: k in clients <==> k in old(clients) && now - old(active)[old(clients)[k]] <= timeout
      ensures forall k | k in clients :: clients[k] == old(clients)[k]
    {
      var expired := ExpiredKeys(now, visited);
      for i := 0 to |expired|
        invariant forall k :: k in clients <==> k in old(clients) && k !in expired[..i]
        invariant forall k | k in clients :: clients[k] == old(clients)[k]
        invariant open == old(open) - set k | k in old(clients) && k in expired[..i] :: old(clients)[k]
      {
        if expired[i] in clients {
          CloseClient(expired[i], clients[expired[i]]);
        }
      }
      assert expired[..|expired|] == expired;
      forall k: Key
        ensures k in clients <==> k in old(StillActive(now))
      {
        assert k in expired <==> k in visited && old(k in clients && Idle(k, now));
      }
    }
  }
}
