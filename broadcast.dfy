/** The connected clients and the fan-out of one message to them
    (`clients` and `broadcastClients`). */
module Broadcast {
  import opened Common
  import opened ConfigStore

  /** Identity of one WebSocket connection object. */
  type ConnId = nat

  /** The messages the server sends to its clients. */
  datatype Msg =
    | ConfigMsg(data: Config)
    | ObsStatus(connected: bool)
    | SetVisible(visible: bool)
    | ToggleVisible
    | Audio(volume: real)

  /** A registered connection: its role and whether its socket is open
      (`readyState === 1`). */
  datatype Client = Client(id: ConnId, role: string, open: bool)

  /** One `send` of a message on one connection. */
  datatype Delivery = Delivery(to: ConnId, msg: Msg)

  /** Membership in the JavaScript `Set`: no connection twice. */
  predicate DistinctIds(cs: seq<Client>)
  {
    forall i, j :: 0 <= i < j < |cs| ==> cs[i].id != cs[j].id
  }

  predicate Registered(cs: seq<Client>, id: ConnId)
  {
    exists i :: 0 <= i < |cs| && cs[i].id == id
  }

  /** `c !== except && c.readyState === 1`. */
  predicate Receives(c: Client, except: Option<ConnId>)
  {
    c.open && except != Some(c.id)
  }

  /** The sends `broadcastClients(m, except)` makes, in the iteration order
      of the client set. */
  function Fanout(cs: seq<Client>, m: Msg, except: Option<ConnId>): (r: seq<Delivery>)
    ensures |r| <= |cs|
    ensures forall k :: 0 <= k < |r| ==> r[k].msg == m
  {
    if cs == [] then []
    else
      var rest := Fanout(cs[..|cs| - 1], m, except);
      if Receives(cs[|cs| - 1], except) then rest + [Delivery(cs[|cs| - 1].id, m)] else rest
  }

  /** A connection is sent the message exactly when it is registered, open
      and not the excluded one. */
  lemma {:induction false} FanoutRecipients(cs: seq<Client>, m: Msg, except: Option<ConnId>, id: ConnId)
    ensures Delivery(id, m) in Fanout(cs, m, except) <==>
      exists i :: 0 <= i < |cs| && cs[i].id == id && Receives(cs[i], except)
  {
    if cs != [] {
      var init := cs[..|cs| - 1];
      FanoutRecipients(init, m, except, id);
      if exists i :: 0 <= i < |init| && init[i].id == id && Receives(init[i], except) {
        var i :| 0 <= i < |init| && init[i].id == id && Receives(init[i], except);
        assert cs[i] == init[i];
      }
      if i :| 0 <= i < |cs| && cs[i].id == id && Receives(cs[i], except) {
        if i < |init| {
          assert init[i] == cs[i];
        }
      }
    }
  }

  /** With no connection registered twice, nobody is sent the message twice. */
  lemma {:induction false} FanoutOncePerClient(cs: seq<Client>, m: Msg, except: Option<ConnId>)
    requires DistinctIds(cs)
    ensures forall a, b :: 0 <= a < b < |Fanout(cs, m, except)| ==>
      Fanout(cs, m, except)[a].to != Fanout(cs, m, except)[b].to
  {
    if cs != [] {
      var init := cs[..|cs| - 1];
      var last := cs[|cs| - 1];
      var rest := Fanout(init, m, except);
      assert DistinctIds(init);
      FanoutOncePerClient(init, m, except);
      if Receives(last, except) {
        forall a | 0 <= a < |rest| ensures rest[a].to != last.id {
          assert rest[a] in rest;
          assert rest[a] == Delivery(rest[a].to, m);
          FanoutRecipients(init, m, except, rest[a].to);
          var i :| 0 <= i < |init| && init[i].id == rest[a].to && Receives(init[i], except);
          assert cs[i] == init[i];
        }
      }
    }
  }

  /** The socket of connection `id` changes its `readyState`; nothing else
      about the registry changes. */
  function WithOpen(cs: seq<Client>, id: ConnId, open: bool): (r: seq<Client>)
    ensures |r| == |cs|
    ensures forall i :: 0 <= i < |cs| ==> r[i].id == cs[i].id && r[i].role == cs[i].role
    ensures forall i :: 0 <= i < |cs| ==> r[i].open == if cs[i].id == id then open else cs[i].open
  {
    seq(|cs|, i requires 0 <= i < |cs| => if cs[i].id == id then cs[i].(open := open) else cs[i])
  }

  /** The ids of the registered connections. */
  function Ids(cs: seq<Client>): (r: set<ConnId>)
    ensures forall id :: id in r <==> Registered(cs, id)
  {
    set i | 0 <= i < |cs| :: cs[i].id
  }

  /** `clients.delete(ws)`: the client set without `id`, order kept. */
  function Without(cs: seq<Client>, id: ConnId): (r: seq<Client>)
    ensures forall c :: c in r <==> c in cs && c.id != id
    ensures !Registered(cs, id) ==> r == cs
    ensures |r| <= |cs|
  {
    if cs == [] then []
    else if cs[0].id == id then Without(cs[1..], id)
    else
      assert !Registered(cs, id) ==> !Registered(cs[1..], id) by {
        if j :| 0 <= j < |cs[1..]| && cs[1..][j].id == id {
          assert cs[j + 1].id == id;
        }
      }
      [cs[0]] + Without(cs[1..], id)
  }

  /** Closing a connection removes exactly its id from the registry. */
  lemma WithoutIds(cs: seq<Client>, id: ConnId)
    ensures Ids(Without(cs, id)) == Ids(cs) - {id}
  {
    var r := Without(cs, id);
    forall x ensures Registered(r, x) <==> Registered(cs, x) && x != id {
      if Registered(r, x) {
        var i :| 0 <= i < |r| && r[i].id == x;
        assert r[i] in r;
        var k :| 0 <= k < |cs| && cs[k] == r[i];
      }
      if Registered(cs, x) && x != id {
        var i :| 0 <= i < |cs| && cs[i].id == x;
        assert cs[i] in r;
        var j :| 0 <= j < |r| && r[j] == cs[i];
      }
    }
  }

  lemma {:induction false} WithoutKeepsDistinct(cs: seq<Client>, id: ConnId)
    requires DistinctIds(cs)
    ensures DistinctIds(Without(cs, id))
  {
    if cs != [] {
      assert DistinctIds(cs[1..]);
      WithoutKeepsDistinct(cs[1..], id);
      if cs[0].id != id {
        var rest := Without(cs[1..], id);
        forall j | 0 <= j < |rest| ensures rest[j].id != cs[0].id {
          assert rest[j] in rest;
          var k :| 0 <= k < |cs[1..]| && cs[1..][k] == rest[j];
          assert cs[k + 1] == rest[j];
        }
      }
    }
  }
}
