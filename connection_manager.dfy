/**
 * The WebSocket client registry (src/lib/websocket/connection-manager.ts).
 * Clients are kept by id in a map whose iteration order is insertion order,
 * so the registry is the map plus that order. A client's socket is
 * represented by its id; whether it is OPEN when a message goes out is
 * handed in as the set `open`. Every `ws.send` is recorded in `sent`, in
 * order. The message type `M` is whatever the server sends; its JSON text is
 * not modelled.
 */
module Connections {
  import opened Optional
  import opened Strings

  /** A `ClientConnection`: the id and the workflows the client follows. */
  datatype Client = Client(id: string, subscribedWorkflows: set<string>)

  /** One `ws.send` of a message to a client. */
  datatype Delivery<M> = Delivery(clientId: string, message: M)

  /** `client-${n}`. */
  function ClientId(n: nat): string
  {
    "client-" + NatToString(n)
  }

  /** Distinct counters give distinct ids. */
  lemma ClientIdInjective(a: nat, b: nat)
    requires ClientId(a) == ClientId(b)
    ensures a == b
  {
    var p := "client-";
    assert ClientId(a)[|p|..] == NatToString(a);
    assert ClientId(b)[|p|..] == NatToString(b);
    NatToStringInjective(a, b);
  }

  /**
   * The clients a message goes to, in registry order: those whose socket is
   * open and, for a workflow broadcast (`topic` = Some(id)), that follow the
   * workflow.
   */
  function Audience(order: seq<string>, clients: map<string, Client>, topic: Option<string>, open: set<string>): (r: seq<string>)
    ensures forall x :: x in r <==> x in order && x in clients && x in open
                                    && (topic.Some? ==> topic.value in clients[x].subscribedWorkflows)
  {
    if order == [] then []
    else
      var x := order[|order| - 1];
      var init := order[..|order| - 1];
      assert forall y :: y in order <==> y in init || y == x;
      Audience(init, clients, topic, open)
      + (if x in clients && x in open && (topic.Some? ==> topic.value in clients[x].subscribedWorkflows) then [x] else [])
  }

  /** No client gets a broadcast twice. */
  lemma {:induction false} AudienceDistinct(order: seq<string>, clients: map<string, Client>, topic: Option<string>, open: set<string>)
    requires Distinct(order)
    ensures Distinct(Audience(order, clients, topic, open))
  {
    if order != [] {
      var x := order[|order| - 1];
      var init := order[..|order| - 1];
      AudienceDistinct(init, clients, topic, open);
      forall i | 0 <= i < |init|
        ensures init[i] != x
      {
        assert init[i] == order[i];
      }
    }
  }

  /** The same message to each of the clients, in order. */
  function Deliveries<M>(ids: seq<string>, m: M): (r: seq<Delivery<M>>)
    ensures |r| == |ids| && forall i :: 0 <= i < |ids| ==> r[i] == Delivery(ids[i], m)
  {
    seq(|ids|, i requires 0 <= i < |ids| => Delivery(ids[i], m))
  }

  /** The tail of a list without repeats has none and lacks the head. */
  lemma DistinctTail(s: seq<string>)
    requires Distinct(s) && s != []
    ensures Distinct(s[1..]) && s[0] !in s[1..]
  {
    var rest := s[1..];
    forall i, j | 0 <= i < j < |rest|
      ensures rest[i] != rest[j]
    {
      assert rest[i] == s[i + 1] && rest[j] == s[j + 1];
    }
    forall i | 0 <= i < |rest|
      ensures rest[i] != s[0]
    {
      assert rest[i] == s[i + 1];
    }
  }

  /** A fresh head keeps a list free of repeats. */
  lemma DistinctCons(x: string, rest: seq<string>)
    requires Distinct(rest) && x !in rest
    ensures Distinct([x] + rest)
  {
    var s := [x] + rest;
    forall i, j | 0 <= i < j < |s|
      ensures s[i] != s[j]
    {
      assert s[j] == rest[j - 1];
      if i > 0 {
        assert s[i] == rest[i - 1];
      }
    }
  }

  /** One more client of the registry order adds it to the audience when it qualifies. */
  lemma AudienceSnoc(order: seq<string>, i: nat, clients: map<string, Client>, topic: Option<string>, open: set<string>)
    requires i < |order|
    ensures var x := order[i];
            Audience(order[..i + 1], clients, topic, open)
            == Audience(order[..i], clients, topic, open)
               + (if x in clients && x in open && (topic.Some? ==> topic.value in clients[x].subscribedWorkflows) then [x] else [])
  {
    assert order[..i + 1][..i] == order[..i];
  }

  /** Sending to one more client appends one delivery. */
  lemma DeliveriesSnoc<M>(ids: seq<string>, x: string, m: M)
    ensures Deliveries(ids + [x], m) == Deliveries(ids, m) + [Delivery(x, m)]
  {
    assert forall i :: 0 <= i < |ids| ==> (ids + [x])[i] == ids[i];
  }

  /** The list without `x`. */
  function Without(s: seq<string>, x: string): (r: seq<string>)
    ensures forall y :: y in r <==> y in s && y != x
    ensures Distinct(s) ==> Distinct(r)
  {
    if s == [] then []
    else
      var rest := Without(s[1..], x);
      assert forall y :: y in s <==> y == s[0] || y in s[1..];
      if s[0] == x then
        assert Distinct(s) ==> Distinct(rest) by {
          if Distinct(s) {
            DistinctTail(s);
          }
        }
        rest
      else
        assert Distinct(s) ==> Distinct([s[0]] + rest) by {
          if Distinct(s) {
            DistinctTail(s);
            DistinctCons(s[0], rest);
          }
        }
        [s[0]] + rest
  }

  /** A list without repeats is as long as the set of its elements. */
  lemma {:induction false} DistinctCount(s: seq<string>)
    requires Distinct(s)
    ensures |set x | x in s| == |s|
  {
    if s != [] {
      var rest := s[1..];
      DistinctTail(s);
      DistinctCount(rest);
      assert (set x | x in s) == (set x | x in rest) + {s[0]};
    }
  }

  class ConnectionManager<M> {
    var clients: map<string, Client>
    /** The map's iteration order. */
    var order: seq<string>
    var clientCounter: nat
    /** Every message sent so far, with its recipient. */
    var sent: seq<Delivery<M>>

    /**
     * The registry lists each client once, in the map and in the order
     * alike, under its own id, and every id was issued by the counter.
     */
    ghost predicate Valid()
      reads this
    {
      && (forall x :: x in clients <==> x in order)
      && Distinct(order)
      && (forall x :: x in clients ==> clients[x].id == x)
      && (forall x :: x in clients ==> exists n :: 1 <= n <= clientCounter && x == ClientId(n))
    }

    constructor()
      ensures Valid() && clients == map[] && order == [] && clientCounter == 0 && sent == []
    {
      clients := map[];
      order := [];
      clientCounter := 0;
      sent := [];
    }

    /** `addClient`: the counter is incremented first, and the new client follows nothing. */
    method AddClient() returns (id: string)
      requires Valid()
      modifies this
      ensures Valid()
      ensures clientCounter == old(clientCounter) + 1 && id == ClientId(clientCounter)
      ensures id !in old(clients)
      ensures clients == old(clients)[id := Client(id, {})] && order == old(order) + [id]
      ensures sent == old(sent)
    {
      clientCounter := clientCounter + 1;
      id := ClientId(clientCounter);
      assert id !in clients by {
        if id in clients {
          var n :| 1 <= n <= clientCounter - 1 && id == ClientId(n);
          ClientIdInjective(n, clientCounter);
        }
      }
      clients := clients[id := Client(id, {})];
      order := order + [id];
    }

    /** `removeClient`: only that client goes. */
    method RemoveClient(id: string)
      requires Valid()
      modifies this
      ensures Valid()
      ensures clients == old(clients) - {id} && order == Without(old(order), id)
      ensures clientCounter == old(clientCounter) && sent == old(sent)
    {
      clients := clients - {id};
      order := Without(order, id);
    }

    /** `subscribeToWorkflow`: an unknown client is ignored. */
    method SubscribeToWorkflow(clientId: string, workflowId: string)
      requires Valid()
      modifies this
      ensures Valid()
      ensures clientId in old(clients) ==>
                clients == old(clients)[clientId := Client(clientId, old(clients)[clientId].subscribedWorkflows + {workflowId})]
      ensures clientId !in old(clients) ==> clients == old(clients)
      ensures order == old(order) && clientCounter == old(clientCounter) && sent == old(sent)
    {
      if clientId in clients {
        var client := clients[clientId];
        clients := clients[clientId := client.(subscribedWorkflows := client.subscribedWorkflows + {workflowId})];
      }
    }

    /** The loop of both broadcasts: every client of the registry in order, sent to when it qualifies. */
    method Broadcast(topic: Option<string>, message: M, open: set<string>)
      modifies this
      ensures sent == old(sent) + Deliveries(Audience(order, clients, topic, open), message)
      ensures clients == old(clients) && order == old(order) && clientCounter == old(clientCounter)
    {
      var ids, registry := order, clients;
      ghost var audience: seq<string> := [];
      var i := 0;
      while i < |ids|
        invariant 0 <= i <= |ids|
        invariant audience == Audience(ids[..i], registry, topic, open)
        invariant sent == old(sent) + Deliveries(audience, message)
        invariant clients == registry && order == ids && clientCounter == old(clientCounter)
      {
        var x := ids[i];
        AudienceSnoc(ids, i, registry, topic, open);
        if x in registry && x in open && (topic.Some? ==> topic.value in registry[x].subscribedWorkflows) {
          DeliveriesSnoc(audience, x, message);
          sent := sent + [Delivery(x, message)];
          audience := audience + [x];
        } else {
          assert audience + [] == audience;
        }
        i := i + 1;
      }
      assert ids[..i] == ids;
    }

    /** `broadcastToWorkflow`: the open sockets of the workflow's subscribers. */
    method BroadcastToWorkflow(workflowId: string, message: M, open: set<string>)
      modifies this
      ensures sent == old(sent) + Deliveries(Audience(order, clients, Some(workflowId), open), message)
      ensures clients == old(clients) && order == old(order) && clientCounter == old(clientCounter)
    {
      Broadcast(Some(workflowId), message, open);
    }

    /** `broadcastAll`: every open socket, subscribed or not. */
    method BroadcastAll(message: M, open: set<string>)
      modifies this
      ensures sent == old(sent) + Deliveries(Audience(order, clients, None, open), message)
      ensures clients == old(clients) && order == old(order) && clientCounter == old(clientCounter)
    {
      Broadcast(None, message, open);
    }

    /** `sendTo`: only a registered client with an open socket. */
    method SendTo(clientId: string, message: M, open: set<string>)
      modifies this
      ensures sent == old(sent) + (if clientId in clients && clientId in open then [Delivery(clientId, message)] else [])
      ensures clients == old(clients) && order == old(order) && clientCounter == old(clientCounter)
    {
      if clientId in clients && clientId in open {
        sent := sent + [Delivery(clientId, message)];
      }
    }

    /** `getClientCount`: the number of registered clients, which is also the length of the registry order. */
    method GetClientCount() returns (n: nat)
      requires Valid()
      ensures n == |clients| && n == |order|
    {
      n := |clients|;
      DistinctCount(order);
      assert clients.Keys == set x | x in order;
    }
  }

  /** A client gets a delivery exactly when it is in the audience. */
  lemma DeliveredIff<M>(a: seq<string>, x: string, m: M)
    ensures Delivery(x, m) in Deliveries(a, m) <==> x in a
  {
    if x in a {
      var i :| 0 <= i < |a| && a[i] == x;
      assert Deliveries(a, m)[i] == Delivery(x, m);
    }
    if Delivery(x, m) in Deliveries(a, m) {
      var i :| 0 <= i < |a| && Deliveries(a, m)[i] == Delivery(x, m);
      assert a[i] == x;
    }
  }

  /** A workflow broadcast reaches exactly the open subscribers, each once. */
  lemma WorkflowBroadcastExact<M>(order: seq<string>, clients: map<string, Client>, workflowId: string, open: set<string>, message: M, x: string)
    requires Distinct(order) && (forall y :: y in clients <==> y in order)
    ensures Delivery(x, message) in Deliveries(Audience(order, clients, Some(workflowId), open), message)
            <==> x in clients && workflowId in clients[x].subscribedWorkflows && x in open
    ensures Distinct(Audience(order, clients, Some(workflowId), open))
  {
    AudienceDistinct(order, clients, Some(workflowId), open);
    var a := Audience(order, clients, Some(workflowId), open);
    DeliveredIff(a, x, message);
  }

  /** A broadcast to all reaches every open registered client, subscribed or not. */
  lemma BroadcastAllExact<M>(order: seq<string>, clients: map<string, Client>, open: set<string>, message: M, x: string)
    requires forall y :: y in clients <==> y in order
    ensures Delivery(x, message) in Deliveries(Audience(order, clients, None, open), message) <==> x in clients && x in open
  {
    var a := Audience(order, clients, None, open);
    DeliveredIff(a, x, message);
  }
}
