/**
 * The Rx chains the Android MQTT helper starts, the invariant that ties its
 * subscription registry to them, and the specification of the replay of every
 * stored subscription after a successful connect, all on values.
 */
module MqttChains {

  import opened Options
  import opened MqttTypes
  import opened SubscriptionRegistry

  /** `MqttConnectOptions`: the parameters of one connect attempt. */
  datatype ConnectOptions = ConnectOptions(keepAlive: int, cleanSession: bool, username: string, password: string)

  /** An Rx chain started on the MQTT library, with what its callbacks capture. */
  datatype Chain =
    | ConnectChain(options: ConnectOptions)
    | SubscribeChain(topic: string, qos: MqttQos, eventId: string, requestedQos: int)
    | UnsubscribeChain(unsubscribeTopic: string)
    | DisconnectChain

  /** Every stored subscription's handle names the subscribe chain started for that
      topic, event id and QoS. */
  ghost predicate HandlesNameChains(reg: Registry, chains: seq<Chain>)
  {
    forall t, e {:trigger Has(reg, t, e)} :: Has(reg, t, e) ==>
      && reg[t][e].disposable < |chains|
      && chains[reg[t][e].disposable] == SubscribeChain(t, QosOrDefault(reg[t][e].qos), e, reg[t][e].qos)
  }

  /** The helper's invariant, on values: no topic without subscribers, every stored
      handle names its subscribe chain, and a pending connect attempt names a connect
      chain. */
  ghost predicate HelperInv(reg: Registry, chains: seq<Chain>, connect: Option<nat>)
  {
    && NoEmptyTopic(reg)
    && HandlesNameChains(reg, chains)
    && (connect.Some? ==> connect.value < |chains| && chains[connect.value].ConnectChain?)
  }

  /** Appending chains to the log keeps every handle naming its chain. */
  lemma HandlesAfterAppend(reg: Registry, chains: seq<Chain>, more: seq<Chain>)
    requires HandlesNameChains(reg, chains)
    ensures HandlesNameChains(reg, chains + more)
  {
    forall t, e | Has(reg, t, e)
      ensures (chains + more)[reg[t][e].disposable] == chains[reg[t][e].disposable]
    {
    }
  }

  /** Subscribing a pair to a chain appended to the log keeps the invariant. */
  lemma InvAfterSubscribe(reg: Registry, chains: seq<Chain>, connect: Option<nat>,
                          eventId: string, topic: string, qos: int)
    requires HelperInv(reg, chains, connect)
    ensures HelperInv(Subscribe(reg, eventId, topic, Subscription(|chains|, qos)),
                      chains + [SubscribeChain(topic, QosOrDefault(qos), eventId, qos)], connect)
  {
    var r := Subscribe(reg, eventId, topic, Subscription(|chains|, qos));
    var chains' := chains + [SubscribeChain(topic, QosOrDefault(qos), eventId, qos)];
    forall t, e | Has(r, t, e)
      ensures r[t][e].disposable < |chains'|
      ensures chains'[r[t][e].disposable] == SubscribeChain(t, QosOrDefault(r[t][e].qos), e, r[t][e].qos)
    {
      if t != topic || e != eventId {
        assert chains'[reg[t][e].disposable] == chains[reg[t][e].disposable];
      }
    }
    if connect.Some? {
      assert chains'[connect.value] == chains[connect.value];
    }
  }

  /** The removal `unsubscribeMqtt` makes, and the unsubscribe chain it may start, keep
      the invariant. */
  lemma InvAfterUnsubscribe(reg: Registry, chains: seq<Chain>, connect: Option<nat>, eventId: string, topic: string,
                            reg': Registry, chains': seq<Chain>)
    requires HelperInv(reg, chains, connect)
    requires var r := Unsubscribe(reg, eventId, topic);
      reg' == r.registry && chains' == chains + (if r.unsubscribe then [UnsubscribeChain(topic)] else [])
    ensures HelperInv(reg', chains', connect)
  {
    var r := Unsubscribe(reg, eventId, topic);
    var more := if r.unsubscribe then [UnsubscribeChain(topic)] else [];
    HandlesAfterAppend(reg, chains, more);
    if topic !in reg {
    } else if |reg[topic]| > 1 {
      UnsubscribeShared(reg, eventId, topic);
    } else {
      UnsubscribeLast(reg, eventId, topic);
    }
    forall t, e {:trigger Has(reg', t, e)} | Has(reg', t, e)
      ensures Has(reg, t, e) && reg'[t][e] == reg[t][e]
    {
    }
    if connect.Some? {
      assert (chains + more)[connect.value] == chains[connect.value];
    }
  }

  /** The corrected removal of `UnsubscribeIntended` keeps the invariant as well, so it
      can take the place of the rule as written. */
  lemma InvAfterUnsubscribeIntended(reg: Registry, chains: seq<Chain>, connect: Option<nat>, eventId: string,
                                    topic: string, reg': Registry, chains': seq<Chain>)
    requires HelperInv(reg, chains, connect)
    requires var r := UnsubscribeIntended(reg, eventId, topic);
      reg' == r.registry && chains' == chains + (if r.unsubscribe then [UnsubscribeChain(topic)] else [])
    ensures HelperInv(reg', chains', connect)
  {
    var r := UnsubscribeIntended(reg, eventId, topic);
    var more := if r.unsubscribe then [UnsubscribeChain(topic)] else [];
    HandlesAfterAppend(reg, chains, more);
    if !Has(reg, topic, eventId) {
    } else if |reg[topic]| > 1 {
      UnsubscribeShared(reg, eventId, topic);
    } else {
      UnsubscribeLast(reg, eventId, topic);
    }
    forall t, e {:trigger Has(reg', t, e)} | Has(reg', t, e)
      ensures Has(reg, t, e) && reg'[t][e] == reg[t][e]
    {
    }
    if connect.Some? {
      assert (chains + more)[connect.value] == chains[connect.value];
    }
  }

  /** Same topics, same event ids and the same QoS codes. */
  ghost predicate SameShape(a: Registry, b: Registry)
  {
    && a.Keys == b.Keys
    && (forall t :: t in a ==> a[t].Keys == b[t].Keys)
    && (forall t, e {:trigger Has(a, t, e)} :: Has(a, t, e) ==> a[t][e].qos == b[t][e].qos)
  }

  /** The handles of the pairs in `done`, as they were in `reg`. */
  ghost function OldHandles(reg: Registry, done: set<(string, string)>): set<nat>
  {
    set p | p in done && Has(reg, p.0, p.1) :: reg[p.0][p.1].disposable
  }

  /** The handles of every stored subscription. */
  ghost function Handles(reg: Registry): set<nat>
  {
    set t, e | t in reg && e in reg[t] :: reg[t][e].disposable
  }

  /** Every pair in `done` is a pair of `reg0`. */
  ghost predicate DoneFrom(reg0: Registry, done: set<(string, string)>)
  {
    forall p {:trigger p in done} :: p in done ==> Has(reg0, p.0, p.1)
  }

  /** The pairs in `done` hold the handle of a subscribe chain for that pair started
      at or after `start`; the others are as they were in `reg0`. */
  ghost predicate Renewed(reg0: Registry, start: nat, done: set<(string, string)>, reg: Registry, chains: seq<Chain>)
  {
    forall t, e {:trigger Has(reg, t, e)} :: Has(reg, t, e) ==>
      if (t, e) in done then
        && start <= reg[t][e].disposable < |chains|
        && chains[reg[t][e].disposable] == SubscribeChain(t, QosOrDefault(reg[t][e].qos), e, reg[t][e].qos)
      else Has(reg0, t, e) && reg[t][e] == reg0[t][e]
  }

  /** Every chain from position `start` on is a subscribe chain whose pair holds it. */
  ghost predicate NewChainsCurrent(start: nat, reg: Registry, chains: seq<Chain>)
  {
    forall k :: start <= k < |chains| ==>
      && chains[k].SubscribeChain?
      && Has(reg, chains[k].topic, chains[k].eventId)
      && reg[chains[k].topic][chains[k].eventId].disposable == k
  }

  /** The registry and the log after the pairs in `done` were re-subscribed. */
  ghost predicate Progress(reg0: Registry, chains0: seq<Chain>, done: set<(string, string)>,
                           reg: Registry, chains: seq<Chain>)
  {
    && DoneFrom(reg0, done)
    && SameShape(reg, reg0)
    && |chains0| <= |chains| && chains[..|chains0|] == chains0
    && Renewed(reg0, |chains0|, done, reg, chains)
    && NewChainsCurrent(|chains0|, reg, chains)
  }

  /** The state of the replay after it has re-subscribed the pairs in `done`, starting
      from registry `reg0`, chain log `chains0` and disposed set `disposed0`. */
  ghost predicate Replayed(reg0: Registry, chains0: seq<Chain>, disposed0: set<nat>, done: set<(string, string)>,
                           reg: Registry, chains: seq<Chain>, disposed: set<nat>)
  {
    Progress(reg0, chains0, done, reg, chains) && disposed == disposed0 + OldHandles(reg0, done)
  }

  /** Every (topic, event id) pair of a registry. */
  function AllPairs(reg: Registry): (r: set<(string, string)>)
    ensures forall t, e {:trigger (t, e) in r} {:trigger Has(reg, t, e)} :: (t, e) in r <==> Has(reg, t, e)
  {
    set t, e | t in reg && e in reg[t] :: (t, e)
  }

  lemma ReplayStart(reg0: Registry, chains0: seq<Chain>, disposed0: set<nat>)
    ensures Replayed(reg0, chains0, disposed0, {}, reg0, chains0, disposed0)
  {
    assert OldHandles(reg0, {}) == {};
  }

  lemma ShapeStep(reg0: Registry, reg: Registry, topic: string, eventId: string, sub: Subscription)
    requires SameShape(reg, reg0) && Has(reg0, topic, eventId) && sub.qos == reg[topic][eventId].qos
    ensures SameShape(Subscribe(reg, eventId, topic, sub), reg0)
  {
    var r := Subscribe(reg, eventId, topic, sub);
    forall t, e {:trigger Has(r, t, e)} | Has(r, t, e)
      ensures r[t][e].qos == reg0[t][e].qos
    {
      if t != topic || e != eventId {
        assert Has(reg, t, e) && r[t][e] == reg[t][e];
      } else {
        assert Has(reg, t, e) && r[t][e] == sub;
      }
    }
  }

  lemma RenewedStep(reg0: Registry, start: nat, done: set<(string, string)>, reg: Registry, chains: seq<Chain>,
                    topic: string, eventId: string, qos: int)
    requires Renewed(reg0, start, done, reg, chains) && start <= |chains|
    ensures Renewed(reg0, start, done + {(topic, eventId)}, Subscribe(reg, eventId, topic, Subscription(|chains|, qos)),
                    chains + [SubscribeChain(topic, QosOrDefault(qos), eventId, qos)])
  {
    var r := Subscribe(reg, eventId, topic, Subscription(|chains|, qos));
    var chains' := chains + [SubscribeChain(topic, QosOrDefault(qos), eventId, qos)];
    forall t, e {:trigger Has(r, t, e)} | Has(r, t, e) && (t, e) in done && (t != topic || e != eventId)
      ensures chains'[r[t][e].disposable] == chains[reg[t][e].disposable]
    {
    }
  }

  lemma NewChainsStep(start: nat, reg: Registry, chains: seq<Chain>, topic: string, eventId: string, qos: int)
    requires NewChainsCurrent(start, reg, chains)
    requires forall k :: start <= k < |chains| ==> (chains[k].topic, chains[k].eventId) != (topic, eventId)
    ensures NewChainsCurrent(start, Subscribe(reg, eventId, topic, Subscription(|chains|, qos)),
                             chains + [SubscribeChain(topic, QosOrDefault(qos), eventId, qos)])
  {
    var chains' := chains + [SubscribeChain(topic, QosOrDefault(qos), eventId, qos)];
    forall k | start <= k < |chains'|
      ensures chains'[k].SubscribeChain?
    {
      if k < |chains| {
        assert chains'[k] == chains[k];
      }
    }
  }

  /** A pair not yet replayed holds none of the new chains. */
  lemma NotDoneNotNew(reg0: Registry, start: nat, done: set<(string, string)>, reg: Registry, chains: seq<Chain>,
                      topic: string, eventId: string)
    requires Renewed(reg0, start, done, reg, chains) && NewChainsCurrent(start, reg, chains)
    requires Has(reg, topic, eventId) && (topic, eventId) !in done
    requires Has(reg0, topic, eventId) && reg0[topic][eventId].disposable < start
    ensures forall k :: start <= k < |chains| ==> (chains[k].topic, chains[k].eventId) != (topic, eventId)
  {
    assert reg[topic][eventId].disposable < start;
  }

  lemma OldHandlesStep(reg0: Registry, done: set<(string, string)>, topic: string, eventId: string)
    requires Has(reg0, topic, eventId)
    ensures OldHandles(reg0, done + {(topic, eventId)}) == OldHandles(reg0, done) + {reg0[topic][eventId].disposable}
  {
  }

  /** Disposing one pair's chain and subscribing it again moves the replay on by that pair. */
  lemma ReplayStep(reg0: Registry, chains0: seq<Chain>, disposed0: set<nat>, done: set<(string, string)>,
                   reg: Registry, chains: seq<Chain>, disposed: set<nat>, topic: string, eventId: string)
    requires Replayed(reg0, chains0, disposed0, done, reg, chains, disposed)
    requires Has(reg0, topic, eventId) && (topic, eventId) !in done
    requires reg0[topic][eventId].disposable < |chains0|
    ensures Has(reg, topic, eventId) && reg[topic][eventId] == reg0[topic][eventId]
    ensures var sub := reg[topic][eventId];
      Replayed(reg0, chains0, disposed0, done + {(topic, eventId)},
               Subscribe(reg, eventId, topic, Subscription(|chains|, sub.qos)),
               chains + [SubscribeChain(topic, QosOrDefault(sub.qos), eventId, sub.qos)],
               disposed + {sub.disposable})
  {
    assert Has(reg, topic, eventId);
    assert reg[topic][eventId] == reg0[topic][eventId];
    var sub := reg[topic][eventId];
    var chains' := chains + [SubscribeChain(topic, QosOrDefault(sub.qos), eventId, sub.qos)];
    assert chains'[..|chains0|] == chains0 by {
      assert chains'[..|chains|] == chains;
    }
    ShapeStep(reg0, reg, topic, eventId, Subscription(|chains|, sub.qos));
    RenewedStep(reg0, |chains0|, done, reg, chains, topic, eventId, sub.qos);
    NotDoneNotNew(reg0, |chains0|, done, reg, chains, topic, eventId);
    NewChainsStep(|chains0|, reg, chains, topic, eventId, sub.qos);
    OldHandlesStep(reg0, done, topic, eventId);
  }

  /** The registry, chain log and disposed set while the replay runs. */
  datatype ReplayState = ReplayState(registry: Registry, log: seq<Chain>, disposed: set<nat>)

  /** The pairs of a sequence of (topic, event id) pairs. */
  ghost function Elems(trace: seq<(string, string)>): set<(string, string)>
    decreases |trace|
  {
    if trace == [] then {} else Elems(trace[..|trace| - 1]) + {trace[|trace| - 1]}
  }

  /** `trace` lists pairs of `reg0`, none of them twice. */
  ghost predicate ValidTrace(reg0: Registry, trace: seq<(string, string)>)
    decreases |trace|
  {
    trace != [] ==>
      var last := trace[|trace| - 1];
      && ValidTrace(reg0, trace[..|trace| - 1])
      && Has(reg0, last.0, last.1)
      && last !in Elems(trace[..|trace| - 1])
  }

  /** The state after re-subscribing the pairs of `trace` in order: for each pair the
      helper still holds, its chain is disposed and a new subscribe chain with the
      stored QoS is started and recorded in the registry. */
  ghost function ReplayOf(reg0: Registry, chains0: seq<Chain>, disposed0: set<nat>,
                          trace: seq<(string, string)>): ReplayState
    decreases |trace|
  {
    if trace == [] then ReplayState(reg0, chains0, disposed0)
    else
      var s := ReplayOf(reg0, chains0, disposed0, trace[..|trace| - 1]);
      var (topic, eventId) := trace[|trace| - 1];
      if Has(s.registry, topic, eventId) then
        var qos := s.registry[topic][eventId].qos;
        ReplayState(Subscribe(s.registry, eventId, topic, Subscription(|s.log|, qos)),
                    s.log + [SubscribeChain(topic, QosOrDefault(qos), eventId, qos)],
                    s.disposed + {s.registry[topic][eventId].disposable})
      else s
  }

  /** Replaying pairs of the registry in any order without repetition reaches the state
      `Replayed` describes for the set of those pairs. */
  lemma {:induction false} ReplayOfReplayed(reg0: Registry, chains0: seq<Chain>, disposed0: set<nat>,
                                            trace: seq<(string, string)>)
    requires HandlesNameChains(reg0, chains0) && ValidTrace(reg0, trace)
    ensures var s := ReplayOf(reg0, chains0, disposed0, trace);
      Replayed(reg0, chains0, disposed0, Elems(trace), s.registry, s.log, s.disposed)
    decreases |trace|
  {
    if trace == [] {
      ReplayStart(reg0, chains0, disposed0);
    } else {
      var init := trace[..|trace| - 1];
      var (topic, eventId) := trace[|trace| - 1];
      ReplayOfReplayed(reg0, chains0, disposed0, init);
      var s := ReplayOf(reg0, chains0, disposed0, init);
      ReplayStep(reg0, chains0, disposed0, Elems(init), s.registry, s.log, s.disposed, topic, eventId);
    }
  }

  /** Replaying keeps the topics and event ids of the registry. */
  lemma {:induction false} ReplayOfShape(reg0: Registry, chains0: seq<Chain>, disposed0: set<nat>,
                                         trace: seq<(string, string)>)
    ensures SameShape(ReplayOf(reg0, chains0, disposed0, trace).registry, reg0)
    decreases |trace|
  {
    if trace != [] {
      ReplayOfShape(reg0, chains0, disposed0, trace[..|trace| - 1]);
    }
  }

  /** A pair of the registry is still held, with its QoS, while the replay runs. */
  lemma ReplayOfHas(reg0: Registry, chains0: seq<Chain>, disposed0: set<nat>,
                    trace: seq<(string, string)>, topic: string, eventId: string)
    requires Has(reg0, topic, eventId)
    ensures var r := ReplayOf(reg0, chains0, disposed0, trace).registry;
      Has(r, topic, eventId) && r[topic][eventId].qos == reg0[topic][eventId].qos
  {
    ReplayOfShape(reg0, chains0, disposed0, trace);
  }

  /** Replaying one more pair of the registry that the trace has not visited yet. */
  lemma ReplayNext(reg0: Registry, chains0: seq<Chain>, disposed0: set<nat>,
                   trace: seq<(string, string)>, topic: string, eventId: string)
    requires ValidTrace(reg0, trace) && Has(reg0, topic, eventId) && (topic, eventId) !in Elems(trace)
    ensures ValidTrace(reg0, trace + [(topic, eventId)])
    ensures Elems(trace + [(topic, eventId)]) == Elems(trace) + {(topic, eventId)}
    ensures var s := ReplayOf(reg0, chains0, disposed0, trace);
      && Has(s.registry, topic, eventId)
      && var sub := s.registry[topic][eventId];
         ReplayOf(reg0, chains0, disposed0, trace + [(topic, eventId)])
           == ReplayState(Subscribe(s.registry, eventId, topic, Subscription(|s.log|, sub.qos)),
                          s.log + [SubscribeChain(topic, QosOrDefault(sub.qos), eventId, sub.qos)],
                          s.disposed + {sub.disposable})
  {
    var next := trace + [(topic, eventId)];
    assert next[..|next| - 1] == trace;
    ReplayOfHas(reg0, chains0, disposed0, trace, topic, eventId);
  }

  /** What the replay after a successful connect achieves: the same topics, event ids
      and QoS codes; every stored subscription on a chain started by the replay; the
      log only extended, and every chain it adds held by one stored subscription;
      every chain the registry held before disposed. */
  ghost predicate Resubscribed(reg0: Registry, chains0: seq<Chain>, disposed0: set<nat>,
                               reg: Registry, chains: seq<Chain>, disposed: set<nat>)
  {
    && SameShape(reg, reg0)
    && (forall t, e :: Has(reg, t, e) ==> reg[t][e].disposable >= |chains0|)
    && |chains0| <= |chains| && chains[..|chains0|] == chains0
    && NewChainsCurrent(|chains0|, reg, chains)
    && disposed == disposed0 + Handles(reg0)
  }

  /** A replay that has covered every pair has resubscribed the whole registry. */
  lemma ReplayComplete(reg0: Registry, chains0: seq<Chain>, disposed0: set<nat>, done: set<(string, string)>,
                       reg: Registry, chains: seq<Chain>, disposed: set<nat>)
    requires done == AllPairs(reg0)
    requires Replayed(reg0, chains0, disposed0, done, reg, chains, disposed)
    ensures Resubscribed(reg0, chains0, disposed0, reg, chains, disposed)
  {
    forall h | h in Handles(reg0) ensures h in OldHandles(reg0, done) {
      var t, e :| t in reg0 && e in reg0[t] && reg0[t][e].disposable == h;
      assert (t, e) in done;
    }
    forall t, e {:trigger Has(reg, t, e)} | Has(reg, t, e) ensures (t, e) in done {
    }
  }

  /** A complete replay keeps the helper's invariant. */
  lemma ReplayKeepsInv(reg0: Registry, chains0: seq<Chain>, disposed0: set<nat>, connect: Option<nat>,
                       done: set<(string, string)>, reg: Registry, chains: seq<Chain>, disposed: set<nat>)
    requires HelperInv(reg0, chains0, connect) && done == AllPairs(reg0)
    requires Replayed(reg0, chains0, disposed0, done, reg, chains, disposed)
    ensures HelperInv(reg, chains, connect)
  {
    forall t | t in reg ensures reg[t] != map[] {
      var e :| e in reg0[t];
      assert e in reg[t];
    }
    forall t, e {:trigger Has(reg, t, e)} | Has(reg, t, e) ensures (t, e) in done {
    }
    if connect.Some? {
      assert chains[connect.value] == chains[..|chains0|][connect.value];
    }
  }

  /** Replaying every pair of the registry once, in any order, resubscribes it all and
      keeps the helper's invariant. */
  lemma ReplayAllPairs(reg0: Registry, chains0: seq<Chain>, disposed0: set<nat>, connect: Option<nat>,
                       trace: seq<(string, string)>)
    requires HelperInv(reg0, chains0, connect)
    requires ValidTrace(reg0, trace) && Elems(trace) == AllPairs(reg0)
    ensures var s := ReplayOf(reg0, chains0, disposed0, trace);
      && HelperInv(s.registry, s.log, connect)
      && Resubscribed(reg0, chains0, disposed0, s.registry, s.log, s.disposed)
  {
    var s := ReplayOf(reg0, chains0, disposed0, trace);
    ReplayOfReplayed(reg0, chains0, disposed0, trace);
    ReplayKeepsInv(reg0, chains0, disposed0, connect, Elems(trace), s.registry, s.log, s.disposed);
    ReplayComplete(reg0, chains0, disposed0, Elems(trace), s.registry, s.log, s.disposed);
  }
}
