/**
 * The subscription registry of the Android MQTT helper, as values: topic ->
 * (event id -> subscription). `subscribeMqtt` and `unsubscribeMqtt` change it
 * through the two transitions below; the helper class is proved to apply them.
 */
module SubscriptionRegistry {

  import opened Options

  /** A stored subscription: the handle of the Rx chain that receives the topic, and
      the QoS code it was requested with. */
  datatype Subscription = Subscription(disposable: nat, qos: int)

  type Registry = map<string, map<string, Subscription>>

  /** `eventId` is subscribed to `topic`. */
  predicate Has(reg: Registry, topic: string, eventId: string)
  {
    topic in reg && eventId in reg[topic]
  }

  /** No topic is kept with an empty set of subscribers. */
  predicate NoEmptyTopic(reg: Registry)
  {
    forall topic :: topic in reg ==> reg[topic] != map[]
  }

  /** The registry update of `subscribeMqtt`: creates the topic's inner map when it is
      absent, then sets the subscription of `eventId`. */
  function Subscribe(reg: Registry, eventId: string, topic: string, sub: Subscription): (r: Registry)
    ensures Has(r, topic, eventId) && r[topic][eventId] == sub
    ensures r.Keys == reg.Keys + {topic}
    ensures forall t, e {:trigger Has(r, t, e)} {:trigger Has(reg, t, e)} :: (t != topic || e != eventId) ==>
      (Has(r, t, e) <==> Has(reg, t, e)) && (Has(reg, t, e) ==> r[t][e] == reg[t][e])
    ensures NoEmptyTopic(reg) ==> NoEmptyTopic(r)
  {
    var inner := if topic in reg then reg[topic] else map[];
    reg[topic := inner[eventId := sub]]
  }

  /** What `unsubscribeMqtt` does to the registry, which handle it disposes, and
      whether it unsubscribes the topic at the broker. */
  datatype Removal = Removal(registry: Registry, dispose: Option<nat>, unsubscribe: bool)

  /** The registry update of `unsubscribeMqtt`, as the source writes it: an unknown
      topic is left alone; a topic with more than one subscriber loses `eventId`
      only; otherwise the whole topic is dropped and unsubscribed. */
  function Unsubscribe(reg: Registry, eventId: string, topic: string): (r: Removal)
    ensures topic !in reg ==> r == Removal(reg, None, false)
    ensures r.dispose.Some? <==> Has(reg, topic, eventId)
    ensures r.dispose.Some? ==> r.dispose.value == reg[topic][eventId].disposable
    ensures r.unsubscribe <==> topic in reg && |reg[topic]| <= 1
    ensures NoEmptyTopic(reg) ==> NoEmptyTopic(r.registry)
  {
    if topic !in reg then Removal(reg, None, false)
    else
      var all := reg[topic];
      var dispose := if eventId in all then Some(all[eventId].disposable) else None;
      if |all| > 1 then
        assert all - {eventId} != map[] by {
          OtherKey(all, eventId);
          var y :| y in all && y != eventId;
          assert y in all - {eventId};
        }
        Removal(reg[topic := all - {eventId}], dispose, false)
      else Removal(reg - {topic}, dispose, true)
  }

  /** With other subscribers on the topic, only `eventId` is removed: every other pair
      stays as it was and the topic stays subscribed at the broker. */
  lemma UnsubscribeShared(reg: Registry, eventId: string, topic: string)
    requires topic in reg && |reg[topic]| > 1
    ensures var r := Unsubscribe(reg, eventId, topic).registry;
      && !Has(r, topic, eventId)
      && topic in r
      && r.Keys == reg.Keys
      && (forall t, e {:trigger Has(r, t, e)} {:trigger Has(reg, t, e)} :: (t != topic || e != eventId) ==>
            (Has(r, t, e) <==> Has(reg, t, e)) && (Has(reg, t, e) ==> r[t][e] == reg[t][e]))
  {
  }

  /** With at most one subscriber id on the topic, the whole topic is removed and
      every other topic is unchanged. */
  lemma UnsubscribeLast(reg: Registry, eventId: string, topic: string)
    requires topic in reg && |reg[topic]| <= 1
    ensures var r := Unsubscribe(reg, eventId, topic);
      && r.unsubscribe
      && r.registry.Keys == reg.Keys - {topic}
      && (forall t :: t in r.registry ==> r.registry[t] == reg[t])
  {
  }

  /** Subscribing a new topic and unsubscribing the same id gives the registry back,
      disposes the new chain and unsubscribes the topic once. */
  lemma SubscribeThenUnsubscribe(reg: Registry, eventId: string, topic: string, sub: Subscription)
    requires topic !in reg
    ensures Unsubscribe(Subscribe(reg, eventId, topic, sub), eventId, topic)
      == Removal(reg, Some(sub.disposable), true)
  {
    var r := Subscribe(reg, eventId, topic, sub);
    assert r[topic] == map[eventId := sub];
    assert r - {topic} == reg;
  }

  /** Unsubscribes each id of `ids` from `topic` in turn; gives the final registry and
      how many broker unsubscribes were issued. */
  function UnsubscribeEach(reg: Registry, topic: string, ids: seq<string>): (Registry, nat)
    decreases |ids|
  {
    if ids == [] then (reg, 0)
    else
      var r := Unsubscribe(reg, ids[0], topic);
      var (last, count) := UnsubscribeEach(r.registry, topic, ids[1..]);
      (last, count + if r.unsubscribe then 1 else 0)
  }

  /** Removing every subscriber of a topic one by one issues exactly one broker
      unsubscribe (for the last one), and leaves the other topics as they were. */
  lemma {:induction false} UnsubscribeEachDrains(reg: Registry, topic: string, ids: seq<string>)
    requires topic in reg && reg[topic] != map[]
    requires |ids| == |reg[topic]|
    requires forall k :: 0 <= k < |ids| ==> ids[k] in reg[topic]
    requires forall k, l :: 0 <= k < l < |ids| ==> ids[k] != ids[l]
    ensures UnsubscribeEach(reg, topic, ids).1 == 1
    ensures UnsubscribeEach(reg, topic, ids).0 == reg - {topic}
    decreases |ids|
  {
    var r := Unsubscribe(reg, ids[0], topic);
    if |reg[topic]| == 1 {
      assert ids[1..] == [];
      assert r.registry == reg - {topic};
    } else {
      var rest := reg[topic] - {ids[0]};
      assert r.registry == reg[topic := rest];
      assert |rest| == |reg[topic]| - 1;
      forall k | 0 <= k < |ids[1..]|
        ensures ids[1..][k] in rest
      {
        assert ids[1..][k] == ids[k + 1] != ids[0];
      }
      UnsubscribeEachDrains(r.registry, topic, ids[1..]);
      assert r.registry - {topic} == reg - {topic};
    }
  }

  /** For an id that the topic does not have, the source's update is not a no-op:
      when one other subscriber is left, that subscriber is dropped without its chain
      being disposed, and the topic is unsubscribed at the broker. */
  lemma UnsubscribeStrangerDropsSubscriber(other: string, stranger: string, topic: string, sub: Subscription)
    requires other != stranger
    ensures var reg := map[topic := map[other := sub]];
      var r := Unsubscribe(reg, stranger, topic);
      && r.unsubscribe
      && r.dispose == None
      && !Has(r.registry, topic, other)
      && Unsubscribe(r.registry, stranger, topic) == Removal(r.registry, None, false)
  {
    var reg := map[topic := map[other := sub]];
    assert |reg[topic]| == 1;
  }

  /** Unsubscribing the same id twice is not the same as unsubscribing it once: after
      `a` and `b` subscribe, removing `a` a second time removes `b`. */
  lemma UnsubscribeNotIdempotent(a: string, b: string, topic: string, sa: Subscription, sb: Subscription)
    requires a != b
    ensures var reg := map[topic := map[a := sa, b := sb]];
      var once := Unsubscribe(reg, a, topic);
      var twice := Unsubscribe(once.registry, a, topic);
      && Has(once.registry, topic, b)
      && !Has(twice.registry, topic, b)
      && twice.unsubscribe
  {
    var reg := map[topic := map[a := sa, b := sb]];
    assert |reg[topic]| == 2 by {
      assert reg[topic].Keys == {a, b};
    }
    var once := Unsubscribe(reg, a, topic);
    assert once.registry[topic] == map[b := sb];
  }

  /** The evident intent: unsubscribing an id that the topic does not have changes
      nothing; otherwise the source's rule applies. */
  function UnsubscribeIntended(reg: Registry, eventId: string, topic: string): (r: Removal)
    ensures !Has(r.registry, topic, eventId)
    ensures NoEmptyTopic(reg) ==> NoEmptyTopic(r.registry)
  {
    if !Has(reg, topic, eventId) then Removal(reg, None, false)
    else Unsubscribe(reg, eventId, topic)
  }

  /** The corrected update removes exactly the pair `(topic, eventId)`, unsubscribes
      the topic exactly when that pair was its last subscriber, and is idempotent. */
  lemma UnsubscribeIntendedRemovesOnlyPair(reg: Registry, eventId: string, topic: string)
    requires NoEmptyTopic(reg)
    ensures var r := UnsubscribeIntended(reg, eventId, topic);
      && !Has(r.registry, topic, eventId)
      && (forall t, e {:trigger Has(r.registry, t, e)} {:trigger Has(reg, t, e)} :: (t != topic || e != eventId) ==>
            (Has(r.registry, t, e) <==> Has(reg, t, e)) && (Has(reg, t, e) ==> r.registry[t][e] == reg[t][e]))
      && (r.unsubscribe <==> Has(reg, topic, eventId) && reg[topic].Keys == {eventId})
      && UnsubscribeIntended(r.registry, eventId, topic) == Removal(r.registry, None, false)
  {
    if Has(reg, topic, eventId) {
      if |reg[topic]| <= 1 {
        assert reg[topic].Keys == {eventId} by {
          forall e | e in reg[topic] ensures e == eventId {
            if e != eventId {
              assert {e, eventId} <= reg[topic].Keys;
              assert |{e, eventId}| == 2;
              SubsetCard({e, eventId}, reg[topic].Keys);
            }
          }
        }
      } else {
        assert reg[topic].Keys != {eventId};
      }
    }
  }

  /** A map with more than one key has a key other than `x`. */
  lemma OtherKey<K, V>(m: map<K, V>, x: K)
    requires |m| > 1
    ensures exists y :: y in m && y != x
  {
    if forall y :: y in m ==> y == x {
      assert m.Keys <= {x};
      SubsetCard(m.Keys, {x});
    }
  }

  lemma SubsetCard<T>(a: set<T>, b: set<T>)
    requires a <= b
    ensures |a| <= |b|
  {
    if a != {} {
      var x :| x in a;
      SubsetCard(a - {x}, b - {x});
    }
  }
}
