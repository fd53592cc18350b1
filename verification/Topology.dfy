/** The queues a consumer declares when it connects (build_consumer.go). */
module Topology {
  import opened Options
  import opened Text
  import opened Config
  import opened Stage

  /** A queue's arguments: none, or those of a delay queue. */
  datatype Arguments = Plain | Delay(ttl: int, deadLetterExchange: string, deadLetterRoutingKey: string)

  datatype Binding = Binding(queue: string, key: string, exchange: string)

  const NANOSECONDS_PER_MILLISECOND := 1_000_000

  /** The arguments of retry queue number i. Delays are positive, so dividing truncates downwards. */
  function DelayArguments(cfg: Config, i: nat): Arguments
    requires 0 < i <= |cfg.retryBackoffs|
  {
    Delay(ToInt32(cfg.retryBackoffs[i - 1] / NANOSECONDS_PER_MILLISECOND), cfg.serviceExchange, cfg.buildRoutingKey)
  }

  /** A broker refuses to declare a queue again with other arguments, and any call may fail. */
  class Broker {
    var queues: map<string, Arguments>
    var bindings: set<Binding>

    constructor ()
      ensures queues == map[] && bindings == {}
    {
      queues, bindings := map[], {};
    }

    method QueueDeclare(name: string, arguments: Arguments) returns (ok: bool)
      modifies this`queues
      ensures ok ==> name !in old(queues) || old(queues)[name] == arguments
      ensures queues == if ok then old(queues)[name := arguments] else old(queues)
    {
      ok := *;
      if name in queues && queues[name] != arguments {
        ok := false;
      }
      if ok {
        queues := queues[name := arguments];
      }
    }

    method QueueBind(name: string, key: string, exchange: string) returns (ok: bool)
      modifies this`bindings
      ensures bindings == if ok then old(bindings) + {Binding(name, key, exchange)} else old(bindings)
    {
      ok := *;
      if ok {
        bindings := bindings + {Binding(name, key, exchange)};
      }
    }
  }

  function Names(cfg: Config): set<string> {
    {cfg.dlq} + set i | 0 < i <= |cfg.retryBackoffs| :: RetryQueue(cfg, i)
  }

  predicate RetryQueuesDeclared(cfg: Config, queues: map<string, Arguments>, n: nat)
    requires n <= |cfg.retryBackoffs|
  {
    forall i :: 0 < i <= n ==> RetryQueue(cfg, i) in queues && queues[RetryQueue(cfg, i)] == DelayArguments(cfg, i)
  }

  /** Every queue there was is there as it was. */
  predicate Keeps(before: map<string, Arguments>, after: map<string, Arguments>) {
    forall name :: name in before ==> name in after && after[name] == before[name]
  }

  method DeclareRetryTopology(cfg: Config, broker: Broker) returns (err: Option<string>)
    requires cfg.Valid()
    modifies broker`queues
    ensures Keeps(old(broker.queues), broker.queues)
    ensures broker.queues.Keys <= old(broker.queues).Keys + Names(cfg)
    ensures err.None? ==>
      && cfg.dlq in broker.queues && broker.queues[cfg.dlq] == Plain
      && RetryQueuesDeclared(cfg, broker.queues, |cfg.retryBackoffs|)
  {
    hide RetryQueue, DelayArguments, AllPositive;
    var ok := broker.QueueDeclare(cfg.dlq, Plain);
    if !ok {
      return Some("declare build dlq");
    }
    for i := 0 to |cfg.retryBackoffs|
      invariant Keeps(old(broker.queues), broker.queues)
      invariant broker.queues.Keys <= old(broker.queues).Keys + Names(cfg)
      invariant cfg.dlq in broker.queues && broker.queues[cfg.dlq] == Plain
      invariant RetryQueuesDeclared(cfg, broker.queues, i)
    {
      var name := RetryQueue(cfg, i + 1);
      assert name in Names(cfg);
      ok := broker.QueueDeclare(name, DelayArguments(cfg, i + 1));
      if !ok {
        return Some("declare retry queue");
      }
    }
    err := None;
  }

  /** The part of connect that declares and binds queues. */
  method DeclareTopology(cfg: Config, broker: Broker) returns (err: Option<string>)
    requires cfg.Valid()
    modifies broker
    ensures Keeps(old(broker.queues), broker.queues) && old(broker.bindings) <= broker.bindings
    ensures err.None? ==> Ready(cfg, broker.queues, broker.bindings)
  {
    var ok := broker.QueueDeclare(cfg.buildQueue, Plain);
    if !ok {
      return Some("declare queue");
    }
    ok := broker.QueueBind(cfg.buildQueue, cfg.buildRoutingKey, cfg.serviceExchange);
    if !ok {
      return Some("bind queue");
    }
    err := DeclareRetryTopology(cfg, broker);
  }

  /** What connect leaves behind when it succeeds. */
  predicate Ready(cfg: Config, queues: map<string, Arguments>, bindings: set<Binding>) {
    && cfg.buildQueue in queues && queues[cfg.buildQueue] == Plain
    && Binding(cfg.buildQueue, cfg.buildRoutingKey, cfg.serviceExchange) in bindings
    && cfg.dlq in queues && queues[cfg.dlq] == Plain
    && RetryQueuesDeclared(cfg, queues, |cfg.retryBackoffs|)
  }

  /** The queue of every attempt from 0 on is declared, holds a message for that attempt's delay, and hands
      it back to the queue that requests are consumed from. It is neither that queue nor the
      dead-letter queue. */
  lemma RetriesComeHome(cfg: Config, queues: map<string, Arguments>, bindings: set<Binding>, attempt: int)
    requires cfg.Valid() && Ready(cfg, queues, bindings) && attempt >= 0
    ensures
      var n := |cfg.retryBackoffs|;
      var k := if attempt < 1 then 1 else if attempt < n then attempt else n;
      var name := RetryQueue(cfg, QueueNumber(cfg, attempt));
      && name in queues && name != cfg.buildQueue && name != cfg.dlq
      && queues[name].Delay?
      && (cfg.retryBackoffs[k - 1] < 0x8000_0000 * NANOSECONDS_PER_MILLISECOND
          <==> queues[name].ttl == cfg.retryBackoffs[k - 1] / NANOSECONDS_PER_MILLISECOND)
      && Binding(cfg.buildQueue, queues[name].deadLetterRoutingKey, queues[name].deadLetterExchange) in bindings
  {
    var n := |cfg.retryBackoffs|;
    var k := if attempt < 1 then 1 else if attempt < n then attempt else n;
    assert QueueNumber(cfg, attempt) == k;
    assert RetryQueue(cfg, k) in queues;
    assert cfg.retryBackoffs[k - 1] > 0;
  }

  /** The queue an attempt is sent to is one of the declared retry queues exactly when the attempt is not
      negative; a negative attempt names a queue that no connection declares as a retry queue. */
  lemma DeclaredExactly(cfg: Config, attempt: int)
    requires cfg.Valid()
    ensures attempt >= 0 <==>
      exists i :: 0 < i <= |cfg.retryBackoffs| && RetryQueue(cfg, QueueNumber(cfg, attempt)) == RetryQueue(cfg, i)
  {
    var number := QueueNumber(cfg, attempt);
    if attempt >= 0 {
      assert 0 < number <= |cfg.retryBackoffs| && RetryQueue(cfg, number) == RetryQueue(cfg, number);
    } else {
      forall i | 0 < i <= |cfg.retryBackoffs|
        ensures RetryQueue(cfg, number) != RetryQueue(cfg, i)
      {
        if RetryQueue(cfg, number) == RetryQueue(cfg, i) {
          RetryQueuesDiffer(cfg, number, i);
        }
      }
    }
  }

  /** Different numbers name different queues. */
  lemma RetryQueuesDiffer(cfg: Config, i: int, j: int)
    requires RetryQueue(cfg, i) == RetryQueue(cfg, j)
    ensures i == j
  {
    var lead := cfg.retryQueuePrefix + ".";
    assert RetryQueue(cfg, i)[|lead|..] == Integer(i) && RetryQueue(cfg, j)[|lead|..] == Integer(j);
    IntegerInjective(i, j);
  }
}
