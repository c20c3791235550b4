/**
 * The two stores `placeOrder` writes to, reduced to what it observes of them:
 * the order repository keeps the orders saved so far, the Kafka template the
 * (topic, event) pairs sent so far. Both report each call to one shared
 * effect log, so that the order in which `save` and `send` are called is
 * visible (the order of the calls, not of durable commits).
 */
module Collaborators {
  import opened Types

  /** One call to a store, in the order it was made. */
  datatype Effect = Saved(order: Order) | Sent(topic: string, event: OrderPlacedEvent)

  /** The sequence of calls made to the repository and to the topic. */
  class EffectLog {
    var entries: seq<Effect>

    constructor ()
      ensures entries == []
    {
      entries := [];
    }
  }

  /** The order repository: `save` appends the order to the store. */
  class OrderRepository {
    var orders: seq<Order>
    const log: EffectLog

    constructor (log: EffectLog)
      ensures orders == [] && this.log == log
    {
      orders := [];
      this.log := log;
    }

    /** Persists `order` and returns the saved entity. */
    method Save(order: Order) returns (saved: Order)
      modifies this, log
      ensures saved == order
      ensures orders == old(orders) + [order]
      ensures log.entries == old(log.entries) + [Saved(order)]
    {
      orders := orders + [order];
      log.entries := log.entries + [Saved(order)];
      saved := order;
    }
  }

  /** The Kafka template: `send` records the event as sent to the topic. */
  class KafkaTemplate {
    var sent: seq<(string, OrderPlacedEvent)>
    const log: EffectLog

    constructor (log: EffectLog)
      ensures sent == [] && this.log == log
    {
      sent := [];
      this.log := log;
    }

    method Send(topic: string, event: OrderPlacedEvent)
      modifies this, log
      ensures sent == old(sent) + [(topic, event)]
      ensures log.entries == old(log.entries) + [Sent(topic, event)]
    {
      sent := sent + [(topic, event)];
      log.entries := log.entries + [Sent(topic, event)];
    }
  }
}
