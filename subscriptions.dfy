/**
 * The one-shot subscriptions the sentinel keeps outstanding with the
 * networking layer, and how each event handler consumes and re-issues them.
 *
 * libbitcoin's `subscribe_channel`, `subscribe_inventory` and `start` each
 * register a handler that is called at most once.  `Pending` counts what is
 * registered; an event can only arrive for something registered, and
 * arriving uses it up.  The handlers in module Sentinel are proved to move
 * their ghost `Pending` exactly as `Next` does, and the lemmas here say what
 * follows for whole runs of events.
 */
module Subscriptions {
  import opened Network
  import opened Bridge

  /**
   * Outstanding registrations: channel subscriptions with the orchestrator,
   * inventory subscriptions per channel, and start completions (each
   * holding the start handler it captured).
   */
  datatype Pending = Pending(channel: nat, inventory: map<Channel, nat>, starts: multiset<PyObject>)

  /** The asynchronous events the sentinel handles. */
  datatype Event =
    | ConnectionStarted(ec: ErrorCode, node: Channel)
    | InventoryReceived(ec: ErrorCode, node: Channel)
    | NetworkStarted(handleStart: PyObject, ec: ErrorCode)

  /** A freshly constructed sentinel has nothing registered. */
  const Initial: Pending := Pending(0, map[], multiset{})

  /** The number of inventory subscriptions outstanding on `c`. */
  function InventoryCount(p: Pending, c: Channel): nat
  {
    if c in p.inventory then p.inventory[c] else 0
  }

  /** `p2p_.subscribe_channel(...)`: one more channel subscription. */
  function SubscribeChannel(p: Pending): (q: Pending)
    ensures q.channel == p.channel + 1 && q.starts == p.starts
    ensures forall c :: InventoryCount(q, c) == InventoryCount(p, c)
  {
    p.(channel := p.channel + 1)
  }

  /** `node->subscribe_inventory(...)`: one more inventory subscription on `node`, none elsewhere. */
  function SubscribeInventory(p: Pending, node: Channel): (q: Pending)
    ensures q.channel == p.channel && q.starts == p.starts
    ensures InventoryCount(q, node) == InventoryCount(p, node) + 1
    ensures forall c :: c != node ==> InventoryCount(q, c) == InventoryCount(p, c)
  {
    p.(inventory := p.inventory[node := InventoryCount(p, node) + 1])
  }

  /** `p2p_.start(p2p_started)`: one more start completion, holding `handleStart`. */
  function RegisterStart(p: Pending, handleStart: PyObject): (q: Pending)
    ensures q.channel == p.channel && q.starts == p.starts + multiset{handleStart}
    ensures forall c :: InventoryCount(q, c) == InventoryCount(p, c)
  {
    p.(starts := p.starts + multiset{handleStart})
  }

  /** An event can only arrive for a registration that is outstanding. */
  predicate Enabled(p: Pending, e: Event)
  {
    match e
    case ConnectionStarted(_, _) => p.channel > 0
    case InventoryReceived(_, node) => InventoryCount(p, node) > 0
    case NetworkStarted(h, _) => h in p.starts
  }

  /** The arrival of `e` uses up the registration it was delivered for. */
  function Fire(p: Pending, e: Event): (q: Pending)
    requires Enabled(p, e)
  {
    match e
    case ConnectionStarted(_, _) => p.(channel := p.channel - 1)
    case InventoryReceived(_, node) => p.(inventory := p.inventory[node := InventoryCount(p, node) - 1])
    case NetworkStarted(h, _) => p.(starts := p.starts - multiset{h})
  }

  /**
   * The registrations outstanding after the handler for `e` has run: the
   * connection handler re-subscribes the channel and the orchestrator only on
   * success; the inventory handler re-subscribes the channel only on success;
   * the start completion issues nothing.
   */
  function Next(p: Pending, e: Event): (q: Pending)
    requires Enabled(p, e)
    ensures q.channel == if e.ConnectionStarted? && e.ec.Failure? then p.channel - 1 else p.channel
    ensures q.starts == if e.NetworkStarted? then p.starts - multiset{e.handleStart} else p.starts
    ensures forall c :: InventoryCount(q, c) ==
              InventoryCount(p, c) + Arms(e, c) - Drops(e, c)
  {
    var fired := Fire(p, e);
    match e
    case ConnectionStarted(ec, node) =>
      if ec.Failure? then fired else SubscribeChannel(SubscribeInventory(fired, node))
    case InventoryReceived(ec, node) =>
      if ec.Failure? then fired else SubscribeInventory(fired, node)
    case NetworkStarted(_, _) => fired
  }

  /** 1 if `e` is a successful connection of `c` (which starts observing it), else 0. */
  function Arms(e: Event, c: Channel): nat
  {
    if e == ConnectionStarted(Success, c) then 1 else 0
  }

  /** 1 if `e` is an inventory error on `c` (which stops observing it), else 0. */
  function Drops(e: Event, c: Channel): nat
  {
    if e.InventoryReceived? && e.node == c && e.ec.Failure? then 1 else 0
  }

  /** Every event of `es` arrives for an outstanding registration, in turn. */
  predicate Runs(p: Pending, es: seq<Event>)
    decreases es
  {
    es == [] || (Enabled(p, es[0]) && Runs(Next(p, es[0]), es[1..]))
  }

  /** The registrations outstanding after the events `es`. */
  function Run(p: Pending, es: seq<Event>): Pending
    requires Runs(p, es)
    decreases es
  {
    if es == [] then p else Run(Next(p, es[0]), es[1..])
  }

  function ArmCount(es: seq<Event>, c: Channel): nat
  {
    if es == [] then 0 else Arms(es[0], c) + ArmCount(es[1..], c)
  }

  function DropCount(es: seq<Event>, c: Channel): nat
  {
    if es == [] then 0 else Drops(es[0], c) + DropCount(es[1..], c)
  }

  /** The number of failed connection events in `es`. */
  function ConnectionFailures(es: seq<Event>): nat
  {
    if es == [] then 0
    else (if es[0].ConnectionStarted? && es[0].ec.Failure? then 1 else 0) + ConnectionFailures(es[1..])
  }

  /** The start handlers that the start completions in `es` call. */
  function StartHandlers(es: seq<Event>): multiset<PyObject>
  {
    if es == [] then multiset{}
    else (if es[0].NetworkStarted? then multiset{es[0].handleStart} else multiset{}) + StartHandlers(es[1..])
  }

  /**
   * Exact accounting of inventory subscriptions: a channel gains one per
   * successful connection of it and loses one per inventory error on it;
   * successful announcements leave its count as it was.
   */
  lemma {:induction false} InventoryCountAfterRun(p: Pending, es: seq<Event>, c: Channel)
    requires Runs(p, es)
    ensures InventoryCount(Run(p, es), c) + DropCount(es, c) == InventoryCount(p, c) + ArmCount(es, c)
    decreases es
  {
    if es != [] {
      InventoryCountAfterRun(Next(p, es[0]), es[1..], c);
    }
  }

  /** The orchestrator subscription is lost once per failed connection event, and only then. */
  lemma {:induction false} ChannelCountAfterRun(p: Pending, es: seq<Event>)
    requires Runs(p, es)
    ensures Run(p, es).channel + ConnectionFailures(es) == p.channel
    decreases es
  {
    if es != [] {
      ChannelCountAfterRun(Next(p, es[0]), es[1..]);
    }
  }

  /** Every start completion calls a start handler that some `start` registered, once. */
  lemma {:induction false} StartsAfterRun(p: Pending, es: seq<Event>)
    requires Runs(p, es)
    ensures Run(p, es).starts + StartHandlers(es) == p.starts
    decreases es
  {
    if es != [] {
      StartsAfterRun(Next(p, es[0]), es[1..]);
      var q := Next(p, es[0]);
      if es[0].NetworkStarted? {
        assert q.starts + multiset{es[0].handleStart} == p.starts;
      }
    }
  }

  /**
   * A channel with no inventory subscription is never observed again unless
   * a new successful connection event for it arrives.
   */
  lemma {:induction false} UnarmedChannelStaysUnobserved(p: Pending, es: seq<Event>, c: Channel)
    requires Runs(p, es) && InventoryCount(p, c) == 0 && ArmCount(es, c) == 0
    ensures forall k :: 0 <= k < |es| ==> !(es[k].InventoryReceived? && es[k].node == c)
    decreases es
  {
    if es != [] {
      assert !(es[0].InventoryReceived? && es[0].node == c);
      UnarmedChannelStaysUnobserved(Next(p, es[0]), es[1..], c);
      assert forall k :: 1 <= k < |es| ==> es[k] == es[1..][k - 1];
    }
  }

  /**
   * An inventory error on a channel with its one subscription drops that
   * channel from observation: no later announcement from it is handled.
   */
  lemma InventoryErrorIsFinal(p: Pending, message: string, node: Channel, es: seq<Event>)
    requires InventoryCount(p, node) == 1
    requires Runs(p, [InventoryReceived(Failure(message), node)] + es)
    requires ArmCount(es, node) == 0
    ensures forall k :: 0 <= k < |es| ==> !(es[k].InventoryReceived? && es[k].node == node)
  {
    var all := [InventoryReceived(Failure(message), node)] + es;
    assert all[1..] == es;
    UnarmedChannelStaysUnobserved(Next(p, all[0]), es, node);
  }

  /** Without an orchestrator subscription no connection event is ever handled again. */
  lemma {:induction false} AcceptorHalted(p: Pending, es: seq<Event>)
    requires Runs(p, es) && p.channel == 0
    ensures forall k :: 0 <= k < |es| ==> !es[k].ConnectionStarted?
    decreases es
  {
    if es != [] {
      AcceptorHalted(Next(p, es[0]), es[1..]);
      assert forall k :: 1 <= k < |es| ==> es[k] == es[1..][k - 1];
    }
  }

  /**
   * A failed connection event with the one orchestrator subscription
   * outstanding ends channel acceptance: no later connection event is handled.
   */
  lemma ConnectionFailureIsFinal(p: Pending, message: string, node: Channel, es: seq<Event>)
    requires p.channel == 1
    requires Runs(p, [ConnectionStarted(Failure(message), node)] + es)
    ensures forall k :: 0 <= k < |es| ==> !es[k].ConnectionStarted?
  {
    var all := [ConnectionStarted(Failure(message), node)] + es;
    assert all[1..] == es;
    AcceptorHalted(Next(p, all[0]), es);
  }

  /**
   * A subscribed channel that never reports an inventory error stays
   * observed: its next announcement can still be handled after any run.
   */
  lemma ObservedWhileHealthy(p: Pending, es: seq<Event>, c: Channel, ec: ErrorCode)
    requires Runs(p, es) && InventoryCount(p, c) > 0 && DropCount(es, c) == 0
    ensures Enabled(Run(p, es), InventoryReceived(ec, c))
  {
    InventoryCountAfterRun(p, es, c);
  }

  /** One `start` on a fresh sentinel: its handler is called at most once, and only it. */
  lemma StartHandlerAtMostOnce(handleStart: PyObject, es: seq<Event>)
    requires Runs(RegisterStart(SubscribeChannel(Initial), handleStart), es)
    ensures StartHandlers(es) <= multiset{handleStart}
  {
    StartsAfterRun(RegisterStart(SubscribeChannel(Initial), handleStart), es);
  }
}
