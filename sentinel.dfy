/**
 * `tx_sentinel`: the object that starts the peer-to-peer protocol, accepts
 * new channels, subscribes to their `inv` announcements and hands every
 * announced transaction hash to a Python callable.
 *
 * Each asynchronous callback of `tx_sentinel` is a method that handles one
 * event to completion.  The registrations the sentinel holds with the
 * networking layer are the ghost field `pending`, moved exactly as
 * `Subscriptions.Next` says; what the sentinel logs is the field `log`; what
 * it hands to Python is recorded by the `Interpreter`.
 */
module Sentinel {
  import opened Inventory
  import opened Logging
  import opened Bridge
  import opened Network
  import opened Subscriptions

  /** The warning logged for an item that is neither a transaction nor a block. */
  const UnknownTypeWarning: LogEntry := LogEntry(Warning, "", "Ignoring unknown inventory type")

  /** `n` unknown-type warnings. */
  function Warnings(n: nat): seq<LogEntry>
  {
    seq(n, _ => UnknownTypeWarning)
  }

  /** The observer calls made for the delivered hashes `hs`, in order. */
  function NotifyCalls(handler: PyObject, hs: seq<HashDigest>): seq<PyCall>
  {
    seq(|hs|, k requires 0 <= k < |hs| => PyCall(handler, PyStr(HashString(hs[k])), true))
  }

  /** The number of transaction items of `items` whose delivery raised in Python. */
  function RaisedCount(items: seq<InventoryVector>, raises: nat -> bool): nat
  {
    if items == [] then 0
    else
      var n := |items| - 1;
      RaisedCount(items[..n], raises) + (if items[n].kind == Transaction && raises(n) then 1 else 0)
  }

  /** What the start completion passes to the start handler: `None`, or the error's message. */
  function StartResult(ec: ErrorCode): (r: PyObject)
    ensures r == PyNone <==> ec == Success
    ensures ec.Failure? ==> r == PyStr(ec.message)
  {
    match ec
    case Success => PyNone
    case Failure(message) => PyStr(message)
  }

  /** The observer calls of one delivery more. */
  lemma NotifyCallsSnoc(handler: PyObject, hs: seq<HashDigest>, h: HashDigest)
    ensures NotifyCalls(handler, hs + [h]) == NotifyCalls(handler, hs) + [PyCall(handler, PyStr(HashString(h)), true)]
  {
  }

  /** A Python error is reported at most once per delivery. */
  lemma {:induction false} RaisedAtMostOncePerDelivery(items: seq<InventoryVector>, raises: nat -> bool)
    ensures RaisedCount(items, raises) <= |TxHashes(items)|
  {
    if items != [] {
      RaisedAtMostOncePerDelivery(items[..|items| - 1], raises);
    }
  }

  /** What one more item of an announcement adds to its deliveries, warnings and printed errors. */
  lemma PrefixStep(items: seq<InventoryVector>, i: nat, raises: nat -> bool)
    requires i < |items|
    ensures TxHashes(items[..i + 1]) ==
              TxHashes(items[..i]) + (if items[i].kind == Transaction then [items[i].hash] else [])
    ensures UnknownCount(items[..i + 1]) ==
              UnknownCount(items[..i]) + (if items[i].kind.Other? then 1 else 0)
    ensures RaisedCount(items[..i + 1], raises) ==
              RaisedCount(items[..i], raises) + (if items[i].kind == Transaction && raises(i) then 1 else 0)
  {
    assert items[..i + 1][..i] == items[..i];
  }

  class TxSentinel {
    /** The Python interpreter the callables live in. */
    const py: Interpreter
    /** Worker threads spawned into the pool. */
    var workerThreads: nat
    /** `handle_newtx_`: the callable transaction hashes are handed to. */
    var handleNewtx: PyObject
    /** The protocol's outbound connection cap; `None` until `start` sets it. */
    var maxOutbound: Option<nat>
    /** The pool has been stopped: no event is dispatched any more. */
    var stopped: bool
    /** Every record handed to the logger, in order. */
    var log: seq<LogEntry>
    /** The registrations outstanding with the networking layer. */
    ghost var pending: Pending

    /** Events run on pool threads, which hold no GIL between events. */
    ghost predicate Valid()
      reads this, py
    {
      py.Valid() && py.gilDepth == 0
    }

    constructor (py: Interpreter)
      requires py.Valid() && py.gilDepth == 0
      ensures Valid() && this.py == py
      ensures workerThreads == 0 && handleNewtx == PyNone && maxOutbound == None
      ensures !stopped && log == [] && pending == Initial
    {
      this.py := py;
      workerThreads, handleNewtx, maxOutbound := 0, PyNone, None;
      stopped, log := false, [];
      pending := Initial;
    }

    /**
     * `tx_sentinel::start`: spawns the workers, records the transaction
     * handler, sets the outbound cap, subscribes to new channels once and
     * starts the protocol with a completion that will call `handleStart`.
     * Nothing is checked about an earlier start, and Python is not entered.
     */
    method Start(threads: nat, numberHosts: nat, handleNewtx: PyObject, handleStart: PyObject)
      requires Valid()
      modifies this
      ensures Valid()
      ensures workerThreads == old(workerThreads) + threads
      ensures this.handleNewtx == handleNewtx && maxOutbound == Some(numberHosts)
      ensures pending == RegisterStart(SubscribeChannel(old(pending)), handleStart)
      ensures log == old(log) && stopped == old(stopped)
    {
      workerThreads := workerThreads + threads;
      this.handleNewtx := handleNewtx;
      maxOutbound := Some(numberHosts);
      pending := SubscribeChannel(pending);
      pending := RegisterStart(pending, handleStart);
    }

    /**
     * `tx_sentinel::stop`: stops the pool and waits for its threads.  The
     * pool is taken to stay stopped, so no further event is handled, whether
     * or not `start` is called again.
     */
    method Stop()
      modifies this
      ensures stopped
      ensures workerThreads == old(workerThreads) && handleNewtx == old(handleNewtx)
      ensures maxOutbound == old(maxOutbound) && log == old(log) && pending == old(pending)
    {
      stopped := true;
    }

    /**
     * The completion passed to `p2p_.start`: calls the start handler once,
     * with the error's message on failure and with `None` on success.
     */
    method NetworkStartedHandler(handleStart: PyObject, ec: ErrorCode, raises: bool)
      requires Valid() && !stopped && Enabled(pending, NetworkStarted(handleStart, ec))
      modifies this, py
      ensures Valid()
      ensures pending == Next(old(pending), NetworkStarted(handleStart, ec))
      ensures py.calls == old(py.calls) + [PyCall(handleStart, StartResult(ec), true)]
      ensures py.errorsPrinted == old(py.errorsPrinted) + (if raises then 1 else 0)
      ensures log == old(log) && handleNewtx == old(handleNewtx) && maxOutbound == old(maxOutbound)
      ensures workerThreads == old(workerThreads) && stopped == old(stopped)
    {
      pending := Fire(pending, NetworkStarted(handleStart, ec));
      if ec.Failure? {
        Invoke(py, handleStart, PyStr(ec.message), raises);
      } else {
        Invoke(py, handleStart, PyNone, raises);
      }
    }

    /**
     * `tx_sentinel::connection_started`: on error, logs a warning and returns
     * without subscribing to anything; on success, logs, subscribes to the
     * new channel's announcements and re-subscribes to new channels.
     */
    method ConnectionStartedHandler(ec: ErrorCode, node: Channel)
      requires Valid() && !stopped && Enabled(pending, ConnectionStarted(ec, node))
      modifies this
      ensures Valid()
      ensures pending == Next(old(pending), ConnectionStarted(ec, node))
      ensures ec.Failure? ==> log == old(log) + [LogEntry(Warning, "", "Couldn't start connection: " + ec.message)]
      ensures ec.Success? ==> log == old(log) + [LogEntry(Info, "", "Connection established.")]
      ensures handleNewtx == old(handleNewtx) && maxOutbound == old(maxOutbound)
      ensures workerThreads == old(workerThreads) && stopped == old(stopped)
    {
      pending := Fire(pending, ConnectionStarted(ec, node));
      if ec.Failure? {
        log := log + [LogEntry(Warning, "", "Couldn't start connection: " + ec.message)];
        return;
      }
      log := log + [LogEntry(Info, "", "Connection established.")];
      pending := SubscribeInventory(pending, node);
      pending := SubscribeChannel(pending);
    }

    /**
     * The body of `inventory_received`'s loop for one item: a transaction is
     * handed to the observer, a block is passed over, anything else is
     * warned about.  `raises` says whether the observer raises for it.
     */
    method HandleItem(ivec: InventoryVector, raises: bool)
      requires py.Valid() && py.gilDepth == 0
      modifies this`log, py
      ensures py.Valid() && py.gilDepth == 0
      ensures py.calls == old(py.calls) +
                (if ivec.kind == Transaction then [PyCall(handleNewtx, PyStr(HashString(ivec.hash)), true)] else [])
      ensures py.errorsPrinted == old(py.errorsPrinted) + (if ivec.kind == Transaction && raises then 1 else 0)
      ensures log == old(log) + (if ivec.kind.Other? then [UnknownTypeWarning] else [])
    {
      if ivec.kind == Transaction {
        NotifyTransaction(py, handleNewtx, ivec.hash, raises);
      } else if ivec.kind == Block {
        // Do nothing.
      } else {
        log := log + [UnknownTypeWarning];
      }
    }

    /**
     * `inventory_received`'s loop: the items of one announcement, in order.
     * `raises(i)` says whether the observer raises when called for item `i`.
     */
    method HandleItems(items: seq<InventoryVector>, raises: nat -> bool)
      requires py.Valid() && py.gilDepth == 0
      modifies this`log, py
      ensures py.Valid() && py.gilDepth == 0
      ensures py.calls == old(py.calls) + NotifyCalls(handleNewtx, TxHashes(items))
      ensures log == old(log) + Warnings(UnknownCount(items))
      ensures py.errorsPrinted == old(py.errorsPrinted) + RaisedCount(items, raises)
    {
      for i := 0 to |items|
        invariant py.Valid() && py.gilDepth == 0
        invariant py.calls == old(py.calls) + NotifyCalls(handleNewtx, TxHashes(items[..i]))
        invariant log == old(log) + Warnings(UnknownCount(items[..i]))
        invariant py.errorsPrinted == old(py.errorsPrinted) + RaisedCount(items[..i], raises)
      {
        PrefixStep(items, i, raises);
        if items[i].kind == Transaction {
          NotifyCallsSnoc(handleNewtx, TxHashes(items[..i]), items[i].hash);
        } else if items[i].kind.Other? {
          assert Warnings(UnknownCount(items[..i]) + 1) == Warnings(UnknownCount(items[..i])) + [UnknownTypeWarning];
        }
        HandleItem(items[i], raises(i));
      }
      assert items[..|items|] == items;
    }

    /**
     * `tx_sentinel::inventory_received`: on error, logs it and does not
     * re-subscribe; otherwise hands each transaction hash to the observer,
     * passes over blocks, warns about every other item, in announcement
     * order, and only then re-subscribes to the same channel.  `raises(i)`
     * says whether the observer raises when called for item `i`.
     */
    method InventoryReceivedHandler(ec: ErrorCode, packet: InventoryMessage, node: Channel, raises: nat -> bool)
      requires Valid() && !stopped && Enabled(pending, InventoryReceived(ec, node))
      modifies this, py
      ensures Valid()
      ensures pending == Next(old(pending), InventoryReceived(ec, node))
      ensures ec.Failure? ==>
                log == old(log) + [LogEntry(Error, "", "inventory: " + ec.message)] &&
                py.calls == old(py.calls) && py.errorsPrinted == old(py.errorsPrinted)
      ensures ec.Success? ==>
                py.calls == old(py.calls) + NotifyCalls(handleNewtx, TxHashes(packet.inventories)) &&
                log == old(log) + Warnings(UnknownCount(packet.inventories)) &&
                py.errorsPrinted == old(py.errorsPrinted) + RaisedCount(packet.inventories, raises)
      ensures handleNewtx == old(handleNewtx) && maxOutbound == old(maxOutbound)
      ensures workerThreads == old(workerThreads) && stopped == old(stopped)
    {
      pending := Fire(pending, InventoryReceived(ec, node));
      if ec.Failure? {
        log := log + [LogEntry(Error, "", "inventory: " + ec.message)];
        return;
      }
      HandleItems(packet.inventories, raises);
      pending := SubscribeInventory(pending, node);
    }
  }
}
