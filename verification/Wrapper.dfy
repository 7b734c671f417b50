/**
 * The C++ wrapper over the C device handle: who owns a handle, and how the wrapper's table of
 * callbacks and the handle's table of handlers stay in step.
 */
module Wrapper {
  import opened Events

  const EINVAL := 22
  const EBADF := 9

  /** A `std::function`: empty, or some function. */
  datatype Callback = Empty | Function(id: nat)

  function NoCallbacks(): (cs: seq<Callback>)
    ensures |cs| == EVENT_MAX && (forall i :: 0 <= i < EVENT_MAX ==> cs[i] == Empty)
  {
    seq(EVENT_MAX, _ => Empty)
  }

  /** What unregistering each event type returns. */
  type Statuses = s: seq<int> | |s| == EVENT_MAX witness [0, 0, 0, 0, 0, 0]

  /** Callbacks and failure count, on the heap so that their address survives moves. */
  class CallbackState {
    var callbacks: seq<Callback>
    var failureCount: nat
    /** How often it was freed. */
    var frees: nat

    constructor ()
      ensures callbacks == NoCallbacks() && failureCount == 0 && frees == 0
    {
      callbacks, failureCount, frees := NoCallbacks(), 0, 0;
    }

    method Free()
      modifies this`frees
      ensures frees == old(frees) + 1
    {
      frees := frees + 1;
    }

    /**
     * `handleEvent`, which the C side calls with this state as user data. An exception that the
     * callback throws is counted and goes no further. Returns the callback that was called.
     */
    method HandleEvent(eventType: int, throws: bool) returns (called: Callback)
      requires |callbacks| == EVENT_MAX
      modifies this`failureCount
      ensures called == if 0 <= eventType < EVENT_MAX then callbacks[eventType] else Empty
      ensures failureCount == old(failureCount) + (if called != Empty && throws then 1 else 0)
    {
      called := Empty;
      if !(0 <= eventType < EVENT_MAX) || callbacks[eventType] == Empty {
        return;
      }
      called := callbacks[eventType];
      if throws {
        failureCount := failureCount + 1;
      }
    }
  }

  /** A slot of the C table: unset, or the wrapper's `handleEvent` with its user data. */
  datatype Handler = NoHandler | Calls(data: CallbackState)

  /** `monome_t`, as far as ownership and handlers go. */
  class Device {
    var handlers: seq<Handler>
    /** How often `monome_close` was called on it. */
    var closes: nat

    constructor ()
      ensures |handlers| == EVENT_MAX && (forall i :: 0 <= i < EVENT_MAX ==> handlers[i] == NoHandler)
      ensures closes == 0
    {
      handlers, closes := seq(EVENT_MAX, _ => NoHandler), 0;
    }

    /** `monome_register_handler`. A nonzero injected status is what the test platform makes it fail with. */
    method RegisterHandler(eventType: nat, h: Handler, injected: int) returns (status: int)
      requires |handlers| == EVENT_MAX
      modifies this`handlers
      ensures status == if eventType >= EVENT_MAX then EINVAL else injected
      ensures handlers == if status == 0 then old(handlers)[eventType := h] else old(handlers)
    {
      if eventType >= EVENT_MAX {
        return EINVAL;
      }
      if injected != 0 {
        return injected;
      }
      handlers := handlers[eventType := h];
      status := 0;
    }

    /** `monome_close`. */
    method Close()
      modifies this`closes
      ensures closes == old(closes) + 1
    {
      closes := closes + 1;
    }

    /** The dispatch of `monome_event_handle_next`, for an event that was read. */
    method Dispatch(eventType: nat, throws: bool) returns (ret: int, called: Callback)
      requires |handlers| == EVENT_MAX && eventType < EVENT_MAX
      requires handlers[eventType].Calls? ==> |handlers[eventType].data.callbacks| == EVENT_MAX
      modifies (if handlers[eventType].Calls? then {handlers[eventType].data} else {})`failureCount
      ensures ret == (if handlers[eventType].Calls? then 1 else 0)
      ensures handlers[eventType] == NoHandler ==> called == Empty
      ensures handlers[eventType].Calls? ==>
        var s := handlers[eventType].data;
        && |s.callbacks| == EVENT_MAX && called == s.callbacks[eventType]
        && s.failureCount == old(s.failureCount) + (if called != Empty && throws then 1 else 0)
    {
      match handlers[eventType]
      case NoHandler => ret, called := 0, Empty;
      case Calls(data) =>
        called := data.HandleEvent(eventType, throws);
        ret := 1;
    }
  }

  /** The two tables say the same: a slot is set exactly where there is a callback, with the owner's state. */
  ghost predicate Agree(d: Device, s: CallbackState)
    reads d, s
  {
    && |d.handlers| == |s.callbacks| == EVENT_MAX
    && (forall i :: 0 <= i < EVENT_MAX ==> d.handlers[i] == if s.callbacks[i] == Empty then NoHandler else Calls(s))
  }

  /** A C++ status: nothing thrown, or the native status of the error thrown. */
  datatype Thrown = Nothing | Error(nativeStatus: int)

  class Monome {
    var state: CallbackState?
    var handle: Device?

    /** The constructor that opens a device which `monome_open` did open. */
    constructor Open(device: Device)
      requires |device.handlers| == EVENT_MAX
      requires forall i :: 0 <= i < EVENT_MAX ==> device.handlers[i] == NoHandler
      ensures handle == device && state != null && fresh(state)
      ensures Agree(device, state) && state.frees == 0
      ensures state.callbacks == NoCallbacks() && state.failureCount == 0
    {
      state := new CallbackState();
      handle := device;
    }

    /** The move constructor. */
    constructor Move(other: Monome)
      modifies other
      ensures state == old(other.state) && handle == old(other.handle)
      ensures other.state == null && other.handle == null
    {
      state, handle := other.state, other.handle;
      new;
      other.state, other.handle := null, null;
    }

    /** Open, with a table of handlers that agrees with a state still allocated, or moved from. */
    ghost predicate Owns()
      reads this, handle, state
    {
      && (handle == null <==> state == null)
      && (handle != null ==> handle.closes == 0 && state.frees == 0 && Agree(handle, state))
    }

    /** `close`: unregisters everything, whatever that returns, and closes the handle if there is one. */
    method Close(injected: Statuses)
      requires handle != null ==> |handle.handlers| == EVENT_MAX
      modifies this`handle, handle
      ensures handle == null
      ensures old(handle) != null ==>
        && old(handle).closes == old(handle.closes) + 1 && |old(handle).handlers| == EVENT_MAX
        && (forall i :: 0 <= i < EVENT_MAX && injected[i] == 0 ==> old(handle).handlers[i] == NoHandler)
    {
      if handle == null {
        return;
      }
      for i := 0 to EVENT_MAX
        invariant handle == old(handle) != null && |handle.handlers| == EVENT_MAX
        invariant handle.closes == old(handle.closes)
        invariant forall k :: 0 <= k < i && injected[k] == 0 ==> handle.handlers[k] == NoHandler
      {
        var _ := handle.RegisterHandler(i, NoHandler, injected[i]);
      }
      handle.Close();
      handle := null;
    }

    /** The destructor: closes, then frees the state. */
    method Destroy(injected: Statuses)
      requires Owns()
      modifies this`handle, handle, state
      ensures handle == null && state == old(state)
      ensures state != null ==>
        && old(handle).closes == 1 && state.frees == 1 && |old(handle).handlers| == EVENT_MAX
        && (forall i :: 0 <= i < EVENT_MAX && injected[i] == 0 ==> old(handle).handlers[i] == NoHandler)
    {
      Close(injected);
      if state != null {
        state.Free();
      }
    }

    /** Move assignment: closes and frees what this wrapper held, unless it is assigned to itself. */
    method Assign(other: Monome, injected: Statuses)
      requires Owns()
      requires other != this && handle != null ==> handle != other.handle && state != other.state
      modifies this, other, handle, state
      ensures other == this ==> unchanged(this) && (handle != null ==> unchanged(handle) && unchanged(state))
      ensures other != this ==>
        && state == old(other.state) && handle == old(other.handle)
        && other.state == null && other.handle == null
        && (old(handle) != null ==> old(handle).closes == 1 && old(state).frees == 1)
    {
      if this == other {
        return;
      }
      Close(injected);
      if state != null {
        state.Free();
      }
      state, other.state := other.state, null;
      handle, other.handle := other.handle, null;
    }

    /** `on`: the C table first, and the wrapper's only if that succeeded. */
    method On(eventType: int, callback: Callback, injected: int) returns (thrown: Thrown)
      requires Owns()
      modifies if handle == null then {} else {handle, state}
      ensures Owns()
      ensures thrown == if handle == null then Error(EBADF)
                        else if !(0 <= eventType < EVENT_MAX) then Error(EINVAL)
                        else if injected != 0 then Error(injected) else Nothing
      ensures handle != null ==> state.failureCount == old(state.failureCount)
      ensures thrown == Nothing ==> state.callbacks == old(state.callbacks)[eventType := callback]
      ensures thrown != Nothing && handle != null ==> unchanged(handle) && unchanged(state)
    {
      if handle == null {
        return Error(EBADF);
      }
      if !(0 <= eventType < EVENT_MAX) {
        return Error(EINVAL);
      }
      var status := handle.RegisterHandler(eventType, if callback != Empty then Calls(state) else NoHandler, injected);
      if status != 0 {
        return Error(status);
      }
      state.callbacks := state.callbacks[eventType := callback];
      thrown := Nothing;
    }

    /** `eventHandleNext`, given the native status of the read and, if positive, the event's type. */
    method EventHandleNext(nativeStatus: int, eventType: nat, throws: bool) returns (status: int, called: Callback)
      requires Owns() && eventType < EVENT_MAX
      modifies (if state == null then {} else {state})`failureCount
      ensures Owns()
      ensures status == if handle == null then EBADF else nativeStatus
      ensures called == if handle != null && nativeStatus > 0 then state.callbacks[eventType] else Empty
      ensures handle != null ==>
        state.failureCount == old(state.failureCount) + (if called != Empty && throws then 1 else 0)
    {
      called := Empty;
      if handle == null {
        return EBADF, Empty;
      }
      status := nativeStatus;
      if nativeStatus <= 0 || state.callbacks[eventType] == Empty {
        return;
      }
      called := state.callbacks[eventType];
      if throws {
        state.failureCount := state.failureCount + 1;
      }
    }

    /** One turn of `eventLoop`, which dispatches on the C side. */
    method EventLoopTurn(eventType: nat, throws: bool) returns (thrown: Thrown, called: Callback)
      requires Owns() && eventType < EVENT_MAX
      modifies (if state == null then {} else {state})`failureCount
      ensures Owns()
      ensures thrown == if handle == null then Error(EBADF) else Nothing
      ensures called == if handle != null then state.callbacks[eventType] else Empty
      ensures handle != null ==>
        state.failureCount == old(state.failureCount) + (if called != Empty && throws then 1 else 0)
    {
      if handle == null {
        return Error(EBADF), Empty;
      }
      var _, c := handle.Dispatch(eventType, throws);
      thrown, called := Nothing, c;
    }

    function CallbackFailureCount(): nat
      reads this, state
    {
      if state == null then 0 else state.failureCount
    }
  }
}
