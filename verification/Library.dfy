/**
 * Opening and closing a tty device in the C library: whatever fails, everything acquired so far is
 * released, and closing releases everything, each thing once. The link to the device is the port's.
 */
module Library {
  import opened Bits
  import opened Devices
  import opened Platform
  import opened Rotation
  import opened MextInput
  import MextOpen

  /** How many serial number strings, protocol objects and device path strings. */
  datatype Counts = Counts(serials: nat, objects: nat, paths: nat)
  {
    function Plus(c: Counts): Counts { Counts(serials + c.serials, objects + c.objects, paths + c.paths) }

    predicate Covers(c: Counts) { c.serials <= serials && c.objects <= objects && c.paths <= paths }
  }

  const SERIAL := Counts(1, 0, 0)
  const OBJECT := Counts(0, 1, 0)
  const PATH := Counts(0, 0, 1)

  /** The 40h and series protocols only open the port; mext goes through its handshake. */
  datatype Protocol = Plain | Queried(friendly: seq<byte>)

  /** `monome_t`, as far as what it has to free goes. */
  datatype Handle = Handle(serial: bool, device: bool)

  /** How the calls that do not touch the port turn out; `named` says whether there is a path at all. */
  datatype Luck = Luck(named: bool, probed: bool, matched: Option<Protocol>, loaded: bool, copied: bool)

  /** A serial number was read; a protocol object was made. */
  predicate Probed(luck: Luck) { luck.named && luck.probed }
  predicate Loaded(luck: Luck) { Probed(luck) && luck.matched.Some? && luck.loaded }

  /** What an open acquires. */
  function Acquired(luck: Luck, succeeds: bool): Counts {
    Counts(if Probed(luck) then 1 else 0, if Loaded(luck) then 1 else 0, if succeeds then 1 else 0)
  }

  /** The same for a series of opens, so many of which succeed. */
  function AllAcquired(tries: seq<Luck>, succeeded: nat): Counts {
    if tries == [] then Counts(0, 0, succeeded)
    else AllAcquired(tries[..|tries| - 1], succeeded).Plus(Acquired(tries[|tries| - 1], false))
  }

  /** No handshake: the protocol only opens the port, if it comes to that. */
  predicate IsPlain(luck: Luck) { Loaded(luck) ==> luck.matched.value.Plain? }

  /** What such an open does to the port's schedule, and whether it succeeds. */
  function ScriptAfter(luck: Luck, script: seq<Answer>): seq<Answer> { if Loaded(luck) then Drop(script, 1) else script }

  predicate Succeeds(luck: Luck, script: seq<Answer>) {
    Loaded(luck) && luck.copied && (script == [] || script[0].outcome == Fine)
  }

  /** The schedule after a series of such opens, and how many succeed. */
  function ScriptAfterAll(tries: seq<Luck>, script: seq<Answer>): seq<Answer> {
    if tries == [] then script else ScriptAfter(tries[|tries| - 1], ScriptAfterAll(tries[..|tries| - 1], script))
  }

  function Successes(tries: seq<Luck>, script: seq<Answer>): nat {
    if tries == [] then 0
    else
      Successes(tries[..|tries| - 1], script)
      + (if Succeeds(tries[|tries| - 1], ScriptAfterAll(tries[..|tries| - 1], script)) then 1 else 0)
  }

  /** How many tries only the port can make fail. */
  function Prepared(tries: seq<Luck>): nat {
    if tries == [] then 0
    else Prepared(tries[..|tries| - 1]) + (if Loaded(tries[|tries| - 1]) && tries[|tries| - 1].copied then 1 else 0)
  }

  /** On a port that can always be opened, all of them succeed. */
  lemma {:induction false} AllSucceed(tries: seq<Luck>, script: seq<Answer>)
    requires forall i :: 0 <= i < |script| ==> script[i].outcome == Fine
    ensures Successes(tries, script) == Prepared(tries)
    ensures forall i :: 0 <= i < |ScriptAfterAll(tries, script)| ==> ScriptAfterAll(tries, script)[i].outcome == Fine
  {
    if tries != [] {
      AllSucceed(tries[..|tries| - 1], script);
    }
  }

  class Holdings {
    const port: Port
    /** Everything ever acquired, and ever released. */
    var acquired: Counts
    var released: Counts

    constructor (port: Port)
      ensures this.port == port && acquired == released == Counts(0, 0, 0)
    {
      this.port := port;
      acquired, released := Counts(0, 0, 0), Counts(0, 0, 0);
    }

    method Acquire(c: Counts)
      modifies this`acquired
      ensures acquired == old(acquired).Plus(c)
    {
      acquired := acquired.Plus(c);
    }

    /** Only of what was acquired and not released since. */
    method Release(c: Counts)
      requires acquired.Covers(released.Plus(c))
      modifies this`released
      ensures released == old(released).Plus(c)
    {
      released := released.Plus(c);
    }

    /** The protocol's `open`, on a protocol object just made. A failure leaves no link behind. */
    method OpenProtocol(p: Protocol) returns (error: bool)
      modifies port`answers, port`clock, port`log, port`sent, port`lost, port`input, port`opens, port`closes
      ensures port.opens - old(port.opens) == port.closes - old(port.closes) + (if error then 0 else 1)
      ensures p.Plain? ==>
        port.answers == Drop(old(port.answers), 1) && (error <==> old(port.answers) != [] && old(port.answers)[0].outcome != Fine)
      ensures p.Queried? && MextOpen.Responds(old(port.answers), old(port.input), Fresh(p.friendly)) ==> !error
    {
      match p
      case Plain =>
        var status := port.Open();
        error := status != 0;
      case Queried(friendly) =>
        var m := new Mext(port);
        var ret, _ := MextOpen.Open(m, friendly);
        error := ret != 0;
    }

    /** `monome_open` of a path that is not a URL. */
    method Open(luck: Luck) returns (r: Option<Handle>)
      requires acquired.Covers(released)
      modifies this`acquired, this`released
      modifies port`answers, port`clock, port`log, port`sent, port`lost, port`input, port`opens, port`closes
      ensures r == None || r == Some(Handle(true, true))
      ensures acquired == old(acquired).Plus(Acquired(luck, r.Some?))
      ensures released == if r.Some? then old(released) else old(released).Plus(Acquired(luck, false))
      ensures port.opens - old(port.opens) == port.closes - old(port.closes) + (if r.Some? then 1 else 0)
      ensures r.Some? ==> Loaded(luck) && luck.copied
      ensures IsPlain(luck) ==>
        port.answers == ScriptAfter(luck, old(port.answers)) && (r.Some? <==> Succeeds(luck, old(port.answers)))
      ensures Loaded(luck) && luck.copied ==>
        match luck.matched.value
        case Plain => r.Some? <==> old(port.answers) == [] || old(port.answers)[0].outcome == Fine
        case Queried(friendly) => MextOpen.Responds(old(port.answers), old(port.input), Fresh(friendly)) ==> r.Some?
    {
      hide MextOpen.Responds;
      if !luck.named {
        return None;
      }
      if !luck.probed {
        return None;
      }
      Acquire(SERIAL);
      if luck.matched == None {
        Release(SERIAL);
        return None;
      }
      if luck.loaded {
        Acquire(OBJECT);
        var error := OpenProtocol(luck.matched.value);
        if !error {
          if luck.copied {
            Acquire(PATH);
            return Some(Handle(true, true));
          }
          port.Close();
        }
        Release(OBJECT);
      }
      Release(SERIAL);
      r := None;
    }

    /** `monome_close`. */
    method Close(m: Handle)
      requires acquired.Covers(released.Plus(Held(m)))
      modifies this`released, port`closes
      ensures released == old(released).Plus(Held(m))
      ensures port.closes == old(port.closes) + 1
    {
      if m.serial {
        Release(SERIAL);
      }
      if m.device {
        Release(PATH);
      }
      port.Close();
      Release(OBJECT);
    }

    /**
     * Any series of opens, each closed again if it succeeded: everything that was acquired is
     * released, once, and the port is closed as often as it was opened.
     */
    method OpenAndClose(tries: seq<Luck>) returns (succeeded: nat)
      requires released == acquired
      modifies this`acquired, this`released
      modifies port`answers, port`clock, port`log, port`sent, port`lost, port`input, port`opens, port`closes
      ensures acquired == old(acquired).Plus(AllAcquired(tries, succeeded))
      ensures released == acquired
      ensures port.opens - old(port.opens) == port.closes - old(port.closes)
      ensures (forall i :: 0 <= i < |tries| ==> IsPlain(tries[i])) ==> succeeded == Successes(tries, old(port.answers))
    {
      hide Probed, Loaded, IsPlain, Succeeds, ScriptAfter, Acquired, AllAcquired, Held, MextOpen.Responds;
      succeeded := 0;
      NoTries(tries);
      for i := 0 to |tries|
        invariant acquired == old(acquired).Plus(AllAcquired(tries[..i], succeeded))
        invariant released == acquired
        invariant port.opens - old(port.opens) == port.closes - old(port.closes)
        invariant (forall k :: 0 <= k < |tries| ==> IsPlain(tries[k])) ==>
          port.answers == ScriptAfterAll(tries[..i], old(port.answers)) && succeeded == Successes(tries[..i], old(port.answers))
      {
        OneMoreTry(tries, i, succeeded);
        assert tries[..i + 1][..i] == tries[..i];
        WhatIsOpen(tries[i]);
        var r := Open(tries[i]);
        if r.Some? {
          Close(r.value);
          succeeded := succeeded + 1;
        }
      }
      assert tries[..|tries|] == tries;
    }
  }

  /** What closing a handle releases. */
  function Held(m: Handle): Counts { Counts(if m.serial then 1 else 0, 1, if m.device then 1 else 0) }

  lemma NoTries(tries: seq<Luck>)
    ensures AllAcquired(tries[..0], 0) == Counts(0, 0, 0)
  {
  }

  lemma WhatIsOpen(luck: Luck)
    ensures Loaded(luck) ==> Acquired(luck, true) == Held(Handle(true, true))
  {
  }

  lemma OneMoreTry(tries: seq<Luck>, i: nat, n: nat)
    requires i < |tries|
    ensures AllAcquired(tries[..i + 1], n) == AllAcquired(tries[..i], n).Plus(Acquired(tries[i], false))
    ensures AllAcquired(tries[..i + 1], n + 1) == AllAcquired(tries[..i], n).Plus(Acquired(tries[i], true))
  {
    assert tries[..i + 1][..i] == tries[..i];
    SucceededAdds(tries[..i], n);
  }

  lemma {:induction false} SucceededAdds(tries: seq<Luck>, n: nat)
    ensures AllAcquired(tries, n + 1) == AllAcquired(tries, n).Plus(PATH)
  {
    if tries != [] {
      SucceededAdds(tries[..|tries| - 1], n);
    }
  }

  /** The state of a new mext device whose device map names it. */
  function Fresh(friendly: seq<byte>): State {
    State(Geometry(0, 0, R0), {NeedQuery, NeedId, NeedGridSize}, [], friendly)
  }
}
