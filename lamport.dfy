/**
 * Lamport's scalar logical clock ("Time, Clocks, and the Ordering of Events in a
 * Distributed System", 1978): implementation rule IR1 (tick before every event a
 * process originates) and IR2 (on receipt, move past the sender's timestamp).
 */
module Lamport {
  import opened Base

  /** IR2: the clock after receiving a message stamped `received`, i.e. max(local, received) + 1. */
  function Merge(local: nat, received: int): (t: nat)
    ensures t > local && t > received
    ensures t == local + 1 || t == received + 1
  {
    (if local >= received then local else received) + 1
  }

  /**
   * IR2 applied only when the message carries an integer timestamp: the Go servers
   * skip the merge when the `clock` field is missing or not a number.
   */
  function Folded(local: nat, received: Option<int>): (t: nat)
    ensures received.None? ==> t == local
    ensures received.Some? ==> t > local && t > received.value
  {
    if received.Some? then Merge(local, received.value) else local
  }

  /** The clock object of `clock.py` (also `clock.js` and the Go `LamportClock`). */
  class LamportClock {
    var time: nat

    constructor ()
      ensures time == 0
    {
      time := 0;
    }

    /** IR1: advance by one and return the new value. */
    method Tick() returns (t: nat)
      modifies this
      ensures time == old(time) + 1
      ensures t == time
    {
      time := time + 1;
      t := time;
    }

    /** IR2: fold in a received timestamp and return the new value. */
    method Update(received: int) returns (t: nat)
      modifies this
      ensures time == Merge(old(time), received)
      ensures t == time
    {
      time := (if time >= received then time else received) + 1;
      t := time;
    }

    /** Read the clock; nothing changes. */
    method GetTime() returns (t: nat)
      ensures t == time
    {
      t := time;
    }
  }

  /** One call on a clock object. */
  datatype Call = Tick | Update(received: int) | GetTime

  /** The stored time after `c`. */
  function After(time: nat, c: Call): nat {
    match c
    case Tick => time + 1
    case Update(r) => Merge(time, r)
    case GetTime => time
  }

  /** The stored time after a whole sequence of calls. */
  function Final(time: nat, calls: seq<Call>): nat
    decreases |calls|
  {
    if calls == [] then time else Final(After(time, calls[0]), calls[1..])
  }

  /** The values the calls return, in order (every call returns the stored time after it). */
  function Returned(time: nat, calls: seq<Call>): seq<nat>
    decreases |calls|
  {
    if calls == [] then [] else [After(time, calls[0])] + Returned(After(time, calls[0]), calls[1..])
  }

  ghost predicate Mutating(calls: seq<Call>) {
    forall i :: 0 <= i < |calls| ==> !calls[i].GetTime?
  }

  /** The stored time never decreases, and each tick or update adds at least one. */
  lemma {:induction false} TimeNeverDecreases(time: nat, calls: seq<Call>)
    ensures Final(time, calls) >= time
    ensures Mutating(calls) ==> Final(time, calls) >= time + |calls|
    decreases |calls|
  {
    if calls != [] {
      TimeNeverDecreases(After(time, calls[0]), calls[1..]);
    }
  }

  /**
   * Over ticks and updates, the returned values strictly increase, every one
   * exceeds the starting time, and the last one is the stored time.
   */
  lemma {:induction false} ReturnsStrictlyIncrease(time: nat, calls: seq<Call>)
    requires Mutating(calls)
    ensures |Returned(time, calls)| == |calls|
    ensures forall i :: 0 <= i < |calls| ==> Returned(time, calls)[i] > time
    ensures forall i, j :: 0 <= i < j < |calls| ==> Returned(time, calls)[i] < Returned(time, calls)[j]
    ensures calls != [] ==> Returned(time, calls)[|calls| - 1] == Final(time, calls)
    decreases |calls|
  {
    if calls != [] {
      var t1 := After(time, calls[0]);
      assert Mutating(calls[1..]) by {
        forall i | 0 <= i < |calls[1..]| ensures !calls[1..][i].GetTime? {
          assert calls[1..][i] == calls[i + 1];
        }
      }
      ReturnsStrictlyIncrease(t1, calls[1..]);
      var rest := Returned(t1, calls[1..]);
      assert Returned(time, calls) == [t1] + rest;
      forall i, j | 0 <= i < j < |calls|
        ensures Returned(time, calls)[i] < Returned(time, calls)[j]
      {
        if i == 0 {
          assert Returned(time, calls)[j] == rest[j - 1];
        }
      }
    }
  }

  /** IR2 moves the clock past both the local and the received time. */
  lemma {:induction false} UpdateExceedsBoth(time: nat, received: int, calls: seq<Call>)
    ensures Final(time, [Update(received)] + calls) > time
    ensures Final(time, [Update(received)] + calls) > received
  {
    assert ([Update(received)] + calls)[1..] == calls;
    TimeNeverDecreases(Merge(time, received), calls);
  }
}
