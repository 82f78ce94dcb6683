/** Stepper fan-out bookkeeping: which steppers have been attached to which
    endstop handle, in the order the `add_stepper` calls were made. */
module FanOut {

  /** Opaque identity of an endstop handle (an MCU endstop object). */
  type Handle = int

  /** Opaque identity of a stepper. */
  type Stepper = int

  /** For each handle, every stepper passed to its `add_stepper`, in call order. */
  type AttachLog = map<Handle, seq<Stepper>>

  /** The steppers `h` has received so far; a handle never attached to has received none. */
  function Received(log: AttachLog, h: Handle): seq<Stepper>
  {
    if h in log then log[h] else []
  }

  /** `k` copies of stepper `s`. */
  function Copies(s: Stepper, k: nat): (c: seq<Stepper>)
    ensures |c| == k
    ensures forall i :: 0 <= i < k ==> c[i] == s
  {
    if k == 0 then [] else [s] + Copies(s, k - 1)
  }

  /** One `handle.add_stepper(s)` call. */
  function Attach(log: AttachLog, h: Handle, s: Stepper): (log': AttachLog)
    ensures Received(log', h) == Received(log, h) + [s]
    ensures forall g :: g != h ==> Received(log', g) == Received(log, g)
  {
    log[h := Received(log, h) + [s]]
  }

  /** The loop of `add_mcu`: every stepper of `ss` attached to `h`, front to back. */
  function AttachEach(log: AttachLog, h: Handle, ss: seq<Stepper>): (log': AttachLog)
    ensures Received(log', h) == Received(log, h) + ss
    ensures forall g :: g != h ==> Received(log', g) == Received(log, g)
    decreases |ss|
  {
    if ss == [] then log
    else
      var rest := AttachEach(Attach(log, h, ss[0]), h, ss[1..]);
      assert ss == [ss[0]] + ss[1..];
      rest
  }

  /** How many times `h` occurs in `hs`. */
  function Count(hs: seq<Handle>, h: Handle): (n: nat)
    ensures n > 0 <==> h in hs
    ensures n <= |hs|
  {
    if hs == [] then 0 else (if hs[0] == h then 1 else 0) + Count(hs[1..], h)
  }

  /** A handle listed once in `hs` occurs there exactly once. */
  lemma {:induction false} CountOfDistinct(hs: seq<Handle>, h: Handle)
    requires forall i, j :: 0 <= i < j < |hs| ==> hs[i] != hs[j]
    requires h in hs
    ensures Count(hs, h) == 1
  {
    if hs[0] == h {
      assert h !in hs[1..];
    } else {
      CountOfDistinct(hs[1..], h);
    }
  }

  /** The loop of `add_stepper`: `s` attached to every handle of `hs`, front to
      back. Handles not listed are left alone; `AttachToEachReceived` says
      what the listed ones receive. */
  function AttachToEach(log: AttachLog, hs: seq<Handle>, s: Stepper): (log': AttachLog)
    ensures forall h :: h !in hs ==> Received(log', h) == Received(log, h)
    decreases |hs|
  {
    if hs == [] then log
    else
      AttachToEach(Attach(log, hs[0], s), hs[1..], s)
  }

  /** A handle listed `k` times in `hs` receives `k` more copies of `s`; a
      handle not listed receives nothing. */
  lemma {:induction false} AttachToEachReceived(log: AttachLog, hs: seq<Handle>, s: Stepper, h: Handle)
    ensures Received(AttachToEach(log, hs, s), h) == Received(log, h) + Copies(s, Count(hs, h))
    decreases |hs|
  {
    if hs != [] {
      var log1 := Attach(log, hs[0], s);
      AttachToEachReceived(log1, hs[1..], s, h);
      if hs[0] == h {
        assert Copies(s, Count(hs, h)) == [s] + Copies(s, Count(hs[1..], h));
      }
    }
  }
}
