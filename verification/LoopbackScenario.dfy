/** The loopback at work: a run that brings any payload in and sends it back out. */
module LoopbackScenario {
  import opened Kernel
  import opened UsbTypes
  import opened Transport
  import opened TransportProps
  import opened Loopback
  import opened LoopbackWire

  /** Some run ends in s. */
  ghost predicate Reachable(s: State) {
    exists t: seq<State>, a: seq<Action> :: Run(t, a) && t[|a|] == s
  }

  lemma ReachReset(devRom: Rom, peerRom: Rom)
    ensures Reachable(Reset(devRom, peerRom))
  {
    hide Reset;
    var t: seq<State>, a: seq<Action> := [Reset(devRom, peerRom)], [];
    assert Run(t, a) && t[|a|] == t[0];
  }

  lemma Reach(s: State, b: Action)
    requires Reachable(s) && Enabled(s, b)
    ensures Reachable(Step(s, b))
  {
    hide Step;
    hide Enabled;
    hide Reset;
    var t: seq<State>, a: seq<Action> :| Run(t, a) && t[|a|] == s;
    var t', a' := t + [Step(s, b)], a + [b];
    assert t'[|a'|] == Step(s, b) && t'[0] == t[0];
    assert Run(t', a') by {
      forall i | 0 <= i < |a'| ensures Enabled(t'[i], a'[i]) && t'[i + 1] == Step(t'[i], a'[i]) {
        if i < |a| { assert t'[i + 1] == t[i + 1]; }
      }
    }
  }

  function FromHost(kind: PktType, s: SetupPkt, data: seq<byte>): Packet {
    Packet(Some(DEFAULT_EXT.(pktType := kind, setup := s)), data)
  }

  /** The device role, the block on and configured, the copy thread at its wait. */
  lemma ToConfigured(devRom: Rom, peerRom: Rom) returns (s: State)
    ensures Reachable(s) && DeviceListens(s.net) && s.net.dev.configured && s.pc.AwaitOut? && !s.ready
    ensures s.net.dev.ep1 == s.net.dev.ep2 == EMPTY_FIFO && s.net.dev.delivered == [] && !s.bulkIrq.Changes()
  {
    hide Reachable;
    ReachReset(devRom, peerRom);
    var s0 := Reset(devRom, peerRom);
    Reach(s0, SetRole(Device, true));
    var s1 := Step(s0, SetRole(Device, true));
    var p := FromHost(Setup, SetupPkt(0, 9, 1, 0, 0), []);
    Reach(s1, FromLink(p));
    s := Step(s1, FromLink(p));
  }

  /** A payload lands and the copy thread moves it on. */
  lemma ToCopied(s: State, data: seq<byte>) returns (s': State)
    requires Reachable(s) && DeviceListens(s.net) && s.net.dev.configured && s.pc.AwaitOut? && !s.ready
    requires s.net.dev.ep1 == s.net.dev.ep2 == EMPTY_FIFO && s.net.dev.delivered == []
    ensures Reachable(s') && DeviceListens(s'.net) && s'.net.dev.delivered == []
    ensures s'.net.dev.ep1 == Fifo(data, true) && s'.pc == CopyPulse(s.now + 10) && s'.now == s.now
    ensures !s'.ready && !s'.net.dev.outPending
  {
    hide Reachable;
    var p := FromHost(BulkOut, ZERO_SETUP, data);
    Reach(s, FromLink(p));
    var s1 := Step(s, FromLink(p));
    Reach(s1, DoDelta);
    var s2 := Step(s1, DoDelta);
    Reach(s2, RunCopy);
    s' := Step(s2, RunCopy);
  }

  lemma LastIsHandedOn(s: State)
    requires Reachable(s)
    ensures HandedOn(s.net.wire) == s.net.dev.delivered
  {
    hide Step;
    hide Enabled;
    hide Reset;
    hide HandedOn;
    var t: seq<State>, a: seq<Action> :| Run(t, a) && t[|a|] == s;
    DeliveredIsHandedOn(t, a, |a|);
  }

  /** For any payload, empty ones included, there is a run in which it comes in, waits out the copy
      thread's pulse, and goes out again as the only bulk IN packet of the device. */
  lemma LoopbackHappens(devRom: Rom, peerRom: Rom, data: seq<byte>)
    ensures exists s: State :: Reachable(s) && s.pc.AwaitOut? && HandedOn(s.net.wire) == [data]
  {
    hide Reachable;
    var s0 := ToConfigured(devRom, peerRom);
    var s1 := ToCopied(s0, data);
    Reach(s1, DoDelta);
    var s2 := Step(s1, DoDelta);
    Reach(s2, DoAdvance(10));
    var s3 := Step(s2, DoAdvance(10));
    Reach(s3, RunCopy);
    var s4 := Step(s3, RunCopy);
    var p := FromHost(BulkIn, ZERO_SETUP, []);
    Reach(s4, FromLink(p));
    var s5 := Step(s4, FromLink(p));
    LastIsHandedOn(s5);
  }
}
