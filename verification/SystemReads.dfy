/** What a register read returns at any moment of any run of the whole controller. */
module SystemReads {
  import opened Kernel
  import opened UsbTypes
  import opened Transport
  import opened TransportProps
  import opened Registers
  import opened SystemMachine
  import opened SystemRuns
  import opened SystemDevice
  import H = HostMachine
  import HR = HostRuns
  import E = Enumeration
  import R = RoleMachine
  import RR = RoleRuns
  import I = InterruptMachine
  import IR = InterruptRuns

  /** The word a read of `addr` returns, with the signals as the register block sees them. */
  function ReadAt(s: State, addr: nat): Word {
    ReadWord(s.i.regs, addr, s.h.net.role, s.h.net.dev.configuredOut, WordOf(s.h.addrOut.cur))
  }

  /** Bit k of a word, as a number. */
  function Bit(w: Word, k: nat): nat { if k in w then 1 else 0 }

  /** The number a word stands for, if it has no bit above the eighth. */
  function Value(w: Word): nat {
    Bit(w, 0) + 2 * Bit(w, 1) + 4 * Bit(w, 2) + 8 * Bit(w, 3)
    + 16 * Bit(w, 4) + 32 * Bit(w, 5) + 64 * Bit(w, 6) + 128 * Bit(w, 7)
  }

  lemma WordOfBit(b: byte, k: nat)
    requires k < 8
    ensures Bit(WordOf(b), k) == b / Pow2(k) % 2
  {}

  lemma Powers()
    ensures Pow2(0) == 1 && Pow2(1) == 2 && Pow2(2) == 4 && Pow2(3) == 8
    ensures Pow2(4) == 16 && Pow2(5) == 32 && Pow2(6) == 64 && Pow2(7) == 128
  {
    assert Pow2(4) == 2 * Pow2(3);
    assert Pow2(7) == 2 * Pow2(6);
  }

  /** The word of an address has its value and no other bit. */
  lemma WordOfIs(b: byte)
    ensures Value(WordOf(b)) == b && forall k :: k in WordOf(b) ==> k < 8
  {
    hide Bit;
    hide Pow2;
    Powers();
    WordOfBit(b, 0); WordOfBit(b, 1); WordOfBit(b, 2); WordOfBit(b, 3);
    WordOfBit(b, 4); WordOfBit(b, 5); WordOfBit(b, 6); WordOfBit(b, 7);
    Halves(b);
  }

  /** The three lowest binary digits of a number, and what is left. */
  lemma Digits(x: nat)
    ensures x == x % 2 + 2 * (x / 2 % 2) + 4 * (x / 4 % 2) + 8 * (x / 8)
  {
    assert x / 4 == x / 2 / 2 && x / 8 == x / 2 / 2 / 2;
  }

  lemma Halves(b: byte)
    ensures b == b % 2 + 2 * (b / 2 % 2) + 4 * (b / 4 % 2) + 8 * (b / 8 % 2)
                 + 16 * (b / 16 % 2) + 32 * (b / 32 % 2) + 64 * (b / 64 % 2) + 128 * (b / 128 % 2)
  {
    Digits(b);
    Digits(b / 8);
    Digits(b / 64);
    assert b / 8 / 2 == b / 16 && b / 8 / 4 == b / 32 && b / 8 / 8 == b / 64;
    assert b / 64 / 2 == b / 128 && b / 64 / 4 == 0 && b / 64 / 8 == 0;
  }

  /** What software last wrote to a register, from its reset value. */
  function LastAccess(a: seq<Action>, n: nat, index: nat, reset: Word): Word
    requires n <= |a|
  {
    if n == 0 then reset
    else if a[n - 1].Access? && Index(a[n - 1].addr) == index then a[n - 1].val
    else LastAccess(a, n - 1, index, reset)
  }

  lemma {:induction false} WritesBefore(x: seq<Event>, y: seq<Event>, n: nat, index: nat, reset: Word)
    requires n <= |x|
    ensures LastWritten(x + y, n, index, reset) == LastWritten(x, n, index, reset)
  {
    if n > 0 { WritesBefore(x, y, n - 1, index, reset); }
  }

  lemma {:induction false} NoWritesAfter(x: seq<Event>, y: seq<Event>, n: nat, index: nat, reset: Word)
    requires |x| <= n <= |x + y|
    requires forall j | 0 <= j < |y| :: !WritesTo(y[j], index)
    ensures LastWritten(x + y, n, index, reset) == LastWritten(x, |x|, index, reset)
  {
    if n == |x| {
      WritesBefore(x, y, n, index, reset);
    } else {
      NoWritesAfter(x, y, n - 1, index, reset);
      assert (x + y)[n - 1] == y[n - 1 - |x|];
    }
  }

  /** Only an access writes a register other than the address shadow. */
  lemma EventsWrite(s: State, x: Action, index: nat)
    requires index == 4 || index == 6
    ensures var y := I.EventsOf(s.i, IrqAction(s, x));
            && (x.Access? ==> y == [WriteReg(x.addr, x.val)])
            && (!x.Access? ==> forall j | 0 <= j < |y| :: !WritesTo(y[j], index))
  {
    hide RoleAfter;
    hide HostAfter;
    hide CopierAfter;
    hide WordOf;
    assert Index(DEV_ADDR) == 5;
  }

  lemma {:induction false} WritesAreAccesses(t: seq<State>, a: seq<Action>, n: nat, index: nat, reset: Word)
    requires |t| == |a| + 1 && n <= |a| && (index == 4 || index == 6)
    ensures var ev := IR.Events(IrqStates(t), IrqActions(t, a), n);
            LastWritten(ev, |ev|, index, reset) == LastAccess(a, n, index, reset)
  {
    hide I.EventsOf;
    hide IrqAction;
    hide Index;
    if n > 0 {
      WritesAreAccesses(t, a, n - 1, index, reset);
      var x := IR.Events(IrqStates(t), IrqActions(t, a), n - 1);
      var y := I.EventsOf(t[n - 1].i, IrqAction(t[n - 1], a[n - 1]));
      assert IR.Events(IrqStates(t), IrqActions(t, a), n) == x + y;
      EventsWrite(t[n - 1], a[n - 1], index);
      if a[n - 1].Access? {
        WritesBefore(x, y, |x|, index, reset);
      } else {
        NoWritesAfter(x, y, |x + y|, index, reset);
      }
    }
  }

  lemma RegsAreTrace(t: seq<State>, a: seq<Action>, i: nat)
    requires SystemMachine.Run(t, a) && i < |t|
    ensures |t| == |a| + 1
    ensures var ev := IR.Events(IrqStates(t), IrqActions(t, a), i);
            Registers.Run(Trace(Registers.RESET, ev), ev) && Trace(Registers.RESET, ev)[|ev|] == t[i].i.regs
  {
    hide SystemMachine.Run;
    hide R.Run;
    hide H.Run;
    hide I.Run;
    hide After;
    RunLength(t, a);
    PartsRun(t, a);
    IR.RegsAreHistory(IrqStates(t), IrqActions(t, a), i);
  }

  /** A read of the whole, bit by bit: at 0x04 the role shown, the speed and bit 16, and no other
      bit, since the device is never configured; at 0x0C what was raised since it was last cleared;
      at 0x10 and 0x18 what software last wrote; at 0x14 the address shown; at 0x1C the speed; zero
      everywhere else. */
  lemma ReadsOfWhole(t: seq<State>, a: seq<Action>, i: nat, addr: nat)
    requires SystemMachine.Run(t, a) && i < |t|
    ensures |t| == |a| + 1
    ensures var w, role := ReadAt(t[i], addr), t[i].r.mgr.currentRole.cur;
            match Index(addr)
            case 1 =>
              forall k :: k in w <==> (k == 4 && role == Host) || (k == 5 && role == Device)
                                      || k == 8 || k == 9 || k == 16
            case 3 =>
              var ev := IR.Events(IrqStates(t), IrqActions(t, a), i);
              forall k :: k in w <==> RaisedSinceCleared(ev, |ev|, k)
            case 4 => w == LastAccess(a, i, 4, ALL_ONES)
            case 5 => Value(w) == t[i].h.addrOut.cur && forall k :: k in w ==> k < 8
            case 6 => w == LastAccess(a, i, 6, {})
            case 7 => w == {0, 1}
            case _ => w == {}
  {
    hide SystemMachine.Run;
    hide Registers.Run;
    hide RaisedSinceCleared;
    hide LastWritten;
    hide LastAccess;
    hide ReadWord;
    hide Index;
    hide WordOf;
    hide Value;
    RunLength(t, a);
    var ev := IR.Events(IrqStates(t), IrqActions(t, a), i);
    RegsAreTrace(t, a, i);
    AlwaysWired(t, a, i);
    NeverConfigured(t, a, i);
    WordOfIs(t[i].h.addrOut.cur);
    WritesAreAccesses(t, a, i, 4, ALL_ONES);
    WritesAreAccesses(t, a, i, 6, {});
    ReadsReturn(Trace(Registers.RESET, ev), ev, |ev|, addr, t[i].h.net.role, t[i].h.net.dev.configuredOut,
                WordOf(t[i].h.addrOut.cur));
  }

  lemma NeverConfigured(t: seq<State>, a: seq<Action>, i: nat)
    requires SystemMachine.Run(t, a) && i < |t|
    ensures !t[i].h.net.dev.configuredOut
  {
    DeviceStaysInert(t, a, i);
    hide SystemMachine.Run;
  }
}
