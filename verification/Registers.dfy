/** The register block and its interrupt: write-one-to-clear status, mask, and a level that is
    only ever written, never derived.

    Every operation here is bitwise or compares with a constant, so a 32-bit word is modelled
    as the set of the positions of its one bits: `|` is union, `& ~` is difference, zero is {}. */
module Registers {
  import opened Kernel
  import opened UsbTypes

  type Word = w: set<nat> | forall k | k in w :: k < 32

  const ALL_ONES: Word := set k: nat | k < 32

  const CTRL: nat := 0x00
  const STATUS: nat := 0x04
  const ROLE_CTRL: nat := 0x08
  const INTR_STATUS: nat := 0x0C
  const INTR_ENABLE: nat := 0x10
  const DEV_ADDR: nat := 0x14
  const SPEED: nat := 0x1C
  const REGS: nat := 8

  /** What a completed access adds to its transaction's delay. */
  const ACCESS_NS: nat := 10

  // Interrupt bits.
  const ROLE_CHANGED: nat := 0
  const ENUM_DONE: nat := 3
  const XFER_DONE: nat := 4
  const BULK_IRQ: nat := 5

  const SUPER_SPEED: Word := {0, 1}

  /** `file` is the storage behind the registers, shadows included; `irq` is the level last written. */
  datatype RegBlock = RegBlock(file: seq<Word>, intrEnable: Word, intrStatus: Word, irq: bool)
  type Regs = r: RegBlock | |r.file| == REGS witness RESET

  const RESET: RegBlock := RegBlock([{}, {}, {}, {}, {}, {}, {}, {}], ALL_ONES, {}, false)

  /** The decoder looks at 32 address bits and drops the lowest two. */
  function Aligned(addr: nat): nat { addr % TWO32 / 4 * 4 }

  /** Sets the bits; if an enabled one is set then, the level goes high and the status is shadowed. */
  function Raised(r: Regs, bits: Word): Regs {
    var status: Word := r.intrStatus + bits;
    if status * r.intrEnable != {} then
      r.(intrStatus := status, irq := true, file := r.file[INTR_STATUS / 4 := status])
    else r.(intrStatus := status)
  }

  /** A plain register write lands in the storage; CTRL and the read-only decodes do not read it back. */
  function Written(r: Regs, addr: nat, val: Word): Regs {
    var a := Aligned(addr);
    if a == CTRL || a == ROLE_CTRL then r
    else if a == INTR_STATUS then
      var status: Word := r.intrStatus - val;
      r.(intrStatus := status, irq := r.irq && status != {})
    else if a == INTR_ENABLE then r.(intrEnable := val)
    else if a / 4 < REGS then r.(file := r.file[a / 4 := val])
    else r
  }

  /** The role a register write asks for, if it asks for one: the value 1 or the value 2. */
  function RoleWritten(addr: nat, val: Word): Option<Role> {
    if Aligned(addr) == ROLE_CTRL && val == {0} then Some(Host)
    else if Aligned(addr) == ROLE_CTRL && val == {1} then Some(Device)
    else None
  }

  /** Role in bits 4 and 5, speed from bit 8, a constant at 16, the configured flag at 17. */
  function StatusWord(role: Role, configured: bool): Word {
    (match role case RoleNone => {} case Host => {4} case Device => {5})
    + {8, 9} + {16} + (if configured then {17} else {})
  }

  function ReadWord(r: Regs, addr: nat, role: Role, configured: bool, devAddr: Word): Word {
    var a := Aligned(addr);
    if a == STATUS then StatusWord(role, configured)
    else if a == INTR_STATUS then r.intrStatus
    else if a == INTR_ENABLE then r.intrEnable
    else if a == DEV_ADDR then devAddr
    else if a == SPEED then SUPER_SPEED
    else if a / 4 < REGS then r.file[a / 4]
    else {}
  }

  datatype Command = Read | Write

  class DrdRegisters {
    const file: array<Word>
    var intrEnable: Word
    var intrStatus: Word
    var irq: bool

    ghost function Value(): Regs
      reads this, file
      requires Valid()
    {
      RegBlock(file[..], intrEnable, intrStatus, irq)
    }

    ghost predicate Valid() { file.Length == REGS }

    constructor ()
      ensures Valid() && Value() == RESET && fresh(file)
    {
      file := new Word[8](_ => {});
      intrEnable := ALL_ONES;
      intrStatus := {};
      irq := false;
    }

    method RaiseIrq(bits: Word)
      requires Valid()
      modifies `intrStatus, `irq, file
      ensures Value() == Raised(old(Value()), bits)
    {
      intrStatus := intrStatus + bits;
      if intrStatus * intrEnable != {} {
        irq := true;
        file[INTR_STATUS / 4] := intrStatus;
      }
    }

    /** Runs when one of its inputs changes, and raises whatever it then sees high. */
    method InterruptCollector(enumDone: bool, xferDone: bool, bulkIrq: bool, devAddr: Word)
      requires Valid()
      modifies `intrStatus, `irq, file
      ensures Value() == After(old(Value()), CollectorEvents(enumDone, xferDone, bulkIrq, devAddr))
    {
      ghost var ev: seq<Event> := [];
      if enumDone {
        RaiseIrq({ENUM_DONE});
        file[DEV_ADDR / 4] := devAddr;
        AfterSnoc(old(Value()), [], Raise({ENUM_DONE}));
        AfterSnoc(old(Value()), [Raise({ENUM_DONE})], WriteReg(DEV_ADDR, devAddr));
        ev := [] + [Raise({ENUM_DONE})] + [WriteReg(DEV_ADDR, devAddr)];
      }
      if xferDone {
        RaiseIrq({XFER_DONE});
        AfterSnoc(old(Value()), ev, Raise({XFER_DONE}));
        ev := ev + [Raise({XFER_DONE})];
      }
      if bulkIrq {
        RaiseIrq({BULK_IRQ});
        AfterSnoc(old(Value()), ev, Raise({BULK_IRQ}));
        ev := ev + [Raise({BULK_IRQ})];
      }
      assert ev == CollectorEvents(enumDone, xferDone, bulkIrq, devAddr);
    }

    /** One register access of `len` bytes. Short accesses fail at once; a write to ROLE_CTRL may
        ask for a role. `delay` is the time the access adds to the transaction. */
    method CfgTransport(cmd: Command, addr: nat, word: Word, len: nat, role: Role, configured: bool, devAddr: Word)
      returns (response: Response, data: Word, request: Option<Role>, delay: nat)
      requires Valid()
      modifies this, file
      ensures response == if len < 4 then GenericError else Ok
      ensures delay == if len < 4 then 0 else ACCESS_NS
      ensures len < 4 || cmd == Read ==> Value() == old(Value()) && request == None
      ensures len >= 4 && cmd == Read ==> data == ReadWord(Value(), addr, role, configured, devAddr)
      ensures len < 4 || cmd == Write ==> data == word
      ensures len >= 4 && cmd == Write ==>
                Value() == Written(old(Value()), addr, word) && request == RoleWritten(addr, word)
    {
      var a := Aligned(addr);
      request, data, delay := None, word, 0;
      if len < 4 {
        response := GenericError;
        return;
      }
      response, delay := Ok, ACCESS_NS;
      match cmd {
        case Read =>
          if a == STATUS { data := StatusWord(role, configured); }
          else if a == INTR_STATUS { data := intrStatus; }
          else if a == INTR_ENABLE { data := intrEnable; }
          else if a == DEV_ADDR { data := devAddr; }
          else if a == SPEED { data := SUPER_SPEED; }
          else if a / 4 < REGS { data := file[a / 4]; }
          else { data := {}; }
        case Write =>
          if a == CTRL {
          } else if a == ROLE_CTRL {
            if word == {0} { request := Some(Host); } else if word == {1} { request := Some(Device); }
          } else if a == INTR_STATUS {
            intrStatus := intrStatus - word;
            if intrStatus == {} { irq := false; }
          } else if a == INTR_ENABLE {
            intrEnable := word;
          } else if a / 4 < REGS {
            file[a / 4] := word;
          }
      }
    }
  }

  // ----- histories -----

  datatype Event = Raise(bits: Word) | WriteReg(addr: nat, val: Word)

  function Applied(r: Regs, e: Event): Regs {
    match e
    case Raise(bits) => Raised(r, bits)
    case WriteReg(addr, val) => Written(r, addr, val)
  }

  function After(r: Regs, ev: seq<Event>): Regs {
    if ev == [] then r else Applied(After(r, ev[..|ev| - 1]), ev[|ev| - 1])
  }

  lemma AfterSnoc(r: Regs, ev: seq<Event>, e: Event)
    ensures After(r, ev + [e]) == Applied(After(r, ev), e)
  {
    assert (ev + [e])[..|ev|] == ev;
  }

  /** The collector's shadow of the address is stored as a write to DEV_ADDR would store it. */
  function CollectorEvents(enumDone: bool, xferDone: bool, bulkIrq: bool, devAddr: Word): seq<Event> {
    (if enumDone then [Raise({ENUM_DONE}), WriteReg(DEV_ADDR, devAddr)] else [])
    + (if xferDone then [Raise({XFER_DONE})] else [])
    + (if bulkIrq then [Raise({BULK_IRQ})] else [])
  }

  /** A history from reset: the events and the register values between them. */
  ghost predicate Run(t: seq<Regs>, ev: seq<Event>) {
    && |t| == |ev| + 1
    && t[0] == RESET
    && forall i | 0 <= i < |ev| :: t[i + 1] == Applied(t[i], ev[i])
  }

  /** The register values along a history. */
  function Trace(r: Regs, ev: seq<Event>): (t: seq<Regs>)
    ensures |t| == |ev| + 1 && t[0] == r
    ensures forall i | 0 <= i < |ev| :: t[i + 1] == Applied(t[i], ev[i])
    ensures t[|ev|] == After(r, ev)
  {
    if ev == [] then [r]
    else
      var n := |ev| - 1;
      Trace(r, ev[..n]) + [Applied(After(r, ev[..n]), ev[n])]
  }

  // ----- status -----

  /** Which 32-bit register an address names: it counts modulo 2^32, its lowest two bits aside. */
  function Index(addr: nat): nat { addr / 4 % 0x4000_0000 }

  lemma AlignedIsIndex(addr: nat)
    ensures Aligned(addr) == 4 * Index(addr)
  {
    var q, r := addr / TWO32, addr % TWO32;
    assert addr / 4 == q * 0x4000_0000 + r / 4;
    assert 0 <= r / 4 < 0x4000_0000;
  }

  /** The event is a software write to that register. */
  predicate WritesTo(e: Event, index: nat) { e.WriteReg? && Index(e.addr) == index }

  predicate Raises(e: Event, k: nat) { e.Raise? && k in e.bits }

  predicate Clears(e: Event, k: nat) { WritesTo(e, 3) && k in e.val }

  /** Among the first n events, some raise of bit k came after the last write that clears it. */
  ghost predicate RaisedSinceCleared(ev: seq<Event>, n: nat, k: nat)
    requires n <= |ev|
  {
    exists i | 0 <= i < n :: Raises(ev[i], k) && forall j | i < j < n :: !Clears(ev[j], k)
  }

  /** A status bit is set if and only if it was raised after it was last cleared. */
  lemma {:induction false} StatusIsHistory(t: seq<Regs>, ev: seq<Event>, n: nat, k: nat)
    requires Run(t, ev) && n < |t|
    ensures k in t[n].intrStatus <==> RaisedSinceCleared(ev, n, k)
  {
    if n > 0 {
      StatusIsHistory(t, ev, n - 1, k);
      var e := ev[n - 1];
      if e.WriteReg? { AlignedIsIndex(e.addr); }
      assert t[n - 1 + 1] == Applied(t[n - 1], e);
      assert k in t[n].intrStatus <==> Raises(e, k) || (k in t[n - 1].intrStatus && !Clears(e, k));
      hide Applied;
      hide Raises;
      hide Clears;
    }
  }

  // ----- the interrupt level -----

  /** The event raises, and finds an enabled status bit set. */
  predicate Asserts(r: Regs, e: Event) { e.Raise? && (r.intrStatus + e.bits) * r.intrEnable != {} }

  /** The event writes the status register and leaves it zero. */
  predicate Deasserts(r: Regs, e: Event) {
    WritesTo(e, 3) && r.intrStatus - e.val == {}
  }

  ghost predicate AssertedSinceZero(t: seq<Regs>, ev: seq<Event>, n: nat)
    requires n <= |ev| < |t|
  {
    exists i | 0 <= i < n :: Asserts(t[i], ev[i]) && forall j | i < j < n :: !Deasserts(t[j], ev[j])
  }

  /** The level is high if and only if some raise found an enabled bit after the last clear to
      zero; so a high level means a non-zero status. */
  lemma {:induction false} IrqIsHistory(t: seq<Regs>, ev: seq<Event>, n: nat)
    requires Run(t, ev) && n < |t|
    ensures t[n].irq <==> AssertedSinceZero(t, ev, n)
    ensures t[n].irq ==> t[n].intrStatus != {}
  {
    if n > 0 {
      IrqIsHistory(t, ev, n - 1);
      var r, e := t[n - 1], ev[n - 1];
      if e.WriteReg? { AlignedIsIndex(e.addr); }
      assert t[n - 1 + 1] == Applied(r, e);
      assert t[n].irq <==> Asserts(r, e) || (r.irq && !Deasserts(r, e));
      assert r.intrStatus != {} && !Deasserts(r, e) ==> t[n].intrStatus != {};
      assert Asserts(r, e) ==> t[n].intrStatus != {};
      hide Applied;
      hide Asserts;
      hide Deasserts;
    }
  }

  /** The level is what a level-sensitive output would be: high when an enabled bit is set. */
  predicate LevelAgrees(r: Regs) { r.irq <==> r.intrStatus * r.intrEnable != {} }

  /** A status write that leaves only masked bits under a high level, or a mask write that changes
      whether an enabled bit is set. No raise is one. */
  predicate Breaks(r: Regs, e: Event) {
    || (WritesTo(e, 3) && r.irq && var s := r.intrStatus - e.val; s != {} && s * r.intrEnable == {})
    || (WritesTo(e, 4) && (r.intrStatus * e.val != {}) != r.irq)
  }

  /** A raise under a low level or of an enabled bit, a status write that clears all of it, or
      under a low level all that is enabled, or a mask write that fits the level. */
  predicate Mends(r: Regs, e: Event) {
    match e
    case Raise(bits) => !r.irq || bits * r.intrEnable != {}
    case WriteReg(addr, val) =>
      var s := r.intrStatus - val;
      if Index(addr) == 3 then (if r.irq then s == {} else s * r.intrEnable == {})
      else Index(addr) == 4 && (r.intrStatus * val != {}) == r.irq
  }

  /** One event turns agreement into disagreement exactly if it breaks it, and back exactly if it mends it. */
  lemma EventAgreesIff(r: Regs, e: Event)
    ensures LevelAgrees(r) ==> (LevelAgrees(Applied(r, e)) <==> !Breaks(r, e))
    ensures !LevelAgrees(r) ==> (LevelAgrees(Applied(r, e)) <==> Mends(r, e))
    ensures Breaks(r, e) ==> !LevelAgrees(Applied(r, e))
  {
    if e.Raise? {
      assert (r.intrStatus + e.bits) * r.intrEnable == r.intrStatus * r.intrEnable + e.bits * r.intrEnable;
    } else {
      AlignedIsIndex(e.addr);
      assert (r.intrStatus - e.val) * r.intrEnable <= r.intrStatus * r.intrEnable;
    }
  }

  ghost predicate BrokenSinceMended(t: seq<Regs>, ev: seq<Event>, n: nat)
    requires n <= |ev| < |t|
  {
    exists i | 0 <= i < n :: Breaks(t[i], ev[i]) && forall j | i < j < n :: !Mends(t[j], ev[j])
  }

  /** The level differs from status and mask if and only if an event broke the agreement and none
      has mended it since. */
  lemma {:induction false} DisagreesIffBroken(t: seq<Regs>, ev: seq<Event>, n: nat)
    requires Run(t, ev) && n < |t|
    ensures !LevelAgrees(t[n]) <==> BrokenSinceMended(t, ev, n)
  {
    if n > 0 {
      DisagreesIffBroken(t, ev, n - 1);
      assert t[n - 1 + 1] == Applied(t[n - 1], ev[n - 1]);
      EventAgreesIff(t[n - 1], ev[n - 1]);
      assert !LevelAgrees(t[n]) <==>
             Breaks(t[n - 1], ev[n - 1]) || (!LevelAgrees(t[n - 1]) && !Mends(t[n - 1], ev[n - 1]));
      hide Applied;
      hide Breaks;
      hide Mends;
      hide LevelAgrees;
    } else {
      assert t[0].intrStatus == {};
    }
  }

  /** So the level follows status and mask throughout if and only if nothing ever breaks it. */
  lemma LevelAgreesIff(t: seq<Regs>, ev: seq<Event>, n: nat)
    requires Run(t, ev) && n < |t|
    ensures (forall i | 0 <= i <= n :: LevelAgrees(t[i])) <==> (forall i | 0 <= i < n :: !Breaks(t[i], ev[i]))
  {
    forall i | 0 <= i <= n ensures !LevelAgrees(t[i]) <==> BrokenSinceMended(t, ev, i) {
      DisagreesIffBroken(t, ev, i);
    }
    if i :| 0 <= i < n && Breaks(t[i], ev[i]) {
      EventAgreesIff(t[i], ev[i]);
      assert t[i + 1] == Applied(t[i], ev[i]);
      assert !LevelAgrees(t[i + 1]);
    }
    hide LevelAgrees;
    hide Breaks;
    hide Mends;
    hide Applied;
  }


  /** While the mask is never written, the level is high exactly when the status is non-zero. */
  lemma {:induction false} IrqIsStatusWhileUnmasked(t: seq<Regs>, ev: seq<Event>, n: nat)
    requires Run(t, ev) && n < |t|
    requires forall i | 0 <= i < n :: !WritesTo(ev[i], 4)
    ensures t[n].intrEnable == ALL_ONES
    ensures t[n].irq <==> t[n].intrStatus != {}
  {
    if n > 0 {
      IrqIsStatusWhileUnmasked(t, ev, n - 1);
      if ev[n - 1].WriteReg? { AlignedIsIndex(ev[n - 1].addr); }
      assert t[n - 1 + 1] == Applied(t[n - 1], ev[n - 1]);
      if t[n].intrStatus != {} {
        var k :| k in t[n].intrStatus;
        assert k in t[n].intrStatus * ALL_ONES;
      }
    }
  }

  /** Unmasking a pending bit does not raise the level, masking it does not drop the level. */
  lemma MaskWritesBreak()
    ensures var r := After(RESET, [WriteReg(INTR_ENABLE, {}), Raise({ROLE_CHANGED}), WriteReg(INTR_ENABLE, ALL_ONES)]);
            !r.irq && ROLE_CHANGED in r.intrStatus * r.intrEnable
    ensures var r := After(RESET, [Raise({ROLE_CHANGED}), WriteReg(INTR_ENABLE, {})]);
            r.irq && r.intrStatus * r.intrEnable == {}
  {
    var a: seq<Event> := [];
    var b := a + [WriteReg(INTR_ENABLE, {})];
    var c := b + [Raise({ROLE_CHANGED})];
    var all := WriteReg(INTR_ENABLE, ALL_ONES);
    AfterSnoc(RESET, a, WriteReg(INTR_ENABLE, {}));
    AfterSnoc(RESET, b, Raise({ROLE_CHANGED}));
    AfterSnoc(RESET, c, all);
    assert c + [all] == [WriteReg(INTR_ENABLE, {}), Raise({ROLE_CHANGED}), all];
    var d := a + [Raise({ROLE_CHANGED})];
    AfterSnoc(RESET, a, Raise({ROLE_CHANGED}));
    AfterSnoc(RESET, d, WriteReg(INTR_ENABLE, {}));
    assert d + [WriteReg(INTR_ENABLE, {})] == [Raise({ROLE_CHANGED}), WriteReg(INTR_ENABLE, {})];
  }

  /** With the mask set once at start-up, acknowledging every enabled bit leaves the level high if
      a masked one is still set. */
  lemma AcknowledgeBreaks()
    ensures var mask: Word, role: Word := {XFER_DONE}, {ROLE_CHANGED};
            var r := After(RESET, [WriteReg(INTR_ENABLE, mask), Raise(role), Raise(mask), WriteReg(INTR_STATUS, mask)]);
            r.irq && r.intrStatus * r.intrEnable == {}
  {
    var mask: Word, role: Word := {XFER_DONE}, {ROLE_CHANGED};
    var a: seq<Event> := [];
    var b := a + [WriteReg(INTR_ENABLE, mask)];
    var c := b + [Raise(role)];
    var d := c + [Raise(mask)];
    AfterSnoc(RESET, a, WriteReg(INTR_ENABLE, mask));
    AfterSnoc(RESET, b, Raise(role));
    AfterSnoc(RESET, c, Raise(mask));
    assert XFER_DONE in After(RESET, d).intrStatus * mask;
    AfterSnoc(RESET, d, WriteReg(INTR_STATUS, mask));
    assert After(RESET, d).intrStatus - mask == role;
    assert d + [WriteReg(INTR_STATUS, mask)]
        == [WriteReg(INTR_ENABLE, mask), Raise(role), Raise(mask), WriteReg(INTR_STATUS, mask)];
  }

  // ----- what software reads and asks for -----

  /** The last value written to a register by software, from its reset value. */
  function LastWritten(ev: seq<Event>, n: nat, index: nat, reset: Word): Word
    requires n <= |ev|
  {
    if n == 0 then reset
    else if WritesTo(ev[n - 1], index) then ev[n - 1].val
    else LastWritten(ev, n - 1, index, reset)
  }

  lemma {:induction false} StorageIsWritten(t: seq<Regs>, ev: seq<Event>, n: nat)
    requires Run(t, ev) && n < |t|
    ensures t[n].intrEnable == LastWritten(ev, n, 4, ALL_ONES)
    ensures t[n].file[6] == LastWritten(ev, n, 6, {})
    ensures t[n].file[0] == {} && t[n].file[2] == {}
  {
    if n > 0 {
      StorageIsWritten(t, ev, n - 1);
      var e := ev[n - 1];
      assert t[n - 1 + 1] == Applied(t[n - 1], e);
      if e.WriteReg? { AlignedIsIndex(e.addr); }
    }
  }

  /** The word a read returns after any history, bit by bit: at 0x04 the role, the speed, bit 16 and
      the configured flag and no other bit; at 0x0C what was raised since it was last cleared; at
      0x10 the mask last written, all ones before that; at 0x14 the address shown; at 0x1C the
      speed; at 0x18 what was last written there; and zero everywhere else. */
  lemma ReadsReturn(t: seq<Regs>, ev: seq<Event>, n: nat, addr: nat, role: Role, configured: bool, devAddr: Word)
    requires Run(t, ev) && n < |t|
    ensures var w := ReadWord(t[n], addr, role, configured, devAddr);
            match Index(addr)
            case 1 =>
              forall k :: k in w <==> (k == 4 && role == Host) || (k == 5 && role == Device)
                                      || k == 8 || k == 9 || k == 16 || (k == 17 && configured)
            case 3 => forall k :: k in w <==> RaisedSinceCleared(ev, n, k)
            case 4 => w == LastWritten(ev, n, 4, ALL_ONES)
            case 5 => w == devAddr
            case 6 => w == LastWritten(ev, n, 6, {})
            case 7 => w == {0, 1}
            case _ => w == {}
  {
    AlignedIsIndex(addr);
    StorageIsWritten(t, ev, n);
    forall k ensures k in t[n].intrStatus <==> RaisedSinceCleared(ev, n, k) { StatusIsHistory(t, ev, n, k); }
    hide Run;
    hide RaisedSinceCleared;
    hide LastWritten;
    hide Aligned;
    hide Index;
  }

  /** A write asks for a role exactly if it writes 1 or 2 to the register at 0x08: the host role or
      the device role. */
  lemma RoleAskedIff(addr: nat, val: Word)
    ensures RoleWritten(addr, val) == Some(Host) <==> Index(addr) == 2 && val == {0}
    ensures RoleWritten(addr, val) == Some(Device) <==> Index(addr) == 2 && val == {1}
    ensures RoleWritten(addr, val) != Some(RoleNone)
  {
    AlignedIsIndex(addr);
    assert 0 !in {1};
  }

  /** The value ROLE_CTRL takes for a role. */
  function RoleCode(r: Role): Word { match r case RoleNone => {} case Host => {0} case Device => {1} }
}
