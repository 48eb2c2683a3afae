/**
 * The `rt_sigprocmask` syscall handler: decode the mode, then, on the
 * calling process, optionally report the current signal mask to user memory
 * and optionally read a signal set from user memory and block, unblock or
 * install it.
 *
 * User memory is the process's root VM region seen word by word: an address
 * that is mapped holds a 64-bit word, an unmapped one faults (`EFAULT`).
 * The two `unwrap()`s of the handler and the one on `root_vmar()` are
 * surfaced as an explicit `Panicked` outcome.
 */
module RtSigprocmask {
  import opened Prelude
  import opened Syscall

  /** The mode argument `how` (`#[repr(u32)]`). */
  datatype MaskOp = Block | Unblock | SetMask

  /** The discriminant of each mode. */
  function Repr(op: MaskOp): u32
  {
    match op
    case Block => 0
    case Unblock => 1
    case SetMask => 2
  }

  /** `MaskOp::try_from`: 0, 1 and 2 name the modes, anything else is `EINVAL`. */
  function MaskOpTryFrom(value: u32): (r: Result<MaskOp>)
    ensures r.Ok? <==> value <= 2
    ensures r.Ok? ==> Repr(r.value) == value
    ensures r.Err? ==> r.error == EINVAL
  {
    match value
    case 0 => Ok(Block)
    case 1 => Ok(Unblock)
    case 2 => Ok(SetMask)
    case _ => Err(EINVAL)
  }

  /** Decoding a mode's discriminant gives the mode back. */
  lemma TryFromRepr(op: MaskOp)
    ensures MaskOpTryFrom(Repr(op)) == Ok(op)
  {
  }

  /**
   * The dispatcher hands `how` over as `args[0] as u32`: the upper 32 bits
   * of the word are dropped before decoding, so for instance 2^32 selects
   * `Block` and 2^32 + 3 is rejected.
   */
  lemma TryFromWord(w: u64)
    ensures MaskOpTryFrom(Narrow32(w)).Ok? <==> w % 0x1_0000_0000 <= 2
    ensures MaskOpTryFrom(Narrow32(0x1_0000_0000)) == Ok(Block)
    ensures MaskOpTryFrom(Narrow32(0x1_0000_0003)).Err?
  {
    assert Narrow32(w) == w % 0x1_0000_0000;
  }

  /**
   * A 64-bit word, represented by the positions (0 to 63) of its one bits.
   * Bitwise or is then union and `a & !b` is difference.
   */
  type Word = s: set<int> | forall i | i in s :: 0 <= i < 64

  /** A signal number, 1 to 64; signal `sig` is bit `sig - 1` of a mask. */
  type Signal = i: int | 1 <= i <= 64 witness 1

  /** A signal mask: the bit of a signal is set when the signal is blocked. */
  datatype SigMask = SigMask(bits: Word)
  {
    /** `as_u64`: the mask as the word user space sees. */
    function AsU64(): Word
    {
      bits
    }

    /** `block`: or in the bits of `newSet`. */
    function Block(newSet: Word): SigMask
    {
      SigMask(bits + newSet)
    }

    /** `unblock`: and with the complement of `newSet`. */
    function Unblock(newSet: Word): SigMask
    {
      SigMask(bits - newSet)
    }

    /** `set`: replace the mask by `newSet`. */
    function Set(newSet: Word): SigMask
    {
      SigMask(newSet)
    }

    /** Whether `sig` is blocked. */
    predicate Contains(sig: Signal)
    {
      sig - 1 in bits
    }
  }

  /** The new mask the `match mask_op` produces from the old one and the set read. */
  function Apply(op: MaskOp, mask: SigMask, newSet: Word): SigMask
  {
    match op
    case Block => mask.Block(newSet)
    case Unblock => mask.Unblock(newSet)
    case SetMask => mask.Set(newSet)
  }

  /** Signal by signal: each mode's effect on whether `sig` is blocked. */
  lemma ApplyBits(op: MaskOp, mask: SigMask, newSet: Word, sig: Signal)
    ensures op == Block ==>
              (Apply(op, mask, newSet).Contains(sig) <==> mask.Contains(sig) || SigMask(newSet).Contains(sig))
    ensures op == Unblock ==>
              (Apply(op, mask, newSet).Contains(sig) <==> mask.Contains(sig) && !SigMask(newSet).Contains(sig))
    ensures op == SetMask ==>
              (Apply(op, mask, newSet).Contains(sig) <==> SigMask(newSet).Contains(sig))
  {
  }

  /**
   * Blocking a set and then unblocking it restores the mask exactly when none
   * of its signals was blocked before.
   */
  lemma BlockThenUnblock(mask: SigMask, newSet: Word)
    ensures mask.Block(newSet).Unblock(newSet) == mask <==> mask.bits * newSet == {}
  {
    if mask.bits * newSet == {} {
      forall i | i in mask.bits
        ensures i !in newSet
      {
        assert i !in mask.bits * newSet;
      }
      assert mask.Block(newSet).Unblock(newSet).bits == mask.bits;
    }
    if mask.Block(newSet).Unblock(newSet) == mask {
      forall i | i in mask.bits
        ensures i !in newSet
      {
        assert i in mask.Block(newSet).Unblock(newSet).bits;
      }
    }
  }

  /** Unblocking a set and then blocking it restores the mask exactly when all of it was blocked. */
  lemma UnblockThenBlock(mask: SigMask, newSet: Word)
    ensures mask.Unblock(newSet).Block(newSet) == mask <==> newSet <= mask.bits
  {
    if newSet <= mask.bits {
      assert mask.Unblock(newSet).Block(newSet).bits == mask.bits;
    }
  }

  /** Blocking is idempotent, and blocks of two sets commute. */
  lemma BlockAlgebra(mask: SigMask, s: Word, t: Word)
    ensures mask.Block(s).Block(s) == mask.Block(s)
    ensures mask.Block(s).Block(t) == mask.Block(t).Block(s)
  {
    assert mask.Block(s).Block(t).bits == mask.Block(t).Block(s).bits;
  }

  /** Unblocking is idempotent, and unblocks of two sets commute. */
  lemma UnblockAlgebra(mask: SigMask, s: Word, t: Word)
    ensures mask.Unblock(s).Unblock(s) == mask.Unblock(s)
    ensures mask.Unblock(s).Unblock(t) == mask.Unblock(t).Unblock(s)
  {
    assert mask.Unblock(s).Unblock(s).bits == mask.Unblock(s).bits;
    assert mask.Unblock(s).Unblock(t).bits == mask.Unblock(t).Unblock(s).bits;
  }

  /** The root VM region of a process: the user memory the handler reads and writes. */
  class Vmar {
    var mem: map<Vaddr, Word>

    constructor (m: map<Vaddr, Word>)
      ensures mem == m
    {
      mem := m;
    }

    /** `read_val::<u64>`: the word at `addr`, or `EFAULT` when it is not mapped. */
    method ReadVal(addr: Vaddr) returns (r: Result<Word>)
      ensures addr in mem ==> r == Ok(mem[addr])
      ensures addr !in mem ==> r == Err(EFAULT)
    {
      if addr in mem {
        r := Ok(mem[addr]);
      } else {
        r := Err(EFAULT);
      }
    }

    /** `write_val`: stores `v` at a mapped `addr`; an unmapped one gives `EFAULT` and changes nothing. */
    method WriteVal(addr: Vaddr, v: Word) returns (r: Result<()>)
      modifies this
      ensures old(addr in mem) ==> r == Ok(()) && mem == old(mem)[addr := v]
      ensures old(addr !in mem) ==> r == Err(EFAULT) && mem == old(mem)
    {
      if addr in mem {
        mem := mem[addr := v];
        r := Ok(());
      } else {
        r := Err(EFAULT);
      }
    }
  }

  /** Why a call brought the kernel down instead of returning. */
  datatype PanicCause =
    | NoRootVmar            // `root_vmar().unwrap()` on a process without one
    | Unwrapped(err: Errno) // `unwrap()` on an `Err`

  /** How a call ends: it returns a value, or it panics. */
  datatype Outcome<+T> = Returned(value: T) | Panicked(cause: PanicCause)

  /** What the handler can observe and change: the mask and, if any, the user memory. */
  datatype TaskState = TaskState(mask: SigMask, vmar: Option<map<Vaddr, Word>>)

  /** A call's outcome together with the state it leaves behind. */
  datatype Step<+T> = Step(outcome: Outcome<T>, state: TaskState)

  /** The process the handler runs on behalf of (`current!()`). */
  class Process {
    var sigMask: SigMask
    var rootVmar: Vmar?

    constructor (mask: SigMask, vmar: Vmar?)
      ensures sigMask == mask && rootVmar == vmar
    {
      sigMask := mask;
      rootVmar := vmar;
    }

    /** The part of the process this handler works on. */
    function State(): TaskState
      reads this, rootVmar
    {
      TaskState(sigMask, if rootVmar == null then None else Some(rootVmar.mem))
    }
  }

  /**
   * `do_rt_sigprocmask` as a function of the state: write the old mask to
   * `oldsetPtr` if it is non-zero, then, if `setPtr` is non-zero, read the set
   * there and apply the mode; the first memory fault ends the call.
   */
  function DoSpec(op: MaskOp, setPtr: Vaddr, oldsetPtr: Vaddr, st: TaskState): (r: Step<Result<()>>)
    ensures r.outcome.Panicked? <==> st.vmar.None?
    ensures r.outcome.Panicked? ==> r.outcome.cause == NoRootVmar && r.state == st
    ensures r.outcome.Returned? && r.outcome.value.Err? ==> r.outcome.value.error == EFAULT
    ensures r.state.vmar.Some? <==> st.vmar.Some?
  {
    match st.vmar
    case None => Step(Panicked(NoRootVmar), st)
    case Some(mem) =>
      if oldsetPtr != 0 && oldsetPtr !in mem then
        Step(Returned(Err(EFAULT)), st)
      else
        var mem1 := if oldsetPtr != 0 then mem[oldsetPtr := st.mask.AsU64()] else mem;
        if setPtr == 0 then
          Step(Returned(Ok(())), TaskState(st.mask, Some(mem1)))
        else if setPtr !in mem1 then
          Step(Returned(Err(EFAULT)), TaskState(st.mask, Some(mem1)))
        else
          Step(Returned(Ok(())), TaskState(Apply(op, st.mask, mem1[setPtr]), Some(mem1)))
  }

  /** `do_rt_sigprocmask`, step by step on the process and its memory. */
  method DoRtSigprocmask(current: Process, op: MaskOp, setPtr: Vaddr, oldsetPtr: Vaddr, sigsetSize: u64)
    returns (o: Outcome<Result<()>>)
    modifies current, current.rootVmar
    ensures current.rootVmar == old(current.rootVmar)
    ensures Step(o, current.State()) == DoSpec(op, setPtr, oldsetPtr, old(current.State()))
  {
    var rootVmar := current.rootVmar;
    if rootVmar == null {
      return Panicked(NoRootVmar);
    }
    var oldSigMaskValue := current.sigMask.AsU64();
    if oldsetPtr != 0 {
      var w := rootVmar.WriteVal(oldsetPtr, oldSigMaskValue);
      if w.Err? {
        return Returned(Err(w.error));
      }
    }
    if setPtr != 0 {
      var r := rootVmar.ReadVal(setPtr);
      if r.Err? {
        return Returned(Err(r.error));
      }
      var newSet := r.value;
      match op {
        case Block => current.sigMask := current.sigMask.Block(newSet);
        case Unblock => current.sigMask := current.sigMask.Unblock(newSet);
        case SetMask => current.sigMask := current.sigMask.Set(newSet);
      }
    }
    return Returned(Ok(()));
  }

  /**
   * `sys_rt_sigprocmask` as a function of the state: decode the mode and run
   * `do_rt_sigprocmask`, panicking where the source unwraps an error;
   * otherwise the call returns 0.  `sigsetSize` is only logged.
   */
  function SysSpec(how: u32, setPtr: Vaddr, oldsetPtr: Vaddr, sigsetSize: u64, st: TaskState)
    : (r: Step<Result<SyscallReturn>>)
    ensures r.outcome.Returned? ==> r.outcome.value == Ok(Return(0))
    ensures r.outcome.Panicked? && r.outcome.cause.Unwrapped? ==>
              r.outcome.cause.err == EINVAL || r.outcome.cause.err == EFAULT
  {
    match MaskOpTryFrom(how)
    case Err(e) => Step(Panicked(Unwrapped(e)), st)
    case Ok(op) =>
      var d := DoSpec(op, setPtr, oldsetPtr, st);
      match d.outcome
      case Panicked(cause) => Step(Panicked(cause), d.state)
      case Returned(Err(e)) => Step(Panicked(Unwrapped(e)), d.state)
      case Returned(Ok(_)) => Step(Returned(Ok(Return(0))), d.state)
  }

  /** `sys_rt_sigprocmask`. */
  method SysRtSigprocmask(current: Process, how: u32, setPtr: Vaddr, oldsetPtr: Vaddr, sigsetSize: u64)
    returns (o: Outcome<Result<SyscallReturn>>)
    modifies current, current.rootVmar
    ensures current.rootVmar == old(current.rootVmar)
    ensures Step(o, current.State()) == SysSpec(how, setPtr, oldsetPtr, sigsetSize, old(current.State()))
  {
    var maskOp := MaskOpTryFrom(how);
    if maskOp.Err? {
      return Panicked(Unwrapped(maskOp.error));
    }
    var d := DoRtSigprocmask(current, maskOp.value, setPtr, oldsetPtr, sigsetSize);
    match d {
      case Panicked(cause) => o := Panicked(cause);
      case Returned(Err(e)) => o := Panicked(Unwrapped(e));
      case Returned(Ok(_)) => o := Returned(Ok(Return(0)));
    }
  }

  /**
   * With `oldsetPtr` non-zero and mapped, the word stored there is the mask
   * from before the call, whatever the mode and `setPtr`; every other
   * address keeps its word and no address is mapped or unmapped.
   */
  lemma OldMaskReported(op: MaskOp, setPtr: Vaddr, oldsetPtr: Vaddr, mask: SigMask, mem: map<Vaddr, Word>)
    requires oldsetPtr != 0 && oldsetPtr in mem
    ensures var s := DoSpec(op, setPtr, oldsetPtr, TaskState(mask, Some(mem))).state;
            s.vmar.Some? && s.vmar.value.Keys == mem.Keys &&
            s.vmar.value[oldsetPtr] == mask.AsU64() &&
            forall a :: a in mem && a != oldsetPtr ==> s.vmar.value[a] == mem[a]
  {
  }

  /** User memory changes only at `oldsetPtr`, and only when it is non-zero. */
  lemma MemoryFrame(op: MaskOp, setPtr: Vaddr, oldsetPtr: Vaddr, mask: SigMask, mem: map<Vaddr, Word>)
    ensures var s := DoSpec(op, setPtr, oldsetPtr, TaskState(mask, Some(mem))).state;
            s.vmar.Some? && s.vmar.value.Keys == mem.Keys &&
            (oldsetPtr == 0 ==> s.vmar.value == mem) &&
            forall a :: a in mem && a != oldsetPtr ==> s.vmar.value[a] == mem[a]
  {
  }

  /** With `setPtr` zero the mask is unchanged, whatever the mode. */
  lemma NoSetKeepsMask(op: MaskOp, oldsetPtr: Vaddr, st: TaskState)
    ensures DoSpec(op, 0, oldsetPtr, st).state.mask == st.mask
  {
  }

  /**
   * With `setPtr` non-zero and both accesses succeeding, the new mask is the
   * old one updated by the mode with the set read from `setPtr`.  The set is
   * the word at `setPtr` after the old mask was written, so when both
   * pointers are equal it is the old mask itself.
   */
  lemma MaskUpdated(op: MaskOp, setPtr: Vaddr, oldsetPtr: Vaddr, mask: SigMask, mem: map<Vaddr, Word>)
    requires setPtr != 0 && setPtr in mem
    requires oldsetPtr != 0 ==> oldsetPtr in mem
    ensures var d := DoSpec(op, setPtr, oldsetPtr, TaskState(mask, Some(mem)));
            var newSet := if setPtr == oldsetPtr then mask.AsU64() else mem[setPtr];
            d.outcome == Returned(Ok(())) && d.state.mask == Apply(op, mask, newSet)
  {
  }

  /** A fault on `oldsetPtr` ends the call before anything changes. */
  lemma WriteFaultChangesNothing(op: MaskOp, setPtr: Vaddr, oldsetPtr: Vaddr, mask: SigMask, mem: map<Vaddr, Word>)
    requires oldsetPtr != 0 && oldsetPtr !in mem
    ensures DoSpec(op, setPtr, oldsetPtr, TaskState(mask, Some(mem))) ==
              Step(Returned(Err(EFAULT)), TaskState(mask, Some(mem)))
  {
  }

  /** A fault on `setPtr` keeps the mask, but the old mask already written stays written. */
  lemma ReadFaultKeepsMask(op: MaskOp, setPtr: Vaddr, oldsetPtr: Vaddr, mask: SigMask, mem: map<Vaddr, Word>)
    requires setPtr != 0 && setPtr !in mem
    requires oldsetPtr != 0 ==> oldsetPtr in mem
    ensures var d := DoSpec(op, setPtr, oldsetPtr, TaskState(mask, Some(mem)));
            d.outcome == Returned(Err(EFAULT)) && d.state.mask == mask &&
            d.state.vmar == Some(if oldsetPtr != 0 then mem[oldsetPtr := mask.AsU64()] else mem)
  {
  }

  /** A process without a root VM region panics and nothing changes. */
  lemma NoVmarPanics(op: MaskOp, setPtr: Vaddr, oldsetPtr: Vaddr, mask: SigMask)
    ensures DoSpec(op, setPtr, oldsetPtr, TaskState(mask, None)) ==
              Step(Panicked(NoRootVmar), TaskState(mask, None))
  {
  }

  /**
   * The syscall's outcome: an invalid mode panics before touching anything;
   * otherwise a call that does not panic returns 0 and leaves the state
   * `do_rt_sigprocmask` leaves, and a call whose inner step fails panics.
   * `sigsetSize` never matters.
   */
  lemma SysOutcome(how: u32, setPtr: Vaddr, oldsetPtr: Vaddr, size1: u64, size2: u64, st: TaskState)
    ensures SysSpec(how, setPtr, oldsetPtr, size1, st) == SysSpec(how, setPtr, oldsetPtr, size2, st)
    ensures how > 2 ==> SysSpec(how, setPtr, oldsetPtr, size1, st) == Step(Panicked(Unwrapped(EINVAL)), st)
    ensures how <= 2 ==>
              var s := SysSpec(how, setPtr, oldsetPtr, size1, st);
              var d := DoSpec(MaskOpTryFrom(how).value, setPtr, oldsetPtr, st);
              s.state == d.state &&
              (s.outcome.Returned? <==> d.outcome == Returned(Ok(()))) &&
              (s.outcome.Returned? ==> s.outcome.value == Ok(Return(0)))
  {
  }

  /**
   * Installing a set and then querying the mask (no new set, an old-set
   * pointer) reports exactly the installed set.
   */
  lemma SetThenQuery(setPtr: Vaddr, queryPtr: Vaddr, st: TaskState)
    requires st.vmar.Some? && setPtr != 0 && setPtr in st.vmar.value
    requires queryPtr != 0 && queryPtr in st.vmar.value
    ensures var s1 := SysSpec(Repr(SetMask), setPtr, 0, 8, st);
            var s2 := SysSpec(Repr(SetMask), 0, queryPtr, 8, s1.state);
            s1.outcome == Returned(Ok(Return(0))) &&
            s2.outcome == Returned(Ok(Return(0))) &&
            s2.state.vmar.Some? && s2.state.vmar.value[queryPtr] == st.vmar.value[setPtr]
  {
  }

  /**
   * A sample call: mask 0b011, block the set 0b101 stored at 0x1000, and
   * report the old mask at 0x2000, which held 0.  The mask becomes 0b111 and
   * 0x2000 holds 0b011.
   */
  lemma BlockScenario()
    ensures var mem := map[0x1000 := {0, 2}, 0x2000 := {}];
            var s := SysSpec(0, 0x1000, 0x2000, 8, TaskState(SigMask({0, 1}), Some(mem)));
            s == Step(Returned(Ok(Return(0))),
                      TaskState(SigMask({0, 1, 2}), Some(map[0x1000 := {0, 2}, 0x2000 := {0, 1}])))
  {
    var mem: map<Vaddr, Word> := map[0x1000 := {0, 2}, 0x2000 := {}];
    var mem1 := mem[0x2000 := {0, 1}];
    assert mem1 == map[0x1000 := {0, 2}, 0x2000 := {0, 1}];
    assert SigMask({0, 1}).Block(mem1[0x1000]) == SigMask({0, 1, 2});
  }
}
