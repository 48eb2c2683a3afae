/**
 * The syscall path of the x86-64 kernel: capture the syscall frame from the
 * trapped registers, dispatch it through the number table to one handler,
 * and write the handler's outcome back into `rax`.
 *
 * Handler bodies are not modelled: a `Handlers` value gives, for every arm
 * number, the function the arm calls, so every property below holds for
 * whatever the handlers do.
 */
module Syscall {
  import opened Prelude
  import opened SyscallTable

  /**
   * The registers of a trapped user thread.  The seven that the syscall ABI
   * names are fields; `others` stands for the rest (rip, rsp, rflags, ...).
   */
  datatype Regs = Regs(
    rax: u64, rdi: u64, rsi: u64, rdx: u64, r10: u64, r8: u64, r9: u64,
    others: seq<u64>)

  /** The CPU context (`UserContext`) that the trap handler saved and will restore. */
  class UserContext {
    var regs: Regs

    constructor (r: Regs)
      ensures regs == r
    {
      regs := r;
    }

    /** `set_rax`: overwrites `rax` and nothing else. */
    method SetRax(v: u64)
      modifies this
      ensures regs == old(regs).(rax := v)
    {
      regs := regs.(rax := v);
    }
  }

  /** The six argument words of a syscall (`[u64; 6]`). */
  type Args = s: seq<u64> | |s| == 6 witness [0, 0, 0, 0, 0, 0]

  /** `SyscallArgument`: the syscall number and the six argument words. */
  datatype SyscallArgument = SyscallArgument(syscallNumber: u64, args: Args)

  /** The x86-64 syscall ABI: number in `rax`, arguments in rdi, rsi, rdx, r10, r8, r9. */
  function FrameOf(r: Regs): (f: SyscallArgument)
    ensures f.syscallNumber == r.rax
    ensures f.args[0] == r.rdi && f.args[1] == r.rsi && f.args[2] == r.rdx
    ensures f.args[3] == r.r10 && f.args[4] == r.r8 && f.args[5] == r.r9
  {
    SyscallArgument(r.rax, [r.rdi, r.rsi, r.rdx, r.r10, r.r8, r.r9])
  }

  /**
   * `SyscallArgument::new_from_context`: fills a zeroed six-word array slot
   * by slot from the argument registers.
   */
  method NewFromContext(context: UserContext) returns (frame: SyscallArgument)
    ensures frame == FrameOf(context.regs)
  {
    var syscallNumber := context.regs.rax;
    var args := new u64[6](_ => 0);
    args[0] := context.regs.rdi;
    args[1] := context.regs.rsi;
    args[2] := context.regs.rdx;
    args[3] := context.regs.r10;
    args[4] := context.regs.r8;
    args[5] := context.regs.r9;
    frame := SyscallArgument(syscallNumber, args[..]);
  }

  /** The frame depends on the seven ABI registers and on no other register. */
  lemma FrameOnlyReadsAbiRegisters(r1: Regs, r2: Regs)
    ensures FrameOf(r1) == FrameOf(r2) <==>
              r1.rax == r2.rax && r1.rdi == r2.rdi && r1.rsi == r2.rsi &&
              r1.rdx == r2.rdx && r1.r10 == r2.r10 && r1.r8 == r2.r8 && r1.r9 == r2.r9
  {
    if FrameOf(r1) == FrameOf(r2) {
      assert FrameOf(r1).args[5] == FrameOf(r2).args[5];
    }
  }

  /** `SyscallReturn`: a value for `rax`, or nothing to store. */
  datatype SyscallReturn = Return(value: isize) | NoReturn

  /**
   * The handlers of the dispatch arms, indexed by arm number.  `words` serves
   * the arms without context, `withCopy` the arms that get `*context` (they
   * see the registers but cannot change them), `withMut` the arms that get
   * `&mut context` and return the registers they leave behind.
   */
  datatype Handlers = Handlers(
    words: (u64, seq<u64>) -> Result<SyscallReturn>,
    withCopy: (u64, seq<u64>, Regs) -> Result<SyscallReturn>,
    withMut: (u64, seq<u64>, Regs) -> (Result<SyscallReturn>, Regs))

  /** What one dispatch produces: the handler's result and the context after it. */
  datatype Dispatched = Dispatched(result: Result<SyscallReturn>, regs: Regs)

  /**
   * `syscall_dispatch`: the arm for `n` passes the first `arity` argument
   * words (and the context, if the arm takes it) to its handler and returns
   * the handler's result; the `_` arm answers `ENOSYS`.
   */
  function SyscallDispatch(h: Handlers, n: u64, args: Args, regs: Regs): (d: Dispatched)
    ensures Arm(n).None? ==> d == Dispatched(Err(ENOSYS), regs)
    ensures Arm(n).Some? && Arm(n).value.context != ContextMut ==> d.regs == regs
  {
    match Arm(n)
    case None => Dispatched(Err(ENOSYS), regs)
    case Some(sig) =>
      var words := args[..sig.arity];
      match sig.context
      case NoContext => Dispatched(h.words(n, words), regs)
      case ContextCopy => Dispatched(h.withCopy(n, words, regs), regs)
      case ContextMut =>
        var (result, regs') := h.withMut(n, words, regs);
        Dispatched(result, regs')
  }

  /**
   * A number with no constant gets `ENOSYS`, leaves the context alone and
   * calls no handler: the outcome is the same for every handler family.
   */
  lemma DispatchUnlisted(h1: Handlers, h2: Handlers, n: u64, args: Args, regs: Regs)
    requires !IsSyscallNumber(n)
    ensures SyscallDispatch(h1, n, args, regs) == SyscallDispatch(h2, n, args, regs)
    ensures SyscallDispatch(h1, n, args, regs) == Dispatched(Err(ENOSYS), regs)
  {
    ArmNone(n);
  }

  /**
   * The handler of a listed arm receives exactly `args[0..arity]`, in order,
   * and its result is returned unmodified.
   */
  lemma DispatchForwards(h: Handlers, n: u64, args: Args, regs: Regs)
    requires IsSyscallNumber(n)
    ensures Arm(n).Some?
    ensures var sig := Arm(n).value;
            var d := SyscallDispatch(h, n, args, regs);
            var words := args[..sig.arity];
            |words| == sig.arity &&
            (forall i :: 0 <= i < sig.arity ==> words[i] == args[i]) &&
            (sig.context == NoContext ==> d == Dispatched(h.words(n, words), regs)) &&
            (sig.context == ContextCopy ==> d == Dispatched(h.withCopy(n, words, regs), regs)) &&
            (sig.context == ContextMut ==> (d.result, d.regs) == h.withMut(n, words, regs))
  {
    ArmNone(n);
  }

  /**
   * End to end, for every listed number: the registers after
   * `handle_syscall` are those the arm's handler leaves, given the first
   * `arity` of rdi, rsi, rdx, r10, r8, r9, with `rax` set from its result.
   */
  lemma HandleSyscallForwards(h: Handlers, regs: Regs)
    requires Arm(regs.rax).Some?
    ensures var n := regs.rax;
            var sig := Arm(n).value;
            var words := [regs.rdi, regs.rsi, regs.rdx, regs.r10, regs.r8, regs.r9][..sig.arity];
            var a := AfterSyscall(h, regs);
            (sig.context == NoContext ==> a == regs.(rax := RaxAfter(h.words(n, words), regs.rax))) &&
            (sig.context == ContextCopy ==> a == regs.(rax := RaxAfter(h.withCopy(n, words, regs), regs.rax))) &&
            (sig.context == ContextMut ==>
               var (result, regs') := h.withMut(n, words, regs);
               a == regs'.(rax := RaxAfter(result, regs'.rax)))
  {
  }

  /** Argument words past an arm's arity are never looked at. */
  lemma DispatchIgnoresExtraWords(h: Handlers, n: u64, a1: Args, a2: Args, regs: Regs)
    requires Arm(n).Some?
    requires forall i :: 0 <= i < Arm(n).value.arity ==> a1[i] == a2[i]
    ensures SyscallDispatch(h, n, a1, regs) == SyscallDispatch(h, n, a2, regs)
  {
    var k := Arm(n).value.arity;
    assert a1[..k] == a2[..k];
  }

  /**
   * Exactly one handler is consulted: two handler families that agree on the
   * arm for `n` give the same outcome, whatever they do for other numbers.
   */
  lemma DispatchConsultsOneHandler(h1: Handlers, h2: Handlers, n: u64, args: Args, regs: Regs)
    requires forall ws :: h1.words(n, ws) == h2.words(n, ws)
    requires forall ws, r :: h1.withCopy(n, ws, r) == h2.withCopy(n, ws, r)
    requires forall ws, r :: h1.withMut(n, ws, r) == h2.withMut(n, ws, r)
    ensures SyscallDispatch(h1, n, args, regs) == SyscallDispatch(h2, n, args, regs)
  {
  }

  /**
   * The word `handle_syscall` leaves in `rax`: `Return(v)` stores `v as
   * usize`, `NoReturn` keeps the current word and an error stores
   * `-(errno as i32) as usize`.
   */
  function RaxAfter(result: Result<SyscallReturn>, rax: u64): (w: u64)
    ensures result.Ok? && result.value.Return? ==> SignedOf(w) == result.value.value
    ensures result == Ok(NoReturn) ==> w == rax
    ensures result.Err? ==> w + result.error == WORD_MODULUS
  {
    match result
    case Ok(Return(v)) => WordOf(v)
    case Ok(NoReturn) => rax
    case Err(e) => WordOf(-(e as int))
  }

  /** The registers after `handle_syscall`: the dispatch's context with `rax` rewritten. */
  function AfterSyscall(h: Handlers, regs: Regs): Regs
  {
    var frame := FrameOf(regs);
    var d := SyscallDispatch(h, frame.syscallNumber, frame.args, regs);
    d.regs.(rax := RaxAfter(d.result, d.regs.rax))
  }

  /** `handle_syscall`: capture the frame, dispatch, and write the outcome to `rax`. */
  method HandleSyscall(h: Handlers, context: UserContext)
    modifies context
    ensures context.regs == AfterSyscall(h, old(context.regs))
  {
    var frame := NewFromContext(context);
    var d := SyscallDispatch(h, frame.syscallNumber, frame.args, context.regs);
    context.regs := d.regs;
    match d.result
    case Ok(Return(v)) =>
      context.SetRax(WordOf(v));
    case Ok(NoReturn) =>
    case Err(e) =>
      context.SetRax(WordOf(-(e as int)));
  }

  /**
   * Only `rax` is written on the way out: every other register is as the
   * arm left it, and an arm without `&mut context` leaves them as they were.
   */
  lemma AfterSyscallWritesOnlyRax(h: Handlers, regs: Regs)
    ensures var a := AfterSyscall(h, regs);
            var d := SyscallDispatch(h, regs.rax, FrameOf(regs).args, regs);
            a.(rax := 0) == d.regs.(rax := 0) &&
            (Arm(regs.rax).None? || Arm(regs.rax).value.context != ContextMut ==>
               a.(rax := 0) == regs.(rax := 0))
  {
  }

  /**
   * How user space reads `rax` back (the Linux convention): a word in the
   * top 4095 values is the negated errno, any other word is a success value.
   */
  function UserView(w: u64): (r: Result<isize>)
    ensures r.Err? <==> WORD_MODULUS - MAX_ERRNO <= w
    ensures r.Ok? ==> WordOf(r.value) == w
    ensures r.Err? ==> r.error + w == WORD_MODULUS
  {
    if WORD_MODULUS - MAX_ERRNO <= w then Err(WORD_MODULUS - w) else Ok(SignedOf(w))
  }

  /** An error with a code up to 4095 is read back as that same error. */
  lemma ErrorRoundTrip(e: Errno, rax: u64)
    requires e <= MAX_ERRNO
    ensures UserView(RaxAfter(Err(e), rax)) == Err(e)
  {
  }

  /** A returned value outside -4095..-1 is read back unchanged. */
  lemma ReturnRoundTrip(v: isize, rax: u64)
    requires !(-MAX_ERRNO <= v < 0)
    ensures UserView(RaxAfter(Ok(Return(v)), rax)) == Ok(v)
  {
    SignedOfWordOf(v);
  }

  /**
   * The convention cannot tell `Return(-e)` from `Err(e)`: both leave the
   * same word in `rax`, for every code up to 4095.
   */
  lemma NegativeReturnAliasesError(e: Errno, rax: u64)
    requires e <= MAX_ERRNO
    ensures RaxAfter(Ok(Return(-(e as int))), rax) == RaxAfter(Err(e), rax)
    ensures UserView(RaxAfter(Ok(Return(-(e as int))), rax)) == Err(e)
  {
  }

  /** `getpid` (39) takes no words and its value lands in `rax`. */
  lemma GetpidScenario(h: Handlers, regs: Regs, pid: isize)
    requires regs.rax == SYS_GETPID
    requires h.words(SYS_GETPID, []) == Ok(Return(pid))
    requires 0 <= pid
    ensures AfterSyscall(h, regs) == regs.(rax := pid)
  {
    KnownArms();
    assert FrameOf(regs).args[..0] == [];
  }

  /** An unassigned number (9999) leaves `-ENOSYS` in `rax` and nothing else changed. */
  lemma UnlistedScenario(h: Handlers, regs: Regs)
    requires regs.rax == 9999
    ensures AfterSyscall(h, regs) == regs.(rax := WORD_MODULUS - 38)
    ensures UserView(AfterSyscall(h, regs).rax) == Err(ENOSYS)
  {
    UnlistedNumbers(9999);
  }
}
