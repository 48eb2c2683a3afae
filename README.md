# Asterinas x86-64 syscall boundary, modelled in Dafny

This project models two pieces of the kernel's system-call boundary and proves
their behaviour:

- **Syscall dispatch** (`kernel/aster-nix/src/syscall/mod.rs`).
  - `handle_syscall` captures the syscall frame from the trapped registers: the number from `rax` and six words from rdi, rsi, rdx, r10, r8 and r9.
  - `syscall_dispatch` routes the frame through the fixed number table to one handler, passing the first `k` words of the arm's declared arity. Unlisted numbers answer `ENOSYS`.
  - The outcome is written back into `rax`: a returned value as its two's-complement word, `NoReturn` as nothing, an error as the word of `-errno`.
- **The `rt_sigprocmask` handler** (`src/services/libs/jinux-std/src/syscall/rt_sigprocmask.rs`).
  - The mode `how` is decoded by `MaskOp::try_from`.
  - The old mask is written to `oldset_ptr`, when that is non-zero.
  - The set at `set_ptr` is read, when that is non-zero.
  - The mask is then blocked (or), unblocked (and-not) or replaced with that set.

Modules:

- `Prelude` (`prelude.dfy`): machine words, errno values and the kernel `Result`.
- `SyscallTable` (`syscall_table.dfy`) holds the table:
  - one `u64` constant per `define_syscall_nums!` entry, in source order;
  - `IsSyscallNumber`;
  - `Arm`, which gives each arm's declared arity and how it receives the CPU context.
- `Syscall` (`syscall.dfy`):
  - the register record and the `UserContext` class;
  - frame capture;
  - the dispatch function;
  - `handle_syscall` as a method on the context.
- `RtSigprocmask` (`rt_sigprocmask.dfy`):
  - the mode decoder and the mask operations;
  - a `Process` class holding the mask and the root VM region;
  - a `Vmar` class holding user memory;
  - the two handler functions as methods, each proved equal to a specification function of the state.

Modelling choices:

- A syscall is identified by its number, exactly as in the source, where the constants are plain `u64`s.
- Handler bodies are abstract. A `Handlers` value supplies, for each arm number, the function that arm calls. The dispatch properties therefore hold for every choice of handlers.
- Arms that take `*context` get a copy of the registers. Arms that take `context` (`&mut UserContext`) return the registers they leave behind.
- A 64-bit mask or memory word is represented exactly by the set of positions (0 to 63) of its one bits. Under this encoding, `|` is union and `& !` is set difference.
- The source `unwrap`s the decoded mode and the inner result, and also `root_vmar()`. These panics are surfaced as an explicit `Panicked` outcome carrying the cause, not as preconditions.

Blocking a set and then unblocking it restores the mask only when none of
the set's signals was already blocked (`BlockThenUnblock`): a signal that was
blocked beforehand ends up unblocked.

## Model

| member | source | states |
|---|---|---|
| Prelude.WordOf | kernel/aster-nix/src/syscall/mod.rs:403-411 | `v as usize` of a signed value: non-negative values are kept, negative ones are offset by 2^64, and the top bit is set exactly for negative values |
| Prelude.SignedOf | kernel/aster-nix/src/syscall/mod.rs:373-376 | the `isize` reading of a word is non-negative exactly when the word's top bit is clear, and its two's-complement word is the word itself |
| Prelude.SignedOfWordOf | kernel/aster-nix/src/syscall/mod.rs:403-405 | storing a signed value as a word and reading it back as `isize` gives the value |
| Prelude.WordOfSignedOf | kernel/aster-nix/src/syscall/mod.rs:403-405 | every word is the two's-complement image of its signed reading |
| Prelude.Narrow32 | kernel/aster-nix/src/syscall/mod.rs:219-230 | the `as _` cast of an argument word to a `u32` parameter keeps words below 2^32 and is congruent to the word modulo 2^32 |
| SyscallTable.Arm | kernel/aster-nix/src/syscall/mod.rs:421-555 | every arm's declared arity is at most 6 |
| SyscallTable.IsSyscallNumber | kernel/aster-nix/src/syscall/mod.rs:234-364 | the numbers `define_syscall_nums!` defines a constant for; none is above execveat's 322 (which numbers have an arm: `ArmNone`) |
| SyscallTable.NumbersAscending | kernel/aster-nix/src/syscall/mod.rs:234-364 | the 129 syscall-number constants strictly increase in declaration order, so they are pairwise distinct and the number-to-arm lookup is injective |
| SyscallTable.ArmNone | kernel/aster-nix/src/syscall/mod.rs:421-555 | `syscall_dispatch` has an arm for a number exactly when the number is one of the table's constants |
| SyscallTable.ContextArms | kernel/aster-nix/src/syscall/mod.rs:437-550 | rt_sigreturn, clone, fork, execve, arch_prctl and execveat are exactly the arms that receive the CPU context; clone and fork are exactly those that receive a copy (`*context`) |
| SyscallTable.KnownArms | kernel/aster-nix/src/syscall/mod.rs:234-364 | read is 0, getpid 39, openat 257 and execveat 322; getpid takes no words and no context; rt_sigprocmask takes four words and no context |
| SyscallTable.UnlistedNumbers | kernel/aster-nix/src/syscall/mod.rs:551-554 | the unassigned numbers 18, 323 and 9999 have no arm |
| Syscall.UserContext.constructor | kernel/aster-nix/src/syscall/mod.rs:397 | a context holds the trapped registers it is built from |
| Syscall.UserContext.SetRax | kernel/aster-nix/src/syscall/mod.rs:405-411 | `set_rax` rewrites `rax` and leaves every other register as it was |
| Syscall.FrameOf | kernel/aster-nix/src/syscall/mod.rs:381-394 | the frame's syscall number is `rax`, and `args[0..5]` are rdi, rsi, rdx, r10, r8 and r9 in that order |
| Syscall.NewFromContext | kernel/aster-nix/src/syscall/mod.rs:381-394 | filling a zeroed six-word array slot by slot yields exactly the ABI frame of the context's registers |
| Syscall.FrameOnlyReadsAbiRegisters | kernel/aster-nix/src/syscall/mod.rs:381-394 | two register sets give the same frame if and only if they agree on the seven ABI registers |
| Syscall.SyscallDispatch | kernel/aster-nix/src/syscall/mod.rs:416-556 | a number with no arm gives `Err(ENOSYS)` with the context untouched; an arm without `&mut` context never changes the registers |
| Syscall.DispatchUnlisted | kernel/aster-nix/src/syscall/mod.rs:551-554 | a number outside the table gives `Err(ENOSYS)` and leaves the context alone whatever the handlers are, so no handler is invoked |
| Syscall.DispatchForwards | kernel/aster-nix/src/syscall/mod.rs:218-231 | for a listed number, the arm's handler receives exactly `args[0..k]` in order for its declared arity `k`, plus the context when the arm takes it, and its result is returned unmodified |
| Syscall.HandleSyscallForwards | kernel/aster-nix/src/syscall/mod.rs:397-414 | end to end, for every listed number: the registers after `handle_syscall` are those the arm's handler leaves, given the first `arity` of rdi, rsi, rdx, r10, r8, r9 (and the context where the arm takes it), with `rax` set from its result |
| Syscall.DispatchIgnoresExtraWords | kernel/aster-nix/src/syscall/mod.rs:218-231 | argument words at positions at or past the arm's arity never influence the outcome |
| Syscall.DispatchConsultsOneHandler | kernel/aster-nix/src/syscall/mod.rs:421-555 | the outcome depends only on the handler for the dispatched number: handler families that agree there give the same result |
| Syscall.RaxAfter | kernel/aster-nix/src/syscall/mod.rs:402-412 | `Return(v)` leaves a word whose signed reading is `v`; `NoReturn` keeps `rax`; an error `e` leaves `2^64 - e`, the word of `-errno` |
| Syscall.AfterSyscall | kernel/aster-nix/src/syscall/mod.rs:397-414 | `handle_syscall`'s effect on the registers; its properties are `AfterSyscallWritesOnlyRax`, `HandleSyscallForwards` and the scenarios, and `HandleSyscall` is proved to produce it |
| Syscall.HandleSyscall | kernel/aster-nix/src/syscall/mod.rs:397-414 | the context after `handle_syscall` is the dispatch's context with `rax` set from the outcome |
| Syscall.AfterSyscallWritesOnlyRax | kernel/aster-nix/src/syscall/mod.rs:402-412 | translating the outcome writes no register but `rax`; for arms without `&mut` context every other register is as it was before the call |
| Syscall.UserView | kernel/aster-nix/src/syscall/mod.rs:408-411 | the user-space reading of `rax` is an error exactly for the top 4095 words, and each reading maps back to the word |
| Syscall.ErrorRoundTrip | kernel/aster-nix/src/syscall/mod.rs:408-411 | an error with a code up to 4095 is read back by user space as that error |
| Syscall.ReturnRoundTrip | kernel/aster-nix/src/syscall/mod.rs:402-405 | a returned value outside -4095..-1 is read back unchanged |
| Syscall.NegativeReturnAliasesError | kernel/aster-nix/src/syscall/mod.rs:402-411 | `Return(-e)` and `Err(e)` leave the same word in `rax` |
| Syscall.GetpidScenario | kernel/aster-nix/src/syscall/mod.rs:450 | getpid's value lands in `rax` and nothing else changes |
| Syscall.UnlistedScenario | kernel/aster-nix/src/syscall/mod.rs:551-554 | number 9999 leaves the word of `-ENOSYS` in `rax`, and user space reads it as `ENOSYS` |
| RtSigprocmask.MaskOpTryFrom | src/services/libs/jinux-std/src/syscall/rt_sigprocmask.rs:64-76 | decoding succeeds exactly for 0, 1 and 2, giving the mode with that discriminant; every other value is `EINVAL` |
| RtSigprocmask.TryFromRepr | src/services/libs/jinux-std/src/syscall/rt_sigprocmask.rs:56-76 | decoding a mode's `repr(u32)` discriminant gives that mode back |
| RtSigprocmask.TryFromWord | kernel/aster-nix/src/syscall/mod.rs:436 | the dispatcher's `as u32` cast drops the upper half of `args[0]`: a word decodes exactly when its low 32 bits are at most 2, so 2^32 selects Block |
| RtSigprocmask.ApplyBits | src/services/libs/jinux-std/src/syscall/rt_sigprocmask.rs:45-49 | signal by signal: Block blocks what either the mask or the set blocks, Unblock what the mask blocks and the set does not, SetMask what the set blocks |
| RtSigprocmask.Apply | src/services/libs/jinux-std/src/syscall/rt_sigprocmask.rs:45-49 | the `match mask_op`: block, unblock or replace the mask with the set read; its properties are `ApplyBits`, `BlockThenUnblock`, `UnblockThenBlock` and the two algebra lemmas |
| RtSigprocmask.BlockThenUnblock | src/services/libs/jinux-std/src/syscall/rt_sigprocmask.rs:46-47 | blocking a set and then unblocking it restores the mask if and only if the mask and the set share no signal |
| RtSigprocmask.UnblockThenBlock | src/services/libs/jinux-std/src/syscall/rt_sigprocmask.rs:46-47 | unblocking a set and then blocking it restores the mask if and only if the set is contained in the mask |
| RtSigprocmask.BlockAlgebra | src/services/libs/jinux-std/src/syscall/rt_sigprocmask.rs:46 | blocking is idempotent, and blocking two sets commutes |
| RtSigprocmask.UnblockAlgebra | src/services/libs/jinux-std/src/syscall/rt_sigprocmask.rs:47 | unblocking is idempotent, and unblocking two sets commutes |
| RtSigprocmask.Vmar.constructor | src/services/libs/jinux-std/src/syscall/rt_sigprocmask.rs:35 | a root VM region holds the mapped words it is built from |
| RtSigprocmask.Vmar.ReadVal | src/services/libs/jinux-std/src/syscall/rt_sigprocmask.rs:43 | `read_val` returns the word at a mapped address and `EFAULT` at an unmapped one |
| RtSigprocmask.Vmar.WriteVal | src/services/libs/jinux-std/src/syscall/rt_sigprocmask.rs:40 | `write_val` stores the word at a mapped address; at an unmapped one it fails with `EFAULT` and changes nothing |
| RtSigprocmask.Process.constructor | src/services/libs/jinux-std/src/syscall/rt_sigprocmask.rs:34-36 | a process holds the given mask and root VM region |
| RtSigprocmask.DoSpec | src/services/libs/jinux-std/src/syscall/rt_sigprocmask.rs:28-54 | `do_rt_sigprocmask` as a function of the state: it panics exactly when there is no root VM region, and then changes nothing; every error it returns is `EFAULT`; the process keeps or lacks a root VM region as before (the write, read and update orders are stated by `OldMaskReported`, `MemoryFrame`, `MaskUpdated` and the fault lemmas) |
| RtSigprocmask.SysSpec | src/services/libs/jinux-std/src/syscall/rt_sigprocmask.rs:9-26 | `sys_rt_sigprocmask` as a function of the state: a call that returns returns `Return(0)`, and an unwrapped error is `EINVAL` (from the mode) or `EFAULT` (from memory); `SysOutcome` ties it to `DoSpec` |
| RtSigprocmask.DoRtSigprocmask | src/services/libs/jinux-std/src/syscall/rt_sigprocmask.rs:28-54 | the step-by-step handler leaves the process's mask and memory, and returns the outcome, that `DoSpec` gives for the old state, and keeps the same root VM region |
| RtSigprocmask.SysRtSigprocmask | src/services/libs/jinux-std/src/syscall/rt_sigprocmask.rs:9-26 | the syscall entry leaves the state and returns the outcome that `SysSpec` gives for the old state |
| RtSigprocmask.OldMaskReported | src/services/libs/jinux-std/src/syscall/rt_sigprocmask.rs:37-41 | with `oldset_ptr` non-zero and mapped, the word there afterwards is the mask from before the call, whatever the mode; every other address keeps its word and the mapped addresses stay the same |
| RtSigprocmask.MemoryFrame | src/services/libs/jinux-std/src/syscall/rt_sigprocmask.rs:39-43 | user memory changes only at `oldset_ptr`, and not at all when it is zero |
| RtSigprocmask.NoSetKeepsMask | src/services/libs/jinux-std/src/syscall/rt_sigprocmask.rs:42-50 | with `set_ptr` zero the mask is unchanged, whatever the mode |
| RtSigprocmask.MaskUpdated | src/services/libs/jinux-std/src/syscall/rt_sigprocmask.rs:42-50 | with `set_ptr` non-zero and both accesses mapped, the call succeeds and the mask becomes old-or-set, old-and-not-set or the set; when the two pointers are equal, the set read is the old mask just written |
| RtSigprocmask.WriteFaultChangesNothing | src/services/libs/jinux-std/src/syscall/rt_sigprocmask.rs:39-41 | an unmapped `oldset_ptr` fails with `EFAULT` before anything changes |
| RtSigprocmask.ReadFaultKeepsMask | src/services/libs/jinux-std/src/syscall/rt_sigprocmask.rs:39-43 | an unmapped `set_ptr` fails with `EFAULT` and keeps the mask, but the old mask already written at `oldset_ptr` stays written |
| RtSigprocmask.NoVmarPanics | src/services/libs/jinux-std/src/syscall/rt_sigprocmask.rs:35 | a process without a root VM region panics at `unwrap` and nothing changes |
| RtSigprocmask.SysOutcome | src/services/libs/jinux-std/src/syscall/rt_sigprocmask.rs:16-25 | `sigset_size` never affects the outcome; a mode above 2 panics with `EINVAL` before anything changes; otherwise the state is what `do_rt_sigprocmask` leaves, and the call returns `Return(0)` exactly when that step succeeds |
| RtSigprocmask.SetThenQuery | src/services/libs/jinux-std/src/syscall/rt_sigprocmask.rs:39-48 | installing a set with SetMask and then querying with only `oldset_ptr` reports exactly the installed set |
| RtSigprocmask.BlockScenario | src/services/libs/jinux-std/src/syscall/rt_sigprocmask.rs:9-54 | mask 0b011, block 0b101 read from 0x1000, and report at 0x2000: the mask becomes 0b111, 0x2000 holds 0b011, and the call returns 0 |

## Left out

- Handler bodies: the roughly 140 handlers the dispatcher calls live in files that are not part of this model. They are abstract functions of their words and context.
- Logging: `debug!`, `warn!`, `error!` and `log_syscall_entry!` have no effect on results and are omitted. The `sigset_size != 8` check only logs, so it is omitted too.
- Locking and concurrency: the lock on the signal mask and cross-thread atomicity are not modelled. Each call is one sequential step.
- The 4-argument-with-context arm of `syscall_handler!` (mod.rs:227) places the context outside the call. No dispatch arm uses it, so it is not modelled.
- Several types come from files that are not part of this model:
  - `UserContext`: only its registers are modelled, not its layout or the trap-entry assembly.
  - The root VM region: modelled as a partial map from address to word. Page permissions, access widths and overlapping accesses are not modelled.
  - The `SigMask` type: its `block`, `unblock`, `set` and `as_u64` follow the semantics of or, and-not, replace and the raw word.
- The numeric value of a mask or memory word is not modelled, only its set of one-bit positions. Nothing in the handler does arithmetic on these words.
- The dispatcher's `Handlers` family covers `sys_rt_sigprocmask` only through its table entry (arity 4, no context). The handler's effect on the process is proved separately in `RtSigprocmask`.
- Syscall.ErrorRoundTrip: requires the errno to be at most 4095. Larger codes do not survive the user-space convention, and the kernel's own codes are all smaller.
- Errno values are limited to positive `i32`s, because the error enum is `#[repr(i32)]`.
