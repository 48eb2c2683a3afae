/**
 * The operation table of the x86-64 syscall boundary: the Linux syscall
 * numbers the kernel knows (`define_syscall_nums!`) and the arms of the
 * dispatch `match`, each with the shape of its `syscall_handler!` call: how
 * many argument words the handler takes and whether, and how, it receives
 * the trapped CPU context.  A syscall is identified by its number, as in the
 * kernel; the handler an arm calls is named by the constant it matches
 * (`SYS_GETPID` calls `sys_getpid`).
 */
module SyscallTable {
  import opened Prelude

  // The numbers of `define_syscall_nums!`, in declaration order.
  const SYS_READ: u64 := 0
  const SYS_WRITE: u64 := 1
  const SYS_OPEN: u64 := 2
  const SYS_CLOSE: u64 := 3
  const SYS_STAT: u64 := 4
  const SYS_FSTAT: u64 := 5
  const SYS_LSTAT: u64 := 6
  const SYS_POLL: u64 := 7
  const SYS_LSEEK: u64 := 8
  const SYS_MMAP: u64 := 9
  const SYS_MPROTECT: u64 := 10
  const SYS_MUNMAP: u64 := 11
  const SYS_BRK: u64 := 12
  const SYS_RT_SIGACTION: u64 := 13
  const SYS_RT_SIGPROCMASK: u64 := 14
  const SYS_RT_SIGRETRUN: u64 := 15
  const SYS_IOCTL: u64 := 16
  const SYS_PREAD64: u64 := 17
  const SYS_WRITEV: u64 := 20
  const SYS_ACCESS: u64 := 21
  const SYS_PIPE: u64 := 22
  const SYS_SELECT: u64 := 23
  const SYS_SCHED_YIELD: u64 := 24
  const SYS_MADVISE: u64 := 28
  const SYS_DUP: u64 := 32
  const SYS_DUP2: u64 := 33
  const SYS_PAUSE: u64 := 34
  const SYS_ALARM: u64 := 37
  const SYS_GETPID: u64 := 39
  const SYS_SOCKET: u64 := 41
  const SYS_CONNECT: u64 := 42
  const SYS_ACCEPT: u64 := 43
  const SYS_SENDTO: u64 := 44
  const SYS_RECVFROM: u64 := 45
  const SYS_SHUTDOWN: u64 := 48
  const SYS_BIND: u64 := 49
  const SYS_LISTEN: u64 := 50
  const SYS_GETSOCKNAME: u64 := 51
  const SYS_GETPEERNAME: u64 := 52
  const SYS_SOCKETPAIR: u64 := 53
  const SYS_SETSOCKOPT: u64 := 54
  const SYS_GETSOCKOPT: u64 := 55
  const SYS_CLONE: u64 := 56
  const SYS_FORK: u64 := 57
  const SYS_EXECVE: u64 := 59
  const SYS_EXIT: u64 := 60
  const SYS_WAIT4: u64 := 61
  const SYS_KILL: u64 := 62
  const SYS_UNAME: u64 := 63
  const SYS_FCNTL: u64 := 72
  const SYS_FSYNC: u64 := 74
  const SYS_TRUNCATE: u64 := 76
  const SYS_FTRUNCATE: u64 := 77
  const SYS_GETCWD: u64 := 79
  const SYS_CHDIR: u64 := 80
  const SYS_FCHDIR: u64 := 81
  const SYS_RENAME: u64 := 82
  const SYS_MKDIR: u64 := 83
  const SYS_RMDIR: u64 := 84
  const SYS_LINK: u64 := 86
  const SYS_UNLINK: u64 := 87
  const SYS_SYMLINK: u64 := 88
  const SYS_READLINK: u64 := 89
  const SYS_CHMOD: u64 := 90
  const SYS_FCHMOD: u64 := 91
  const SYS_CHOWN: u64 := 92
  const SYS_FCHOWN: u64 := 93
  const SYS_LCHOWN: u64 := 94
  const SYS_UMASK: u64 := 95
  const SYS_GETTIMEOFDAY: u64 := 96
  const SYS_GETUID: u64 := 102
  const SYS_GETGID: u64 := 104
  const SYS_SETUID: u64 := 105
  const SYS_SETGID: u64 := 106
  const SYS_GETEUID: u64 := 107
  const SYS_GETEGID: u64 := 108
  const SYS_SETPGID: u64 := 109
  const SYS_GETPPID: u64 := 110
  const SYS_GETPGRP: u64 := 111
  const SYS_SETSID: u64 := 112
  const SYS_SETREUID: u64 := 113
  const SYS_SETREGID: u64 := 114
  const SYS_GETGROUPS: u64 := 115
  const SYS_SETGROUPS: u64 := 116
  const SYS_SETRESUID: u64 := 117
  const SYS_GETRESUID: u64 := 118
  const SYS_SETRESGID: u64 := 119
  const SYS_GETRESGID: u64 := 120
  const SYS_SETFSUID: u64 := 122
  const SYS_SETFSGID: u64 := 123
  const SYS_GETSID: u64 := 124
  const SYS_SIGALTSTACK: u64 := 131
  const SYS_STATFS: u64 := 137
  const SYS_FSTATFS: u64 := 138
  const SYS_GET_PRIORITY: u64 := 140
  const SYS_SET_PRIORITY: u64 := 141
  const SYS_PRCTL: u64 := 157
  const SYS_ARCH_PRCTL: u64 := 158
  const SYS_SYNC: u64 := 162
  const SYS_GETTID: u64 := 186
  const SYS_TIME: u64 := 201
  const SYS_FUTEX: u64 := 202
  const SYS_EPOLL_CREATE: u64 := 213
  const SYS_GETDENTS64: u64 := 217
  const SYS_SET_TID_ADDRESS: u64 := 218
  const SYS_CLOCK_GETTIME: u64 := 228
  const SYS_CLOCK_NANOSLEEP: u64 := 230
  const SYS_EXIT_GROUP: u64 := 231
  const SYS_EPOLL_WAIT: u64 := 232
  const SYS_EPOLL_CTL: u64 := 233
  const SYS_TGKILL: u64 := 234
  const SYS_WAITID: u64 := 247
  const SYS_OPENAT: u64 := 257
  const SYS_MKDIRAT: u64 := 258
  const SYS_FCHOWNAT: u64 := 260
  const SYS_FSTATAT: u64 := 262
  const SYS_UNLINKAT: u64 := 263
  const SYS_RENAMEAT: u64 := 264
  const SYS_LINKAT: u64 := 265
  const SYS_SYMLINKAT: u64 := 266
  const SYS_READLINKAT: u64 := 267
  const SYS_FCHMODAT: u64 := 268
  const SYS_SET_ROBUST_LIST: u64 := 273
  const SYS_UTIMENSAT: u64 := 280
  const SYS_EPOLL_CREATE1: u64 := 291
  const SYS_PIPE2: u64 := 293
  const SYS_PRLIMIT64: u64 := 302
  const SYS_GETRANDOM: u64 := 318
  const SYS_EXECVEAT: u64 := 322

  /** A number the kernel defines a constant for; the largest is `execveat`'s. */
  predicate IsSyscallNumber(n: u64): (b: bool)
    ensures b ==> n <= SYS_EXECVEAT
  {
    n == SYS_READ ||
    n == SYS_WRITE ||
    n == SYS_OPEN ||
    n == SYS_CLOSE ||
    n == SYS_STAT ||
    n == SYS_FSTAT ||
    n == SYS_LSTAT ||
    n == SYS_POLL ||
    n == SYS_LSEEK ||
    n == SYS_MMAP ||
    n == SYS_MPROTECT ||
    n == SYS_MUNMAP ||
    n == SYS_BRK ||
    n == SYS_RT_SIGACTION ||
    n == SYS_RT_SIGPROCMASK ||
    n == SYS_RT_SIGRETRUN ||
    n == SYS_IOCTL ||
    n == SYS_PREAD64 ||
    n == SYS_WRITEV ||
    n == SYS_ACCESS ||
    n == SYS_PIPE ||
    n == SYS_SELECT ||
    n == SYS_SCHED_YIELD ||
    n == SYS_MADVISE ||
    n == SYS_DUP ||
    n == SYS_DUP2 ||
    n == SYS_PAUSE ||
    n == SYS_ALARM ||
    n == SYS_GETPID ||
    n == SYS_SOCKET ||
    n == SYS_CONNECT ||
    n == SYS_ACCEPT ||
    n == SYS_SENDTO ||
    n == SYS_RECVFROM ||
    n == SYS_SHUTDOWN ||
    n == SYS_BIND ||
    n == SYS_LISTEN ||
    n == SYS_GETSOCKNAME ||
    n == SYS_GETPEERNAME ||
    n == SYS_SOCKETPAIR ||
    n == SYS_SETSOCKOPT ||
    n == SYS_GETSOCKOPT ||
    n == SYS_CLONE ||
    n == SYS_FORK ||
    n == SYS_EXECVE ||
    n == SYS_EXIT ||
    n == SYS_WAIT4 ||
    n == SYS_KILL ||
    n == SYS_UNAME ||
    n == SYS_FCNTL ||
    n == SYS_FSYNC ||
    n == SYS_TRUNCATE ||
    n == SYS_FTRUNCATE ||
    n == SYS_GETCWD ||
    n == SYS_CHDIR ||
    n == SYS_FCHDIR ||
    n == SYS_RENAME ||
    n == SYS_MKDIR ||
    n == SYS_RMDIR ||
    n == SYS_LINK ||
    n == SYS_UNLINK ||
    n == SYS_SYMLINK ||
    n == SYS_READLINK ||
    n == SYS_CHMOD ||
    n == SYS_FCHMOD ||
    n == SYS_CHOWN ||
    n == SYS_FCHOWN ||
    n == SYS_LCHOWN ||
    n == SYS_UMASK ||
    n == SYS_GETTIMEOFDAY ||
    n == SYS_GETUID ||
    n == SYS_GETGID ||
    n == SYS_SETUID ||
    n == SYS_SETGID ||
    n == SYS_GETEUID ||
    n == SYS_GETEGID ||
    n == SYS_SETPGID ||
    n == SYS_GETPPID ||
    n == SYS_GETPGRP ||
    n == SYS_SETSID ||
    n == SYS_SETREUID ||
    n == SYS_SETREGID ||
    n == SYS_GETGROUPS ||
    n == SYS_SETGROUPS ||
    n == SYS_SETRESUID ||
    n == SYS_GETRESUID ||
    n == SYS_SETRESGID ||
    n == SYS_GETRESGID ||
    n == SYS_SETFSUID ||
    n == SYS_SETFSGID ||
    n == SYS_GETSID ||
    n == SYS_SIGALTSTACK ||
    n == SYS_STATFS ||
    n == SYS_FSTATFS ||
    n == SYS_GET_PRIORITY ||
    n == SYS_SET_PRIORITY ||
    n == SYS_PRCTL ||
    n == SYS_ARCH_PRCTL ||
    n == SYS_SYNC ||
    n == SYS_GETTID ||
    n == SYS_TIME ||
    n == SYS_FUTEX ||
    n == SYS_EPOLL_CREATE ||
    n == SYS_GETDENTS64 ||
    n == SYS_SET_TID_ADDRESS ||
    n == SYS_CLOCK_GETTIME ||
    n == SYS_CLOCK_NANOSLEEP ||
    n == SYS_EXIT_GROUP ||
    n == SYS_EPOLL_WAIT ||
    n == SYS_EPOLL_CTL ||
    n == SYS_TGKILL ||
    n == SYS_WAITID ||
    n == SYS_OPENAT ||
    n == SYS_MKDIRAT ||
    n == SYS_FCHOWNAT ||
    n == SYS_FSTATAT ||
    n == SYS_UNLINKAT ||
    n == SYS_RENAMEAT ||
    n == SYS_LINKAT ||
    n == SYS_SYMLINKAT ||
    n == SYS_READLINKAT ||
    n == SYS_FCHMODAT ||
    n == SYS_SET_ROBUST_LIST ||
    n == SYS_UTIMENSAT ||
    n == SYS_EPOLL_CREATE1 ||
    n == SYS_PIPE2 ||
    n == SYS_PRLIMIT64 ||
    n == SYS_GETRANDOM ||
    n == SYS_EXECVEAT
  }

  /** How an arm hands the trapped CPU context to its handler. */
  datatype ContextPass =
    | NoContext    // only argument words
    | ContextCopy  // `*context`: a copy; the caller's registers cannot change
    | ContextMut   // `context`: `&mut UserContext`; the handler may rewrite it

  /** The shape of one `syscall_handler!(arity, handler, args[, context])` call. */
  datatype HandlerSig = HandlerSig(arity: nat, context: ContextPass)

  /**
   * The arms of `syscall_dispatch`'s `match`, in source order: the shape of
   * the handler call for number `n`, or `None` where the `_` arm answers.
   */
  function Arm(n: u64): (r: Option<HandlerSig>)
    ensures r.Some? ==> r.value.arity <= 6
  {
    if n == SYS_READ then Some(HandlerSig(3, NoContext)) else
    if n == SYS_WRITE then Some(HandlerSig(3, NoContext)) else
    if n == SYS_OPEN then Some(HandlerSig(3, NoContext)) else
    if n == SYS_CLOSE then Some(HandlerSig(1, NoContext)) else
    if n == SYS_STAT then Some(HandlerSig(2, NoContext)) else
    if n == SYS_FSTAT then Some(HandlerSig(2, NoContext)) else
    if n == SYS_LSTAT then Some(HandlerSig(2, NoContext)) else
    if n == SYS_POLL then Some(HandlerSig(3, NoContext)) else
    if n == SYS_LSEEK then Some(HandlerSig(3, NoContext)) else
    if n == SYS_MMAP then Some(HandlerSig(6, NoContext)) else
    if n == SYS_MPROTECT then Some(HandlerSig(3, NoContext)) else
    if n == SYS_MUNMAP then Some(HandlerSig(2, NoContext)) else
    if n == SYS_BRK then Some(HandlerSig(1, NoContext)) else
    if n == SYS_RT_SIGACTION then Some(HandlerSig(4, NoContext)) else
    if n == SYS_RT_SIGPROCMASK then Some(HandlerSig(4, NoContext)) else
    if n == SYS_RT_SIGRETRUN then Some(HandlerSig(0, ContextMut)) else
    if n == SYS_IOCTL then Some(HandlerSig(3, NoContext)) else
    if n == SYS_PREAD64 then Some(HandlerSig(4, NoContext)) else
    if n == SYS_WRITEV then Some(HandlerSig(3, NoContext)) else
    if n == SYS_ACCESS then Some(HandlerSig(2, NoContext)) else
    if n == SYS_PIPE then Some(HandlerSig(1, NoContext)) else
    if n == SYS_SELECT then Some(HandlerSig(5, NoContext)) else
    if n == SYS_SCHED_YIELD then Some(HandlerSig(0, NoContext)) else
    if n == SYS_MADVISE then Some(HandlerSig(3, NoContext)) else
    if n == SYS_DUP then Some(HandlerSig(1, NoContext)) else
    if n == SYS_DUP2 then Some(HandlerSig(2, NoContext)) else
    if n == SYS_PAUSE then Some(HandlerSig(0, NoContext)) else
    if n == SYS_ALARM then Some(HandlerSig(1, NoContext)) else
    if n == SYS_GETPID then Some(HandlerSig(0, NoContext)) else
    if n == SYS_SOCKET then Some(HandlerSig(3, NoContext)) else
    if n == SYS_CONNECT then Some(HandlerSig(3, NoContext)) else
    if n == SYS_ACCEPT then Some(HandlerSig(3, NoContext)) else
    if n == SYS_SENDTO then Some(HandlerSig(6, NoContext)) else
    if n == SYS_RECVFROM then Some(HandlerSig(6, NoContext)) else
    if n == SYS_SHUTDOWN then Some(HandlerSig(2, NoContext)) else
    if n == SYS_BIND then Some(HandlerSig(3, NoContext)) else
    if n == SYS_LISTEN then Some(HandlerSig(2, NoContext)) else
    if n == SYS_GETSOCKNAME then Some(HandlerSig(3, NoContext)) else
    if n == SYS_GETPEERNAME then Some(HandlerSig(3, NoContext)) else
    if n == SYS_SOCKETPAIR then Some(HandlerSig(4, NoContext)) else
    if n == SYS_SETSOCKOPT then Some(HandlerSig(5, NoContext)) else
    if n == SYS_GETSOCKOPT then Some(HandlerSig(5, NoContext)) else
    if n == SYS_CLONE then Some(HandlerSig(5, ContextCopy)) else
    if n == SYS_FORK then Some(HandlerSig(0, ContextCopy)) else
    if n == SYS_EXECVE then Some(HandlerSig(3, ContextMut)) else
    if n == SYS_EXIT then Some(HandlerSig(1, NoContext)) else
    if n == SYS_WAIT4 then Some(HandlerSig(3, NoContext)) else
    if n == SYS_KILL then Some(HandlerSig(2, NoContext)) else
    if n == SYS_UNAME then Some(HandlerSig(1, NoContext)) else
    if n == SYS_FCNTL then Some(HandlerSig(3, NoContext)) else
    if n == SYS_FSYNC then Some(HandlerSig(1, NoContext)) else
    if n == SYS_TRUNCATE then Some(HandlerSig(2, NoContext)) else
    if n == SYS_FTRUNCATE then Some(HandlerSig(2, NoContext)) else
    if n == SYS_GETCWD then Some(HandlerSig(2, NoContext)) else
    if n == SYS_CHDIR then Some(HandlerSig(1, NoContext)) else
    if n == SYS_FCHDIR then Some(HandlerSig(1, NoContext)) else
    if n == SYS_RENAME then Some(HandlerSig(2, NoContext)) else
    if n == SYS_MKDIR then Some(HandlerSig(2, NoContext)) else
    if n == SYS_RMDIR then Some(HandlerSig(1, NoContext)) else
    if n == SYS_LINK then Some(HandlerSig(2, NoContext)) else
    if n == SYS_UNLINK then Some(HandlerSig(1, NoContext)) else
    if n == SYS_SYMLINK then Some(HandlerSig(2, NoContext)) else
    if n == SYS_READLINK then Some(HandlerSig(3, NoContext)) else
    if n == SYS_CHMOD then Some(HandlerSig(2, NoContext)) else
    if n == SYS_FCHMOD then Some(HandlerSig(2, NoContext)) else
    if n == SYS_CHOWN then Some(HandlerSig(3, NoContext)) else
    if n == SYS_FCHOWN then Some(HandlerSig(3, NoContext)) else
    if n == SYS_LCHOWN then Some(HandlerSig(3, NoContext)) else
    if n == SYS_UMASK then Some(HandlerSig(1, NoContext)) else
    if n == SYS_GETTIMEOFDAY then Some(HandlerSig(1, NoContext)) else
    if n == SYS_GETUID then Some(HandlerSig(0, NoContext)) else
    if n == SYS_GETGID then Some(HandlerSig(0, NoContext)) else
    if n == SYS_SETUID then Some(HandlerSig(1, NoContext)) else
    if n == SYS_SETGID then Some(HandlerSig(1, NoContext)) else
    if n == SYS_GETEUID then Some(HandlerSig(0, NoContext)) else
    if n == SYS_GETEGID then Some(HandlerSig(0, NoContext)) else
    if n == SYS_SETPGID then Some(HandlerSig(2, NoContext)) else
    if n == SYS_GETPPID then Some(HandlerSig(0, NoContext)) else
    if n == SYS_GETPGRP then Some(HandlerSig(0, NoContext)) else
    if n == SYS_SETSID then Some(HandlerSig(0, NoContext)) else
    if n == SYS_SETREUID then Some(HandlerSig(2, NoContext)) else
    if n == SYS_SETREGID then Some(HandlerSig(2, NoContext)) else
    if n == SYS_GETGROUPS then Some(HandlerSig(2, NoContext)) else
    if n == SYS_SETGROUPS then Some(HandlerSig(2, NoContext)) else
    if n == SYS_SETRESUID then Some(HandlerSig(3, NoContext)) else
    if n == SYS_GETRESUID then Some(HandlerSig(3, NoContext)) else
    if n == SYS_SETRESGID then Some(HandlerSig(3, NoContext)) else
    if n == SYS_GETRESGID then Some(HandlerSig(3, NoContext)) else
    if n == SYS_SETFSUID then Some(HandlerSig(1, NoContext)) else
    if n == SYS_SETFSGID then Some(HandlerSig(1, NoContext)) else
    if n == SYS_GETSID then Some(HandlerSig(1, NoContext)) else
    if n == SYS_SIGALTSTACK then Some(HandlerSig(2, NoContext)) else
    if n == SYS_STATFS then Some(HandlerSig(2, NoContext)) else
    if n == SYS_FSTATFS then Some(HandlerSig(2, NoContext)) else
    if n == SYS_GET_PRIORITY then Some(HandlerSig(2, NoContext)) else
    if n == SYS_SET_PRIORITY then Some(HandlerSig(3, NoContext)) else
    if n == SYS_PRCTL then Some(HandlerSig(5, NoContext)) else
    if n == SYS_ARCH_PRCTL then Some(HandlerSig(2, ContextMut)) else
    if n == SYS_SYNC then Some(HandlerSig(0, NoContext)) else
    if n == SYS_GETTID then Some(HandlerSig(0, NoContext)) else
    if n == SYS_TIME then Some(HandlerSig(1, NoContext)) else
    if n == SYS_FUTEX then Some(HandlerSig(6, NoContext)) else
    if n == SYS_EPOLL_CREATE then Some(HandlerSig(1, NoContext)) else
    if n == SYS_GETDENTS64 then Some(HandlerSig(3, NoContext)) else
    if n == SYS_SET_TID_ADDRESS then Some(HandlerSig(1, NoContext)) else
    if n == SYS_CLOCK_GETTIME then Some(HandlerSig(2, NoContext)) else
    if n == SYS_CLOCK_NANOSLEEP then Some(HandlerSig(4, NoContext)) else
    if n == SYS_EXIT_GROUP then Some(HandlerSig(1, NoContext)) else
    if n == SYS_EPOLL_WAIT then Some(HandlerSig(4, NoContext)) else
    if n == SYS_EPOLL_CTL then Some(HandlerSig(4, NoContext)) else
    if n == SYS_TGKILL then Some(HandlerSig(3, NoContext)) else
    if n == SYS_WAITID then Some(HandlerSig(5, NoContext)) else
    if n == SYS_OPENAT then Some(HandlerSig(4, NoContext)) else
    if n == SYS_MKDIRAT then Some(HandlerSig(3, NoContext)) else
    if n == SYS_FCHOWNAT then Some(HandlerSig(5, NoContext)) else
    if n == SYS_FSTATAT then Some(HandlerSig(4, NoContext)) else
    if n == SYS_UNLINKAT then Some(HandlerSig(3, NoContext)) else
    if n == SYS_RENAMEAT then Some(HandlerSig(4, NoContext)) else
    if n == SYS_LINKAT then Some(HandlerSig(5, NoContext)) else
    if n == SYS_SYMLINKAT then Some(HandlerSig(3, NoContext)) else
    if n == SYS_READLINKAT then Some(HandlerSig(4, NoContext)) else
    if n == SYS_FCHMODAT then Some(HandlerSig(3, NoContext)) else
    if n == SYS_SET_ROBUST_LIST then Some(HandlerSig(2, NoContext)) else
    if n == SYS_UTIMENSAT then Some(HandlerSig(4, NoContext)) else
    if n == SYS_EPOLL_CREATE1 then Some(HandlerSig(1, NoContext)) else
    if n == SYS_PIPE2 then Some(HandlerSig(2, NoContext)) else
    if n == SYS_PRLIMIT64 then Some(HandlerSig(4, NoContext)) else
    if n == SYS_GETRANDOM then Some(HandlerSig(3, NoContext)) else
    if n == SYS_EXECVEAT then Some(HandlerSig(5, ContextMut)) else
    None
  }

  /**
   * The constants strictly increase in declaration order, so no two of them
   * are equal and no arm of the `match` shadows another.
   */
  lemma NumbersAscending()
    ensures SYS_READ < SYS_WRITE &&
            SYS_WRITE < SYS_OPEN &&
            SYS_OPEN < SYS_CLOSE &&
            SYS_CLOSE < SYS_STAT &&
            SYS_STAT < SYS_FSTAT &&
            SYS_FSTAT < SYS_LSTAT &&
            SYS_LSTAT < SYS_POLL &&
            SYS_POLL < SYS_LSEEK &&
            SYS_LSEEK < SYS_MMAP &&
            SYS_MMAP < SYS_MPROTECT &&
            SYS_MPROTECT < SYS_MUNMAP &&
            SYS_MUNMAP < SYS_BRK &&
            SYS_BRK < SYS_RT_SIGACTION &&
            SYS_RT_SIGACTION < SYS_RT_SIGPROCMASK &&
            SYS_RT_SIGPROCMASK < SYS_RT_SIGRETRUN &&
            SYS_RT_SIGRETRUN < SYS_IOCTL &&
            SYS_IOCTL < SYS_PREAD64 &&
            SYS_PREAD64 < SYS_WRITEV &&
            SYS_WRITEV < SYS_ACCESS &&
            SYS_ACCESS < SYS_PIPE &&
            SYS_PIPE < SYS_SELECT &&
            SYS_SELECT < SYS_SCHED_YIELD &&
            SYS_SCHED_YIELD < SYS_MADVISE &&
            SYS_MADVISE < SYS_DUP &&
            SYS_DUP < SYS_DUP2 &&
            SYS_DUP2 < SYS_PAUSE &&
            SYS_PAUSE < SYS_ALARM &&
            SYS_ALARM < SYS_GETPID &&
            SYS_GETPID < SYS_SOCKET &&
            SYS_SOCKET < SYS_CONNECT &&
            SYS_CONNECT < SYS_ACCEPT &&
            SYS_ACCEPT < SYS_SENDTO &&
            SYS_SENDTO < SYS_RECVFROM &&
            SYS_RECVFROM < SYS_SHUTDOWN &&
            SYS_SHUTDOWN < SYS_BIND &&
            SYS_BIND < SYS_LISTEN &&
            SYS_LISTEN < SYS_GETSOCKNAME &&
            SYS_GETSOCKNAME < SYS_GETPEERNAME &&
            SYS_GETPEERNAME < SYS_SOCKETPAIR &&
            SYS_SOCKETPAIR < SYS_SETSOCKOPT &&
            SYS_SETSOCKOPT < SYS_GETSOCKOPT &&
            SYS_GETSOCKOPT < SYS_CLONE &&
            SYS_CLONE < SYS_FORK &&
            SYS_FORK < SYS_EXECVE &&
            SYS_EXECVE < SYS_EXIT &&
            SYS_EXIT < SYS_WAIT4 &&
            SYS_WAIT4 < SYS_KILL &&
            SYS_KILL < SYS_UNAME &&
            SYS_UNAME < SYS_FCNTL &&
            SYS_FCNTL < SYS_FSYNC &&
            SYS_FSYNC < SYS_TRUNCATE &&
            SYS_TRUNCATE < SYS_FTRUNCATE &&
            SYS_FTRUNCATE < SYS_GETCWD &&
            SYS_GETCWD < SYS_CHDIR &&
            SYS_CHDIR < SYS_FCHDIR &&
            SYS_FCHDIR < SYS_RENAME &&
            SYS_RENAME < SYS_MKDIR &&
            SYS_MKDIR < SYS_RMDIR &&
            SYS_RMDIR < SYS_LINK &&
            SYS_LINK < SYS_UNLINK &&
            SYS_UNLINK < SYS_SYMLINK &&
            SYS_SYMLINK < SYS_READLINK &&
            SYS_READLINK < SYS_CHMOD &&
            SYS_CHMOD < SYS_FCHMOD &&
            SYS_FCHMOD < SYS_CHOWN &&
            SYS_CHOWN < SYS_FCHOWN &&
            SYS_FCHOWN < SYS_LCHOWN &&
            SYS_LCHOWN < SYS_UMASK &&
            SYS_UMASK < SYS_GETTIMEOFDAY &&
            SYS_GETTIMEOFDAY < SYS_GETUID &&
            SYS_GETUID < SYS_GETGID &&
            SYS_GETGID < SYS_SETUID &&
            SYS_SETUID < SYS_SETGID &&
            SYS_SETGID < SYS_GETEUID &&
            SYS_GETEUID < SYS_GETEGID &&
            SYS_GETEGID < SYS_SETPGID &&
            SYS_SETPGID < SYS_GETPPID &&
            SYS_GETPPID < SYS_GETPGRP &&
            SYS_GETPGRP < SYS_SETSID &&
            SYS_SETSID < SYS_SETREUID &&
            SYS_SETREUID < SYS_SETREGID &&
            SYS_SETREGID < SYS_GETGROUPS &&
            SYS_GETGROUPS < SYS_SETGROUPS &&
            SYS_SETGROUPS < SYS_SETRESUID &&
            SYS_SETRESUID < SYS_GETRESUID &&
            SYS_GETRESUID < SYS_SETRESGID &&
            SYS_SETRESGID < SYS_GETRESGID &&
            SYS_GETRESGID < SYS_SETFSUID &&
            SYS_SETFSUID < SYS_SETFSGID &&
            SYS_SETFSGID < SYS_GETSID &&
            SYS_GETSID < SYS_SIGALTSTACK &&
            SYS_SIGALTSTACK < SYS_STATFS &&
            SYS_STATFS < SYS_FSTATFS &&
            SYS_FSTATFS < SYS_GET_PRIORITY &&
            SYS_GET_PRIORITY < SYS_SET_PRIORITY &&
            SYS_SET_PRIORITY < SYS_PRCTL &&
            SYS_PRCTL < SYS_ARCH_PRCTL &&
            SYS_ARCH_PRCTL < SYS_SYNC &&
            SYS_SYNC < SYS_GETTID &&
            SYS_GETTID < SYS_TIME &&
            SYS_TIME < SYS_FUTEX &&
            SYS_FUTEX < SYS_EPOLL_CREATE &&
            SYS_EPOLL_CREATE < SYS_GETDENTS64 &&
            SYS_GETDENTS64 < SYS_SET_TID_ADDRESS &&
            SYS_SET_TID_ADDRESS < SYS_CLOCK_GETTIME &&
            SYS_CLOCK_GETTIME < SYS_CLOCK_NANOSLEEP &&
            SYS_CLOCK_NANOSLEEP < SYS_EXIT_GROUP &&
            SYS_EXIT_GROUP < SYS_EPOLL_WAIT &&
            SYS_EPOLL_WAIT < SYS_EPOLL_CTL &&
            SYS_EPOLL_CTL < SYS_TGKILL &&
            SYS_TGKILL < SYS_WAITID &&
            SYS_WAITID < SYS_OPENAT &&
            SYS_OPENAT < SYS_MKDIRAT &&
            SYS_MKDIRAT < SYS_FCHOWNAT &&
            SYS_FCHOWNAT < SYS_FSTATAT &&
            SYS_FSTATAT < SYS_UNLINKAT &&
            SYS_UNLINKAT < SYS_RENAMEAT &&
            SYS_RENAMEAT < SYS_LINKAT &&
            SYS_LINKAT < SYS_SYMLINKAT &&
            SYS_SYMLINKAT < SYS_READLINKAT &&
            SYS_READLINKAT < SYS_FCHMODAT &&
            SYS_FCHMODAT < SYS_SET_ROBUST_LIST &&
            SYS_SET_ROBUST_LIST < SYS_UTIMENSAT &&
            SYS_UTIMENSAT < SYS_EPOLL_CREATE1 &&
            SYS_EPOLL_CREATE1 < SYS_PIPE2 &&
            SYS_PIPE2 < SYS_PRLIMIT64 &&
            SYS_PRLIMIT64 < SYS_GETRANDOM &&
            SYS_GETRANDOM < SYS_EXECVEAT
  {
  }

  /** The `match` has an arm for exactly the numbers that have a constant. */
  lemma ArmNone(n: u64)
    ensures Arm(n).None? <==> !IsSyscallNumber(n)
  {
  }

  /**
   * Six arms hand over the CPU context, and only clone and fork hand over a
   * copy of it; every other arm passes argument words only.
   */
  lemma ContextArms(n: u64)
    ensures Arm(n).Some? && Arm(n).value.context != NoContext <==>
              n in {SYS_RT_SIGRETRUN, SYS_CLONE, SYS_FORK, SYS_EXECVE, SYS_ARCH_PRCTL, SYS_EXECVEAT}
    ensures Arm(n).Some? && Arm(n).value.context == ContextCopy <==>
              n == SYS_CLONE || n == SYS_FORK
  {
  }

  /** Sample entries of the Linux x86-64 numbering. */
  lemma KnownArms()
    ensures SYS_READ == 0 && SYS_GETPID == 39 && SYS_OPENAT == 257 && SYS_EXECVEAT == 322
    ensures Arm(SYS_GETPID) == Some(HandlerSig(0, NoContext))
    ensures Arm(SYS_RT_SIGPROCMASK) == Some(HandlerSig(4, NoContext))
  {
  }

  /** Numbers between and past the entries that have no arm here. */
  lemma UnlistedNumbers(n: u64)
    requires n == 18 || n == 323 || n == 9999
    ensures Arm(n).None?
  {
    ArmNone(n);
  }
}
