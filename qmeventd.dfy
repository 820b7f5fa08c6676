/**
 * qmeventd's handlers: the global `vm_clients` table, the `forced_cleanups`
 * list and `needs_cleanup` flag, and what each handler does to them and to
 * its client. The process-control calls the daemon makes (writes to the QMP
 * socket, `kill`, `pidfd_send_signal`, `close`, the fork of `qm cleanup`)
 * are appended to `effects`; the outcomes of the system calls it depends on
 * are parameters.
 */
module QmEventd {
  import opened Wrappers
  import opened Decimal
  import CS = ClientState
  import opened ReceiveBuffer
  import opened VmidParser
  import opened QmClient

  datatype Signal = SigTerm | SigKill

  /** A visible action of the daemon. */
  datatype Effect =
    | Send(fd: int, cmd: CS.Command)                        // a QMP command written to a client socket
    | Kill(pid: int, sig: Signal)                           // kill(pid, sig)
    | PidfdKill(pidfd: int)                                 // pidfd_send_signal(pidfd, SIGKILL)
    | Close(fd: int)                                        // close(fd)
    | RunCleanup(vmid: string, graceful: bool, guest: bool) // fork and exec `qm cleanup VMID GRACEFUL GUEST`

  /** How `pidfd_open` on a client's pid ended. */
  datatype PidfdResult =
    | Opened(fd: nat)   // a new pidfd
    | NoProcess         // ESRCH: the process is already gone
    | Unsupported       // ENOSYS: an old kernel
    | OpenFailed        // any other error

  /** The pidfd `terminate_client` stores: the new descriptor, or -1. */
  function StoredPidfd(r: PidfdResult): (fd: int)
    ensures r.Opened? <==> fd >= 0
    ensures r.Opened? ==> fd == r.fd
  {
    if r.Opened? then r.fd else -1
  }

  /**
   * The outcomes of the system calls made while one event is handled: the
   * clock, `/proc/<pid>/cmdline` as its NUL-separated arguments (None when it
   * cannot be opened), `pidfd_open` and the write of the QMP `quit`.
   */
  datatype Env = Env(now: int, cmdline: Option<seq<string>>, pidfd: PidfdResult, quitWritten: bool)

  /** What one `read` on a client socket returned. */
  datatype ReadResult =
    | Readable(waiting: seq<bv8>)   // the bytes waiting on the socket (none: end of file)
    | ReadError(wouldBlock: bool)   // an error; EAGAIN/EWOULDBLOCK when `wouldBlock`

  /** The vmid `get_vmid_from_pid` returns for the given command line. */
  function VmidOfCmdline(cmdline: Option<seq<string>>): (vmid: nat)
    ensures vmid <= ULongMax
    ensures vmid != 0 ==> cmdline.Some? && PidfileOption in cmdline.value
  {
    if cmdline.None? then 0 else VmidOfArgs(cmdline.value)
  }

  /** One `send_qmp_cmd` per command, in order. */
  function Sends(fd: int, cmds: seq<CS.Command>): (r: seq<Effect>)
    ensures |r| == |cmds|
    ensures forall i :: 0 <= i < |r| ==> r[i] == Send(fd, cmds[i])
  {
    if cmds == [] then [] else [Send(fd, cmds[0])] + Sends(fd, cmds[1..])
  }

  /** The actions `sigkill` may take: SIGKILL through a pidfd, the pidfd's `close`, or SIGKILL by pid. */
  predicate KillAction(e: Effect)
  {
    e.PidfdKill? || e.Close? || (e.Kill? && e.sig == SigKill)
  }

  /** `sigkill` on an expired entry: through the pidfd when there is one, else by pid. */
  function KillEffects(pidfd: int, pid: int): (r: seq<Effect>)
    ensures |r| > 0 && forall e :: e in r ==> KillAction(e)
    ensures pidfd > 0 ==> r[0] == PidfdKill(pidfd)
    ensures pidfd <= 0 ==> r == [Kill(pid, SigKill)]
  {
    if pidfd > 0 then [PidfdKill(pidfd), Close(pidfd)] else [Kill(pid, SigKill)]
  }

  /** The test at the head of `sigkill`: an entry is due when it has no timeout or the timeout has passed. */
  predicate Expired(timeout: int, now: int)
  {
    !(timeout != 0 && timeout > now)
  }

  /** The timeouts of the clients of a list, as a value. */
  function Timeouts(s: seq<Client>): (t: map<Client, int>)
    reads set d | d in s
    ensures forall d :: d in s ==> d in t && t[d] == d.timeout
  {
    map d | d in s :: d.timeout
  }

  /** The pidfds of the clients of a list, as a value. */
  function Pidfds(s: seq<Client>): (p: map<Client, int>)
    reads set d | d in s
    ensures forall d :: d in s ==> d in p && p[d] == d.pidfd
  {
    map d | d in s :: d.pidfd
  }

  /** The value of `d` in `m`, 0 when `d` has none. */
  function At(m: map<Client, int>, d: Client): int
  {
    if d in m then m[d] else 0
  }

  /** The pidfd `sigkill` leaves behind: -1 after a pidfd was used, otherwise as it was. */
  function AfterKill(pidfd: int): int
  {
    if pidfd > 0 then -1 else pidfd
  }

  /** Of the first `n` entries of a list, given their timeouts, those not due at `now`, in order. */
  function Kept(s: seq<Client>, n: nat, timeout: map<Client, int>, now: int): (r: seq<Client>)
    requires n <= |s|
    ensures |r| <= n
  {
    if n == 0 then []
    else Kept(s, n - 1, timeout, now) + (if Expired(At(timeout, s[n - 1]), now) then [] else [s[n - 1]])
  }

  /** The clients among the first `n` entries of a list that are due at `now`, given their timeouts. */
  function Due(s: seq<Client>, n: nat, timeout: map<Client, int>, now: int): (r: set<Client>)
    requires n <= |s|
    ensures forall d :: d in r ==> d in s[..n] && Expired(At(timeout, d), now)
  {
    if n == 0 then {}
    else
      assert s[..n] == s[..n - 1] + [s[n - 1]];
      Due(s, n - 1, timeout, now) + (if Expired(At(timeout, s[n - 1]), now) then {s[n - 1]} else {})
  }

  /**
   * The effects of a sweep at `now` over the first `n` entries of a list,
   * front to back, given the entries' timeouts and pidfds. A due client met
   * a second time finds its pidfd already closed and reset by the first
   * visit, so it is signalled by pid.
   */
  function Swept(s: seq<Client>, n: nat, timeout: map<Client, int>, pidfd: map<Client, int>, now: int): (r: seq<Effect>)
    requires n <= |s|
    ensures r == [] <==> Due(s, n, timeout, now) == {}
    ensures forall e :: e in r ==> KillAction(e)
  {
    if n == 0 then []
    else
      var last := s[n - 1];
      Swept(s, n - 1, timeout, pidfd, now) +
      (if Expired(At(timeout, last), now)
       then KillEffects(if last in Due(s, n - 1, timeout, now) then -1 else At(pidfd, last), last.pid)
       else [])
  }

  /** A sweep keeps exactly the entries that are not due. */
  lemma {:induction false} KeptMembers(s: seq<Client>, n: nat, timeout: map<Client, int>, now: int)
    requires n <= |s|
    ensures forall d :: d in Kept(s, n, timeout, now) ==> d in s[..n] && !Expired(At(timeout, d), now)
    ensures forall d :: d in s[..n] && !Expired(At(timeout, d), now) ==> d in Kept(s, n, timeout, now)
  {
    if n > 0 {
      KeptMembers(s, n - 1, timeout, now);
      assert s[..n] == s[..n - 1] + [s[n - 1]];
    }
  }

  /** The due clients are exactly the visited entries whose timeout has passed. */
  lemma {:induction false} DueMembers(s: seq<Client>, n: nat, timeout: map<Client, int>, now: int)
    requires n <= |s|
    ensures forall d :: d in Due(s, n, timeout, now) <==> d in s[..n] && Expired(At(timeout, d), now)
  {
    if n > 0 {
      DueMembers(s, n - 1, timeout, now);
      assert s[..n] == s[..n - 1] + [s[n - 1]];
    }
  }

  /** A due entry at index `i` is the first occurrence of its client in the list as the sweep left it. */
  lemma RemoveDue(s: seq<Client>, i: nat, timeout: map<Client, int>, now: int)
    requires i < |s| && Expired(At(timeout, s[i]), now)
    ensures RemoveFirst(Kept(s, i, timeout, now) + s[i..], s[i]) == Kept(s, i, timeout, now) + s[i + 1..]
  {
    var before := Kept(s, i, timeout, now);
    KeptMembers(s, i, timeout, now);
    assert s[i] !in before;
    RemoveFirstAt(before, s[i], s[i + 1..]);
    SplitAt(before, s, i);
  }

  /** The suffix from index `i` is its first entry followed by the suffix from `i + 1`. */
  lemma SplitAt<T>(before: seq<T>, s: seq<T>, i: nat)
    requires i < |s|
    ensures before + [s[i]] + s[i + 1..] == before + s[i..]
    ensures (before + [s[i]]) + s[i + 1..] == before + s[i..]
  {
    assert s[i..] == [s[i]] + s[i + 1..];
  }

  /** One visit of the sweep, on the list: a due entry leaves it, any other stays in place. */
  lemma KeptStep(s: seq<Client>, i: nat, timeout: map<Client, int>, now: int)
    requires i < |s|
    ensures Expired(At(timeout, s[i]), now) ==>
      RemoveFirst(Kept(s, i, timeout, now) + s[i..], s[i]) == Kept(s, i + 1, timeout, now) + s[i + 1..]
    ensures !Expired(At(timeout, s[i]), now) ==>
      Kept(s, i, timeout, now) + s[i..] == Kept(s, i + 1, timeout, now) + s[i + 1..]
  {
    var before := Kept(s, i, timeout, now);
    if Expired(At(timeout, s[i]), now) {
      RemoveDue(s, i, timeout, now);
      assert Kept(s, i + 1, timeout, now) == before + [];
    } else {
      SplitAt(before, s, i);
    }
  }

  /** One visit of the sweep, on the effects: a due entry is signalled, by pid when it was signalled before. */
  lemma SweptStep(s: seq<Client>, i: nat, timeout: map<Client, int>, pidfd: map<Client, int>, e0: seq<Effect>, now: int)
    requires i < |s|
    ensures Expired(At(timeout, s[i]), now) ==>
      e0 + Swept(s, i, timeout, pidfd, now) +
        KillEffects(if s[i] in Due(s, i, timeout, now) then -1 else At(pidfd, s[i]), s[i].pid)
      == e0 + Swept(s, i + 1, timeout, pidfd, now)
    ensures !Expired(At(timeout, s[i]), now) ==>
      e0 + Swept(s, i, timeout, pidfd, now) == e0 + Swept(s, i + 1, timeout, pidfd, now)
  {
    var done := Swept(s, i, timeout, pidfd, now);
    if Expired(At(timeout, s[i]), now) {
      var killed := KillEffects(if s[i] in Due(s, i, timeout, now) then -1 else At(pidfd, s[i]), s[i].pid);
      assert e0 + done + killed == e0 + (done + killed);
    } else {
      assert Swept(s, i + 1, timeout, pidfd, now) == done + [];
    }
  }

  /** One visit of the sweep, on the due clients: the entry joins them exactly when it is due. */
  lemma DueStep(s: seq<Client>, i: nat, timeout: map<Client, int>, now: int)
    requires i < |s|
    ensures s[i] in Due(s, i, timeout, now) ==> Expired(At(timeout, s[i]), now)
    ensures Due(s, i + 1, timeout, now) ==
      if Expired(At(timeout, s[i]), now) then Due(s, i, timeout, now) + {s[i]} else Due(s, i, timeout, now)
  {
    DueMembers(s, i, timeout, now);
  }

  /** A list none of whose first `n` entries is due keeps them all and signals none. */
  lemma {:induction false} NoneDue(s: seq<Client>, n: nat, timeout: map<Client, int>, pidfd: map<Client, int>, now: int)
    requires n <= |s|
    requires forall j :: 0 <= j < n ==> !Expired(At(timeout, s[j]), now)
    ensures Kept(s, n, timeout, now) == s[..n]
    ensures Due(s, n, timeout, now) == {}
    ensures Swept(s, n, timeout, pidfd, now) == []
  {
    if n > 0 {
      NoneDue(s, n - 1, timeout, pidfd, now);
      assert s[..n] == s[..n - 1] + [s[n - 1]];
    }
  }

  /** A second sweep at the same time, with the timeouts as they were, keeps everything and signals nothing. */
  lemma SweepIdempotent(s: seq<Client>, timeout: map<Client, int>, pidfd: map<Client, int>, now: int)
    ensures var k := Kept(s, |s|, timeout, now);
      && Kept(k, |k|, timeout, now) == k
      && Due(k, |k|, timeout, now) == {}
      && Swept(k, |k|, timeout, pidfd, now) == []
  {
    var k := Kept(s, |s|, timeout, now);
    KeptMembers(s, |s|, timeout, now);
    forall j | 0 <= j < |k| ensures !Expired(At(timeout, k[j]), now) {
      assert k[j] in k;
    }
    NoneDue(k, |k|, timeout, pidfd, now);
    assert k[..|k|] == k;
  }

  /** The entries of a forced-cleanup list that a sweep at `now` keeps, in order. */
  function Remaining(s: seq<Client>, now: int): (r: seq<Client>)
    reads set d | d in s
    ensures |r| <= |s|
    ensures forall d :: d in r ==> d in s && !Expired(d.timeout, now)
    ensures forall d :: d in s && !Expired(d.timeout, now) ==> d in r
  {
    KeptMembers(s, |s|, Timeouts(s), now);
    assert s[..|s|] == s;
    Kept(s, |s|, Timeouts(s), now)
  }

  /** The effects of a sweep at `now` over a list. */
  function SweepEffects(s: seq<Client>, now: int): (r: seq<Effect>)
    reads set d | d in s
    ensures r == [] <==> forall d :: d in s ==> !Expired(d.timeout, now)
    ensures forall e :: e in r ==> KillAction(e)
  {
    DueMembers(s, |s|, Timeouts(s), now);
    assert s[..|s|] == s;
    Swept(s, |s|, Timeouts(s), Pidfds(s), now)
  }

  /** The `close` of a stored pidfd, which `cleanup_client` does only for a positive descriptor. */
  function PidfdClose(pidfd: int): (r: seq<Effect>)
  {
    if pidfd > 0 then [Close(pidfd)] else []
  }

  /**
   * What a message handler can read and change, as a value, seen from the
   * client `c` handling the message: `c`'s QMP flags, type, vmids, pidfd and
   * deadline; the daemon's globals; and the QMP flags of a set of other
   * clients (`others`), among them every registered VM other than `c`.
   */
  datatype View = View(
    flags: CS.Flags, kind: ClientType, vmid: string, backupVmid: string, pidfd: int, timeout: int,
    connections: set<Client>, vmClients: map<string, Client>, others: map<Client, CS.Flags>,
    forcedCleanups: seq<Client>, needsCleanup: bool, effects: seq<Effect>)

  /** The QMP flags of a set of clients, as a value. */
  function FlagsMap(s: set<Client>): (m: map<Client, CS.Flags>)
    reads s
    ensures m.Keys == s
    ensures forall v :: v in s ==> m[v] == v.Fields()
  {
    map v | v in s :: v.Fields()
  }

  /** Every registered VM other than `c` has its flags among the others, and `c` has none there. */
  ghost predicate Covers(c: Client, a: View)
  {
    c !in a.others && forall v :: v in a.vmClients.Values && v != c ==> v in a.others
  }

  /** The flags of `v` in a view: `c`'s own, or those of another client. */
  function FlagsOf(c: Client, a: View, v: Client): CS.Flags
    requires v == c || v in a.others
  {
    if v == c then a.flags else a.others[v]
  }

  /** The view with the flags of `v` replaced, and nothing else changed. */
  function SetFlags(c: Client, a: View, v: Client, f: CS.Flags): (r: View)
    requires v == c || v in a.others
    ensures r.others.Keys == a.others.Keys
    ensures FlagsOf(c, r, v) == f
    ensures forall w :: w in a.others && w != v ==> r.others[w] == a.others[w]
    ensures v != c ==> r.flags == a.flags
    ensures r.(flags := a.flags, others := a.others) == a
  {
    if v == c then a.(flags := f) else a.(others := a.others[v := f])
  }

  /** The VM whose backup ends when `c` is cleaned up: the registered VM a vzdump client names. */
  function BackupOf(a: View): Option<Client>
  {
    if a.kind == Vzdump && a.backupVmid in a.vmClients then Some(a.vmClients[a.backupVmid]) else None
  }

  /**
   * What `cleanup_client` does to the view of the client it cleans up: it
   * is disconnected and leaves the forced-cleanup list; a QEMU client leaves
   * `vm_clients` and `qm cleanup` runs; the VM a vzdump client backs up
   * loses its backup flag and gets a terminate check; a stored pidfd is
   * closed; no other flag changes.
   */
  function CleanedUp(c: Client, a: View): (r: View)
    requires Covers(c, a)
    ensures Covers(c, r)
    ensures r.connections == a.connections - {c} && r.forcedCleanups == RemoveFirst(a.forcedCleanups, c)
    ensures r.vmClients == if a.kind == Qemu then a.vmClients - {a.vmid} else a.vmClients
    ensures r.needsCleanup == a.needsCleanup
    ensures r.kind == a.kind && r.vmid == a.vmid && r.backupVmid == a.backupVmid && r.pidfd == a.pidfd && r.timeout == a.timeout
    ensures r.others.Keys == a.others.Keys
    ensures forall v :: v in a.others && Some(v) != BackupOf(a) ==> r.others[v] == a.others[v]
    ensures BackupOf(a) != Some(c) ==> r.flags == a.flags
    ensures a.kind == Qemu ==>
      r.effects == a.effects + [Close(c.fd), RunCleanup(a.vmid, a.flags.graceful, a.flags.guest)] + PidfdClose(a.pidfd)
    ensures a.kind != Qemu && BackupOf(a).None? ==> r.effects == a.effects + [Close(c.fd)] + PidfdClose(a.pidfd)
    ensures BackupOf(a).Some? ==>
      var vmc := BackupOf(a).value;
      var s := CS.TerminateCheck(FlagsOf(c, a, vmc).(backup := false));
      FlagsOf(c, r, vmc) == s.flags && r.effects == a.effects + [Close(c.fd)] + Sends(vmc.fd, s.sent) + PidfdClose(a.pidfd)
  {
    var base := a.(connections := a.connections - {c}, forcedCleanups := RemoveFirst(a.forcedCleanups, c));
    if a.kind == Qemu then
      base.(vmClients := a.vmClients - {a.vmid},
            effects := a.effects + [Close(c.fd), RunCleanup(a.vmid, a.flags.graceful, a.flags.guest)] + PidfdClose(a.pidfd))
    else if a.kind == Vzdump && a.backupVmid in a.vmClients then
      var vmc := a.vmClients[a.backupVmid];
      var s := CS.TerminateCheck(FlagsOf(c, a, vmc).(backup := false));
      SetFlags(c, base, vmc, s.flags).(effects := a.effects + [Close(c.fd)] + Sends(vmc.fd, s.sent) + PidfdClose(a.pidfd))
    else
      base.(effects := a.effects + [Close(c.fd)] + PidfdClose(a.pidfd))
  }

  /** A view that agrees field by field with the contract of `CleanedUp` is the one it gives. */
  lemma CleanedUpExactly(c: Client, a: View, b: View)
    requires Covers(c, a)
    requires b.connections == a.connections - {c} && b.forcedCleanups == RemoveFirst(a.forcedCleanups, c)
    requires b.vmClients == if a.kind == Qemu then a.vmClients - {a.vmid} else a.vmClients
    requires b.needsCleanup == a.needsCleanup
    requires b.kind == a.kind && b.vmid == a.vmid && b.backupVmid == a.backupVmid && b.pidfd == a.pidfd && b.timeout == a.timeout
    requires b.others.Keys == a.others.Keys
    requires forall v :: v in a.others && Some(v) != BackupOf(a) ==> b.others[v] == a.others[v]
    requires BackupOf(a) != Some(c) ==> b.flags == a.flags
    requires a.kind == Qemu ==>
      b.effects == a.effects + [Close(c.fd), RunCleanup(a.vmid, a.flags.graceful, a.flags.guest)] + PidfdClose(a.pidfd)
    requires a.kind != Qemu && BackupOf(a).None? ==> b.effects == a.effects + [Close(c.fd)] + PidfdClose(a.pidfd)
    requires BackupOf(a).Some? ==>
      var vmc := BackupOf(a).value;
      var s := CS.TerminateCheck(FlagsOf(c, a, vmc).(backup := false));
      FlagsOf(c, b, vmc) == s.flags && b.effects == a.effects + [Close(c.fd)] + Sends(vmc.fd, s.sent) + PidfdClose(a.pidfd)
    ensures b == CleanedUp(c, a)
  {
    var r := CleanedUp(c, a);
    assert b.others == r.others;
  }

  /**
   * What `handle_qmp_handshake` does to the view, given the VMID found on
   * the command line: VMID 0 is stored as "0" and the client cleaned up;
   * any other VMID makes it a QEMU client registered under that VMID in
   * decimal, which is sent `qmp_capabilities`.
   */
  function Greeted(c: Client, a: View, vmid: nat): (r: View)
    requires Covers(c, a)
    ensures Covers(c, r)
    ensures r.vmid == Show(vmid)
    ensures vmid == 0 ==> r == CleanedUp(c, a.(vmid := Show(0)))
    ensures vmid != 0 ==>
      && r.kind == Qemu && r.vmClients == a.vmClients[Show(vmid) := c]
      && r.effects == a.effects + [Send(c.fd, CS.QmpCapabilities)]
      && r.(vmid := a.vmid, kind := a.kind, vmClients := a.vmClients, effects := a.effects) == a
  {
    if vmid == 0 then CleanedUp(c, a.(vmid := Show(0)))
    else a.(vmid := Show(vmid), kind := Qemu, vmClients := a.vmClients[Show(vmid) := c],
            effects := a.effects + [Send(c.fd, CS.QmpCapabilities)])
  }

  /**
   * What `handle_qmp_return` does to the view: the flags and writes of
   * `ClientState.QmpReturn`; when that step terminates the client and its
   * process still exists, `terminate_client` stores the pidfd and deadline,
   * puts the client at the front of the forced-cleanup list and writes
   * `quit` (and SIGTERM when that fails). Nothing else changes.
   */
  function Answers(c: Client, a: View, status: Option<string>, error: bool, env: Env, killTimeout: int): (r: View)
    ensures r.flags == CS.QmpReturn(a.flags, status, error).flags
    ensures r.(flags := a.flags, pidfd := a.pidfd, timeout := a.timeout, forcedCleanups := a.forcedCleanups,
               needsCleanup := a.needsCleanup, effects := a.effects) == a
  {
    var s := CS.QmpReturn(a.flags, status, error);
    if s.terminate && env.pidfd != NoProcess then
      a.(flags := s.flags, pidfd := StoredPidfd(env.pidfd), timeout := env.now + killTimeout,
         forcedCleanups := [c] + a.forcedCleanups, needsCleanup := true,
         effects := a.effects + [Send(c.fd, CS.Quit)] + (if env.quitWritten then [] else [Kill(c.pid, SigTerm)]))
    else
      a.(flags := s.flags, effects := a.effects + Sends(c.fd, s.sent))
  }

  /** The registered VM a vzdump handshake names, if any. */
  function Named(a: View, vmid: Option<string>): Option<Client>
  {
    if vmid.Some? && vmid.value in a.vmClients then Some(a.vmClients[vmid.value]) else None
  }

  /** The view with the backup flag of the VM `n`, if any, set and `c` made a vzdump client; nothing else changes. */
  function Marked(c: Client, a: View, n: Option<Client>): (r: View)
    requires Covers(c, a) && (n.Some? ==> n.value == c || n.value in a.others)
    ensures Covers(c, r)
    ensures r.flags == a.flags.(backup := a.flags.backup || n == Some(c))
    ensures r.kind == (if n.Some? then Vzdump else a.kind)
    ensures r.others.Keys == a.others.Keys
    ensures forall v :: v in a.others ==> r.others[v] == a.others[v].(backup := a.others[v].backup || n == Some(v))
    ensures r.(flags := a.flags, kind := a.kind, others := a.others) == a
  {
    if n.None? then a else SetFlags(c, a, n.value, FlagsOf(c, a, n.value).(backup := true)).(kind := Vzdump)
  }

  /**
   * What `handle_vzdump_handshake` does to the view: the client becomes
   * IDLE and records the vmid given; the VM it names, if registered, gets
   * its backup flag and the client becomes a vzdump client. No other flag,
   * field or global changes.
   */
  function Backs(c: Client, a: View, vmid: Option<string>): (r: View)
    requires Covers(c, a)
    ensures Covers(c, r)
    ensures r.flags == a.flags.(state := CS.Idle, backup := a.flags.backup || Named(a, vmid) == Some(c))
    ensures r.kind == (if Named(a, vmid).Some? then Vzdump else a.kind)
    ensures r.backupVmid == (if vmid.Some? then vmid.value else a.backupVmid)
    ensures r.others.Keys == a.others.Keys
    ensures forall v :: v in a.others ==> r.others[v] == a.others[v].(backup := a.others[v].backup || Named(a, vmid) == Some(v))
    ensures r.(flags := a.flags, kind := a.kind, backupVmid := a.backupVmid, others := a.others) == a
  {
    var b := a.(flags := a.flags.(state := CS.Idle), backupVmid := if vmid.Some? then vmid.value else a.backupVmid);
    var n := Named(a, vmid);
    assert n.Some? ==> n.value in a.vmClients.Values;
    Marked(c, b, n)
  }

  /** A view that agrees field by field with the contract of `Backs` is the one it gives. */
  lemma BacksExactly(c: Client, a: View, vmid: Option<string>, b: View)
    requires Covers(c, a)
    requires b.flags == a.flags.(state := CS.Idle, backup := a.flags.backup || Named(a, vmid) == Some(c))
    requires b.kind == (if Named(a, vmid).Some? then Vzdump else a.kind)
    requires b.backupVmid == (if vmid.Some? then vmid.value else a.backupVmid)
    requires b.others.Keys == a.others.Keys
    requires forall v :: v in a.others ==> b.others[v] == a.others[v].(backup := a.others[v].backup || Named(a, vmid) == Some(v))
    requires b.(flags := a.flags, kind := a.kind, backupVmid := a.backupVmid, others := a.others) == a
    ensures b == Backs(c, a, vmid)
  {
  }

  /**
   * The view after one complete message reaches its handler in
   * `handle_client`, by the first key the message has.
   */
  function Step(c: Client, m: Message, env: Env, killTimeout: int, a: View): (r: View)
    requires Covers(c, a)
    ensures Covers(c, r)
  {
    match m
    case Greeting => Greeted(c, a, VmidOfCmdline(env.cmdline))
    case Event(name, guest) =>
      var s := CS.QmpEvent(a.flags, name, guest);
      a.(flags := s.flags, effects := a.effects + Sends(c.fd, s.sent))
    case Return(status) => Answers(c, a, status, false, env, killTimeout)
    case Error => Answers(c, a, None, true, env, killTimeout)
    case Backup(vmid) => Backs(c, a, vmid)
    case Ignored => a
  }

  /** The view after a sequence of messages has reached its handlers, in order. */
  function Steps(c: Client, ms: seq<Message>, env: Env, killTimeout: int, a: View): (r: View)
    requires Covers(c, a)
    ensures Covers(c, r)
  {
    if ms == [] then a else Step(c, ms[|ms| - 1], env, killTimeout, Steps(c, ms[..|ms| - 1], env, killTimeout, a))
  }

  /** Each message of `ms` reached its handler while `c` was still connected. */
  ghost predicate HandledWhileConnected(c: Client, ms: seq<Message>, env: Env, killTimeout: int, a: View)
    requires Covers(c, a)
  {
    forall k :: 0 <= k < |ms| ==> c in Steps(c, ms[..k], env, killTimeout, a).connections
  }

  /** A message handled while `c` is connected extends a batch handled while it was connected. */
  lemma HandledSnoc(c: Client, ms: seq<Message>, m: Message, env: Env, killTimeout: int, a: View)
    requires Covers(c, a) && HandledWhileConnected(c, ms, env, killTimeout, a)
    requires c in Steps(c, ms, env, killTimeout, a).connections
    ensures HandledWhileConnected(c, ms + [m], env, killTimeout, a)
  {
    forall k | 0 <= k < |ms + [m]|
      ensures c in Steps(c, (ms + [m])[..k], env, killTimeout, a).connections
    {
      if k < |ms| {
        assert (ms + [m])[..k] == ms[..k];
      } else {
        assert (ms + [m])[..k] == ms;
      }
    }
  }

  /** Handling one batch of messages and then another is handling the two batches as one. */
  lemma {:induction false} StepsAppend(c: Client, xs: seq<Message>, ys: seq<Message>, env: Env, killTimeout: int, a: View)
    requires Covers(c, a)
    ensures Steps(c, xs + ys, env, killTimeout, a) == Steps(c, ys, env, killTimeout, Steps(c, xs, env, killTimeout, a))
  {
    if ys == [] {
      assert xs + ys == xs;
    } else {
      var init := ys[..|ys| - 1];
      assert (xs + ys)[..|xs + ys| - 1] == xs + init;
      StepsAppend(c, xs, init, env, killTimeout, a);
    }
  }

  class Daemon {
    /** `kill_timeout`: seconds between `quit` and SIGKILL (`DEFAULT_KILL_TIMEOUT`, 60, unless set on the command line). */
    const killTimeout: int
    /** `sizeof(client->buf)`. */
    const bufSize: nat
    /** The clients registered with epoll. */
    var connections: set<Client>
    /** `vm_clients`: the QEMU clients by vmid. */
    var vmClients: map<string, Client>
    /** `forced_cleanups`: clients sent `quit`, waiting for their process to end. */
    var forcedCleanups: seq<Client>
    var needsCleanup: bool
    var effects: seq<Effect>

    /** A pending forced cleanup is always signalled to the event loop. */
    ghost predicate Valid()
      reads this
    {
      bufSize > 0 && (forcedCleanups != [] ==> needsCleanup)
    }

    /** The daemon after start-up, with no clients. */
    constructor (killTimeout: int, bufSize: nat)
      requires bufSize > 0
      ensures Valid()
      ensures this.killTimeout == killTimeout && this.bufSize == bufSize
      ensures connections == {} && vmClients == map[] && forcedCleanups == [] && !needsCleanup && effects == []
    {
      this.killTimeout := killTimeout;
      this.bufSize := bufSize;
      connections := {};
      vmClients := map[];
      forcedCleanups := [];
      needsCleanup := false;
      effects := [];
    }

    /**
     * `add_new_client`: a connection whose peer pid cannot be found (0) or
     * that cannot be added to epoll is closed; otherwise a new client in
     * HANDSHAKE is registered.
     */
    method AddNewClient(fd: int, pid: int, epollOk: bool) returns (c: Client?)
      requires Valid()
      modifies this`connections, this`effects
      ensures Valid()
      ensures c != null <==> pid != 0 && epollOk
      ensures c == null ==> connections == old(connections) && effects == old(effects) + [Close(fd)]
      ensures c != null ==>
        && fresh(c) && fresh(c.buf)
        && connections == old(connections) + {c} && effects == old(effects)
        && c.fd == fd && c.pid == pid && c.kind == NoType && c.vmid == "" && c.backupVmid == ""
        && c.Fields() == CS.Flags(CS.Handshake, false, false, false, false)
        && c.buflen == 0 && c.buf.Length == bufSize && c.pidfd == 0 && c.timeout == 0
    {
      if pid == 0 || !epollOk {
        effects := effects + [Close(fd)];
        return null;
      }
      c := new Client(fd, pid, bufSize);
      connections := connections + {c};
    }

    /** `terminate_check`, proved against `ClientState.TerminateCheck`. */
    method TerminateCheck(c: Client)
      modifies c`state, c`termCheckQueued, this`effects
      ensures var s := CS.TerminateCheck(old(c.Fields()));
        c.Fields() == s.flags && effects == old(effects) + Sends(c.fd, s.sent)
    {
      if c.state != CS.Idle {
        c.termCheckQueued := true;
        return;
      }
      c.termCheckQueued := false;
      c.state := CS.ExpectStatusResp;
      effects := effects + [Send(c.fd, CS.QueryStatus)];
    }

    /** `handle_qmp_event`, proved against `ClientState.QmpEvent`. */
    method HandleQmpEvent(c: Client, event: Option<string>, guest: Option<bool>)
      modifies c`state, c`termCheckQueued, c`graceful, c`guest, this`effects
      ensures var s := CS.QmpEvent(old(c.Fields()), event, guest);
        c.Fields() == s.flags && effects == old(effects) + Sends(c.fd, s.sent)
    {
      if event.None? {
        return;
      }
      if c.state == CS.Terminating {
        return;
      }
      if event.value == "SHUTDOWN" {
        c.graceful := true;
        if guest.Some? {
          c.guest := guest.value;
        }
        TerminateCheck(c);
      }
    }

    /**
     * `terminate_client`: the client becomes TERMINATING; unless its process
     * is already gone, `quit` is sent (and SIGTERM when that write fails),
     * the pidfd and the deadline are stored, and the client is put at the
     * front of the forced-cleanup list.
     */
    method TerminateClient(c: Client, env: Env)
      requires Valid()
      modifies c`state, c`pidfd, c`timeout, this`forcedCleanups, this`needsCleanup, this`effects
      ensures Valid()
      ensures c.Fields() == old(c.Fields()).(state := CS.Terminating)
      ensures env.pidfd == NoProcess ==>
        && c.pidfd == old(c.pidfd) && c.timeout == old(c.timeout)
        && forcedCleanups == old(forcedCleanups) && needsCleanup == old(needsCleanup)
        && effects == old(effects)
      ensures env.pidfd != NoProcess ==>
        && c.pidfd == StoredPidfd(env.pidfd) && c.timeout == env.now + killTimeout
        && forcedCleanups == [c] + old(forcedCleanups) && needsCleanup
        && effects == old(effects) + [Send(c.fd, CS.Quit)] + (if env.quitWritten then [] else [Kill(c.pid, SigTerm)])
    {
      c.state := CS.Terminating;
      if env.pidfd == NoProcess {
        return;
      }
      effects := effects + [Send(c.fd, CS.Quit)];
      if !env.quitWritten {
        effects := effects + [Kill(c.pid, SigTerm)];
      }
      c.pidfd := StoredPidfd(env.pidfd);
      c.timeout := env.now + killTimeout;
      forcedCleanups := [c] + forcedCleanups;
      needsCleanup := true;
    }

    /**
     * The switch of `handle_qmp_return` on the client's state, up to the
     * queued terminate check.
     */
    method AnswerReturn(c: Client, status: Option<string>, error: bool, env: Env)
      requires Valid()
      modifies c`state, c`pidfd, c`timeout, this`forcedCleanups, this`needsCleanup, this`effects
      ensures Valid()
      ensures c.Fields() == CS.Answered(old(c.Fields()), status, error)
      ensures !CS.TerminatesOn(old(c.Fields()), status, error) || env.pidfd == NoProcess ==>
        && c.pidfd == old(c.pidfd) && c.timeout == old(c.timeout)
        && forcedCleanups == old(forcedCleanups) && needsCleanup == old(needsCleanup)
        && effects == old(effects)
      ensures CS.TerminatesOn(old(c.Fields()), status, error) && env.pidfd != NoProcess ==>
        && c.pidfd == StoredPidfd(env.pidfd) && c.timeout == env.now + killTimeout
        && forcedCleanups == [c] + old(forcedCleanups) && needsCleanup
        && effects == old(effects) + [Send(c.fd, CS.Quit)] + (if env.quitWritten then [] else [Kill(c.pid, SigTerm)])
    {
      if error {
        c.state := CS.Idle;
      } else {
        var active := CS.IsActive(status);
        match c.state
        case ExpectStatusResp =>
          c.state := CS.Idle;
          if !active && !c.backup {
            TerminateClient(c, env);
          }
        case Handshake =>
          c.state := CS.Idle;
        case Terminating =>
        case Idle =>
      }
    }

    /**
     * What `handle_qmp_return` does: the client's flags and QMP writes are
     * those of `ClientState.QmpReturn`; when that step terminates the client
     * and its process still exists, what `terminate_client` does is added;
     * otherwise pidfd, deadline and forced-cleanup list stay as they were.
     */
    twostate predicate Returned(c: Client, status: Option<string>, error: bool, env: Env)
      reads *
    {
      var s := CS.QmpReturn(old(c.Fields()), status, error);
      && c.Fields() == s.flags
      && (!s.terminate || env.pidfd == NoProcess ==>
            && c.pidfd == old(c.pidfd) && c.timeout == old(c.timeout)
            && forcedCleanups == old(forcedCleanups) && needsCleanup == old(needsCleanup)
            && effects == old(effects) + Sends(c.fd, s.sent))
      && (s.terminate && env.pidfd != NoProcess ==>
            && c.pidfd == StoredPidfd(env.pidfd) && c.timeout == env.now + killTimeout
            && forcedCleanups == [c] + old(forcedCleanups) && needsCleanup
            && effects == old(effects) + [Send(c.fd, CS.Quit)] + (if env.quitWritten then [] else [Kill(c.pid, SigTerm)]))
    }

    /** `handle_qmp_return`, proved against `ClientState.QmpReturn`. */
    method HandleQmpReturn(c: Client, status: Option<string>, error: bool, env: Env)
      requires Valid()
      modifies c`state, c`termCheckQueued, c`pidfd, c`timeout
      modifies this`forcedCleanups, this`needsCleanup, this`effects
      ensures Valid()
      ensures Returned(c, status, error, env)
    {
      ghost var f := c.Fields();
      ghost var e := effects;
      AnswerReturn(c, status, error, env);
      assert c.Fields() == CS.Answered(f, status, error);
      if c.termCheckQueued {
        TerminateCheck(c);
      }
    }

    /** The VM client registered under the vmid a vzdump handshake names, if any. */
    function Registered(vmid: Option<string>): Option<Client>
      reads this
    {
      if vmid.Some? && vmid.value in vmClients then Some(vmClients[vmid.value]) else None
    }

    /**
     * `handle_vzdump_handshake`: the client becomes IDLE and records the
     * vmid when one is given; a vmid naming a registered VM sets exactly
     * that VM's backup flag and makes the client a vzdump client. No other
     * flag of the client or of any VM changes, nor the client's QEMU vmid,
     * pidfd or deadline.
     */
    method HandleVzdumpHandshake(c: Client, vmid: Option<string>)
      modifies c`state, c`backupVmid, c`kind, vmClients.Values`backup
      ensures c.Fields() == old(c.Fields()).(state := CS.Idle, backup := c.backup)
      ensures c.backup == (old(c.backup) || old(Registered(vmid)) == Some(c))
      ensures c.backupVmid == (if vmid.Some? then vmid.value else old(c.backupVmid))
      ensures c.kind == (if old(Registered(vmid)).Some? then Vzdump else old(c.kind))
      ensures c.vmid == old(c.vmid) && c.pidfd == old(c.pidfd) && c.timeout == old(c.timeout)
      ensures forall v :: v in old(vmClients.Values) ==> v.backup == (old(v.backup) || old(Registered(vmid)) == Some(v))
      ensures forall v :: v in old(vmClients.Values) && v != c ==> v.Fields() == old(v.Fields()).(backup := v.backup)
    {
      c.state := CS.Idle;
      if vmid.Some? {
        StartBackup(c, vmid.value);
      }
    }

    /**
     * The rest of `handle_vzdump_handshake` once the handshake names a vmid:
     * the client records it, and when a VM is registered under it, that VM's
     * backup flag is set and the client becomes a vzdump client.
     */
    method StartBackup(c: Client, vmid: string)
      modifies c`backupVmid, c`kind, vmClients.Values`backup
      ensures c.backupVmid == vmid
      ensures c.kind == (if old(Registered(Some(vmid))).Some? then Vzdump else old(c.kind))
      ensures forall v :: v in old(vmClients.Values) ==> v.backup == (old(v.backup) || old(Registered(Some(vmid))) == Some(v))
      ensures c.backup == (old(c.backup) || old(Registered(Some(vmid))) == Some(c))
    {
      c.backupVmid := vmid;
      if vmid in vmClients {
        var vmc := vmClients[vmid];
        vmc.backup := true;
        c.kind := Vzdump;
      }
    }

    /** The VM whose backup ends when `c` is cleaned up: the registered VM a vzdump client names. */
    function BackedUp(c: Client): Option<Client>
      reads this, c
    {
      if c.kind == Vzdump && c.backupVmid in vmClients then Some(vmClients[c.backupVmid]) else None
    }

    /**
     * The part of `cleanup_client` that depends on the client's type: a QEMU
     * client's vmid is removed from `vm_clients` and `qm cleanup` runs with
     * its graceful and guest flags; a vzdump client clears the backup flag
     * of its VM and runs a terminate check on it.
     */
    method Unregister(c: Client)
      modifies this`vmClients, this`effects
      modifies vmClients.Values`backup, vmClients.Values`state, vmClients.Values`termCheckQueued
      ensures c.kind == Qemu ==>
        && vmClients == old(vmClients) - {c.vmid}
        && effects == old(effects) + [RunCleanup(c.vmid, c.graceful, c.guest)]
      ensures c.kind == Vzdump && c.backupVmid in old(vmClients) ==>
        var vmc := old(vmClients)[c.backupVmid];
        var s := CS.TerminateCheck(old(vmc.Fields()).(backup := false));
        && vmClients == old(vmClients)
        && vmc.Fields() == s.flags
        && effects == old(effects) + Sends(vmc.fd, s.sent)
      ensures (c.kind == NoType || (c.kind == Vzdump && c.backupVmid !in old(vmClients))) ==>
        vmClients == old(vmClients) && effects == old(effects)
      ensures forall v :: v in old(vmClients.Values) && Some(v) != old(BackedUp(c)) ==> v.Fields() == old(v.Fields())
    {
      match c.kind {
        case Qemu =>
          vmClients := vmClients - {c.vmid};
          effects := effects + [RunCleanup(c.vmid, c.graceful, c.guest)];
        case Vzdump =>
          if c.backupVmid in vmClients {
            var vmc := vmClients[c.backupVmid];
            vmc.backup := false;
            TerminateCheck(vmc);
          }
        case NoType =>
      }
    }

    /**
     * `cleanup_client`: the client is disconnected and its socket closed;
     * it is unregistered as `Unregister` says (a QEMU client's vmid leaves
     * `vm_clients` and `qm cleanup` runs; the VM a vzdump client backs up
     * loses its backup flag and gets a terminate check, and no other VM
     * changes); a stored pidfd is closed; the client's first entry leaves
     * the forced-cleanup list.
     */
    method CleanupClient(c: Client)
      requires Valid()
      modifies this`connections, this`vmClients, this`forcedCleanups, this`effects
      modifies vmClients.Values`backup, vmClients.Values`state, vmClients.Values`termCheckQueued
      ensures Valid()
      ensures connections == old(connections) - {c}
        && forcedCleanups == RemoveFirst(old(forcedCleanups), c) && needsCleanup == old(needsCleanup)
        && vmClients == (if c.kind == Qemu then old(vmClients) - {c.vmid} else old(vmClients))
      ensures c.kind == Qemu ==>
        effects == old(effects) + [Close(c.fd), RunCleanup(c.vmid, c.graceful, c.guest)] + PidfdClose(c.pidfd)
      ensures c.kind != Qemu && old(BackedUp(c)).None? ==>
        effects == old(effects) + [Close(c.fd)] + PidfdClose(c.pidfd)
      ensures old(BackedUp(c)).Some? ==>
        var vmc := old(BackedUp(c)).value;
        var s := CS.TerminateCheck(old(vmc.Fields()).(backup := false));
        vmc.Fields() == s.flags && effects == old(effects) + [Close(c.fd)] + Sends(vmc.fd, s.sent) + PidfdClose(c.pidfd)
      ensures forall v :: v in old(vmClients.Values) && Some(v) != old(BackedUp(c)) ==> v.Fields() == old(v.Fields())
    {
      connections := connections - {c};
      forcedCleanups := RemoveFirst(forcedCleanups, c);
      effects := effects + [Close(c.fd)];
      Unregister(c);
      effects := effects + PidfdClose(c.pidfd);
    }

    /** `cleanup_client` as a change of the view: `CleanedUp`. */
    method CleanupStep(c: Client, ghost watched: set<Client>)
      requires Valid() && Covers(c, ViewFrom(c, watched))
      modifies this`connections, this`vmClients, this`forcedCleanups, this`effects
      modifies vmClients.Values`backup, vmClients.Values`state, vmClients.Values`termCheckQueued
      ensures Valid()
      ensures ViewFrom(c, watched) == CleanedUp(c, old(ViewFrom(c, watched)))
    {
      ghost var a := View(c.Fields(), c.kind, c.vmid, c.backupVmid, c.pidfd, c.timeout, connections, vmClients,
                          FlagsMap(watched - {c}), forcedCleanups, needsCleanup, effects);
      assert a == ViewFrom(c, watched);
      assert BackedUp(c) == BackupOf(a);
      CleanupClient(c);
      ghost var b := View(c.Fields(), c.kind, c.vmid, c.backupVmid, c.pidfd, c.timeout, connections, vmClients,
                          FlagsMap(watched - {c}), forcedCleanups, needsCleanup, effects);
      assert b == ViewFrom(c, watched);
      forall v | v in a.others && Some(v) != BackupOf(a)
        ensures b.others[v] == a.others[v]
      {
      }
      CleanedUpExactly(c, a, b);
    }

    /** The end of `handle_qmp_handshake` when no VMID was found: the text "0" is stored and the client cleaned up. */
    method RejectHandshake(c: Client, ghost watched: set<Client>)
      requires Valid() && Covers(c, ViewFrom(c, watched))
      modifies c`vmid, this`connections, this`vmClients, this`forcedCleanups, this`effects
      modifies vmClients.Values`backup, vmClients.Values`state, vmClients.Values`termCheckQueued
      ensures Valid()
      ensures ViewFrom(c, watched) == CleanedUp(c, old(ViewFrom(c, watched)).(vmid := Show(0)))
    {
      ghost var a := ViewFrom(c, watched);
      c.vmid := Show(0);
      assert ViewFrom(c, watched) == a.(vmid := Show(0));
      CleanupStep(c, watched);
    }

    /** The end of `handle_qmp_handshake` when a VMID was found: the client becomes a QEMU client registered under it and is sent `qmp_capabilities`. */
    method AcceptHandshake(c: Client, vmid: nat, ghost watched: set<Client>)
      requires Valid() && vmid != 0 && Covers(c, ViewFrom(c, watched))
      modifies c`vmid, c`kind, this`vmClients, this`effects
      ensures Valid()
      ensures ViewFrom(c, watched) == Greeted(c, old(ViewFrom(c, watched)), vmid)
    {
      c.vmid := Show(vmid);
      c.kind := Qemu;
      vmClients := vmClients[c.vmid := c];
      effects := effects + [Send(c.fd, CS.QmpCapabilities)];
    }

    /**
     * `handle_qmp_handshake`: the VMID is taken from the process's command
     * line and stored in decimal; VMID 0 cleans the client up; otherwise the
     * client becomes a QEMU client, is registered under its VMID (replacing
     * any earlier entry) and is sent `qmp_capabilities`, and nothing else
     * changes.
     */
    method HandleQmpHandshake(c: Client, cmdline: Option<seq<string>>, ghost watched: set<Client>)
      requires Valid() && Covers(c, ViewFrom(c, watched))
      modifies c`vmid, c`kind, this`connections, this`vmClients, this`forcedCleanups, this`effects
      modifies vmClients.Values`backup, vmClients.Values`state, vmClients.Values`termCheckQueued
      ensures Valid()
      ensures ViewFrom(c, watched) == Greeted(c, old(ViewFrom(c, watched)), VmidOfCmdline(cmdline))
    {
      var vmid := 0;
      if cmdline.Some? {
        vmid := GetVmidFromArgs(cmdline.value);
      }
      if vmid == 0 {
        RejectHandshake(c, watched);
      } else {
        AcceptHandshake(c, vmid, watched);
      }
    }

    /** The daemon as the handlers of `c`'s messages see it, with the flags of the clients in `watched` other than `c`. */
    function ViewFrom(c: Client, watched: set<Client>): View
      reads this, c`state, c`termCheckQueued, c`graceful, c`guest, c`backup
      reads c`kind, c`vmid, c`backupVmid, c`pidfd, c`timeout, watched - {c}
    {
      View(c.Fields(), c.kind, c.vmid, c.backupVmid, c.pidfd, c.timeout, connections, vmClients,
           FlagsMap(watched - {c}), forcedCleanups, needsCleanup, effects)
    }

    /**
     * The dispatch in `handle_client` of one complete message to its
     * handler, by its first known key: what the daemon, the client and the
     * watched clients become is exactly `Step`.
     */
    method Dispatch(c: Client, m: Message, env: Env, ghost watched: set<Client>)
      requires Valid() && Covers(c, ViewFrom(c, watched))
      modifies c`state, c`termCheckQueued, c`graceful, c`guest, c`pidfd, c`timeout, c`vmid, c`backupVmid, c`kind
      modifies this`connections, this`vmClients, this`forcedCleanups, this`needsCleanup, this`effects
      modifies vmClients.Values`backup, vmClients.Values`state, vmClients.Values`termCheckQueued
      ensures Valid()
      ensures connections <= old(connections)
      ensures ViewFrom(c, watched) == Step(c, m, env, killTimeout, old(ViewFrom(c, watched)))
    {
      match m
      case Greeting => HandleQmpHandshake(c, env.cmdline, watched);
      case Event(name, guest) => EventStep(c, name, guest, watched);
      case Return(status) => ReturnStep(c, status, false, env, watched);
      case Error => ReturnStep(c, None, true, env, watched);
      case Backup(vmid) => BackupStep(c, vmid, watched);
      case Ignored =>
    }

    /** `handle_qmp_event` as a change of the view. */
    method EventStep(c: Client, event: Option<string>, guest: Option<bool>, ghost watched: set<Client>)
      modifies c`state, c`termCheckQueued, c`graceful, c`guest, this`effects
      ensures var a := old(ViewFrom(c, watched));
        var s := CS.QmpEvent(a.flags, event, guest);
        ViewFrom(c, watched) == a.(flags := s.flags, effects := a.effects + Sends(c.fd, s.sent))
    {
      ghost var a := ViewFrom(c, watched);
      HandleQmpEvent(c, event, guest);
    }

    /** `handle_qmp_return` as a change of the view: `Answers`. */
    method ReturnStep(c: Client, status: Option<string>, error: bool, env: Env, ghost watched: set<Client>)
      requires Valid()
      modifies c`state, c`termCheckQueued, c`pidfd, c`timeout
      modifies this`forcedCleanups, this`needsCleanup, this`effects
      ensures Valid()
      ensures ViewFrom(c, watched) == Answers(c, old(ViewFrom(c, watched)), status, error, env, killTimeout)
    {
      HandleQmpReturn(c, status, error, env);
    }

    /** `handle_vzdump_handshake` as a change of the view: `Backs`. */
    method BackupStep(c: Client, vmid: Option<string>, ghost watched: set<Client>)
      requires Covers(c, ViewFrom(c, watched))
      modifies c`state, c`backupVmid, c`kind, vmClients.Values`backup
      ensures ViewFrom(c, watched) == Backs(c, old(ViewFrom(c, watched)), vmid)
    {
      ghost var a := ViewFrom(c, watched);
      assert Registered(vmid) == Named(a, vmid);
      HandleVzdumpHandshake(c, vmid);
      ghost var b := ViewFrom(c, watched);
      assert b.(flags := a.flags, kind := a.kind, backupVmid := a.backupVmid, others := a.others) == a;
      forall v | v in a.others
        ensures b.others[v] == a.others[v].(backup := a.others[v].backup || Named(a, vmid) == Some(v))
      {
      }
      BacksExactly(c, a, vmid, b);
    }

    /**
     * One round of the parse loop that found a complete message: its bytes
     * leave the front of the buffer, and it reaches its handler, as `Step`
     * says, only while the client is still connected; otherwise nothing else
     * changes.
     */
    method TakeMessage(c: Client, offset: nat, m: Message, tokenize: seq<bv8> -> Token<Message>, env: Env,
                       ghost watched: set<Client>)
        returns (handled: bool)
      requires Valid() && 0 < c.buflen <= c.buf.Length && WellBehaved(tokenize)
      requires tokenize(c.Pending()) == Parsed(offset, m)
      requires Covers(c, ViewFrom(c, watched))
      modifies c.buf, c`buflen
      modifies c`state, c`termCheckQueued, c`graceful, c`guest, c`pidfd, c`timeout, c`vmid, c`backupVmid, c`kind
      modifies this`connections, this`vmClients, this`forcedCleanups, this`needsCleanup, this`effects
      modifies vmClients.Values`backup, vmClients.Values`state, vmClients.Values`termCheckQueued
      ensures Valid() && c.buflen < old(c.buflen)
      ensures var d := Drain(c.Pending(), c.buf.Length, tokenize);
        Drain(old(c.Pending()), c.buf.Length, tokenize) == Drained([m] + d.msgs, d.rest)
      ensures handled <==> c in old(connections)
      ensures handled ==> ViewFrom(c, watched) == Step(c, m, env, killTimeout, old(ViewFrom(c, watched)))
      ensures !handled ==> ViewFrom(c, watched) == old(ViewFrom(c, watched))
      ensures connections <= old(connections)
    {
      ghost var before := ViewFrom(c, watched);
      c.Consume(offset);
      ghost var after := c.Pending();
      assert ViewFrom(c, watched) == before;
      handled := c in connections;
      if handled {
        Dispatch(c, m, env, watched);
      }
      assert c.Pending() == after;
    }

    /**
     * The parse loop's last round when no complete message is at the front:
     * an incomplete message stays, unless it fills the whole buffer, and a
     * malformed one is dropped with whatever follows it.
     */
    method StopParsing(c: Client, tokenize: seq<bv8> -> Token<Message>)
      requires 0 < c.buflen <= c.buf.Length && WellBehaved(tokenize)
      requires !tokenize(c.Pending()).Parsed?
      modifies c.buf, c`buflen
      ensures c.buflen <= c.buf.Length
      ensures Drain(old(c.Pending()), c.buf.Length, tokenize) == Drained([], c.Pending())
      ensures Drain(c.Pending(), c.buf.Length, tokenize) == Drained([], c.Pending())
    {
      match tokenize(c.Pending())
      case Incomplete =>
        if c.buflen >= c.buf.Length {
          c.Discard(c.buf.Length);
        }
      case Malformed =>
        c.Discard(c.buflen);
    }

    /**
     * The parse loop's bookkeeping: what is dispatched and what is still
     * buffered account for the whole of `Drain` on the buffer as it was;
     * messages reach their handlers only while the client is connected; and
     * the daemon is where `Steps` takes the dispatched messages from `start`.
     */
    ghost predicate Accounted(c: Client, tokenize: seq<bv8> -> Token<Message>, env: Env, watched: set<Client>, start: View,
                              pending: seq<bv8>, processed: seq<Message>, dispatched: seq<Message>)
      reads this, c, c.buf, watched
      requires c.buflen <= c.buf.Length && WellBehaved(tokenize) && Covers(c, start)
    {
      var d := Drain(c.Pending(), c.buf.Length, tokenize);
      && Drain(pending, c.buf.Length, tokenize) == Drained(processed + d.msgs, d.rest)
      && dispatched <= processed
      && (c in connections ==> dispatched == processed)
      && ViewFrom(c, watched) == Steps(c, dispatched, env, killTimeout, start)
      && HandledWhileConnected(c, dispatched, env, killTimeout, start)
    }

    /**
     * One round of the parse loop: a complete message at the front is taken
     * as `TakeMessage` says and the loop goes on; otherwise the loop stops
     * as `StopParsing` says.
     */
    method ParseRound(c: Client, tokenize: seq<bv8> -> Token<Message>, env: Env, ghost watched: set<Client>, ghost start: View,
                      ghost pending: seq<bv8>, ghost processed: seq<Message>, ghost dispatched: seq<Message>)
        returns (more: bool, ghost processed': seq<Message>, ghost dispatched': seq<Message>)
      requires Valid() && 0 < c.buflen <= c.buf.Length && WellBehaved(tokenize)
      requires Covers(c, start)
      requires Accounted(c, tokenize, env, watched, start, pending, processed, dispatched)
      modifies c.buf, c`buflen
      modifies c`state, c`termCheckQueued, c`graceful, c`guest, c`pidfd, c`timeout, c`vmid, c`backupVmid, c`kind
      modifies this`connections, this`vmClients, this`forcedCleanups, this`needsCleanup, this`effects
      modifies vmClients.Values`backup, vmClients.Values`state, vmClients.Values`termCheckQueued
      ensures Valid() && c.buflen <= c.buf.Length
      ensures more ==> c.buflen < old(c.buflen)
      ensures Accounted(c, tokenize, env, watched, start, pending, processed', dispatched')
      ensures !more ==> Drain(c.Pending(), c.buf.Length, tokenize) == Drained([], c.Pending())
      ensures connections <= old(connections)
    {
      ghost var before := Drain(c.Pending(), c.buf.Length, tokenize);
      match tokenize(c.Pending())
      case Parsed(offset, m) =>
        var handled := TakeMessage(c, offset, m, tokenize, env, watched);
        ghost var after := Drain(c.Pending(), c.buf.Length, tokenize);
        assert before == Drained([m] + after.msgs, after.rest);
        assert processed + before.msgs == (processed + [m]) + after.msgs;
        more, processed' := true, processed + [m];
        dispatched' := if handled then dispatched + [m] else dispatched;
        if handled {
          HandledSnoc(c, dispatched, m, env, killTimeout, start);
        }
        assert handled ==> dispatched'[..|dispatched'| - 1] == dispatched;
      case _ =>
        StopParsing(c, tokenize);
        more, processed', dispatched' := false, processed, dispatched;
    }

    /**
     * `handle_client`: one `read` into the free part of the buffer (a read
     * error other than EAGAIN, or end of file, cleans the client up), then
     * the parse loop, which compacts the buffer in place exactly as `Drain`
     * describes and hands each complete message to its handler, which
     * changes the daemon as `Steps` says.
     */
    method HandleClient(c: Client, read: ReadResult, tokenize: seq<bv8> -> Token<Message>, env: Env)
        returns (ghost dispatched: seq<Message>)
      requires Valid() && c in connections && c.BufferValid() && WellBehaved(tokenize)
      modifies c.buf, c`buflen
      modifies c`state, c`termCheckQueued, c`graceful, c`guest, c`backup, c`pidfd, c`timeout, c`vmid, c`backupVmid, c`kind
      modifies this`connections, this`vmClients, this`forcedCleanups, this`needsCleanup, this`effects
      modifies vmClients.Values`backup, vmClients.Values`state, vmClients.Values`termCheckQueued
      ensures Valid() && c.BufferValid()
      ensures connections <= old(connections)
      ensures read.ReadError? ==>
        c.buflen == old(c.buflen) && (connections == old(connections) - {c} <==> !read.wouldBlock)
      ensures read.Readable? && read.waiting == [] ==> c.buflen == old(c.buflen) && connections == old(connections) - {c}
      ensures read == ReadError(true) ==>
        && c.Pending() == old(c.Pending()) && c.Fields() == old(c.Fields()) && dispatched == []
        && c.kind == old(c.kind) && c.vmid == old(c.vmid) && c.backupVmid == old(c.backupVmid)
        && c.pidfd == old(c.pidfd) && c.timeout == old(c.timeout)
        && connections == old(connections) && vmClients == old(vmClients)
        && forcedCleanups == old(forcedCleanups) && needsCleanup == old(needsCleanup) && effects == old(effects)
      ensures read == ReadError(true) ==> forall v :: v in old(vmClients.Values) ==> v.Fields() == old(v.Fields())
      ensures (read == ReadError(false) || read == Readable([])) ==>
        && c.Pending() == old(c.Pending()) && dispatched == []
        && ViewFrom(c, old(vmClients.Values)) == CleanedUp(c, old(ViewFrom(c, vmClients.Values)))
      ensures read.Readable? && read.waiting != [] ==>
        var d := Drain(old(c.Pending()) + ReadChunk(read.waiting, old(c.buflen), c.buf.Length), c.buf.Length, tokenize);
        && c.Pending() == d.rest
        && dispatched <= d.msgs
        && (c in connections ==> dispatched == d.msgs)
        && ViewFrom(c, old(vmClients.Values)) == Steps(c, dispatched, env, killTimeout, old(ViewFrom(c, vmClients.Values)))
        && HandledWhileConnected(c, dispatched, env, killTimeout, old(ViewFrom(c, vmClients.Values)))
    {
      dispatched := [];
      match read
      case ReadError(wouldBlock) =>
        if !wouldBlock {
          CleanupStep(c, vmClients.Values);
        }
      case Readable(waiting) =>
        var chunk := ReadChunk(waiting, c.buflen, c.buf.Length);
        if |chunk| == 0 {
          CleanupStep(c, vmClients.Values);
        } else {
          dispatched := Receive(c, chunk, tokenize, env);
        }
    }

    /**
     * The part of `handle_client` after a successful `read`: the bytes read
     * are appended to the buffer and the parse loop runs on it.
     */
    method Receive(c: Client, chunk: seq<bv8>, tokenize: seq<bv8> -> Token<Message>, env: Env)
        returns (ghost dispatched: seq<Message>)
      requires Valid() && 0 < c.buf.Length && c.buflen + |chunk| <= c.buf.Length && WellBehaved(tokenize)
      modifies c.buf, c`buflen
      modifies c`state, c`termCheckQueued, c`graceful, c`guest, c`backup, c`pidfd, c`timeout, c`vmid, c`backupVmid, c`kind
      modifies this`connections, this`vmClients, this`forcedCleanups, this`needsCleanup, this`effects
      modifies vmClients.Values`backup, vmClients.Values`state, vmClients.Values`termCheckQueued
      ensures Valid() && c.BufferValid()
      ensures connections <= old(connections)
      ensures var d := Drain(old(c.Pending()) + chunk, c.buf.Length, tokenize);
        && c.Pending() == d.rest
        && dispatched <= d.msgs
        && (c in connections ==> dispatched == d.msgs)
        && ViewFrom(c, old(vmClients.Values)) == Steps(c, dispatched, env, killTimeout, old(ViewFrom(c, vmClients.Values)))
        && HandledWhileConnected(c, dispatched, env, killTimeout, old(ViewFrom(c, vmClients.Values)))
    {
      ghost var view := ViewFrom(c, vmClients.Values);
      c.Append(chunk);
      assert ViewFrom(c, old(vmClients.Values)) == view;
      dispatched := ParseBuffer(c, tokenize, env);
    }

    /**
     * The parse loop of `handle_client`: exactly as `Drain` describes, the
     * buffer is compacted in place after each complete message, and each
     * message goes to its handler while the client is still connected; the
     * daemon, the client and the VMs registered at the start change as
     * `Steps` takes the dispatched messages.
     */
    method ParseBuffer(c: Client, tokenize: seq<bv8> -> Token<Message>, env: Env) returns (ghost dispatched: seq<Message>)
      requires Valid() && 0 < c.buf.Length && c.buflen <= c.buf.Length && WellBehaved(tokenize)
      modifies c.buf, c`buflen
      modifies c`state, c`termCheckQueued, c`graceful, c`guest, c`backup, c`pidfd, c`timeout, c`vmid, c`backupVmid, c`kind
      modifies this`connections, this`vmClients, this`forcedCleanups, this`needsCleanup, this`effects
      modifies vmClients.Values`backup, vmClients.Values`state, vmClients.Values`termCheckQueued
      ensures Valid() && c.BufferValid()
      ensures connections <= old(connections)
      ensures c.Pending() == Drain(old(c.Pending()), c.buf.Length, tokenize).rest
      ensures dispatched <= Drain(old(c.Pending()), c.buf.Length, tokenize).msgs
      ensures c in connections ==> dispatched == Drain(old(c.Pending()), c.buf.Length, tokenize).msgs
      ensures ViewFrom(c, old(vmClients.Values)) == Steps(c, dispatched, env, killTimeout, old(ViewFrom(c, vmClients.Values)))
      ensures HandledWhileConnected(c, dispatched, env, killTimeout, old(ViewFrom(c, vmClients.Values)))
    {
      ghost var watched := vmClients.Values;
      ghost var start := ViewFrom(c, watched);
      ghost var pending := c.Pending();
      ghost var processed: seq<Message> := [];
      dispatched := [];
      var success := true;
      while success && c.buflen != 0
        invariant Valid() && c.buflen <= c.buf.Length
        invariant Accounted(c, tokenize, env, watched, start, pending, processed, dispatched)
        invariant !success ==> Drain(c.Pending(), c.buf.Length, tokenize) == Drained([], c.Pending())
        invariant connections <= old(connections)
        decreases c.buflen + if success then 1 else 0
      {
        success, processed, dispatched := ParseRound(c, tokenize, env, watched, start, pending, processed, dispatched);
      }
    }

    /**
     * `sigkill` on one entry of the forced-cleanup list: a client whose
     * deadline has not passed is left alone; otherwise it is sent SIGKILL
     * (by pidfd, which is then closed and reset to -1, or by pid), its
     * timeout is cleared and its first entry leaves the list.
     */
    method SigKill(c: Client, now: int)
      modifies c`pidfd, c`timeout, this`forcedCleanups, this`effects
      ensures !old(Expired(c.timeout, now)) ==>
        c.pidfd == old(c.pidfd) && c.timeout == old(c.timeout) &&
        forcedCleanups == old(forcedCleanups) && effects == old(effects)
      ensures old(Expired(c.timeout, now)) ==>
        && c.pidfd == AfterKill(old(c.pidfd)) && c.timeout == 0
        && forcedCleanups == RemoveFirst(old(forcedCleanups), c)
        && effects == old(effects) + KillEffects(old(c.pidfd), c.pid)
    {
      if c.timeout != 0 && c.timeout > now {
        return;
      }
      effects := effects + KillEffects(c.pidfd, c.pid);
      if c.pidfd > 0 {
        c.pidfd := -1;
      }
      c.timeout := 0;
      forcedCleanups := RemoveFirst(forcedCleanups, c);
    }

    /** One step of the sweep: `sigkill` on the entry at index `i`. */
    method SweepAt(ghost snapshot: seq<Client>, i: nat, c: Client, ghost timeout: map<Client, int>,
                   ghost pidfd: map<Client, int>, ghost effects0: seq<Effect>, ghost done: set<Client>, now: int)
        returns (ghost done': set<Client>)
      requires i < |snapshot| && c == snapshot[i]
      requires forcedCleanups == Kept(snapshot, i, timeout, now) + snapshot[i..]
      requires effects == effects0 + Swept(snapshot, i, timeout, pidfd, now)
      requires done == Due(snapshot, i, timeout, now)
      requires forall d :: d in snapshot ==>
        if d in done then d.timeout == 0 && d.pidfd == AfterKill(At(pidfd, d))
        else d.timeout == At(timeout, d) && d.pidfd == At(pidfd, d)
      modifies this`forcedCleanups, this`effects, c`pidfd, c`timeout
      ensures forcedCleanups == Kept(snapshot, i + 1, timeout, now) + snapshot[i + 1..]
      ensures effects == effects0 + Swept(snapshot, i + 1, timeout, pidfd, now)
      ensures done' == Due(snapshot, i + 1, timeout, now)
      ensures forall d :: d in snapshot ==>
        if d in done' then d.timeout == 0 && d.pidfd == AfterKill(At(pidfd, d))
        else d.timeout == At(timeout, d) && d.pidfd == At(pidfd, d)
    {
      ghost var due := Expired(At(timeout, c), now);
      KeptStep(snapshot, i, timeout, now);
      SweptStep(snapshot, i, timeout, pidfd, effects0, now);
      DueStep(snapshot, i, timeout, now);
      assert Expired(c.timeout, now) == due by {
        assert c in snapshot;
      }
      assert due ==> KillEffects(c.pidfd, c.pid) == KillEffects(if c in done then -1 else At(pidfd, c), c.pid) by {
        assert c in snapshot;
      }
      assert c in done ==> due;
      SigKill(c, now);
      done' := if due then done + {c} else done;
      forall d | d in snapshot
        ensures if d in done' then d.timeout == 0 && d.pidfd == AfterKill(At(pidfd, d))
                else d.timeout == At(timeout, d) && d.pidfd == At(pidfd, d)
      {
        if d != c {
          assert d.timeout == old(d.timeout) && d.pidfd == old(d.pidfd);
          assert d in done' <==> d in done;
        }
      }
    }

    /**
     * `handle_forced_cleanup`: `sigkill` on every entry of the list as it
     * stood at the start of the sweep, then `needs_cleanup` records whether
     * entries are left.
     */
    method HandleForcedCleanup(now: int)
      requires Valid()
      modifies this`forcedCleanups, this`needsCleanup, this`effects
      modifies forcedCleanups`pidfd, forcedCleanups`timeout
      ensures forcedCleanups == old(Remaining(forcedCleanups, now))
      ensures needsCleanup <==> forcedCleanups != []
      ensures effects == old(effects) + old(SweepEffects(forcedCleanups, now))
      ensures forall d :: d in old(forcedCleanups) ==>
        if old(Expired(d.timeout, now)) then
          d.timeout == 0 && d.pidfd == AfterKill(old(d.pidfd))
        else
          d.timeout == old(d.timeout) && d.pidfd == old(d.pidfd)
      ensures Valid()
    {
      var snapshot := forcedCleanups;
      ghost var timeout := Timeouts(snapshot);
      ghost var pidfd := Pidfds(snapshot);
      SweepAll(snapshot, timeout, pidfd, now);
      DueMembers(snapshot, |snapshot|, timeout, now);
      forall d | d in old(forcedCleanups)
        ensures if old(Expired(d.timeout, now)) then d.timeout == 0 && d.pidfd == AfterKill(old(d.pidfd))
                else d.timeout == old(d.timeout) && d.pidfd == old(d.pidfd)
      {
        assert At(timeout, d) == old(d.timeout) && At(pidfd, d) == old(d.pidfd);
        assert d in snapshot[..|snapshot|];
      }
      needsCleanup := |forcedCleanups| > 0;
    }

    /**
     * The loop of `handle_forced_cleanup`: `sigkill` on each entry of
     * `snapshot`, the list as it stood before the sweep, whose entries had
     * the given timeouts and pidfds.
     */
    method SweepAll(snapshot: seq<Client>, ghost timeout: map<Client, int>, ghost pidfd: map<Client, int>, now: int)
      requires forcedCleanups == snapshot
      requires forall d :: d in snapshot ==> d.timeout == At(timeout, d) && d.pidfd == At(pidfd, d)
      modifies this`forcedCleanups, this`effects, snapshot`pidfd, snapshot`timeout
      ensures forcedCleanups == Kept(snapshot, |snapshot|, timeout, now)
      ensures effects == old(effects) + Swept(snapshot, |snapshot|, timeout, pidfd, now)
      ensures forall d :: d in snapshot ==>
        if d in Due(snapshot, |snapshot|, timeout, now) then d.timeout == 0 && d.pidfd == AfterKill(At(pidfd, d))
        else d.timeout == At(timeout, d) && d.pidfd == At(pidfd, d)
    {
      ghost var effects0 := effects;
      ghost var done: set<Client> := {};
      assert [] + snapshot[0..] == snapshot && effects0 + [] == effects0;
      var i := 0;
      while i < |snapshot|
        invariant i <= |snapshot|
        invariant forcedCleanups == Kept(snapshot, i, timeout, now) + snapshot[i..]
        invariant effects == effects0 + Swept(snapshot, i, timeout, pidfd, now)
        invariant done == Due(snapshot, i, timeout, now)
        invariant forall d :: d in snapshot ==>
          if d in done then d.timeout == 0 && d.pidfd == AfterKill(At(pidfd, d))
          else d.timeout == At(timeout, d) && d.pidfd == At(pidfd, d)
      {
        done := SweepAt(snapshot, i, snapshot[i], timeout, pidfd, effects0, done, now);
        i := i + 1;
      }
      assert snapshot[i..] == [] && Kept(snapshot, i, timeout, now) + [] == Kept(snapshot, i, timeout, now);
    }
  }
}
