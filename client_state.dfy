/**
 * The per-client QMP state machine of qmeventd, on values: what the
 * handlers `terminate_check`, `handle_qmp_event` and `handle_qmp_return`
 * do to a QEMU client's state and flags, and which QMP commands they send.
 * The `Client`/`Daemon` classes in module QmEventd are proved against these
 * functions.
 */
module ClientState {
  import opened Wrappers

  datatype State = Handshake | Idle | ExpectStatusResp | Terminating

  /** The QMP commands qmeventd sends. */
  datatype Command = QmpCapabilities | QueryStatus | Quit

  /** The fields of a QEMU client that the QMP handlers read and write. */
  datatype Flags = Flags(
    state: State,
    termCheckQueued: bool,
    graceful: bool,
    guest: bool,
    backup: bool)

  /**
   * The result of one handler: the new flags, the commands sent on the QMP
   * socket, and whether `terminate_client` was called.
   */
  datatype Step = Step(flags: Flags, sent: seq<Command>, terminate: bool)

  /** The run states in which QEMU counts as active. */
  const ActiveStatuses: set<string> := {"running", "paused", "suspended", "prelaunch"}

  /** The `active` test of `handle_qmp_return`: a status is present and is one of the four run states. */
  predicate IsActive(status: Option<string>)
  {
    status.Some? &&
    (status.value == "running" || status.value == "paused" ||
     status.value == "suspended" || status.value == "prelaunch")
  }

  lemma IsActiveExactly(status: Option<string>)
    ensures IsActive(status) <==> status.Some? && status.value in ActiveStatuses
  {
  }

  /**
   * `terminate_check`: when the client is busy the check is only queued;
   * when it is idle the queue flag is cleared, a `query-status` is sent and
   * the client waits for the answer.
   */
  function TerminateCheck(f: Flags): (s: Step)
    ensures !s.terminate
    ensures s.sent == [] || s.sent == [QueryStatus]
    ensures s.sent == [QueryStatus] <==> f.state == Idle
    ensures s.flags.termCheckQueued <==> s.sent == []
    ensures s.flags.state == (if f.state == Idle then ExpectStatusResp else f.state)
    ensures s.flags.(state := f.state, termCheckQueued := f.termCheckQueued) == f
  {
    if f.state != Idle then
      Step(f.(termCheckQueued := true), [], false)
    else
      Step(f.(termCheckQueued := false, state := ExpectStatusResp), [QueryStatus], false)
  }

  /** Whether `handle_qmp_event` acts on an event: one is present, it is SHUTDOWN, and the client is not terminating. */
  predicate ShutdownSeen(f: Flags, event: Option<string>)
  {
    event == Some("SHUTDOWN") && f.state != Terminating
  }

  /**
   * `handle_qmp_event`: a SHUTDOWN outside TERMINATING marks the shutdown
   * graceful, takes `guest` from the event's data when present, and runs a
   * terminate check; anything else leaves the client as it is.
   */
  function QmpEvent(f: Flags, event: Option<string>, guest: Option<bool>): (s: Step)
    ensures !s.terminate
    ensures !ShutdownSeen(f, event) ==> s == Step(f, [], false)
    ensures ShutdownSeen(f, event) ==>
      && s.flags.graceful
      && s.flags.guest == guest.GetOr(f.guest)
      && s == TerminateCheck(f.(graceful := true, guest := guest.GetOr(f.guest)))
    ensures s.flags.backup == f.backup
    ensures f.graceful ==> s.flags.graceful
  {
    if event.None? || f.state == Terminating then
      Step(f, [], false)
    else if event.value == "SHUTDOWN" then
      var g := f.(graceful := true, guest := if guest.Some? then guest.value else f.guest);
      TerminateCheck(g)
    else
      Step(f, [], false)
  }

  /** Whether a QMP return makes `handle_qmp_return` call `terminate_client`. */
  predicate TerminatesOn(f: Flags, status: Option<string>, error: bool)
  {
    !error && f.state == ExpectStatusResp && !IsActive(status) && !f.backup
  }

  /**
   * `handle_qmp_return`: an error return makes the client idle; the answer
   * to `query-status` makes it idle, or terminates it when QEMU is no longer
   * active and no backup runs; the return that completes the handshake
   * makes it idle; in TERMINATING or IDLE nothing changes. A queued
   * terminate check is then run.
   */
  function QmpReturn(f: Flags, status: Option<string>, error: bool): (s: Step)
    ensures s.terminate <==> TerminatesOn(f, status, error)
    ensures s.flags.state != Handshake
    ensures s.flags.termCheckQueued ==> s.flags.state == Terminating
    ensures s.terminate ==> s.flags.state == Terminating && s.sent == []
    ensures s.sent == [] || s.sent == [QueryStatus]
    ensures s.sent == [QueryStatus] <==> s.flags.state == ExpectStatusResp
    ensures s.sent == [QueryStatus] ==> f.termCheckQueued
    ensures error ==> s.flags.state == if f.termCheckQueued then ExpectStatusResp else Idle
    ensures !error && f.state == Terminating ==> s.flags.state == Terminating
    ensures !error && f.state in {Handshake, Idle} ==>
      s.flags.state == if f.termCheckQueued then ExpectStatusResp else Idle
    ensures !error && f.state == ExpectStatusResp && !s.terminate ==>
      s.flags.state == if f.termCheckQueued then ExpectStatusResp else Idle
    ensures s.flags.termCheckQueued <==> f.termCheckQueued && s.flags.state == Terminating
    ensures (s.flags.graceful, s.flags.guest, s.flags.backup) == (f.graceful, f.guest, f.backup)
  {
    var g := Answered(f, status, error);
    if g.termCheckQueued then TerminateCheck(g).(terminate := TerminatesOn(f, status, error))
    else Step(g, [], TerminatesOn(f, status, error))
  }

  /** The flags `handle_qmp_return` leaves before it runs a queued terminate check. */
  function Answered(f: Flags, status: Option<string>, error: bool): (g: Flags)
    ensures g.state == Idle || g.state == Terminating
    ensures g.state == Terminating <==> TerminatesOn(f, status, error) || (!error && f.state == Terminating)
    ensures g == f.(state := g.state)
  {
    if error then f.(state := Idle)
    else match f.state
      case ExpectStatusResp => f.(state := if TerminatesOn(f, status, error) then Terminating else Idle)
      case Handshake => f.(state := Idle)
      case Terminating => f
      case Idle => f
  }

  /** Queued checks only ever wait for a busy client. */
  predicate Consistent(f: Flags)
  {
    f.termCheckQueued ==> f.state != Idle
  }

  /** The QMP handlers keep `Consistent`; `handle_qmp_return` even establishes it. */
  lemma HandlersKeepConsistent(f: Flags, event: Option<string>, guest: Option<bool>, status: Option<string>, error: bool)
    ensures Consistent(TerminateCheck(f).flags)
    ensures Consistent(f) ==> Consistent(QmpEvent(f, event, guest).flags)
    ensures Consistent(QmpReturn(f, status, error).flags)
  {
  }

  /**
   * A SHUTDOWN seen by an idle client without backup, answered by a status
   * that is not active, ends in `terminate_client`, after exactly one
   * `query-status`.
   */
  lemma ShutdownThenInactiveTerminates(f: Flags, guest: Option<bool>, status: Option<string>)
    requires f.state == Idle && !f.backup && !IsActive(status)
    ensures var s1 := QmpEvent(f, Some("SHUTDOWN"), guest);
      s1.sent == [QueryStatus] && QmpReturn(s1.flags, status, false).terminate
  {
  }

  /**
   * With a backup running, the same exchange leaves QEMU alive; once the
   * backup ends (backup cleared, terminate check) and the status is still
   * not active, the client is terminated.
   */
  lemma BackupDefersTermination(f: Flags, guest: Option<bool>, status: Option<string>)
    requires f.state == Idle && f.backup && !f.termCheckQueued && !IsActive(status)
    ensures var s1 := QmpEvent(f, Some("SHUTDOWN"), guest);
      var s2 := QmpReturn(s1.flags, status, false);
      var s3 := TerminateCheck(s2.flags.(backup := false));
      && !s2.terminate && s2.flags.state == Idle
      && s3.sent == [QueryStatus]
      && QmpReturn(s3.flags, status, false).terminate
  {
  }

  /** An active status never terminates the client, whatever the flags. */
  lemma ActiveNeverTerminates(f: Flags, status: Option<string>, error: bool)
    requires IsActive(status)
    ensures !QmpReturn(f, status, error).terminate
  {
  }
}
