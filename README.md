# qmeventd and query-machine-capabilities, modelled in Dafny

This project models the core of two small helpers of the QEMU server
management stack.

**qmeventd** is a daemon that listens on a socket. Two kinds of peer connect
to it:

- QEMU processes talk QMP (the QEMU Machine Protocol) with it.
- vzdump backup jobs announce which VM they are backing up.

When a VM shuts down, qmeventd asks QEMU for its run status
(`query-status`). Unless the VM is still active or a backup of it is running,
qmeventd sends `quit`, with SIGTERM as a fallback. It remembers the client in
a forced-cleanup list. A later sweep of that list sends SIGKILL to every
process whose deadline has passed. When a QEMU connection closes, qmeventd
runs `qm cleanup <vmid> <graceful> <guest>`.

**query-machine-capabilities** reads the AMD Encrypted Memory Capabilities
CPUID leaf (Fn8000_001F, AMD64 Architecture Programmer's Manual Vol. 3). It
writes what that leaf says about SEV, SEV-ES and SEV-SNP as one line of JSON
to `/run/qemu-server/host-hw-capabilities.json`.

Modules:

- `Wrappers` (wrappers.dfy): `Option`.
- `Decimal` (decimal.dfy): unsigned decimal text, as printed by `%u`/`%lu` and read back by `strtoul`.
- `MachineCapabilities` (machine_capabilities.dfy): the whole of query-machine-capabilities.c, on values.
  - It decodes CPUID.
  - It renders the JSON text and parses it back.
  - It decides what `prepare_output_directory` does.
  - It computes `main`'s exit status, output text and messages from the outcomes of its system calls.
- `VmidParser` (vmid.dfy): `get_vmid_from_pid`'s walk over a QEMU command line.
  - It finds the argument after the first `-pidfile`.
  - It takes that argument's file name after the last `/`.
  - It models C `strtoul` with base 10 and 64-bit `unsigned long`.
  - The walk itself is a method with a loop, proved against `VmidOfArgs`.
- `ClientState` (client_state.dfy): the QMP state machine of one QEMU client, on values.
  - It covers `terminate_check`, `handle_qmp_event` and `handle_qmp_return`.
  - Each handler is a function from the client's flags to new flags, the QMP commands sent, and whether `terminate_client` runs.
- `ReceiveBuffer` (receive_buffer.dfy): `handle_client`'s parse loop, on values (`Drain`).
- `QmClient` (client.dfy): `struct Client` as a class, with its receive buffer as an array.
  - Its methods are `read` appending to the buffer, `memmove` compacting it, and `memset` discarding it.
  - `g_slist_remove` is the function `RemoveFirst`.
- `QmEventd` (qmeventd.dfy): the daemon's global state as the class `Daemon`.
  - The state is `vm_clients`, `forced_cleanups`, `needs_cleanup` and the set of connected clients.
  - Each handler is a method proved against the value-level functions above.
  - `View` is a value holding everything a message handler can change: the client's flags, type, vmids, pidfd and deadline, the daemon's globals, and the flags of the other clients. `Step` gives the view after one message and `Steps` after a batch. The dispatch and the parse loop are proved to change the daemon exactly as these say.
  - The visible actions (QMP writes, `kill`, `pidfd_send_signal`, `close`, running `qm cleanup`) are appended, in order, to an `effects` sequence.
  - The outcomes of the system calls the handlers depend on are parameters (`Env`, `ReadResult`, `now`).

## Model

| member | source | states |
|---|---|---|
| Decimal.Show | qmeventd/qmeventd.c:182 | The `%lu` text of a VMID is canonical decimal (no leading zero) and denotes the number printed; it is a single digit exactly for numbers below 10. |
| Decimal.ShowValue | qmeventd/qmeventd.c:182 | The other half of the round trip: every canonical digit string is the `%lu` text of its value. |
| Decimal.ShowInjective | qmeventd/qmeventd.c:182 | Two different VMIDs never print as the same `vm_clients` key. |
| Decimal.DigitRun | qmeventd/qmeventd.c:127 | The digit run `strtoul` consumes: all its characters are digits and the next character is not. |
| Decimal.DigitRunOf | qmeventd/qmeventd.c:127 | A digit string followed by a non-digit is consumed exactly up to the non-digit. |
| VmidParser.SkipSpaces | qmeventd/qmeventd.c:127 | `strtoul`'s leading-space skip: only `isspace` characters are skipped, and it stops at the first other character. |
| VmidParser.StrToUL | qmeventd/qmeventd.c:125-135 | `strtoul` with base 10, after leading spaces and an optional sign. When no digit follows, `endptr` stays at the start, with value 0 and no error, and only then. Otherwise `endptr` stops right after the digit run. ERANGE is reported exactly when the digits' value exceeds ULONG_MAX, and then ULONG_MAX is returned. Otherwise the value is returned, negated modulo 2^64 after a minus. The result always fits an `unsigned long`. |
| VmidParser.LastSlash | qmeventd/qmeventd.c:113 | `strrchr(buf, '/')`: the index found holds a `/` with none after it; there is none exactly when the text has no `/`. |
| VmidParser.FileName | qmeventd/qmeventd.c:113-118 | The file name exists exactly when the argument has a `/`, and it contains no `/`. |
| VmidParser.PidfileVmid | qmeventd/qmeventd.c:113-137 | A non-zero VMID comes only from a name that is non-empty, does not start with `-`, converts without ERANGE and ends in exactly `.pid`; the VMID is the converted value. |
| VmidParser.FirstPidfile | qmeventd/qmeventd.c:104-107 | The position found is the first `-pidfile` argument; there is none exactly when no argument is `-pidfile`. |
| VmidParser.GetVmidFromArgs | qmeventd/qmeventd.c:104-138 | The loop over the command line returns exactly `VmidOfArgs`: the VMID in the argument after the first `-pidfile`, else 0. |
| VmidParser.VmidOfArgs | qmeventd/qmeventd.c:104-138 | The reference definition the walk is proved equal to: the VMID from the argument after the first `-pidfile`, else 0. It fits an `unsigned long`, and it is non-zero only when some argument is `-pidfile`. |
| VmidParser.ParsePidfile | qmeventd/qmeventd.c:113-137 | The reading of the argument after `-pidfile` gives exactly `PidfileVmid` of it. |
| VmidParser.FirstPidfileAt | qmeventd/qmeventd.c:104-107 | A `-pidfile` with none before it is the one the walk stops at. |
| VmidParser.OnlyFirstPidfileCounts | qmeventd/qmeventd.c:104-138 | Only the first `-pidfile` counts: whatever follows its argument never changes the VMID. |
| VmidParser.TrailingPidfileOption | qmeventd/qmeventd.c:109-111 | A `-pidfile` that is the last argument yields no VMID. |
| VmidParser.NoPidfileNoVmid | qmeventd/qmeventd.c:104-149 | A command line without `-pidfile` yields VMID 0. |
| VmidParser.StrToULShow | qmeventd/qmeventd.c:127 | `strtoul` reads back a printed number that is followed by a non-digit exactly, with no error. |
| VmidParser.LastSlashOf | qmeventd/qmeventd.c:113 | The last `/` of `head + tail` is the final `/` of `head` when `tail` has none. |
| VmidParser.FileNameOf | qmeventd/qmeventd.c:113-119 | The file name of `<dir>/<name>` is `<name>` when it has no `/`. |
| VmidParser.NoSlashInNumberedName | qmeventd/qmeventd.c:113 | `<digits>.pid` holds no `/`. |
| VmidParser.NumberedNameAccepted | qmeventd/qmeventd.c:120-137 | `<vmid>.pid` passes every check and converts to the VMID. |
| VmidParser.PidfileVmidOfPath | qmeventd/qmeventd.c:113-137 | The pidfile path QEMU is started with, `<dir>/<vmid>.pid`, yields that VMID for every VMID from 1 to ULONG_MAX. |
| VmidParser.SpacePlusNameAccepted | qmeventd/qmeventd.c:120-137 | `strtoul` skips a leading space and a `+`, so ` +<vmid>.pid` is accepted too. |
| VmidParser.PidfileVmidAcceptsSpaceAndPlus | qmeventd/qmeventd.c:113-137 | So `<dir>/ +<vmid>.pid` also yields the VMID. |
| VmidParser.SpaceThenMinusWraps | qmeventd/qmeventd.c:120-135 | The `-` check looks at the first character only: `/ -5.pid` is accepted and yields 2^64 - 5. |
| VmidParser.SpaceMinusConverts | qmeventd/qmeventd.c:127 | `strtoul(" -5.pid")` negates modulo 2^64, stops before `.pid` and reports no error. |
| ClientState.IsActiveExactly | qmeventd/qmeventd.c:265-278 | QEMU counts as active exactly when a status is present and is running, paused, suspended or prelaunch. |
| ClientState.TerminateCheck | qmeventd/qmeventd.c:232-248 | `query-status` is sent exactly when the client is idle, and the client then waits for it; otherwise only the check is queued; the queue flag is set exactly when nothing is sent; no other flag changes and nothing is terminated. |
| ClientState.QmpEvent | qmeventd/qmeventd.c:201-230 | Only SHUTDOWN outside TERMINATING acts: it sets graceful, takes `guest` from the event when present, and runs a terminate check; any other event, or no event, changes nothing; `backup` is never touched. |
| ClientState.QmpReturn | qmeventd/qmeventd.c:250-314 | The client is terminated exactly on a non-error answer to `query-status` showing QEMU inactive, without a backup. Afterwards the state is never HANDSHAKE. An error, the handshake's answer, or an answer to `query-status` that does not terminate leaves the client idle, or re-queries it when a check was queued. TERMINATING stays TERMINATING. `query-status` is re-sent only for a queued check. The check stays queued exactly when one was queued and the client is TERMINATING. The graceful, guest and backup flags are unchanged. |
| ClientState.TerminatesOn | qmeventd/qmeventd.c:253-292 | The condition for `terminate_client`: no error, the client waits for `query-status`, QEMU is not active, and no backup runs. |
| ClientState.Answered | qmeventd/qmeventd.c:253-308 | The state switch of `handle_qmp_return`, before any queued check: the state becomes IDLE or TERMINATING. It is TERMINATING exactly when the client is terminated, or it already was TERMINATING and the return is not an error. No other flag changes. |
| ClientState.HandlersKeepConsistent | qmeventd/qmeventd.c:232-314 | A queued terminate check always waits for a busy client: `terminate_check` and `handle_qmp_return` establish this, and `handle_qmp_event` keeps it. |
| ClientState.ShutdownThenInactiveTerminates | qmeventd/qmeventd.c:201-314 | An idle client without backup that sees SHUTDOWN sends one `query-status`, and an inactive answer terminates it. |
| ClientState.BackupDefersTermination | qmeventd/qmeventd.c:280-296 | With a backup running, the same exchange keeps QEMU alive and idle; once the backup ends (the `cleanup_client` of the vzdump client), the new check and an inactive answer terminate it. |
| ClientState.ActiveNeverTerminates | qmeventd/qmeventd.c:265-287 | An active status never terminates the client, whatever its flags or state. |
| ReceiveBuffer.ReadChunk | qmeventd/qmeventd.c:516-531 | One `read` into the free part of the buffer takes a prefix of the waiting bytes that fits; it is empty (end of file) exactly when nothing waits or the buffer is full. |
| ReceiveBuffer.Drain | qmeventd/qmeventd.c:539-577 | After the parse loop the bytes left form an incomplete message that does not fill the buffer; the loop never produces more messages than bytes. |
| ReceiveBuffer.DrainKeepsSuffix | qmeventd/qmeventd.c:544-547 | The bytes left are a suffix of the bytes buffered: the loop drops bytes only from the front. |
| ReceiveBuffer.DrainLeavesRoom | qmeventd/qmeventd.c:562-567 | After the loop the buffer is never full, so the next `read` can make progress. |
| QmClient.Client.constructor | qmeventd/qmeventd.c:366-375 | A new client is in HANDSHAKE with no type, no flags set, an empty buffer, and no pidfd or timeout. |
| QmClient.Client.Append | qmeventd/qmeventd.c:516-534 | The bytes read land after the pending ones, and `buflen` grows by their number. |
| QmClient.Client.Consume | qmeventd/qmeventd.c:546-547 | `memmove` then `buflen -= offset`: the pending bytes become those after the first `offset`. |
| QmClient.Client.Discard | qmeventd/qmeventd.c:564-573 | `memset` then `buflen = 0`: the first `n` bytes are zero and nothing is pending. |
| QmClient.RemoveFirst | qmeventd/qmeventd.c:462 | `g_slist_remove`: a list without the element is unchanged; otherwise exactly one entry goes. |
| QmClient.RemoveFirstMultiset | qmeventd/qmeventd.c:462 | Exactly one occurrence of the element is removed, if it occurs, and nothing else. |
| QmClient.RemoveFirstAt | qmeventd/qmeventd.c:612 | When the element does not occur before a position, the removal takes out exactly that occurrence and keeps the order of the rest. |
| QmClient.RemoveFirstKeepsOthers | qmeventd/qmeventd.c:462 | Removing an element keeps every other element in the list. |
| QmEventd.StoredPidfd | qmeventd/qmeventd.c:474-503 | The stored pidfd is non-negative exactly when `pidfd_open` succeeded, and is then the descriptor it returned. |
| QmEventd.Sends | qmeventd/qmeventd.c:166-173 | One QMP write per command, to the client's socket, in order. |
| QmEventd.VmidOfCmdline | qmeventd/qmeventd.c:94-98 | The VMID of a process whose command line cannot be read is 0. Otherwise it is `VmidOfArgs`. It fits an `unsigned long` and is non-zero only when the command line has a `-pidfile`. |
| QmEventd.KillEffects | qmeventd/qmeventd.c:591-597 | SIGKILL to an expired entry goes through `pidfd_send_signal` followed by closing the pidfd when the pidfd is positive, and through `kill(pid, SIGKILL)` otherwise: never empty, and never anything but SIGKILL or the `close`. |
| QmEventd.Expired | qmeventd/qmeventd.c:587-589 | An entry is due exactly when its timeout is unset (0) or not after the current time. |
| QmEventd.Kept | qmeventd/qmeventd.c:615-624 | A sweep never grows the forced-cleanup list. |
| QmEventd.KeptMembers | qmeventd/qmeventd.c:581-613 | A sweep keeps exactly the visited entries that are not due: a timeout is set and still in the future. |
| QmEventd.Due | qmeventd/qmeventd.c:586-588 | The clients signalled in a sweep: each was visited and was due (no timeout, or the timeout has passed). |
| QmEventd.Swept | qmeventd/qmeventd.c:581-613 | The signals of a sweep over the visited entries, in list order: nothing is sent exactly when no visited entry is due, and everything sent is SIGKILL (by pidfd or by pid) or the `close` of a pidfd. |
| QmEventd.DueMembers | qmeventd/qmeventd.c:581-588 | A client is signalled exactly when it was visited and has no timeout or its timeout has passed. |
| QmEventd.RemoveDue | qmeventd/qmeventd.c:612 | A due entry the sweep reaches is the first occurrence of its client in the list as the sweep has left it, so `g_slist_remove` drops that very entry. |
| QmEventd.KeptStep | qmeventd/qmeventd.c:586-612 | One `sigkill` on the list: a due entry leaves it and every other entry stays in place. |
| QmEventd.SweptStep | qmeventd/qmeventd.c:590-597 | One `sigkill` on the effects: a due entry is signalled, by its pidfd the first time and by pid after that. |
| QmEventd.DueStep | qmeventd/qmeventd.c:586-588 | One `sigkill` on the due clients: the entry joins them exactly when its timeout has passed. |
| QmEventd.NoneDue | qmeventd/qmeventd.c:586-588 | A list none of whose entries is due keeps them all, in order, and signals no one. |
| QmEventd.SweepIdempotent | qmeventd/qmeventd.c:615-624 | A second sweep at the same time over what the first kept keeps everything and signals no one. |
| QmEventd.Remaining | qmeventd/qmeventd.c:581-624 | The entries left after `handle_forced_cleanup` are exactly those whose deadline lies after the current time; the list never grows. |
| QmEventd.SweepEffects | qmeventd/qmeventd.c:581-624 | `handle_forced_cleanup` signals no one exactly when every entry's deadline lies after the current time; everything it sends is SIGKILL (through the pidfd when it is positive, by pid otherwise) or the `close` of a pidfd. |
| QmEventd.CleanedUp | qmeventd/qmeventd.c:398-464 | `cleanup_client` on the view of the affected state. The client is disconnected and its first entry leaves the forced-cleanup list. A QEMU client leaves `vm_clients`, and `qm cleanup` runs with its vmid, graceful and guest flags. The VM a vzdump client backs up gets the flags of a terminate check with its backup flag cleared, and the checks it sends. The socket is closed first and a positive pidfd last. The client's type, vmids, pidfd and deadline, `needs_cleanup`, and the flags of every other client stay the same. |
| QmEventd.Greeted | qmeventd/qmeventd.c:175-199 | `handle_qmp_handshake` on the view, given the VMID found. The decimal text of the VMID is stored. VMID 0 means exactly `CleanedUp` with vmid "0". Any other VMID makes the client a QEMU client registered under that text, replacing an earlier entry, and sends `qmp_capabilities`. Nothing else changes. |
| QmEventd.Answers | qmeventd/qmeventd.c:250-314 | `handle_qmp_return` on the view: the flags become those of `ClientState.QmpReturn`, and only the pidfd, deadline, forced-cleanup list, `needs_cleanup` and effects may change besides them. No VM, connection, registration, type or vmid changes. |
| QmEventd.Backs | qmeventd/qmeventd.c:320-357 | `handle_vzdump_handshake` on the view. The client becomes IDLE and records the vmid given. Exactly the named VM gets its backup flag, the client among them when it is that VM. The client becomes a vzdump client exactly when the VM is registered. Its other flags, its QEMU vmid, pidfd and deadline, every global and every other flag of every other client stay the same. |
| QmEventd.Step | qmeventd/qmeventd.c:548-560 | The reference for dispatching one complete message, by its first key. `QMP` goes to `Greeted` with the command line's VMID, `event` to `ClientState.QmpEvent` and its writes, `return` and `error` to `Answers`, and `vzdump` to `Backs`. Any other message changes nothing. Every registered VM other than the client stays among the tracked clients. |
| QmEventd.Steps | qmeventd/qmeventd.c:539-577 | The reference for a run of the parse loop: the messages dispatched, taken in order by `Step`. Every registered VM other than the client stays among the tracked clients. |
| QmEventd.StepsAppend | qmeventd/qmeventd.c:539-577 | Handling one batch of messages and then the next is the same as handling both as one batch, so successive `handle_client` calls compose. |
| QmEventd.Daemon.constructor | qmeventd/qmeventd.c:44-52 | The daemon starts with no clients, an empty `vm_clients` and forced-cleanup list, and `needs_cleanup` clear. |
| QmEventd.Daemon.AddNewClient | qmeventd/qmeventd.c:363-396 | A connection whose peer pid is unknown (0) or that epoll refuses is closed and not added; otherwise a fresh HANDSHAKE client of no type is connected, with no flag set, an empty buffer of `sizeof(buf)` bytes, empty vmids, and no pidfd or timeout. |
| QmEventd.Daemon.TerminateCheck | qmeventd/qmeventd.c:232-248 | The client's flags become those of `ClientState.TerminateCheck`, and the commands it sends are written to the client's socket. |
| QmEventd.Daemon.HandleQmpEvent | qmeventd/qmeventd.c:201-230 | The client's flags and the QMP writes are those of `ClientState.QmpEvent`. |
| QmEventd.Daemon.TerminateClient | qmeventd/qmeventd.c:466-509 | The client becomes TERMINATING. If the process is already gone (ESRCH), nothing else happens. Otherwise `quit` is written, plus SIGTERM when the write fails. The pidfd (or -1) and the deadline `now + kill_timeout` are stored. The client is prepended to the forced-cleanup list and `needs_cleanup` is set. |
| QmEventd.Daemon.AnswerReturn | qmeventd/qmeventd.c:253-308 | The state switch of `handle_qmp_return`: the flags become `ClientState.Answered`; `terminate_client` runs exactly when `ClientState.TerminatesOn` holds, with its full effect; otherwise nothing else changes. |
| QmEventd.Daemon.Returned | qmeventd/qmeventd.c:250-314 | What `handle_qmp_return` leaves: the flags and QMP writes of `ClientState.QmpReturn`. When that step terminates the client and the process exists, the forced-cleanup list, pidfd, deadline and effects change as `terminate_client` says; otherwise they are untouched. |
| QmEventd.Daemon.HandleQmpReturn | qmeventd/qmeventd.c:250-314 | `handle_qmp_return` does exactly what `Returned` says and keeps the daemon's invariant. |
| QmEventd.Daemon.HandleVzdumpHandshake | qmeventd/qmeventd.c:320-357 | The client becomes IDLE and records the vmid when one is given. Exactly the VM registered under that vmid has its backup flag set, the client itself when it is that VM. The client becomes a vzdump client exactly when the VM is registered. The client's other flags and its QEMU vmid, pidfd and deadline stay the same, as does every flag but `backup` of every other registered VM. |
| QmEventd.Daemon.StartBackup | qmeventd/qmeventd.c:335-357 | Once the handshake names a vmid, the client records it. Exactly the VM registered under it has its backup flag set, the client itself when it is that VM, and the client becomes a vzdump client exactly when that VM exists. |
| QmEventd.Daemon.Unregister | qmeventd/qmeventd.c:398-456 | The type-dependent part of `cleanup_client`. A QEMU client leaves `vm_clients` and `qm cleanup` runs with its vmid, graceful and guest flags. A vzdump client of a registered VM clears that VM's backup flag and runs a terminate check on it. Otherwise nothing changes. No VM other than the one whose backup ended changes. |
| QmEventd.Daemon.BackedUp | qmeventd/qmeventd.c:444-450 | The VM whose backup ends when the client is cleaned up: the VM registered under a vzdump client's vmid, if any. |
| QmEventd.PidfdClose | qmeventd/qmeventd.c:458-460 | `cleanup_client` closes the stored pidfd only when it is positive. |
| QmEventd.Daemon.CleanupClient | qmeventd/qmeventd.c:432-464 | The socket closes first, then the type-dependent action of `Unregister`, then the pidfd closes when positive: the effects are spelled out for a QEMU client, for a vzdump client of a registered VM, and for every other client. The client is disconnected, a QEMU client leaves `vm_clients`, and the client's first entry leaves the forced-cleanup list. No VM other than the one whose backup ended changes. |
| QmEventd.Daemon.CleanupStep | qmeventd/qmeventd.c:432-464 | `cleanup_client` does to the client, the daemon and the tracked clients exactly what `CleanedUp` says, and keeps the daemon's invariant. |
| QmEventd.Daemon.RejectHandshake | qmeventd/qmeventd.c:181-186 | With no VMID found, the text "0" is stored and the client is then cleaned up, exactly as `CleanedUp` says. |
| QmEventd.Daemon.AcceptHandshake | qmeventd/qmeventd.c:182-198 | With a VMID found, the state changes exactly as `Greeted` says: the client becomes a QEMU client registered under its decimal text, replacing any earlier entry, and is sent `qmp_capabilities`. Nothing else changes, the client's flags and every other VM included. |
| QmEventd.Daemon.HandleQmpHandshake | qmeventd/qmeventd.c:175-199 | The VMID is read from the command line, and the client, the daemon and the tracked clients change exactly as `Greeted` says for that VMID. VMID 0 cleans the client up. Otherwise the client is registered and greeted, and nothing else changes. |
| QmEventd.Daemon.Dispatch | qmeventd/qmeventd.c:548-560 | Each complete message changes the client, the daemon and the tracked clients exactly as `Step` says. An explicit view covers every field a handler can touch, so every field not named there stays, including the client's type, vmids, pidfd and deadline. The daemon's invariant holds and no connection is added. |
| QmEventd.Daemon.EventStep | qmeventd/qmeventd.c:201-230 | `handle_qmp_event` changes only the client's flags, which become those of `ClientState.QmpEvent`, and appends its QMP writes; every other field and client stays. |
| QmEventd.Daemon.ReturnStep | qmeventd/qmeventd.c:250-314 | `handle_qmp_return` changes the state exactly as `Answers` says and keeps the daemon's invariant. |
| QmEventd.Daemon.BackupStep | qmeventd/qmeventd.c:320-357 | `handle_vzdump_handshake` changes the state exactly as `Backs` says. |
| QmEventd.Daemon.TakeMessage | qmeventd/qmeventd.c:544-560 | A complete message at the front: its bytes leave the buffer, and `Drain` of the buffer before is the message followed by `Drain` of the buffer after. It is handled exactly when the client is still connected. When it is handled, the state changes exactly as `Step` says; when it is not, nothing but the buffer changes. |
| QmEventd.Daemon.StopParsing | qmeventd/qmeventd.c:563-574 | No complete message at the front: an incomplete message stays unless it fills the buffer, and a malformed one is discarded. Either way `Drain` takes no message and leaves exactly what stays. |
| QmEventd.Daemon.ParseRound | qmeventd/qmeventd.c:539-577 | One round of the parse loop keeps the loop's accounting (`Accounted`), which includes that the state is `Steps` of the messages dispatched so far. It shrinks the buffer when the loop goes on. |
| QmEventd.Daemon.HandleClient | qmeventd/qmeventd.c:511-579 | EAGAIN changes nothing: the buffer, every field of the client, connections, `vm_clients`, the forced-cleanup list, the effects and every VM stay the same. Another read error, or end of file, dispatches nothing and changes the state exactly as `CleanedUp` says. Otherwise the bytes read and the parse loop leave exactly `Drain`'s rest in the buffer, which is then not full. The messages dispatched are a prefix of `Drain`'s messages, and all of them while the client stays connected. Each was dispatched while the client was still connected. The state is `Steps` of exactly those messages. No connection is added. |
| QmEventd.Daemon.Receive | qmeventd/qmeventd.c:533-577 | The bytes read join the buffer and the parse loop runs: the buffer ends with exactly `Drain`'s rest and is not full. The messages dispatched are a prefix of `Drain`'s, and all of them while the client is connected. Each was dispatched while the client was still connected, and the state is `Steps` of them. |
| QmEventd.Daemon.ParseBuffer | qmeventd/qmeventd.c:539-577 | The in-place loop leaves exactly the bytes `Drain` leaves, and the buffer is not full afterwards. The messages handed to handlers are a prefix of `Drain`'s messages, in order, and are all of them when the client is still connected at the end. Each was handed over while the client was still connected, as `Steps` of the messages before it shows. The client, the daemon and the VMs registered at the start change exactly as `Steps` of those messages says. |
| QmEventd.Daemon.SigKill | qmeventd/qmeventd.c:581-613 | An entry whose timeout is set and in the future is left alone. Otherwise it is sent SIGKILL, through its pidfd (then closed, and -1 stored) or by pid. Its timeout is cleared and its first list entry is removed. |
| QmEventd.Daemon.SweepAt | qmeventd/qmeventd.c:581-613 | `sigkill` on the entry at index `i` turns the sweep's state after `i` entries into its state after `i + 1`: list, effects, due clients, timeouts and pidfds. |
| QmEventd.Daemon.SweepAll | qmeventd/qmeventd.c:618-621 | `g_slist_foreach(sigkill)` leaves exactly the entries that were not due, in order. It emits exactly `Swept`'s signals. It clears the timeout and pidfd of the due clients and leaves the others alone. |
| QmEventd.Daemon.HandleForcedCleanup | qmeventd/qmeventd.c:615-624 | After the sweep, the list is exactly the entries whose deadline is in the future and `needs_cleanup` says whether any are left. The effects are the sweep's. Exactly the due clients lose their timeout and pidfd. The daemon's invariant is kept. |
| MachineCapabilities.QueryCpuCapabilities | src/query-machine-capabilities/query-machine-capabilities.c:23-49 | On x86 the SEV, SEV-ES and SEV-SNP flags are EAX bits 1, 3 and 4. The C-bit position is EBX bits 0-5 and the physical-address reduction is bits 6-11, both below 64. Elsewhere every field is zero or false. |
| MachineCapabilities.EaxOnlyFlagBitsMatter | src/query-machine-capabilities/query-machine-capabilities.c:35-37 | EAX bits other than 1, 3 and 4 never change the result. |
| MachineCapabilities.EbxOnlyLowTwelveBitsMatter | src/query-machine-capabilities/query-machine-capabilities.c:39-40 | EBX bits above 11 never change the result. |
| MachineCapabilities.EbxFieldsAreSeparate | src/query-machine-capabilities/query-machine-capabilities.c:39-40 | The C-bit position depends only on EBX bits 0-5 and the reduction only on bits 6-11. |
| MachineCapabilities.CapsJson | src/query-machine-capabilities/query-machine-capabilities.c:86-101 | The text written is non-empty and ends in a newline. |
| MachineCapabilities.ExpectPrefix | src/query-machine-capabilities/query-machine-capabilities.c:86-101 | Reading a template literal back from text that starts with it succeeds and leaves exactly what follows it. |
| MachineCapabilities.CapsJsonRoundTrip | src/query-machine-capabilities/query-machine-capabilities.c:86-101 | Reading the written JSON back gives exactly the record written: all five fields, in the template's key order and formats. |
| MachineCapabilities.SevJsonRoundTrip | src/query-machine-capabilities/query-machine-capabilities.c:90-92 | The three boolean fields read back as written. |
| MachineCapabilities.CapsJsonInjective | src/query-machine-capabilities/query-machine-capabilities.c:86-101 | Different capability records are never written as the same text. |
| MachineCapabilities.PrepareOutputDirectory | src/query-machine-capabilities/query-machine-capabilities.c:51-70 | The directory is ready exactly when it already exists as a directory, or it is absent and `mkdir` succeeds. Something else at the path, or any other `stat` error, fails. |
| MachineCapabilities.PrepareDiagnostics | src/query-machine-capabilities/query-machine-capabilities.c:51-70 | `prepare_output_directory` prints at most one message, exactly when it fails. The mkdir message comes exactly when the directory was absent and `mkdir` failed. |
| MachineCapabilities.MkdirOnlyWhenMissing | src/query-machine-capabilities/query-machine-capabilities.c:51-70 | `mkdir` decides nothing unless the directory was absent. |
| MachineCapabilities.RunProgram | src/query-machine-capabilities/query-machine-capabilities.c:72-112 | The exit status is 1 exactly when the directory cannot be prepared or the file cannot be opened, and 0 otherwise. Text is written exactly on exit 0, and it is `CapsJson` of the decoded CPUID. A failed write or close is reported but still exits 0. |

## Left out

- `send_qmp_cmd`'s failure path is not modelled: every QMP write of `qmp_capabilities` and `query-status` is taken to succeed. A failed write would call `cleanup_client` from inside a handler and recurse through `terminate_check`. The outcome of the `quit` write in `terminate_client` is modelled (`Env.quitWritten`).
- The `snprintf` length checks are not modelled. This covers the vmid buffers of `struct Client` (`handle_qmp_handshake`, `handle_vzdump_handshake`), whose sizes are declared in qmeventd.h, and the 32-byte `/proc/<pid>/cmdline` path, which a pid cannot overflow. Every vmid is taken to fit. `/proc/<pid>/cmdline` is given as its list of arguments, or None when it cannot be opened.
- qmeventd's `main` is not modelled: the epoll loop, socket setup, option parsing, `kill_timeout` parsing and signal handling. `get_pid_from_fd` (SO_PEERCRED) is a parameter of `AddNewClient`.
- The fork and exec of `qm cleanup` is one `RunCleanup` effect; a failed `fork` is not modelled.
- qmeventd.h, which declares `struct Client`, is not part of this model. The model keeps the QEMU and vzdump data of a client as separate fields (`vmid`, `backupVmid`, flags), so no field of one kind of client overlaps a field of the other.
- json-c is not modelled. The tokenizer is an abstract function that, on success, consumes at least one byte and at most the whole buffer. A complete message is a `Message` value naming the first of `QMP`, `event`, `return`, `error`, `vzdump` it contains, with the fields the handler reads.
- `sizeof(client->buf)` is the parameter `bufSize`.
- QmEventd.Daemon.ParseBuffer: when a handler has cleaned up the client, the source goes on parsing the freed client's buffer and may call handlers on it again. The model keeps parsing the buffer but hands no further message to a client that is no longer connected.
- The EINTR retry of `read`, a failed `calloc`, the `epoll_ctl` deletion in `cleanup_client` and all log output are not modelled.
- One `Env` (the current time, the outcome of `pidfd_open`, whether the `quit` write succeeds and the process's command line) serves every message of one `handle_client` call. In the source each `terminate_client` calls `time()` and `pidfd_open` again, so two terminations in one batch could see different values.
- QmEventd.Daemon.TerminateClient: does not model `time_t` overflow of `time(NULL) + kill_timeout`, because the sum is an unbounded integer here.
- `g_slist_foreach` is modelled as a walk over the list as it stood before the sweep. GLib's `g_slist_foreach` reads each node's `next` pointer before calling the function on it, so removing the node being visited does not disturb the walk; `sigkill` removes only the first entry of its client, which is the entry being visited (`RemoveDue`). Freed list nodes are not modelled.
- The `cpuid` instruction, `stat`, `mkdir`, `fopen`, `fprintf` and `fclose` are not executed. Their outcomes are parameters (`Arch`, the EAX/EBX values, `FileSystem`), and the text handed to `fprintf` is the result.
- The text of the diagnostics on stderr is not modelled; `RunProgram` only records which ones are printed.
- MachineCapabilities.CapsJson: its own contract only says the text ends in a newline. What the text means is stated by `CapsJsonRoundTrip` against the parser `ParseCapsJson` and by `CapsJsonInjective`.
