/**
 * A connection to qmeventd (`struct Client`): a QEMU process or a vzdump
 * backup job, with its QMP state, its flags and its receive buffer, which
 * `handle_client` updates in place.
 */
module QmClient {
  import opened Wrappers
  import opened ClientState
  import opened ReceiveBuffer

  /** `CLIENT_NONE`, `CLIENT_QEMU`, `CLIENT_VZDUMP`. */
  datatype ClientType = NoType | Qemu | Vzdump

  /**
   * The shape of one complete JSON message, as `handle_client` classifies it
   * by the first key present among `QMP`, `event`, `return`, `error` and
   * `vzdump`. json-c is not modelled; each payload is what the handler
   * extracts from it.
   */
  datatype Message =
    | Greeting                                   // "QMP": the QMP handshake of a QEMU process
    | Event(name: Option<string>, guest: Option<bool>)  // "event", and data.guest as a boolean when present
    | Return(status: Option<string>)             // "return", and its "status" string when present
    | Error                                      // "error"
    | Backup(vmid: Option<string>)               // "vzdump", and its "vmid" string when present
    | Ignored                                    // not an object, or none of the keys

  class Client {
    const fd: int
    const pid: int
    /** `buf`, of `sizeof(buf)` bytes; the first `buflen` are unparsed input. */
    const buf: array<bv8>
    var buflen: nat

    var kind: ClientType
    var state: State
    var termCheckQueued: bool
    var graceful: bool
    var guest: bool
    var backup: bool
    /** `qemu.vmid`: the VMID of a QEMU client, in decimal. */
    var vmid: string
    /** `vzdump.vmid`: the VMID a vzdump client backs up. */
    var backupVmid: string
    var pidfd: int
    var timeout: int

    /** The fields the QMP handlers work on, as a value. */
    function Fields(): Flags
      reads this`state, this`termCheckQueued, this`graceful, this`guest, this`backup
    {
      ClientState.Flags(state, termCheckQueued, graceful, guest, backup)
    }

    /** The buffered bytes not yet parsed. */
    function Pending(): seq<bv8>
      reads this, buf
      requires buflen <= buf.Length
    {
      buf[..buflen]
    }

    /** Between two calls of `handle_client` the buffer is never full. */
    ghost predicate BufferValid()
      reads this
    {
      buflen < buf.Length
    }

    /** A freshly accepted connection (`calloc`, then `add_new_client`). */
    constructor (fd: int, pid: int, capacity: nat)
      requires capacity > 0
      ensures this.fd == fd && this.pid == pid
      ensures fresh(buf) && buf.Length == capacity && buflen == 0 && BufferValid()
      ensures kind == NoType && Fields() == ClientState.Flags(Handshake, false, false, false, false)
      ensures vmid == "" && backupVmid == "" && pidfd == 0 && timeout == 0
    {
      this.fd := fd;
      this.pid := pid;
      buf := new bv8[capacity](_ => 0);
      buflen := 0;
      kind := NoType;
      state := Handshake;
      termCheckQueued, graceful, guest, backup := false, false, false, false;
      vmid, backupVmid := "", "";
      pidfd, timeout := 0, 0;
    }

    /** What `read` into `buf + buflen` followed by `buflen += len` does. */
    method Append(data: seq<bv8>)
      requires buflen + |data| <= buf.Length
      modifies buf, `buflen
      ensures buflen == old(buflen) + |data|
      ensures Pending() == old(Pending()) + data
    {
      var i := 0;
      while i < |data|
        invariant 0 <= i <= |data| && buflen == old(buflen)
        invariant buf[..buflen] == old(buf[..buflen])
        invariant forall k :: 0 <= k < i ==> buf[buflen + k] == data[k]
      {
        buf[buflen + i] := data[i];
        i := i + 1;
      }
      buflen := buflen + |data|;
    }

    /** `memmove(buf, buf + offset, buflen - offset); buflen -= offset`. */
    method Consume(offset: nat)
      requires offset <= buflen <= buf.Length
      modifies buf, `buflen
      ensures buflen == old(buflen) - offset
      ensures Pending() == old(Pending())[offset..]
    {
      var n := buflen - offset;
      var i := 0;
      while i < n
        invariant 0 <= i <= n
        invariant forall k :: 0 <= k < i ==> buf[k] == old(buf[offset + k])
        invariant forall k :: i <= k < buf.Length ==> buf[k] == old(buf[k])
      {
        buf[i] := buf[offset + i];
        i := i + 1;
      }
      buflen := n;
    }

    /** `memset(buf, 0, n); buflen = 0`: the buffered input is dropped. */
    method Discard(n: nat)
      requires buflen <= n <= buf.Length
      modifies buf, `buflen
      ensures buflen == 0
      ensures forall k :: 0 <= k < n ==> buf[k] == 0
    {
      var i := 0;
      while i < n
        invariant 0 <= i <= n
        invariant forall k :: 0 <= k < i ==> buf[k] == 0
      {
        buf[i] := 0;
        i := i + 1;
      }
      buflen := 0;
    }
  }

  /** `g_slist_remove`: drop the first occurrence of `x`, if any. */
  function RemoveFirst<T(==)>(s: seq<T>, x: T): (r: seq<T>)
    ensures x !in s ==> r == s
    ensures x in s ==> |r| == |s| - 1
    ensures |r| <= |s|
  {
    if s == [] then []
    else if s[0] == x then
      assert s == [s[0]] + s[1..];
      s[1..]
    else
      assert s == [s[0]] + s[1..];
      [s[0]] + RemoveFirst(s[1..], x)
  }

  /** Exactly one occurrence of `x`, if any, is removed, and nothing else. */
  lemma {:induction false} RemoveFirstMultiset<T>(s: seq<T>, x: T)
    ensures multiset(RemoveFirst(s, x)) == multiset(s) - multiset{x}
  {
    if s != [] {
      assert s == [s[0]] + s[1..];
      assert multiset(s) == multiset{s[0]} + multiset(s[1..]);
      if s[0] != x {
        RemoveFirstMultiset(s[1..], x);
        assert multiset(RemoveFirst(s, x)) == multiset{s[0]} + multiset(RemoveFirst(s[1..], x));
      }
    }
  }

  /** When `x` does not occur before a given position, that is the occurrence removed. */
  lemma {:induction false} RemoveFirstAt<T>(before: seq<T>, x: T, after: seq<T>)
    requires x !in before
    ensures RemoveFirst(before + [x] + after, x) == before + after
  {
    if before != [] {
      assert (before + [x] + after)[1..] == before[1..] + [x] + after;
      RemoveFirstAt(before[1..], x, after);
      assert before == [before[0]] + before[1..];
    }
  }

  /** Removing an element keeps every other element in the list. */
  lemma {:induction false} RemoveFirstKeepsOthers<T>(s: seq<T>, x: T, y: T)
    requires y != x
    ensures y in RemoveFirst(s, x) <==> y in s
  {
    if s != [] && s[0] != x {
      RemoveFirstKeepsOthers(s[1..], x, y);
    }
  }
}
