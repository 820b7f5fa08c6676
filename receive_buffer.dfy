/**
 * What `handle_client` does with a client's receive buffer, on values:
 * append what `read` returned, then hand the buffer to the JSON tokenizer
 * again and again, dropping each complete message from the front, until the
 * buffer is empty or the tokenizer does not succeed. The Client class in
 * module QmEventd does the same in place on its array and is proved
 * against `Drain`.
 *
 * json-c's tokenizer is not modelled: it is a function from the buffered
 * bytes to one of three results.
 */
module ReceiveBuffer {

  /** The tokenizer's verdict on the buffered bytes. */
  datatype Token<M> =
    | Parsed(offset: nat, msg: M)   // json_tokener_success after `offset` bytes
    | Incomplete                    // json_tokener_continue
    | Malformed                     // any other json_tokener error

  /** A tokenizer that succeeds consumes at least one and at most all of the bytes it was given. */
  ghost predicate WellBehaved<M>(tokenize: seq<bv8> -> Token<M>)
  {
    forall s :: tokenize(s).Parsed? ==> 1 <= tokenize(s).offset <= |s|
  }

  /** The messages taken from a buffer, in order, and the bytes left in it. */
  datatype Drained<M> = Drained(msgs: seq<M>, rest: seq<bv8>)

  /** The bytes one `read` of at most `capacity - buflen` bytes returns when `available` are waiting. */
  function ReadChunk(available: seq<bv8>, buflen: nat, capacity: nat): (chunk: seq<bv8>)
    ensures buflen <= capacity ==> buflen + |chunk| <= capacity
    ensures |chunk| <= |available| && chunk == available[..|chunk|]
    ensures |chunk| == 0 <==> available == [] || buflen >= capacity
  {
    var request := if buflen < capacity then capacity - buflen else 0;
    if |available| <= request then available else available[..request]
  }

  /**
   * The parse loop of `handle_client` on a buffer of `capacity` bytes: a
   * success drops the message's bytes from the front and goes on; an
   * incomplete message stays, unless it already fills the buffer, and then
   * the buffer is discarded; a parse error discards the buffer.
   */
  function Drain<M>(pending: seq<bv8>, capacity: nat, tokenize: seq<bv8> -> Token<M>): (d: Drained<M>)
    requires WellBehaved(tokenize)
    ensures d.rest != [] ==> tokenize(d.rest).Incomplete? && |d.rest| < capacity
    ensures |d.msgs| + |d.rest| <= |pending|
    decreases |pending|
  {
    if pending == [] then Drained([], [])
    else
      match tokenize(pending)
      case Parsed(offset, m) =>
        var d := Drain(pending[offset..], capacity, tokenize);
        Drained([m] + d.msgs, d.rest)
      case Incomplete =>
        if |pending| >= capacity then Drained([], []) else Drained([], pending)
      case Malformed => Drained([], [])
  }

  /** What stays in the buffer is always a suffix of what was there: bytes are only ever dropped from the front. */
  lemma {:induction false} DrainKeepsSuffix<M>(pending: seq<bv8>, capacity: nat, tokenize: seq<bv8> -> Token<M>)
    requires WellBehaved(tokenize)
    ensures var rest := Drain(pending, capacity, tokenize).rest;
      rest == pending[|pending| - |rest|..]
    decreases |pending|
  {
    if pending != [] && tokenize(pending).Parsed? {
      var offset := tokenize(pending).offset;
      DrainKeepsSuffix(pending[offset..], capacity, tokenize);
      var rest := Drain(pending, capacity, tokenize).rest;
      assert pending[offset..][|pending[offset..]| - |rest|..] == pending[|pending| - |rest|..];
    }
  }

  /** After the loop the buffer is never full, so the next `read` can always make progress. */
  lemma DrainLeavesRoom<M>(pending: seq<bv8>, capacity: nat, tokenize: seq<bv8> -> Token<M>)
    requires WellBehaved(tokenize) && capacity > 0
    ensures |Drain(pending, capacity, tokenize).rest| < capacity
  {
  }
}
