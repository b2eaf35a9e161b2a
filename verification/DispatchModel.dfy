/**
 The wakeup channel of SockDispatchQueue as values: a deque of ids, the number of
 unread bytes in the socket pair, and the elementary operations on them.  Both the
 classes in DispatchQueues.dfy and the step relation in CompletionPipeline.dfy are
 written with these functions.
 */
module DispatchModel {
  /** recv() is called with a 32-byte buffer. */
  const RECV_BUFFER := 32

  /** One non-blocking one-byte send; on a full buffer it fails and changes nothing. */
  function Send(bytes: nat, capacity: nat): (r: nat)
    ensures capacity > 0 ==> r > 0
    ensures bytes <= r <= bytes + 1
    ensures r == bytes <==> bytes >= capacity
  {
    if bytes < capacity then bytes + 1 else bytes
  }

  /** One non-blocking recv(): at most RECV_BUFFER bytes leave the buffer. */
  function Recv(bytes: nat): (r: nat)
    ensures r <= bytes <= r + RECV_BUFFER
    ensures r > 0 ==> bytes == r + RECV_BUFFER
  {
    if bytes <= RECV_BUFFER then 0 else bytes - RECV_BUFFER
  }
}
