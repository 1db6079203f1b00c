/** Single-use reply slots (the one-shot channels a `call` allocates). The
    model keeps every slot allocated so far in a board, indexed by allocation
    order; both ends of a slot refer to it by that index. */
module Oneshot {
  import opened Wrappers

  /** One reply slot as both ends see it: nothing written yet, written once,
      or closed unwritten because one of its two ends was dropped. */
  datatype ReplySlot<T> = Open | Written(value: T) | Dropped

  type Board<T> = seq<ReplySlot<T>>

  /** The slot with index `id`; an index the board does not hold behaves as
      a slot whose other end is gone. */
  function SlotAt<T>(board: Board<T>, id: nat): ReplySlot<T>
  {
    if id < |board| then board[id] else Dropped
  }

  /** `oneshot::channel()`: a fresh open slot; the others are untouched. */
  function Allocate<T>(board: Board<T>): (r: (Board<T>, nat))
    ensures r.1 == |board| && |r.0| == |board| + 1
    ensures SlotAt(r.0, r.1) == Open
    ensures forall j :: 0 <= j < |board| ==> r.0[j] == board[j]
  {
    (board + [Open], |board|)
  }

  /** `Sender::send`: succeeds exactly when the slot is still open, and then
      the slot holds `v`. A slot is never overwritten and no other slot
      changes. */
  function Send<T>(board: Board<T>, id: nat, v: T): (r: (Board<T>, bool))
    ensures r.1 <==> SlotAt(board, id).Open?
    ensures |r.0| == |board|
    ensures SlotAt(r.0, id) == if r.1 then Written(v) else SlotAt(board, id)
    ensures forall j :: 0 <= j < |board| && j != id ==> r.0[j] == board[j]
  {
    if SlotAt(board, id).Open? then (board[id := Written(v)], true) else (board, false)
  }

  /** Dropping one end of a slot: an open slot is closed, a written one keeps
      its value. */
  function Close<T>(board: Board<T>, id: nat): (r: Board<T>)
    ensures |r| == |board|
    ensures SlotAt(r, id) == if SlotAt(board, id).Open? then Dropped else SlotAt(board, id)
    ensures forall j :: 0 <= j < |board| && j != id ==> r[j] == board[j]
  {
    if SlotAt(board, id).Open? then board[id := Dropped] else board
  }

  /** Awaiting the receiving end: still pending while the slot is open, the
      written value, or `None` when the slot was closed unwritten. */
  function Recv<T>(board: Board<T>, id: nat): (r: Poll<Option<T>>)
    ensures r.Pending? <==> SlotAt(board, id).Open?
    ensures r == Ready(None) <==> SlotAt(board, id).Dropped?
    ensures SlotAt(board, id).Written? ==> r == Ready(Some(SlotAt(board, id).value))
  {
    match SlotAt(board, id)
    case Open => Pending
    case Written(v) => Ready(Some(v))
    case Dropped => Ready(None)
  }

  /** A slot delivers the first value written to it, and a second write
      fails without disturbing it. */
  lemma SendOnce<T>(board: Board<T>, id: nat, v: T, v': T)
    requires SlotAt(board, id).Open?
    ensures var (b1, ok1) := Send(board, id, v);
            var (b2, ok2) := Send(b1, id, v');
            ok1 && !ok2 && b2 == b1 && Recv(b2, id) == Ready(Some(v))
  {
  }
}
