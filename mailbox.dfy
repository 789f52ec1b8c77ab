/** A FreeRTOS queue of length one used only through xQueueOverwrite and
    xQueueReceive with a zero timeout is a single "latest value" cell: a send
    replaces whatever is unread and never blocks, a receive empties the cell
    or, when it is empty, leaves the destination variable alone. */
module Mailbox {
  datatype Option<T> = None | Some(value: T)

  /** xQueueOverwrite: the item replaces any unread one. */
  function Overwrite<T>(cell: Option<T>, item: T): (r: Option<T>)
    ensures r.Some? && r.value == item
  {
    Some(item)
  }

  /** What xQueueReceive(queue, &dest, 0) leaves behind: the cell and the destination. */
  datatype Polled<T> = Polled(cell: Option<T>, dest: T)

  /** xQueueReceive(queue, &dest, 0): never blocks; an empty cell leaves dest unchanged. */
  function Receive<T>(cell: Option<T>, dest: T): (p: Polled<T>)
    ensures p.cell == None
    ensures cell.None? ==> p.dest == dest
    ensures cell.Some? ==> p.dest == cell.value
  {
    match cell
    case None => Polled(None, dest)
    case Some(v) => Polled(None, v)
  }

  /** The items written one after another, oldest first, with no receive in between. */
  function OverwriteAll<T>(cell: Option<T>, items: seq<T>): Option<T>
    decreases |items|
  {
    if items == [] then cell else OverwriteAll(Overwrite(cell, items[0]), items[1..])
  }

  /** Whatever was in the cell, one receive after an overwrite yields the item just written. */
  lemma OverwriteForgets<T>(cell: Option<T>, item: T, dest: T)
    ensures Receive(Overwrite(cell, item), dest) == Polled(None, item)
  {
  }

  /** After N writes a consumer that polls once sees only the Nth (latest) item. */
  lemma {:induction false} LatestWins<T>(cell: Option<T>, items: seq<T>, dest: T)
    requires items != []
    decreases |items|
    ensures OverwriteAll(cell, items) == Some(items[|items| - 1])
    ensures Receive(OverwriteAll(cell, items), dest) == Polled(None, items[|items| - 1])
  {
    if |items| > 1 {
      LatestWins(Overwrite(cell, items[0]), items[1..], dest);
    }
  }
}
