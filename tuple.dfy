/** A minimal model of ton-core's `TupleReader`, the reader over the result stack of a
    get-method: a cursor over typed slots that advances by one on every read. */
module Tuple {
  import opened Results
  import opened Cells

  /** One slot of a result stack, as far as the contract wrapper reads it: an integer
      or a slice holding an internal address. */
  datatype Slot = Num(n: int) | Addr(address: Address)

  class TupleReader {
    /** The slots as returned by the get-method. */
    const items: seq<Slot>
    /** How many of them have been consumed; there is no way back. */
    var cursor: nat

    ghost predicate Valid()
      reads this
    {
      cursor <= |items|
    }

    /** The slots not yet consumed. */
    function Remaining(): seq<Slot>
      reads this
      requires Valid()
    {
      items[cursor..]
    }

    constructor (items: seq<Slot>)
      ensures Valid() && this.items == items && cursor == 0
    {
      this.items := items;
      cursor := 0;
    }

    /** `pop()`: the next slot, or `StackUnderflow` (the library's "EOF") when none is
        left, in which case nothing moves. */
    method Pop() returns (r: Result<Slot>)
      requires Valid()
      modifies this`cursor
      ensures Valid()
      ensures old(Remaining()) == [] ==> r == Err(StackUnderflow) && cursor == old(cursor)
      ensures old(Remaining()) != [] ==>
        r == Ok(old(Remaining())[0]) && cursor == old(cursor) + 1 && Remaining() == old(Remaining())[1..]
    {
      if cursor == |items| {
        return Err(StackUnderflow);
      }
      r := Ok(items[cursor]);
      cursor := cursor + 1;
    }

    /** `readNumber()`: pops a slot, then insists that it is an integer. The slot is
        consumed even when it is of the wrong type. */
    method ReadNumber() returns (r: Result<int>)
      requires Valid()
      modifies this`cursor
      ensures Valid()
      ensures old(Remaining()) == [] ==> r == Err(StackUnderflow) && cursor == old(cursor)
      ensures old(Remaining()) != [] ==> cursor == old(cursor) + 1 && Remaining() == old(Remaining())[1..]
      ensures old(Remaining()) != [] ==>
        r == (if old(Remaining())[0].Num? then Ok(old(Remaining())[0].n) else Err(TypeMismatch))
    {
      var slot :- Pop();
      if !slot.Num? {
        return Err(TypeMismatch);
      }
      r := Ok(slot.n);
    }

    /** `readAddress()`: pops a slot, then insists that it holds an address. */
    method ReadAddress() returns (r: Result<Address>)
      requires Valid()
      modifies this`cursor
      ensures Valid()
      ensures old(Remaining()) == [] ==> r == Err(StackUnderflow) && cursor == old(cursor)
      ensures old(Remaining()) != [] ==> cursor == old(cursor) + 1 && Remaining() == old(Remaining())[1..]
      ensures old(Remaining()) != [] ==>
        r == (if old(Remaining())[0].Addr? then Ok(old(Remaining())[0].address) else Err(TypeMismatch))
    {
      var slot :- Pop();
      if !slot.Addr? {
        return Err(TypeMismatch);
      }
      r := Ok(slot.address);
    }
  }
}
