// DECLARE_STACK: a growable array stack with size and capacity fields.
module Stack {
  import opened Wrappers

  const InitialCapacity := 16

  class Stack<T(0)> {
    var capacity: nat
    var size: nat
    var data: array<T>
    /** The elements from bottom to top. */
    ghost var Contents: seq<T>

    ghost predicate Valid()
      reads this, data
    {
      data.Length == capacity && size <= capacity && Contents == data[..size]
    }

    /** _init: capacity 16, no elements. */
    constructor Init()
      ensures Valid() && fresh(data)
      ensures capacity == InitialCapacity && size == 0 && Contents == []
    {
      capacity := InitialCapacity;
      size := 0;
      data := new T[InitialCapacity];
      Contents := [];
    }

    /** _push: doubles the capacity when the stack is full, then stores the
        value on top. */
    method Push(value: T)
      requires Valid() && capacity > 0
      modifies this, data
      ensures Valid()
      ensures Contents == old(Contents) + [value]
      ensures size == old(size) + 1
      ensures capacity == if old(size) >= old(capacity) then 2 * old(capacity) else old(capacity)
    {
      if size >= capacity {
        capacity := capacity * 2;
        var grown := new T[capacity];
        var i := 0;
        while i < size
          invariant 0 <= i <= size <= data.Length < grown.Length
          invariant grown[..i] == data[..i]
          invariant Contents == data[..size]
          modifies grown
        {
          grown[i] := data[i];
          i := i + 1;
        }
        assert grown[..size] == data[..size];
        data := grown;
      }
      data[size] := value;
      size := size + 1;
      Contents := Contents + [value];
      assert data[..size] == old(Contents) + [value];
    }

    /** _pop: removes and returns the top element; an empty stack is the fatal
        "Stack underflow" (None). */
    method Pop() returns (r: Option<T>)
      requires Valid()
      modifies this
      ensures Valid() && data == old(data) && capacity == old(capacity)
      ensures old(Contents) == [] ==> r == None && Contents == [] && size == 0
      ensures old(Contents) != [] ==>
        r == Some(old(Contents)[|old(Contents)| - 1]) &&
        Contents == old(Contents)[..|old(Contents)| - 1] && size == old(size) - 1
    {
      if size == 0 {
        return None;
      }
      size := size - 1;
      r := Some(data[size]);
      Contents := Contents[..size];
      assert data[..size] == old(data[..size])[..size];
    }

    /** _peek: the top element, the stack is left alone; an empty stack is the
        fatal "Stack is empty" (None). */
    function Peek(): (r: Option<T>)
      requires Valid()
      reads this, data
      ensures r.None? <==> Contents == []
      ensures r.Some? ==> r.value == Contents[|Contents| - 1]
    {
      if size == 0 then None else Some(data[size - 1])
    }

    /** _is_empty */
    function IsEmpty(): (b: bool)
      requires Valid()
      reads this, data
      ensures b <==> Contents == []
    {
      size == 0
    }

    /** _size */
    function Size(): (n: nat)
      requires Valid()
      reads this, data
      ensures n == |Contents|
    {
      size
    }

    /** _destroy: the storage is released and size and capacity are zero. */
    method Destroy()
      requires Valid()
      modifies this
      ensures Valid() && capacity == 0 && size == 0 && Contents == []
    {
      data := new T[0];
      capacity, size := 0, 0;
      Contents := [];
    }
  }
}
