/**
 * The iterator pattern demo: a cursor over a fixed collection whose `next` and `prev`
 * stop at the ends, and a collection object that hands out one shared iterator.
 */
module IteratorPattern {
  import opened Wrappers

  /** The elements of the demo list: numbers, an object with a name, a nested array, strings. */
  datatype Item = Num(n: int) | Obj(name: string) | Arr(items: seq<int>) | Str(s: string)

  class Iterator<T> {
    const elements: seq<T>
    var index: nat

    /** The cursor never leaves 0..|elements|. */
    ghost predicate Valid()
      reads this
    {
      index <= |elements|
    }

    /** A new iterator starts at the first position. */
    constructor (elements: seq<T>)
      ensures Valid()
      ensures this.elements == elements && index == 0
    {
      this.elements := elements;
      index := 0;
    }

    /** `next`: one step forward, except at the end, where nothing changes. */
    method Next()
      requires Valid()
      modifies this`index
      ensures Valid()
      ensures index == if old(index) == |elements| then old(index) else old(index) + 1
    {
      if index == |elements| {
        return;
      }
      index := index + 1;
    }

    /** `prev`: one step back, except at the start, where nothing changes. */
    method Prev()
      requires Valid()
      modifies this`index
      ensures Valid()
      ensures index == if old(index) == 0 then 0 else old(index) - 1
    {
      if index == 0 {
        return;
      }
      index := index - 1;
    }

    /** `current`: the element under the cursor; past the end there is none (`undefined`). */
    function Current(): (r: Option<T>)
      reads this
      requires Valid()
      ensures r.Some? <==> index < |elements|
      ensures r.Some? ==> r.value == elements[index]
    {
      if index < |elements| then Some(elements[index]) else None
    }

    /** `isDone`: the cursor has reached the end. */
    function IsDone(): (done: bool)
      reads this
      requires Valid()
      ensures done <==> Current().None?
    {
      index >= |elements|
    }
  }

  /** `CustomArray`: owns its contents and one iterator over them (field `cursor`, the source's `iterator`), created with it. */
  class CustomArray<T> {
    const contents: seq<T>
    const cursor: Iterator<T>

    constructor (contents: seq<T>)
      ensures this.contents == contents
      ensures fresh(cursor) && cursor.Valid()
      ensures cursor.elements == contents && cursor.index == 0
    {
      this.contents := contents;
      cursor := new Iterator(contents);
    }

    /** `getIterator`: every call returns the same iterator object. */
    method GetIterator() returns (it: Iterator<T>)
      ensures it == cursor
    {
      it := cursor;
    }
  }

  /** The demo list of nine elements. */
  function DemoList(): seq<Item>
  {
    [Num(1), Num(2), Num(3), Num(4), Num(5), Obj("John"), Arr([1, 2, 3]), Str("hello"), Str("world")]
  }

  /**
   * The demo: `current` is 1, then 2 after one `next`, then the object `{ name: 'John' }`
   * after four more; after four further `next`s the iterator is done.
   */
  method IteratorUsage() returns (first: Option<Item>, second: Option<Item>, sixth: Option<Item>, done: bool)
    ensures first == Some(Num(1)) && second == Some(Num(2)) && sixth == Some(Obj("John"))
    ensures done
  {
    var myList := new CustomArray(DemoList());
    var it := myList.GetIterator();
    first := it.Current();
    it.Next();
    second := it.Current();
    for i := 0 to 4
      invariant it.Valid() && it.elements == DemoList()
      invariant it.index == 1 + i
    {
      it.Next();
    }
    sixth := it.Current();
    for i := 0 to 4
      invariant it.Valid() && it.elements == DemoList()
      invariant it.index == 5 + i
    {
      it.Next();
    }
    done := it.IsDone();
  }
}
