/**
  The `todo_list` contract: an ordered list of to-do items and the account
  that instantiated the contract.

  The `Vec<TodoItem>` storage is a sequence field that the messages reassign.
  The caller that `new` records as owner is an explicit parameter. No message
  reads the owner, and none checks who is calling.
*/
module TodoListContract {
  import opened InkEnv

  datatype TodoItem = TodoItem(description: string, completed: bool)

  /** The items `retain(|item| !item.completed)` keeps, in their order. */
  function Pending(items: seq<TodoItem>): (kept: seq<TodoItem>)
    ensures |kept| <= |items|
    ensures forall j :: 0 <= j < |kept| ==> !kept[j].completed
    decreases |items|
  {
    if items == [] then []
    else
      var last := items[|items| - 1];
      Pending(items[..|items| - 1]) + (if last.completed then [] else [last])
  }

  /** The positions of the items that are not completed, in increasing order. */
  function PendingPositions(items: seq<TodoItem>): seq<nat>
    decreases |items|
  {
    if items == [] then []
    else
      var n := |items| - 1;
      PendingPositions(items[..n]) + (if items[n].completed then [] else [n])
  }

  /** There is one position per kept item, and each lies inside the list. */
  lemma {:induction false} PendingPositionsInRange(items: seq<TodoItem>)
    ensures |PendingPositions(items)| == |Pending(items)|
    ensures forall j :: 0 <= j < |PendingPositions(items)| ==> PendingPositions(items)[j] < |items|
    decreases |items|
  {
    if items != [] {
      PendingPositionsInRange(items[..|items| - 1]);
    }
  }

  /** The j-th kept item is the item at the j-th position. */
  lemma {:induction false} PendingAtPositions(items: seq<TodoItem>)
    ensures |PendingPositions(items)| == |Pending(items)|
    ensures forall j :: 0 <= j < |Pending(items)| ==>
              PendingPositions(items)[j] < |items| && Pending(items)[j] == items[PendingPositions(items)[j]]
    decreases |items|
  {
    PendingPositionsInRange(items);
    if items != [] {
      var n := |items| - 1;
      var init := items[..n];
      PendingPositionsInRange(init);
      PendingAtPositions(init);
      forall j | 0 <= j < |Pending(init)|
        ensures Pending(items)[j] == items[PendingPositions(items)[j]]
      {
        assert Pending(items)[j] == Pending(init)[j];
        assert PendingPositions(items)[j] == PendingPositions(init)[j];
      }
    }
  }

  /** The positions increase strictly, so the kept items keep their order. */
  lemma {:induction false} PendingPositionsIncrease(items: seq<TodoItem>)
    ensures forall j, k :: 0 <= j < k < |PendingPositions(items)| ==>
              PendingPositions(items)[j] < PendingPositions(items)[k]
    decreases |items|
  {
    if items != [] {
      var init := items[..|items| - 1];
      PendingPositionsInRange(init);
      PendingPositionsIncrease(init);
    }
  }

  /** A position is listed exactly when the item there is not completed. */
  lemma {:induction false} PendingPositionsExact(items: seq<TodoItem>)
    ensures forall i :: 0 <= i < |items| ==> (i in PendingPositions(items) <==> !items[i].completed)
    decreases |items|
  {
    if items != [] {
      var n := |items| - 1;
      var init := items[..n];
      PendingPositionsInRange(init);
      PendingPositionsExact(init);
      assert n !in PendingPositions(init);
      forall i | 0 <= i < n
        ensures i in PendingPositions(items) <==> !items[i].completed
      {
        assert init[i] == items[i];
      }
    }
  }

  /** A list with no completed item is left as it is. */
  lemma {:induction false} PendingOfOpen(items: seq<TodoItem>)
    requires forall i :: 0 <= i < |items| ==> !items[i].completed
    ensures Pending(items) == items
    decreases |items|
  {
    if items != [] {
      var n := |items| - 1;
      PendingOfOpen(items[..n]);
      assert items[..n] + [items[n]] == items;
    }
  }

  /** Clearing twice is clearing once. */
  lemma PendingIdempotent(items: seq<TodoItem>)
    ensures Pending(Pending(items)) == Pending(items)
  {
    PendingOfOpen(Pending(items));
  }

  class TodoList {
    var items: seq<TodoItem>
    var owner: AccountId

    /** `TodoList::new`: no items; the instantiating caller becomes owner. */
    constructor New(caller: AccountId)
      ensures items == [] && owner == caller
    {
      items := [];
      owner := caller;
    }

    /** `TodoList::default`: the same as `new`. */
    constructor Default(caller: AccountId)
      ensures items == [] && owner == caller
    {
      items := [];
      owner := caller;
    }

    /** `add_item`: pushes a new, not yet completed item. */
    method AddItem(description: string)
      modifies this
      ensures items == old(items) + [TodoItem(description, false)]
      ensures owner == old(owner)
    {
      items := items + [TodoItem(description, false)];
    }

    /** `get_items`: a copy of the current list. */
    method GetItems() returns (snapshot: seq<TodoItem>)
      ensures snapshot == items
    {
      snapshot := items;
    }

    /**
      `mark_completed`: flags the item at `index` as completed; an index past
      the end is ignored without an error.
    */
    method MarkCompleted(index: U32)
      modifies this
      ensures |items| == |old(items)|
      ensures index < |old(items)| ==> items[index] == TodoItem(old(items)[index].description, true)
      ensures forall i :: 0 <= i < |items| && i != index ==> items[i] == old(items)[i]
      ensures owner == old(owner)
    {
      if index < |items| {
        items := items[index := items[index].(completed := true)];
      }
    }

    /**
      `clear_completed`: `retain` compacts the list in place, moving each item
      that is not completed down to the next free position, then truncates.
    */
    method ClearCompleted()
      modifies this
      ensures items == Pending(old(items))
      ensures owner == old(owner)
    {
      ghost var original := items;
      var write := 0;
      var read := 0;
      while read < |items|
        invariant |items| == |original|
        invariant write <= read <= |items|
        invariant items[..write] == Pending(original[..read])
        invariant forall k :: read <= k < |items| ==> items[k] == original[k]
        invariant owner == old(owner)
      {
        assert original[..read + 1] == original[..read] + [original[read]];
        if !items[read].completed {
          ghost var kept := items[..write];
          items := items[write := items[read]];
          assert items[..write + 1] == kept + [original[read]];
          write := write + 1;
        }
        read := read + 1;
      }
      assert original[..read] == original;
      items := items[..write];
    }
  }

  // ---------------------------------------------------------------------------
  // The contract's unit tests, as clients of the class

  /** A fresh list is empty. */
  method DefaultWorks(caller: AccountId) returns (count: nat)
    ensures count == 0
  {
    var list := new TodoList.Default(caller);
    var items := list.GetItems();
    count := |items|;
  }

  /** One added item is there, with its description, not completed. */
  method AddItemWorks(caller: AccountId) returns (items: seq<TodoItem>)
    ensures |items| == 1
    ensures items[0].description == "write tests" && !items[0].completed
  {
    var list := new TodoList.New(caller);
    list.AddItem("write tests");
    items := list.GetItems();
  }

  /** Marking the first item completes it. */
  method MarkCompletedWorks(caller: AccountId) returns (items: seq<TodoItem>)
    ensures |items| == 1 && items[0].completed
  {
    var list := new TodoList.New(caller);
    list.AddItem("write tests");
    list.MarkCompleted(0);
    items := list.GetItems();
  }

  /** Marking an index past the end changes nothing. */
  method MarkPastEndIgnored(caller: AccountId) returns (before: seq<TodoItem>, after: seq<TodoItem>)
    ensures after == before && |after| == 1
  {
    var list := new TodoList.New(caller);
    list.AddItem("x");
    before := list.GetItems();
    list.MarkCompleted(999);
    after := list.GetItems();
  }

  /** Of two items, the completed first one is cleared and the second stays. */
  method ClearCompletedWorks(caller: AccountId) returns (items: seq<TodoItem>)
    ensures items == [TodoItem("deploy contract", false)]
  {
    var list := new TodoList.New(caller);
    list.AddItem("write tests");
    list.AddItem("deploy contract");
    list.MarkCompleted(0);
    list.ClearCompleted();
    items := list.GetItems();
  }
}
