/** The two positional list edits the mutations apply to an item list. */
module ItemLists {

  /** `items.filter((_, i) => i !== index)`: keeps, in order, every element
      whose position differs from `index`. */
  function RemoveAt(items: seq<string>, index: int): (r: seq<string>)
    ensures |r| == if 0 <= index < |items| then |items| - 1 else |items|
    decreases |items|
  {
    if |items| == 0 then []
    else (if index == 0 then [] else [items[0]]) + RemoveAt(items[1..], index - 1)
  }

  /** Filtering out one position is the same as cutting that position out
      of the list; an index outside the list filters out nothing. */
  lemma RemoveAtCutsOut(items: seq<string>, index: int)
    ensures 0 <= index < |items| ==> RemoveAt(items, index) == items[..index] + items[index + 1..]
    ensures !(0 <= index < |items|) ==> RemoveAt(items, index) == items
  {
    if 0 <= index < |items| {
      RemoveAtInRange(items, index);
    } else {
      RemoveAtOutOfRange(items, index);
    }
  }

  lemma {:induction false} RemoveAtOutOfRange(items: seq<string>, index: int)
    requires !(0 <= index < |items|)
    ensures RemoveAt(items, index) == items
    decreases |items|
  {
    if |items| > 0 {
      var tail := items[1..];
      assert RemoveAt(items, index) == [items[0]] + RemoveAt(tail, index - 1);
      RemoveAtOutOfRange(tail, index - 1);
      assert items == [items[0]] + tail;
    }
  }

  lemma {:induction false} RemoveAtInRange(items: seq<string>, index: int)
    requires 0 <= index < |items|
    ensures RemoveAt(items, index) == items[..index] + items[index + 1..]
    decreases |items|
  {
    var tail := items[1..];
    if index == 0 {
      assert RemoveAt(items, index) == [] + RemoveAt(tail, -1);
      RemoveAtOutOfRange(tail, -1);
      assert items[index + 1..] == tail;
    } else {
      assert RemoveAt(items, index) == [items[0]] + RemoveAt(tail, index - 1);
      RemoveAtInRange(tail, index - 1);
      assert items[..index] == [items[0]] + tail[..index - 1];
      assert items[index + 1..] == tail[index..];
    }
  }

  /** Removing position `index` keeps the earlier items in place and shifts
      every later item down by one. */
  lemma RemoveAtShiftsDown(items: seq<string>, index: int)
    requires 0 <= index < |items|
    ensures |RemoveAt(items, index)| == |items| - 1
    ensures forall j :: 0 <= j < index ==> RemoveAt(items, index)[j] == items[j]
    ensures forall j :: index <= j < |items| - 1 ==> RemoveAt(items, index)[j] == items[j + 1]
  {
    RemoveAtCutsOut(items, index);
  }

  /** Removing position `index` loses exactly the item stored there. */
  lemma RemoveAtLosesOneItem(items: seq<string>, index: int)
    requires 0 <= index < |items|
    ensures multiset(RemoveAt(items, index)) + multiset{items[index]} == multiset(items)
  {
    RemoveAtCutsOut(items, index);
    CutOutLosesOneItem(items, index);
  }

  lemma CutOutLosesOneItem(items: seq<string>, index: int)
    requires 0 <= index < |items|
    ensures multiset(items[..index] + items[index + 1..]) + multiset{items[index]} == multiset(items)
  {
    assert items == items[..index] + ([items[index]] + items[index + 1..]);
  }

  /** `items.map((item, i) => i === index ? value : item)`. */
  function ReplaceAt(items: seq<string>, index: int, value: string): (r: seq<string>)
    ensures |r| == |items|
    ensures 0 <= index < |items| ==> r == items[index := value]
    ensures !(0 <= index < |items|) ==> r == items
  {
    seq(|items|, i requires 0 <= i < |items| => if i == index then value else items[i])
  }
}
