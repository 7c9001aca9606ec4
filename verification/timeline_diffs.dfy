/** The diffs a timeline subscription emits and the page's in-place replay of them. */
module TimelineDiffs {

  datatype Diff<+T> =
    | Append(values: seq<T>)
    | Clear
    | PushFront(value: T)
    | PushBack(value: T)
    | PopFront
    | PopBack
    | Insert(index: nat, value: T)
    | Set(index: nat, value: T)
    | Remove(index: nat)
    | Truncate(length: nat)
    | Reset(values: seq<T>)

  /** A JavaScript array element: writing past the end leaves holes behind. */
  datatype Slot<+T> = Hole | Item(value: T)

  function Lift<T>(list: seq<T>): (slots: seq<Slot<T>>)
    ensures |slots| == |list|
    ensures forall i :: 0 <= i < |list| ==> slots[i] == Item(list[i])
  {
    seq(|list|, i requires 0 <= i < |list| => Item(list[i]))
  }

  // ---- the JavaScript array operations `applyDiffs` is written with ----

  function Min(a: nat, b: nat): nat { if a < b then a else b }

  /** `array.length = length`. */
  function WithLength<T>(slots: seq<Slot<T>>, length: nat): seq<Slot<T>> {
    if length <= |slots| then slots[..length] else slots + seq(length - |slots|, _ => Hole)
  }

  /** `array[index] = slot`. */
  function WithSlot<T>(slots: seq<Slot<T>>, index: nat, slot: Slot<T>): seq<Slot<T>> {
    if index < |slots| then slots[index := slot] else WithLength(slots, index) + [slot]
  }

  /** `array.splice(start, count, ...items)`: both bounds are clamped to the array. */
  function Splice<T>(slots: seq<Slot<T>>, start: nat, count: nat, items: seq<Slot<T>>): seq<Slot<T>> {
    var from := Min(start, |slots|);
    slots[..from] + items + slots[Min(from + count, |slots|)..]
  }

  // ---- the page's list ----

  function PageApply<T>(slots: seq<Slot<T>>, diff: Diff<T>): seq<Slot<T>> {
    match diff
    case Append(values) => slots + Lift(values)
    case Clear => []
    case PushFront(value) => [Item(value)] + slots
    case PushBack(value) => slots + [Item(value)]
    case PopFront => Splice(slots, 0, 1, [])
    case PopBack => slots[..if |slots| == 0 then 0 else |slots| - 1]
    case Insert(index, value) => Splice(slots, index, 0, [Item(value)])
    case Set(index, value) => WithSlot(slots, index, Item(value))
    case Remove(index) => Splice(slots, index, 1, [])
    case Truncate(length) => WithLength(slots, length)
    case Reset(values) => Lift(values)
  }

  function PageApplyAll<T>(slots: seq<Slot<T>>, diffs: seq<Diff<T>>): seq<Slot<T>> {
    if diffs == [] then slots
    else PageApply(PageApplyAll(slots, diffs[..|diffs| - 1]), diffs[|diffs| - 1])
  }

  method ApplyDiffs<T>(current: seq<Slot<T>>, diffs: seq<Diff<T>>) returns (next: seq<Slot<T>>)
    ensures next == PageApplyAll(current, diffs)
  {
    next := current;
    for i := 0 to |diffs|
      invariant next == PageApplyAll(current, diffs[..i])
    {
      assert diffs[..i + 1][..i] == diffs[..i];
      match diffs[i] {
        case Append(values) => next := next + Lift(values);
        case Clear => next := WithLength(next, 0);
        case PushFront(value) => next := [Item(value)] + next;
        case PushBack(value) => next := next + [Item(value)];
        case PopFront => if |next| > 0 { next := next[1..]; }
        case PopBack => if |next| > 0 { next := next[..|next| - 1]; }
        case Insert(index, value) => next := Splice(next, index, 0, [Item(value)]);
        case Set(index, value) => next := WithSlot(next, index, Item(value));
        case Remove(index) => next := Splice(next, index, 1, []);
        case Truncate(length) => next := WithLength(next, length);
        case Reset(values) => next := Splice(next, 0, |next|, Lift(values));
      }
    }
    assert diffs[..|diffs|] == diffs;
  }

  // ---- the core's list, the reference the page must follow ----

  /** The diffs a list of this length can emit. */
  predicate InRange<T>(list: seq<T>, diff: Diff<T>) {
    match diff
    case Insert(index, _) => index <= |list|
    case Set(index, _) => index < |list|
    case Remove(index) => index < |list|
    case Truncate(length) => length <= |list|
    case _ => true
  }

  function CoreApply<T>(list: seq<T>, diff: Diff<T>): seq<T>
    requires InRange(list, diff)
  {
    match diff
    case Append(values) => list + values
    case Clear => []
    case PushFront(value) => [value] + list
    case PushBack(value) => list + [value]
    case PopFront => if list == [] then [] else list[1..]
    case PopBack => if list == [] then [] else list[..|list| - 1]
    case Insert(index, value) => list[..index] + [value] + list[index..]
    case Set(index, value) => list[index := value]
    case Remove(index) => list[..index] + list[index + 1..]
    case Truncate(length) => list[..length]
    case Reset(values) => values
  }

  predicate AllInRange<T>(list: seq<T>, diffs: seq<Diff<T>>)
    decreases |diffs|
  {
    diffs == [] || (InRange(list, diffs[0]) && AllInRange(CoreApply(list, diffs[0]), diffs[1..]))
  }

  function CoreApplyAll<T>(list: seq<T>, diffs: seq<Diff<T>>): seq<T>
    requires AllInRange(list, diffs)
    decreases |diffs|
  {
    if diffs == [] then list else CoreApplyAll(CoreApply(list, diffs[0]), diffs[1..])
  }

  // ---- laws ----

  lemma PageFollowsOneDiff<T>(list: seq<T>, diff: Diff<T>)
    requires InRange(list, diff)
    ensures PageApply(Lift(list), diff) == Lift(CoreApply(list, diff))
  {
    var slots := Lift(list);
    match diff
    case Insert(index, value) => assert slots[..index] + [Item(value)] + slots[index..] == Lift(CoreApply(list, diff));
    case Remove(index) => assert slots[..index] + [] + slots[index + 1..] == Lift(CoreApply(list, diff));
    case PopFront => assert |list| > 0 ==> slots[..0] + [] + slots[1..] == Lift(CoreApply(list, diff));
    case _ =>
  }

  /** Batching does not matter: replaying two batches is replaying their concatenation. */
  lemma {:induction false} BatchesCompose<T>(slots: seq<Slot<T>>, first: seq<Diff<T>>, second: seq<Diff<T>>)
    ensures PageApplyAll(slots, first + second) == PageApplyAll(PageApplyAll(slots, first), second)
    decreases |second|
  {
    if second == [] {
      assert first + second == first;
    } else {
      var n := |second| - 1;
      assert (first + second)[..|first| + n] == first + second[..n];
      BatchesCompose(slots, first, second[..n]);
    }
  }

  /** Replaying the core's diffs gives exactly the core's list, hole-free. */
  lemma {:induction false} PageFollowsCore<T>(list: seq<T>, diffs: seq<Diff<T>>)
    requires AllInRange(list, diffs)
    ensures PageApplyAll(Lift(list), diffs) == Lift(CoreApplyAll(list, diffs))
    decreases |diffs|
  {
    hide PageApply, CoreApply, InRange;
    if diffs != [] {
      PageFollowsOneDiff(list, diffs[0]);
      PageFollowsCore(CoreApply(list, diffs[0]), diffs[1..]);
      assert diffs == [diffs[0]] + diffs[1..];
      BatchesCompose(Lift(list), [diffs[0]], diffs[1..]);
      assert [diffs[0]][..0] == [];
      assert PageApplyAll(Lift(list), [diffs[0]]) == PageApply(Lift(list), diffs[0]);
    }
  }

  /** Which diffs leave a hole in a hole-free page list: a write past the end, or a longer length. */
  lemma HolesExactlyWhen<T>(list: seq<T>, diff: Diff<T>)
    ensures Hole in PageApply(Lift(list), diff)
        <==> (diff.Set? && diff.index > |list|) || (diff.Truncate? && diff.length > |list|)
  {
    var after := PageApply(Lift(list), diff);
    if (diff.Set? && diff.index > |list|) || (diff.Truncate? && diff.length > |list|) {
      assert after[|list|] == Hole;
    }
  }
}
