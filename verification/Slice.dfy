/** String and number lists (pkg/slice/slice.go). */
module Slice {
  /** The list without any occurrence of s, in the same order. */
  function Without(items: seq<string>, s: string): seq<string> {
    if items == [] then []
    else if items[|items| - 1] == s then Without(items[..|items| - 1], s)
    else Without(items[..|items| - 1], s) + [items[|items| - 1]]
  }

  method RemoveString(items: seq<string>, s: string) returns (kept: seq<string>)
    ensures kept == Without(items, s)
  {
    kept := [];
    for i := 0 to |items|
      invariant kept == Without(items[..i], s)
    {
      assert items[..i + 1][..i] == items[..i];
      if items[i] == s {
        continue;
      }
      kept := kept + [items[i]];
    }
    assert items[..|items|] == items;
  }

  /** Removal takes out every copy of s and no copy of anything else. */
  lemma {:induction false} WithoutCounts(items: seq<string>, s: string)
    ensures multiset(Without(items, s)) == multiset(items)[s := 0]
    ensures s !in Without(items, s)
    ensures forall t :: t != s ==> (t in Without(items, s) <==> t in items)
  {
    if items != [] {
      var init := items[..|items| - 1];
      WithoutCounts(init, s);
      assert items == init + [items[|items| - 1]];
    }
  }

  /** Removal keeps order: it distributes over concatenation, so whatever stood before
      or after a kept item still does. */
  lemma {:induction false} WithoutKeepsOrder(front: seq<string>, back: seq<string>, s: string)
    ensures Without(front + back, s) == Without(front, s) + Without(back, s)
  {
    if back == [] {
      assert front + back == front;
    } else {
      var init := back[..|back| - 1];
      assert (front + back)[..|front + back| - 1] == front + init;
      WithoutKeepsOrder(front, init, s);
    }
  }

  /** Adding s at the end and removing it again gives the list without s. */
  lemma RemoveUndoesAppend(items: seq<string>, s: string)
    requires s !in items
    ensures Without(items + [s], s) == items
  {
    assert (items + [s])[..|items|] == items;
    WithoutAbsent(items, s);
  }

  lemma {:induction false} WithoutAbsent(items: seq<string>, s: string)
    requires s !in items
    ensures Without(items, s) == items
  {
    if items != [] {
      WithoutAbsent(items[..|items| - 1], s);
    }
  }

  method ContainsString(items: seq<string>, s: string) returns (found: bool)
    ensures found <==> s in items
  {
    for i := 0 to |items|
      invariant s !in items[..i]
    {
      if items[i] == s {
        return true;
      }
    }
    return false;
  }

  method ContainsInt32(items: seq<int>, n: int) returns (found: bool)
    ensures found <==> n in items
  {
    for i := 0 to |items|
      invariant n !in items[..i]
    {
      if items[i] == n {
        return true;
      }
    }
    return false;
  }
}
