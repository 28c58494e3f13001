/** The array updaters the profile editors share: `filter` to remove an item,
    spread to append one, the check-then-toggle of the condition chips, and
    the suggestion filter. */
module Lists {
  import opened Types
  import opened Strings

  /** No element occurs twice. */
  predicate NoDup(xs: seq<string>) {
    forall i, j :: 0 <= i < j < |xs| ==> xs[i] != xs[j]
  }

  /** `xs.filter(y => y !== x)` */
  function RemoveAll(xs: seq<string>, x: string): (r: seq<string>)
    ensures forall y :: y in r <==> y in xs && y != x
    ensures x !in xs ==> r == xs
    ensures |r| <= |xs|
    decreases |xs|
  {
    if xs == [] then []
    else if xs[0] == x then RemoveAll(xs[1..], x)
    else [xs[0]] + RemoveAll(xs[1..], x)
  }

  /** Removing keeps every other occurrence and drops every occurrence of `x`. */
  lemma {:induction false} RemoveAllCounts(xs: seq<string>, x: string)
    ensures multiset(RemoveAll(xs, x)) == multiset(xs)[x := 0]
    decreases |xs|
  {
    if xs != [] {
      RemoveAllCounts(xs[1..], x);
      assert xs == [xs[0]] + xs[1..];
    }
  }

  /** Removing commutes with concatenation, so the kept items stay in order. */
  lemma {:induction false} RemoveAllAppend(a: seq<string>, b: seq<string>, x: string)
    ensures RemoveAll(a + b, x) == RemoveAll(a, x) + RemoveAll(b, x)
    decreases |a|
  {
    if a == [] {
      assert a + b == b;
    } else {
      assert (a + b)[0] == a[0];
      assert (a + b)[1..] == a[1..] + b;
      RemoveAllAppend(a[1..], b, x);
    }
  }

  lemma RemoveAllKeepsNoDup(xs: seq<string>, x: string)
    requires NoDup(xs)
    ensures NoDup(RemoveAll(xs, x))
    decreases |xs|
  {
    if xs != [] {
      RemoveAllKeepsNoDup(xs[1..], x);
      assert NoDup(xs[1..]) by {
        forall i, j | 0 <= i < j < |xs[1..]| ensures xs[1..][i] != xs[1..][j] {
          assert xs[1..][i] == xs[i + 1] && xs[1..][j] == xs[j + 1];
        }
      }
      if xs[0] != x {
        var r := RemoveAll(xs[1..], x);
        assert xs[0] !in xs[1..];
        assert xs[0] !in r;
        forall i, j | 0 <= i < j < |[xs[0]] + r| ensures ([xs[0]] + r)[i] != ([xs[0]] + r)[j] {
          if i == 0 {
            assert ([xs[0]] + r)[j] == r[j - 1];
          } else {
            assert ([xs[0]] + r)[i] == r[i - 1] && ([xs[0]] + r)[j] == r[j - 1];
          }
        }
      }
    }
  }

  /** The chip toggle: remove every occurrence when present, append otherwise. */
  function Toggle(xs: seq<string>, x: string): (r: seq<string>)
    ensures x in xs ==> x !in r && forall y :: y in r <==> y in xs && y != x
    ensures x !in xs ==> r == xs + [x]
  {
    if x in xs then RemoveAll(xs, x) else xs + [x]
  }

  /** Toggling an absent item twice restores the list. */
  lemma ToggleTwice(xs: seq<string>, x: string)
    requires x !in xs
    ensures Toggle(Toggle(xs, x), x) == xs
  {
    RemoveAllAppend(xs, [x], x);
    assert RemoveAll([x], x) == [];
  }

  /** Appending an item not yet present keeps a list duplicate-free. */
  lemma AppendKeepsNoDup(xs: seq<string>, x: string)
    requires NoDup(xs) && x !in xs
    ensures NoDup(xs + [x])
  {
    var r := xs + [x];
    forall i, j | 0 <= i < j < |r| ensures r[i] != r[j] {
      if j == |xs| {
        assert r[i] == xs[i];
      } else {
        assert r[i] == xs[i] && r[j] == xs[j];
      }
    }
  }

  /** A duplicate-free list stays duplicate-free under toggling. */
  lemma ToggleKeepsNoDup(xs: seq<string>, x: string)
    requires NoDup(xs)
    ensures NoDup(Toggle(xs, x))
  {
    if x in xs {
      RemoveAllKeepsNoDup(xs, x);
    } else {
      AppendKeepsNoDup(xs, x);
    }
  }

  /** The item a typed text adds to a list, if any: the trimmed text, when it
      is non-empty and not yet listed (`TagInput.handleAdd` and
      `addCustomHealthIssue`). */
  function TypedItem(inputValue: string, items: seq<string>): (r: Option<string>)
    ensures r.Some? <==> Trim(inputValue) != "" && Trim(inputValue) !in items
    ensures r.Some? ==> r.value == Trim(inputValue)
  {
    var t := Trim(inputValue);
    if t != "" && t !in items then Some(t) else None
  }

  /** A typed item never duplicates a listed one. */
  lemma TypedItemIsNew(inputValue: string, items: seq<string>)
    requires NoDup(items)
    requires TypedItem(inputValue, items).Some?
    ensures NoDup(items + [TypedItem(inputValue, items).value])
  {
    AppendKeepsNoDup(items, Trim(inputValue));
  }

  /** `xs.filter(s => !ys.includes(s))` */
  function Without(xs: seq<string>, ys: seq<string>): (r: seq<string>)
    ensures forall y :: y in r <==> y in xs && y !in ys
    ensures |r| <= |xs|
    decreases |xs|
  {
    if xs == [] then []
    else if xs[0] in ys then Without(xs[1..], ys)
    else [xs[0]] + Without(xs[1..], ys)
  }

  /** The filter keeps the remaining suggestions in their original order. */
  lemma {:induction false} WithoutAppend(a: seq<string>, b: seq<string>, ys: seq<string>)
    ensures Without(a + b, ys) == Without(a, ys) + Without(b, ys)
    decreases |a|
  {
    if a == [] {
      assert a + b == b;
    } else {
      assert (a + b)[0] == a[0];
      assert (a + b)[1..] == a[1..] + b;
      WithoutAppend(a[1..], b, ys);
    }
  }
}
