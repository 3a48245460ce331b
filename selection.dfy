/**
 * The toggle-membership lists of the onboarding screens (selected goals,
 * workout types, equipment, dietary preferences). Each toggle is
 * `list.includes(id) ? list.filter(x => x !== id) : [...list, id]`.
 */
module Selection {

  /** `xs.filter(x => x !== id)`: every occurrence of `id` removed, the rest kept in order. */
  function RemoveAll(xs: seq<string>, id: string): (r: seq<string>)
    ensures id !in r
    ensures forall y :: y in r <==> y in xs && y != id
    ensures |r| <= |xs|
    decreases |xs|
  {
    if xs == [] then []
    else if xs[0] == id then RemoveAll(xs[1..], id)
    else [xs[0]] + RemoveAll(xs[1..], id)
  }

  /** One press of an option: remove it when selected, append it at the end otherwise. */
  function Toggle(xs: seq<string>, id: string): (r: seq<string>)
    ensures id in r <==> id !in xs
    ensures forall y :: y != id ==> (y in r <==> y in xs)
    ensures id !in xs ==> r == xs + [id]
  {
    if id in xs then RemoveAll(xs, id) else xs + [id]
  }

  ghost predicate NoDuplicates(xs: seq<string>)
  {
    forall i, j :: 0 <= i < j < |xs| ==> xs[i] != xs[j]
  }

  /** Filtering distributes over concatenation. */
  lemma {:induction false} RemoveAllAppend(xs: seq<string>, ys: seq<string>, id: string)
    ensures RemoveAll(xs + ys, id) == RemoveAll(xs, id) + RemoveAll(ys, id)
    decreases |xs|
  {
    if xs == [] {
      assert xs + ys == ys;
    } else {
      assert (xs + ys)[0] == xs[0];
      assert (xs + ys)[1..] == xs[1..] + ys;
      RemoveAllAppend(xs[1..], ys, id);
    }
  }

  /** Filtering out an absent id changes nothing. */
  lemma {:induction false} RemoveAbsent(xs: seq<string>, id: string)
    requires id !in xs
    ensures RemoveAll(xs, id) == xs
    decreases |xs|
  {
    if xs != [] {
      assert xs[1..] + [] == xs[1..];
      assert id !in xs[1..] by {
        forall y | y in xs[1..] ensures y != id { assert y in xs; }
      }
      RemoveAbsent(xs[1..], id);
      assert [xs[0]] + xs[1..] == xs;
    }
  }

  /** Filtering twice is filtering once. */
  lemma RemoveAllIdempotent(xs: seq<string>, id: string)
    ensures RemoveAll(RemoveAll(xs, id), id) == RemoveAll(xs, id)
  {
    RemoveAbsent(RemoveAll(xs, id), id);
  }

  /** Filtering keeps a list free of duplicates. */
  lemma {:induction false} RemoveAllKeepsNoDuplicates(xs: seq<string>, id: string)
    requires NoDuplicates(xs)
    ensures NoDuplicates(RemoveAll(xs, id))
    decreases |xs|
  {
    if xs != [] {
      var rest := RemoveAll(xs[1..], id);
      assert NoDuplicates(xs[1..]) by {
        forall i, j | 0 <= i < j < |xs[1..]| ensures xs[1..][i] != xs[1..][j] {
          assert xs[1..][i] == xs[i + 1] && xs[1..][j] == xs[j + 1];
        }
      }
      RemoveAllKeepsNoDuplicates(xs[1..], id);
      if xs[0] != id {
        assert xs[0] !in xs[1..] by {
          forall k | 0 <= k < |xs[1..]| ensures xs[1..][k] != xs[0] { assert xs[1..][k] == xs[k + 1]; }
        }
        assert xs[0] !in rest;
        var r := [xs[0]] + rest;
        forall i, j | 0 <= i < j < |r| ensures r[i] != r[j] {
          if i == 0 { assert r[j] == rest[j - 1] && r[j] in rest; }
          else { assert r[i] == rest[i - 1] && r[j] == rest[j - 1]; }
        }
      }
    }
  }

  /** A toggle keeps a list free of duplicates; starting from [] a list never has any. */
  lemma ToggleKeepsNoDuplicates(xs: seq<string>, id: string)
    requires NoDuplicates(xs)
    ensures NoDuplicates(Toggle(xs, id))
  {
    if id in xs {
      RemoveAllKeepsNoDuplicates(xs, id);
    } else {
      var r := xs + [id];
      forall i, j | 0 <= i < j < |r| ensures r[i] != r[j] {
        if j == |xs| { assert r[i] == xs[i] && r[i] in xs; }
      }
    }
  }

  /** A toggle leaves the other ids, and their relative order, as they were. */
  lemma ToggleKeepsOthers(xs: seq<string>, id: string)
    ensures RemoveAll(Toggle(xs, id), id) == RemoveAll(xs, id)
  {
    if id in xs {
      RemoveAllIdempotent(xs, id);
    } else {
      RemoveAllAppend(xs, [id], id);
      assert RemoveAll([id], id) == [];
      assert RemoveAll(xs, id) + [] == RemoveAll(xs, id);
    }
  }

  /** A toggle of a present id removes every occurrence of it and nothing else. */
  lemma TogglePresentRemovesAll(xs: seq<string>, id: string)
    requires id in xs
    ensures Toggle(xs, id) == RemoveAll(xs, id)
    ensures |Toggle(xs, id)| < |xs|
  {
    RemoveAllShorter(xs, id);
  }

  lemma {:induction false} RemoveAllShorter(xs: seq<string>, id: string)
    requires id in xs
    ensures |RemoveAll(xs, id)| < |xs|
    decreases |xs|
  {
    if xs[0] != id {
      assert id in xs[1..];
      RemoveAllShorter(xs[1..], id);
    }
  }

  /** Toggling an unselected id twice restores the list. */
  lemma ToggleTwiceRestores(xs: seq<string>, id: string)
    requires id !in xs
    ensures Toggle(Toggle(xs, id), id) == xs
  {
    RemoveAllAppend(xs, [id], id);
    RemoveAbsent(xs, id);
    assert RemoveAll([id], id) == [];
    assert xs + [] == xs;
  }

  /** Toggling a selected id twice moves it to the end instead. */
  lemma ToggleTwiceMovesToEnd(xs: seq<string>, id: string)
    requires id in xs
    ensures Toggle(Toggle(xs, id), id) == RemoveAll(xs, id) + [id]
  {
  }
}
