/**
 * The guest list of the trip form: an ordered list of e-mail addresses, searched with
 * `Array.prototype.find` and reduced with `Array.prototype.filter`.
 */
module GuestList {
  import opened Wrappers
  import opened JsStrings

  /** No two positions of the list hold the same string. */
  predicate NoDuplicates(list: seq<JsString>) {
    forall i, j :: 0 <= i < j < |list| ==> list[i] != list[j]
  }

  /** `a` is obtained from `b` by deleting entries: the entries of `a` appear in `b` in the same order. */
  ghost predicate IsSubsequence(a: seq<JsString>, b: seq<JsString>)
    decreases |b|
  {
    if a == [] then true
    else if b == [] then false
    else if a[0] == b[0] then IsSubsequence(a[1..], b[1..])
    else IsSubsequence(a, b[1..])
  }

  /** `list.find(email => email === candidate)`: the first entry equal to `candidate`, or `undefined`. */
  function Find(list: seq<JsString>, candidate: JsString): (r: Option<JsString>)
    ensures r.Some? <==> candidate in list
    ensures r.Some? ==> r.value == candidate
  {
    if list == [] then None
    else if list[0] == candidate then Some(list[0])
    else Find(list[1..], candidate)
  }

  /**
   * The duplicate test of the add handler: the value `find` returns is used as a condition,
   * so a match counts only when it is truthy, and an empty string already in the list is missed.
   */
  function AlreadyAdded(list: seq<JsString>, candidate: JsString): (b: bool)
    ensures b <==> candidate in list && candidate != []
  {
    Truthy(Find(list, candidate))
  }

  /** `list.filter(email => email !== target)`. */
  function RemoveAll(list: seq<JsString>, target: JsString): (r: seq<JsString>)
    ensures forall x :: x in r <==> x in list && x != target
    ensures forall x :: x != target ==> multiset(r)[x] == multiset(list)[x]
    ensures IsSubsequence(r, list)
  {
    if list == [] then []
    else if list[0] == target then
      var rest := RemoveAll(list[1..], target);
      assert list == [list[0]] + list[1..];
      assert rest != [] ==> rest[0] in rest && rest[0] != list[0];
      rest
    else
      var rest := RemoveAll(list[1..], target);
      assert ([list[0]] + rest)[1..] == rest;
      assert list == [list[0]] + list[1..];
      [list[0]] + rest
  }

  /** Filtering a list that has no duplicates leaves a list that has none. */
  lemma {:induction false} RemoveAllKeepsNoDuplicates(list: seq<JsString>, target: JsString)
    requires NoDuplicates(list)
    ensures NoDuplicates(RemoveAll(list, target))
  {
    if list != [] {
      var tail := list[1..];
      assert NoDuplicates(tail) by {
        forall i, j | 0 <= i < j < |tail| ensures tail[i] != tail[j] {
          assert tail[i] == list[i + 1] && tail[j] == list[j + 1];
        }
      }
      RemoveAllKeepsNoDuplicates(tail, target);
      if list[0] != target {
        var rest := RemoveAll(tail, target);
        assert list[0] !in tail;
        var r := [list[0]] + rest;
        forall i, j | 0 <= i < j < |r| ensures r[i] != r[j] {
          if i == 0 {
            assert r[j] == rest[j - 1];
          } else {
            assert r[i] == rest[i - 1] && r[j] == rest[j - 1];
          }
        }
      }
    }
  }

  /**
   * On a list without duplicates, removing an entry drops exactly the one position holding it
   * and keeps everything else in place.
   */
  lemma {:induction false} RemoveAllDropsOnlyThatEntry(list: seq<JsString>, k: nat)
    requires NoDuplicates(list) && k < |list|
    ensures RemoveAll(list, list[k]) == list[..k] + list[k + 1..]
  {
    var target := list[k];
    if k == 0 {
      RemoveAllOfAbsent(list[1..], target);
    } else {
      var tail := list[1..];
      assert NoDuplicates(tail) by {
        forall i, j | 0 <= i < j < |tail| ensures tail[i] != tail[j] {
          assert tail[i] == list[i + 1] && tail[j] == list[j + 1];
        }
      }
      assert tail[k - 1] == target;
      RemoveAllDropsOnlyThatEntry(tail, k - 1);
      assert list[0] != target;
      assert list[..k] == [list[0]] + tail[..k - 1];
      assert list[k + 1..] == tail[k..];
    }
  }

  /** Filtering out a string the list does not hold changes nothing. */
  lemma {:induction false} RemoveAllOfAbsent(list: seq<JsString>, target: JsString)
    requires target !in list
    ensures RemoveAll(list, target) == list
  {
    if list != [] {
      RemoveAllOfAbsent(list[1..], target);
      assert list == [list[0]] + list[1..];
    }
  }

  /** Appending a string the list does not yet hold keeps it free of duplicates. */
  lemma AppendKeepsNoDuplicates(list: seq<JsString>, x: JsString)
    requires NoDuplicates(list) && x !in list
    ensures NoDuplicates(list + [x])
  {
  }

  /**
   * The duplicate test misses an empty string already in the list, because the match `find`
   * returns is itself falsy; appending it again would repeat an entry.
   */
  lemma EmptyEmailPassesDuplicateTest(list: seq<JsString>)
    requires [] in list
    ensures !AlreadyAdded(list, [])
    ensures !NoDuplicates(list + [[]])
  {
    var k :| 0 <= k < |list| && list[k] == [];
    var r := list + [[]];
    assert r[k] == [] && r[|list|] == [];
  }
}
