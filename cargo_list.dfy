/** The list operations both forms apply to their cargo lines: `filter` by
    id, `map` that changes the lines with a given id, and the guarded removal
    that the forms' remove buttons perform. `key` reads a line's id. */
module CargoList {

  /** `items.filter(item => key(item) !== id)`: never longer than the list, and
      no line left carries the id. */
  function Without<T>(items: seq<T>, key: T -> string, id: string): (r: seq<T>)
    ensures |r| <= |items|
    ensures forall i :: 0 <= i < |r| ==> key(r[i]) != id
  {
    if items == [] then []
    else
      var head, rest := (if key(items[0]) == id then [] else [items[0]]), Without(items[1..], key, id);
      assert forall i :: |head| <= i < |head| + |rest| ==> (head + rest)[i] == rest[i - |head|];
      head + rest
  }

  /** How many lines carry the id `id`. */
  function Count<T>(items: seq<T>, key: T -> string, id: string): (n: nat)
    ensures n <= |items|
  {
    if items == [] then 0
    else (if key(items[0]) == id then 1 else 0) + Count(items[1..], key, id)
  }

  /** No two lines share an id. */
  predicate Distinct<T>(items: seq<T>, key: T -> string)
  {
    forall i, j :: 0 <= i < j < |items| ==> key(items[i]) != key(items[j])
  }

  /** The filter keeps exactly the lines whose id differs from `id`. */
  lemma {:induction false} WithoutMembers<T>(items: seq<T>, key: T -> string, id: string, x: T)
    ensures x in Without(items, key, id) <==> x in items && key(x) != id
  {
    if items != [] {
      WithoutMembers(items[1..], key, id, x);
      assert items == [items[0]] + items[1..];
    }
  }

  /** The filter keeps the order: it works line by line, so filtering a
      concatenation concatenates the filtered parts, and a single line is
      kept exactly when its id differs. */
  lemma {:induction false} WithoutAppend<T>(a: seq<T>, b: seq<T>, key: T -> string, id: string)
    ensures Without(a + b, key, id) == Without(a, key, id) + Without(b, key, id)
  {
    if a == [] {
      assert a + b == b;
    } else {
      assert (a + b)[0] == a[0];
      assert (a + b)[1..] == a[1..] + b;
      WithoutAppend(a[1..], b, key, id);
    }
  }

  lemma WithoutSingle<T>(x: T, key: T -> string, id: string)
    ensures Without([x], key, id) == if key(x) == id then [] else [x]
  {
    assert [x][1..] == [];
  }

  /** Exactly the matching lines are dropped. */
  lemma {:induction false} WithoutLength<T>(items: seq<T>, key: T -> string, id: string)
    ensures |Without(items, key, id)| == |items| - Count(items, key, id)
  {
    if items != [] {
      WithoutLength(items[1..], key, id);
    }
  }

  /** The filter makes the list empty exactly when every line carries the id. */
  lemma {:induction false} WithoutEmpty<T>(items: seq<T>, key: T -> string, id: string)
    ensures Without(items, key, id) == [] <==> forall i :: 0 <= i < |items| ==> key(items[i]) == id
  {
    if items != [] {
      WithoutEmpty(items[1..], key, id);
      if key(items[0]) == id && Without(items[1..], key, id) != [] {
        var i :| 0 <= i < |items[1..]| && key(items[1..][i]) != id;
        assert key(items[i + 1]) != id;
      }
      if forall i :: 0 <= i < |items| ==> key(items[i]) == id {
        assert forall i :: 0 <= i < |items[1..]| ==> key(items[1..][i]) == key(items[i + 1]);
      }
    }
  }

  /** With distinct ids at most one line matches. */
  lemma {:induction false} DistinctCount<T>(items: seq<T>, key: T -> string, id: string)
    requires Distinct(items, key)
    ensures Count(items, key, id) <= 1
  {
    if items != [] {
      var tail := items[1..];
      assert Distinct(tail, key) by {
        forall i, j | 0 <= i < j < |tail| ensures key(tail[i]) != key(tail[j]) {
          assert tail[i] == items[i + 1] && tail[j] == items[j + 1];
        }
      }
      DistinctCount(tail, key, id);
      if key(items[0]) == id {
        CountZero(tail, key, id);
      }
    }
  }

  lemma CountZero<T>(items: seq<T>, key: T -> string, id: string)
    requires forall i :: 0 <= i < |items| ==> key(items[i]) != id
    ensures Count(items, key, id) == 0
  {
    if items != [] {
      assert forall i :: 0 <= i < |items[1..]| ==> key(items[1..][i]) == key(items[i + 1]);
      CountZero(items[1..], key, id);
    }
  }

  /** Filtering distinct lines leaves distinct lines. */
  lemma {:induction false} WithoutDistinct<T>(items: seq<T>, key: T -> string, id: string)
    requires Distinct(items, key)
    ensures Distinct(Without(items, key, id), key)
  {
    if items != [] {
      var tail := items[1..];
      assert Distinct(tail, key) by {
        forall i, j | 0 <= i < j < |tail| ensures key(tail[i]) != key(tail[j]) {
          assert tail[i] == items[i + 1] && tail[j] == items[j + 1];
        }
      }
      WithoutDistinct(tail, key, id);
      var rest := Without(tail, key, id);
      if key(items[0]) != id {
        var r := [items[0]] + rest;
        forall i, j | 0 <= i < j < |r| ensures key(r[i]) != key(r[j]) {
          if i == 0 {
            WithoutMembers(tail, key, id, r[j]);
            var m :| 0 <= m < |tail| && tail[m] == r[j];
            assert items[m + 1] == r[j];
          } else {
            assert r[i] == rest[i - 1] && r[j] == rest[j - 1];
          }
        }
      }
    }
  }

  /** The remove button: `if (items.length > 1) items = items.filter(…)`. A list
      of one line is kept as it is; from a longer one every line with the id
      goes. */
  function Remove<T>(items: seq<T>, key: T -> string, id: string): (r: seq<T>)
    ensures |items| <= 1 ==> r == items
    ensures |items| > 1 ==> |r| <= |items| && forall i :: 0 <= i < |r| ==> key(r[i]) != id
  {
    if |items| > 1 then Without(items, key, id) else items
  }

  /** The guard makes a one-line list immune to removal; on a longer list
      removal empties it exactly when every line carries the removed id, so
      with distinct ids it drops at most one line and never empties a
      non-empty list. */
  lemma RemoveEmpties<T>(items: seq<T>, key: T -> string, id: string)
    ensures Remove(items, key, id) == [] <==>
              items == [] || (|items| > 1 && forall i :: 0 <= i < |items| ==> key(items[i]) == id)
    ensures Distinct(items, key) ==>
              |Remove(items, key, id)| >= |items| - 1 && (|items| >= 1 ==> |Remove(items, key, id)| >= 1)
  {
    WithoutEmpty(items, key, id);
    WithoutLength(items, key, id);
    if Distinct(items, key) {
      DistinctCount(items, key, id);
    }
  }

  /** `items.map(item => key(item) === id ? change(item) : item)`: as many
      lines as before, and every line without the id is left as it was. */
  function Updated<T>(items: seq<T>, key: T -> string, change: T -> T, id: string): (r: seq<T>)
    ensures |r| == |items|
    ensures forall i :: 0 <= i < |items| && key(items[i]) != id ==> r[i] == items[i]
  {
    if items == [] then []
    else
      var rest := Updated(items[1..], key, change, id);
      var r := [if key(items[0]) == id then change(items[0]) else items[0]] + rest;
      assert forall i :: 1 <= i < |items| ==> r[i] == rest[i - 1] && items[i] == items[1..][i - 1];
      r
  }

  /** Line `i` is changed when it carries the id and kept as it was otherwise. */
  lemma {:induction false} UpdatedAt<T>(items: seq<T>, key: T -> string, change: T -> T, id: string, i: nat)
    requires i < |items|
    ensures Updated(items, key, change, id)[i] == if key(items[i]) == id then change(items[i]) else items[i]
  {
    if i > 0 {
      UpdatedAt(items[1..], key, change, id, i - 1);
    }
  }

  /** A change that keeps the id keeps every id, so distinct ids stay distinct. */
  lemma UpdatedDistinct<T>(items: seq<T>, key: T -> string, change: T -> T, id: string)
    requires Distinct(items, key)
    requires forall x :: key(change(x)) == key(x)
    ensures Distinct(Updated(items, key, change, id), key)
  {
    var r := Updated(items, key, change, id);
    forall i | 0 <= i < |r| ensures key(r[i]) == key(items[i]) {
      UpdatedAt(items, key, change, id, i);
    }
  }

  /** Adding a line with an unused id keeps the ids distinct. */
  lemma AppendDistinct<T>(items: seq<T>, key: T -> string, x: T)
    requires Distinct(items, key)
    requires forall i :: 0 <= i < |items| ==> key(items[i]) != key(x)
    ensures Distinct(items + [x], key)
  {
    var r := items + [x];
    forall i, j | 0 <= i < j < |r| ensures key(r[i]) != key(r[j]) {
      assert r[i] == items[i];
    }
  }
}
