/** Singly linked lists threaded through pointer fields of a file: hash chains and
    the free list. A pointer field is named by its location; a list is named by the
    location of its head pointer; zero ends a list. */
module DbLists {
  import opened Common

  type Ptrs = map<nat, nat>

  /** What the pointer before position i of the list holds. */
  function At(list: seq<nat>, i: nat): nat {
    if i < |list| then list[i] else 0
  }

  /** Where the pointer before position i of the list is. */
  function Loc(head: nat, list: seq<nat>, i: nat): nat
    requires i <= |list|
  {
    if i == 0 then head else list[i - 1]
  }

  ghost predicate IsList(ptrs: Ptrs, head: nat, list: seq<nat>) {
    && Distinct(list)
    && 0 !in list
    && head !in list
    && forall i :: 0 <= i <= |list| ==>
         Loc(head, list, i) in ptrs && ptrs[Loc(head, list, i)] == At(list, i)
  }

  /** One step along a list: the pointer that leads to element i, and what lies there. */
  lemma ListStep(ptrs: Ptrs, head: nat, list: seq<nat>, i: nat)
    requires IsList(ptrs, head, list) && i <= |list|
    ensures Loc(head, list, i) in ptrs && ptrs[Loc(head, list, i)] == At(list, i)
    ensures At(list, i) == 0 <==> i == |list|
    ensures i < |list| ==> At(list, i) == list[i] && list[i] in list && Loc(head, list, i + 1) == list[i]
    ensures i < |list| ==> list[i] in ptrs && ptrs[list[i]] == At(list, i + 1)
  {
    AtEnd(list, i);
    if i < |list| {
      assert Loc(head, list, i + 1) in ptrs && ptrs[Loc(head, list, i + 1)] == At(list, i + 1);
    }
  }

  lemma ListStart(head: nat, list: seq<nat>)
    ensures Loc(head, list, 0) == head
  {
  }

  lemma AtEnd(list: seq<nat>, i: nat)
    requires 0 !in list && i <= |list|
    ensures At(list, i) == 0 <==> i == |list|
  {
    assert i < |list| ==> list[i] in list;
  }

  function Without(list: seq<nat>, i: nat): seq<nat>
    requires i < |list|
  {
    list[..i] + list[i + 1..]
  }

  lemma ListFrame(ptrs: Ptrs, ptrs': Ptrs, head: nat, list: seq<nat>)
    requires IsList(ptrs, head, list)
    requires head in ptrs && head in ptrs' && ptrs'[head] == ptrs[head]
    requires forall o :: o in list ==> o in ptrs && o in ptrs' && ptrs'[o] == ptrs[o]
    ensures IsList(ptrs', head, list)
  {
    forall i | 0 <= i <= |list|
      ensures Loc(head, list, i) in ptrs' && ptrs'[Loc(head, list, i)] == At(list, i)
    {
      if i > 0 {
        assert list[i - 1] in list;
      }
    }
  }

  /** A node whose pointer holds the old head goes to the front. */
  lemma ListPush(ptrs: Ptrs, head: nat, list: seq<nat>, node: nat)
    requires IsList(ptrs, head, list)
    requires head in ptrs && node in ptrs && ptrs[node] == ptrs[head]
    requires node != 0 && node != head && node !in list
    ensures IsList(ptrs[head := node], head, [node] + list)
  {
    var ptrs', list' := ptrs[head := node], [node] + list;
    forall i | 0 <= i <= |list'|
      ensures Loc(head, list', i) in ptrs' && ptrs'[Loc(head, list', i)] == At(list', i)
    {
      assert Loc(head, list, 0) == head;
      if i > 1 {
        assert Loc(head, list, i - 1) == list'[i - 1];
        assert list[i - 2] in list;
      }
    }
  }

  /** Bypassing position i takes that node out and keeps the order of the rest. */
  lemma ListUnlink(ptrs: Ptrs, head: nat, list: seq<nat>, i: nat)
    requires IsList(ptrs, head, list) && i < |list|
    ensures IsList(ptrs[Loc(head, list, i) := At(list, i + 1)], head, Without(list, i))
  {
    var loc := Loc(head, list, i);
    var ptrs', list' := ptrs[loc := At(list, i + 1)], Without(list, i);
    forall k | 0 <= k <= |list'|
      ensures Loc(head, list', k) in ptrs' && ptrs'[Loc(head, list', k)] == At(list', k)
    {
      if k <= i {
        assert Loc(head, list', k) == Loc(head, list, k);
      } else {
        assert Loc(head, list', k) == Loc(head, list, k + 1);
        if i > 0 {
          assert list[i - 1] != list[k];
        }
      }
    }
    forall o | o in list'
      ensures o in list
    {
    }
  }

  lemma WithoutMembers(list: seq<nat>, i: nat)
    requires Distinct(list) && i < |list|
    ensures forall o :: o in Without(list, i) <==> o in list && o != list[i]
    ensures Distinct(Without(list, i))
  {
    var list' := Without(list, i);
    forall o
      ensures o in list' <==> o in list && o != list[i]
    {
      if o in list' {
        var k :| 0 <= k < |list'| && list'[k] == o;
        assert o == list[if k < i then k else k + 1];
      }
      if o in list && o != list[i] {
        var k :| 0 <= k < |list| && list[k] == o;
        assert o == list'[if k < i then k else k - 1];
      }
    }
  }

  /** The pointers decide the list: no two lists hang off the same head. */
  lemma {:induction false} ListUnique(ptrs: Ptrs, head: nat, a: seq<nat>, b: seq<nat>)
    requires IsList(ptrs, head, a) && IsList(ptrs, head, b)
    ensures a == b
  {
    ListUniqueTo(ptrs, head, a, b, |a|);
    ListUniqueTo(ptrs, head, b, a, |b|);
  }

  lemma {:induction false} ListUniqueTo(ptrs: Ptrs, head: nat, a: seq<nat>, b: seq<nat>, n: nat)
    requires IsList(ptrs, head, a) && IsList(ptrs, head, b) && n <= |a|
    ensures n <= |b| && a[..n] == b[..n]
  {
    if n > 0 {
      ListUniqueTo(ptrs, head, a, b, n - 1);
      var loc := Loc(head, a, n - 1);
      if n > 1 {
        assert a[n - 2] == a[..n - 1][n - 2] == b[..n - 1][n - 2] == b[n - 2];
      }
      assert loc == Loc(head, b, n - 1);
      assert ptrs[loc] == a[n - 1] == At(b, n - 1);
      assert a[n - 1] in a;
      assert a[..n] == a[..n - 1] + [a[n - 1]];
      assert b[..n] == b[..n - 1] + [b[n - 1]];
    }
  }
}
