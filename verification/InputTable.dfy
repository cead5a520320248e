/** The table of in-progress streaming inputs of one connection: a doubling array with swap-removal. */
module InputTable {
  import opened Bytes
  import opened StreamInput

  // ---------------------------------------------------------------------------
  // The table as a sequence, and as a finite map
  // ---------------------------------------------------------------------------

  /** The first entry with the id, as the linear searches find it. */
  function IndexOf(es: seq<StreamInput>, id: uint64): (i: nat)
    ensures i <= |es|
    ensures i < |es| ==> es[i].id == id
    ensures forall j :: 0 <= j < i ==> es[j].id != id
  {
    if es == [] || es[0].id == id then 0 else 1 + IndexOf(es[1..], id)
  }

  function Lookup(es: seq<StreamInput>, id: uint64): Option<StreamInput> {
    var i := IndexOf(es, id);
    if i < |es| then Some(es[i]) else None
  }

  /** The first entry with the id is overwritten by the last one, which is then dropped. */
  function SwapRemove(es: seq<StreamInput>, id: uint64): seq<StreamInput> {
    var i := IndexOf(es, id);
    if i < |es| then es[i := es[|es| - 1]][..|es| - 1] else es
  }

  predicate Distinct(es: seq<StreamInput>) {
    forall i, j :: 0 <= i < j < |es| ==> es[i].id != es[j].id
  }

  lemma {:induction false} LookupUnique(es: seq<StreamInput>, i: nat)
    requires Distinct(es) && i < |es|
    ensures Lookup(es, es[i].id) == Some(es[i])
  {
  }

  lemma {:induction false} LookupNone(es: seq<StreamInput>, id: uint64)
    ensures Lookup(es, id).None? <==> forall i :: 0 <= i < |es| ==> es[i].id != id
  {
  }

  /** Registering an id that is not in the table binds it and changes no other binding. */
  lemma {:induction false} RegisterIsInsert(es: seq<StreamInput>, q: StreamInput, k: uint64)
    requires Distinct(es) && Lookup(es, q.id).None?
    ensures Distinct(es + [q])
    ensures Lookup(es + [q], k) == if k == q.id then Some(q) else Lookup(es, k)
  {
    LookupNone(es, q.id);
    var es' := es + [q];
    if k == q.id {
      LookupUnique(es', |es|);
    } else if Lookup(es, k).Some? {
      var i := IndexOf(es, k);
      assert es'[i] == es[i];
      LookupUnique(es', i);
    } else {
      LookupNone(es, k);
      LookupNone(es', k);
    }
  }

  /** Removing an id unbinds it and changes no other binding, although it moves the last entry. */
  lemma {:induction false} RemoveIsDelete(es: seq<StreamInput>, id: uint64, k: uint64)
    requires Distinct(es)
    ensures Distinct(SwapRemove(es, id))
    ensures Lookup(SwapRemove(es, id), k) == if k == id then None else Lookup(es, k)
  {
    var i, n := IndexOf(es, id), |es| - 1;
    var es' := SwapRemove(es, id);
    if i < |es| {
      assert forall j :: 0 <= j < |es'| ==> es'[j] == if j == i then es[n] else es[j];
      SwapKeepsOthers(es, id, k);
    } else {
      LookupNone(es, id);
    }
  }

  lemma {:induction false} SwapKeepsOthers(es: seq<StreamInput>, id: uint64, k: uint64)
    requires Distinct(es) && IndexOf(es, id) < |es|
    requires Distinct(SwapRemove(es, id))
    ensures Lookup(SwapRemove(es, id), k) == if k == id then None else Lookup(es, k)
  {
    var i, n := IndexOf(es, id), |es| - 1;
    var es' := SwapRemove(es, id);
    var p := IndexOf(es, k);
    if k == id || p == |es| {
      forall j | 0 <= j < |es'| ensures es'[j].id != k {
        assert es'[j] == if j == i then es[n] else es[j];
        if k == id && j == i { assert i < n; }
      }
      LookupNone(es', k);
    } else if p == n {
      assert es'[i] == es[n];
      LookupUnique(es', i);
    } else {
      assert es'[p] == es[p];
      LookupUnique(es', p);
    }
  }

  function CountOf(es: seq<StreamInput>, id: uint64): nat {
    if es == [] then 0 else (if es[0].id == id then 1 else 0) + CountOf(es[1..], id)
  }

  /**
   * Why live ids must differ: a removed id is really gone exactly when it was registered
   * at most once; with a second entry under the same id the next lookup finds that one.
   */
  lemma {:induction false} RemovedIffSingle(es: seq<StreamInput>, id: uint64)
    ensures Lookup(SwapRemove(es, id), id).None? <==> CountOf(es, id) <= 1
  {
    CountSwapRemove(es, id);
    CountZero(SwapRemove(es, id), id);
  }

  lemma {:induction false} CountZero(es: seq<StreamInput>, id: uint64)
    ensures Lookup(es, id).None? <==> CountOf(es, id) == 0
  {
    if es != [] && es[0].id != id {
      CountZero(es[1..], id);
      assert IndexOf(es, id) == 1 + IndexOf(es[1..], id);
    }
  }

  lemma {:induction false} CountConcat(a: seq<StreamInput>, b: seq<StreamInput>, id: uint64)
    ensures CountOf(a + b, id) == CountOf(a, id) + CountOf(b, id)
  {
    if a == [] {
      assert a + b == b;
    } else {
      assert (a + b)[1..] == a[1..] + b;
      CountConcat(a[1..], b, id);
    }
  }

  /** Taking out the first entry with the id, before anything moves. */
  lemma {:induction false} CountAround(es: seq<StreamInput>, i: nat, id: uint64)
    requires i < |es|
    ensures CountOf(es, id) == CountOf(es[..i], id) + CountOf([es[i]], id) + CountOf(es[i + 1..], id)
  {
    assert es == es[..i] + (([es[i]]) + es[i + 1..]);
    CountConcat(es[..i], [es[i]] + es[i + 1..], id);
    CountConcat([es[i]], es[i + 1..], id);
  }

  lemma {:induction false} CountSwapRemove(es: seq<StreamInput>, id: uint64)
    ensures CountOf(SwapRemove(es, id), id) == if CountOf(es, id) == 0 then 0 else CountOf(es, id) - 1
  {
    CountZero(es, id);
    hide CountOf;
    var i, n := IndexOf(es, id), |es| - 1;
    var es' := SwapRemove(es, id);
    if i < |es| {
      SingleCount(es[i], id);
      CountAround(es, i, id);
      if i < n {
        CountAround(es', i, id);
        assert es'[..i] == es[..i] && es'[i] == es[n];
        CountAround(es[i + 1..], n - i - 1, id);
        assert es'[i + 1..] == es[i + 1..][..n - i - 1];
        assert es[i + 1..][n - i - 1] == es[n] && es[i + 1..][n - i..] == [];
        SingleCount(es[n], id);
      } else {
        assert es' == es[..i] && es[i + 1..] == [];
        SingleCount(es[n], id);
      }
    }
  }

  lemma {:induction false} SingleCount(e: StreamInput, id: uint64)
    ensures CountOf([e], id) == if e.id == id then 1 else 0
    ensures CountOf([], id) == 0
  {
    assert [e][1..] == [];
  }

  // ---------------------------------------------------------------------------
  // The array
  // ---------------------------------------------------------------------------

  class InputTable {
    var inputs: array<StreamInput?>
    var count: nat

    ghost predicate Valid()
      reads this, inputs
    {
      && count <= inputs.Length
      && forall i :: 0 <= i < count ==> inputs[i] != null
    }

    ghost function Entries(): (es: seq<StreamInput>)
      reads this, inputs
      requires Valid()
    {
      seq(count, i requires 0 <= i < count reads this, inputs requires Valid() => inputs[i])
    }

    constructor ()
      ensures Valid() && Entries() == [] && fresh(inputs)
    {
      inputs := new StreamInput?[0];
      count := 0;
    }

    /** The doubling `realloc` of `conn_register_input` (c/src/server.c:134-138). */
    method Grow()
      requires Valid() && count == inputs.Length
      modifies this`inputs
      ensures Valid() && fresh(inputs) && count < inputs.Length
      ensures inputs.Length == (if count == 0 then 8 else 2 * count)
      ensures Entries() == old(Entries())
    {
      var newCap := if inputs.Length == 0 then 8 else inputs.Length * 2;
      var bigger := new StreamInput?[newCap](_ => null);
      forall i | 0 <= i < count {
        bigger[i] := inputs[i];
      }
      inputs := bigger;
    }

    /** `conn_register_input` (c/src/server.c:131-142). */
    method Register(id: uint64) returns (q: StreamInput)
      requires Valid()
      modifies this, inputs
      ensures Valid() && fresh(q) && (inputs == old(inputs) || fresh(inputs))
      ensures q.Valid() && q.id == id && q.Contents() == []
      ensures Entries() == old(Entries()) + [q]
    {
      q := new StreamInput(id);
      if count == inputs.Length {
        Grow();
      }
      inputs[count] := q;
      count := count + 1;
    }

    /** `conn_find_input` (c/src/server.c:144-155). */
    method Find(id: uint64) returns (found: StreamInput?)
      requires Valid()
      ensures found == null <==> Lookup(Entries(), id).None?
      ensures found != null ==> Lookup(Entries(), id) == Some(found)
    {
      var i := 0;
      while i < count
        invariant 0 <= i <= count
        invariant forall j :: 0 <= j < i ==> Entries()[j].id != id
      {
        assert Entries()[i] == inputs[i];
        if inputs[i].id == id {
          return inputs[i];
        }
        i := i + 1;
      }
      found := null;
    }

    /** `conn_remove_input` (c/src/server.c:157-170); the queue taken out is the one the source then frees. */
    method Remove(id: uint64) returns (gone: StreamInput?)
      requires Valid()
      modifies this`count, inputs
      ensures Valid()
      ensures Entries() == SwapRemove(old(Entries()), id)
      ensures gone == null <==> Lookup(old(Entries()), id).None?
      ensures gone != null ==> Lookup(old(Entries()), id) == Some(gone)
    {
      ghost var es := Entries();
      var i := 0;
      while i < count
        invariant 0 <= i <= count
        invariant Entries() == es
        invariant forall j :: 0 <= j < i ==> es[j].id != id
      {
        assert es[i] == inputs[i];
        if inputs[i].id == id {
          assert IndexOf(es, id) == i;
          gone := inputs[i];
          inputs[i] := inputs[count - 1];
          count := count - 1;
          return;
        }
        i := i + 1;
      }
      gone := null;
    }
  }
}
