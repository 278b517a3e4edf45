// The name/count table of the first iteration: a singly linked list of
// {name, count} nodes, newest first.
module IdList {
  import opened Wrappers

  datatype IdNode = IdNode(name: string, count: int)

  function SumCounts(l: seq<IdNode>): int
  {
    if l == [] then 0 else l[0].count + SumCounts(l[1..])
  }

  /** Bumping one node's count raises the total by exactly one. */
  lemma {:induction false} SumAfterIncrement(l: seq<IdNode>, i: nat)
    requires i < |l|
    ensures SumCounts(l[i := l[i].(count := l[i].count + 1)]) == SumCounts(l) + 1
  {
    if i > 0 {
      var l' := l[i := l[i].(count := l[i].count + 1)];
      assert l'[1..] == l[1..][i - 1 := l[i].(count := l[i].count + 1)];
      SumAfterIncrement(l[1..], i - 1);
    }
  }

  lemma SumAfterPrepend(l: seq<IdNode>, n: IdNode)
    ensures SumCounts([n] + l) == n.count + SumCounts(l)
  {
    assert ([n] + l)[1..] == l;
  }

  /** The nodes print_idtab prints, in list order: those with nonzero count. */
  function Printed(l: seq<IdNode>): (r: seq<IdNode>)
    ensures |r| <= |l|
    ensures forall n :: n in r <==> n in l && n.count != 0
  {
    if l == [] then []
    else if l[0].count != 0 then [l[0]] + Printed(l[1..])
    else Printed(l[1..])
  }

  class IdTable {
    /** idroot, head first. */
    var idroot: seq<IdNode>
    /** The number of id_countup calls since the table was initialised. */
    ghost var Calls: nat

    ghost predicate Valid()
      reads this
    {
      (forall i, j :: 0 <= i < j < |idroot| ==> idroot[i].name != idroot[j].name) &&
      (forall i :: 0 <= i < |idroot| ==> idroot[i].count >= 1) &&
      SumCounts(idroot) == Calls
    }

    /** init_idtab */
    constructor ()
      ensures Valid() && idroot == [] && Calls == 0
    {
      idroot := [];
      Calls := 0;
    }

    /** search_idtab: the position of the node with this name, None for NULL. */
    method Search(np: string) returns (p: Option<nat>)
      requires Valid()
      ensures p.Some? ==> p.value < |idroot| && idroot[p.value].name == np
      ensures p.None? <==> forall i :: 0 <= i < |idroot| ==> idroot[i].name != np
    {
      var i := 0;
      while i < |idroot|
        invariant 0 <= i <= |idroot|
        invariant forall k :: 0 <= k < i ==> idroot[k].name != np
      {
        if idroot[i].name == np {
          return Some(i);
        }
        i := i + 1;
      }
      return None;
    }

    /** id_countup: a known name has its count increased, an unseen one gets a
        new node with count 1 at the head. */
    method CountUp(np: string)
      requires Valid()
      modifies this
      ensures Valid() && Calls == old(Calls) + 1
      ensures (exists i :: 0 <= i < |old(idroot)| && old(idroot)[i].name == np) ==>
        |idroot| == |old(idroot)| &&
        forall i :: 0 <= i < |idroot| ==>
          idroot[i] == (if old(idroot)[i].name == np
                        then old(idroot)[i].(count := old(idroot)[i].count + 1)
                        else old(idroot)[i])
      ensures (forall i :: 0 <= i < |old(idroot)| ==> old(idroot)[i].name != np) ==>
        idroot == [IdNode(np, 1)] + old(idroot)
    {
      var p := Search(np);
      if p.Some? {
        var i := p.value;
        SumAfterIncrement(idroot, i);
        idroot := idroot[i := idroot[i].(count := idroot[i].count + 1)];
      } else {
        SumAfterPrepend(idroot, IdNode(np, 1));
        idroot := [IdNode(np, 1)] + idroot;
      }
      Calls := Calls + 1;
    }

    /** print_idtab: the rows it prints. */
    method PrintRows() returns (rows: seq<IdNode>)
      requires Valid()
      ensures rows == Printed(idroot)
    {
      rows := [];
      var i := 0;
      while i < |idroot|
        invariant 0 <= i <= |idroot|
        invariant rows + Printed(idroot[i..]) == Printed(idroot)
      {
        assert idroot[i..][1..] == idroot[i + 1..];
        if idroot[i].count != 0 {
          rows := rows + [idroot[i]];
        }
        i := i + 1;
      }
    }

    /** release_idtab: the nodes are released and the table starts over. */
    method Release()
      requires Valid()
      modifies this
      ensures Valid() && idroot == [] && Calls == 0
    {
      idroot := [];
      Calls := 0;
    }
  }
}
