/** compareFrontends and compareBackends: both sort the listed objects of a load balancer into
    those to remove, update, create and keep.  The two differ only in the record compared, so
    the algorithm is written once, over objects keyed by a port. */
module Diff {
  import opened Basics

  datatype Keyed<T> = Keyed(id: Id, name: string, port: int, body: T)

  datatype Ops<T> = Ops(
    remove: seq<Keyed<T>>,
    update: map<int, Keyed<T>>,
    create: map<int, Keyed<T>>,
    keep: map<int, Keyed<T>>)

  predicate Managed(name: string, prefix: string) {
    HasPrefix(name, prefix)
  }

  /** The first listed object of the prefix on a port: the one that wins over its duplicates. */
  function First<T>(got: seq<Keyed<T>>, prefix: string, port: int): Option<Keyed<T>> {
    if got == [] then None
    else
      var earlier := First(got[..|got| - 1], prefix, port);
      var last := got[|got| - 1];
      if earlier.Some? then earlier
      else if Managed(last.name, prefix) && last.port == port then Some(last)
      else None
  }

  /** The listed objects of the prefix that are duplicates or on an unwanted port, in list order. */
  function Surplus<T>(got: seq<Keyed<T>>, want: map<int, Keyed<T>>, prefix: string): seq<Keyed<T>> {
    if got == [] then []
    else
      var init := got[..|got| - 1];
      var last := got[|got| - 1];
      Surplus(init, want, prefix) +
      if Managed(last.name, prefix) && (First(init, prefix, last.port).Some? || last.port !in want)
      then [last] else []
  }

  function Kept<T>(got: seq<Keyed<T>>, want: map<int, Keyed<T>>, prefix: string,
                   same: (Keyed<T>, Keyed<T>) -> bool): map<int, Keyed<T>>
  {
    map p | p in want && First(got, prefix, p).Some? && same(First(got, prefix, p).value, want[p]) ::
      First(got, prefix, p).value
  }

  function Updated<T>(got: seq<Keyed<T>>, want: map<int, Keyed<T>>, prefix: string,
                      same: (Keyed<T>, Keyed<T>) -> bool): map<int, Keyed<T>>
  {
    map p | p in want && First(got, prefix, p).Some? && !same(First(got, prefix, p).value, want[p]) ::
      want[p].(id := First(got, prefix, p).value.id)
  }

  function Created<T>(got: seq<Keyed<T>>, want: map<int, Keyed<T>>, prefix: string): map<int, Keyed<T>> {
    want - (set p | p in want && First(got, prefix, p).Some?)
  }

  function Compared<T>(got: seq<Keyed<T>>, want: map<int, Keyed<T>>, prefix: string,
                       same: (Keyed<T>, Keyed<T>) -> bool): Ops<T>
  {
    Ops(Surplus(got, want, prefix), Updated(got, want, prefix, same), Created(got, want, prefix),
        Kept(got, want, prefix, same))
  }

  lemma FirstSnoc<T>(got: seq<Keyed<T>>, i: nat, prefix: string, port: int)
    requires i < |got|
    ensures First(got[..i + 1], prefix, port) ==
            if First(got[..i], prefix, port).Some? then First(got[..i], prefix, port)
            else if Managed(got[i].name, prefix) && got[i].port == port then Some(got[i])
            else None
  {
    assert got[..i + 1][..i] == got[..i];
  }

  lemma SurplusSnoc<T>(got: seq<Keyed<T>>, i: nat, want: map<int, Keyed<T>>, prefix: string)
    requires i < |got|
    ensures Surplus(got[..i + 1], want, prefix) ==
            Surplus(got[..i], want, prefix) +
            if Managed(got[i].name, prefix) && (First(got[..i], prefix, got[i].port).Some? || got[i].port !in want)
            then [got[i]] else []
  {
    assert got[..i + 1][..i] == got[..i];
  }

  /** What one more listed object does to the four outcomes. */
  lemma ComparedSnoc<T>(got: seq<Keyed<T>>, i: nat, want: map<int, Keyed<T>>, prefix: string,
                        same: (Keyed<T>, Keyed<T>) -> bool)
    requires i < |got|
    ensures var x := got[i];
            var before, after := got[..i], got[..i + 1];
            var newcomer := Managed(x.name, prefix) && First(before, prefix, x.port).None?;
            && (forall p :: First(after, prefix, p) == if newcomer
                && p == x.port then Some(x) else First(before, prefix, p))
            && Kept(after, want, prefix, same) ==
               (if newcomer && x.port in want && same(x, want[x.port])
                then Kept(before, want, prefix, same)[x.port := x] else Kept(before, want, prefix, same))
            && Updated(after, want, prefix, same) ==
               (if newcomer && x.port in want && !same(x, want[x.port])
                then Updated(before, want, prefix, same)[x.port := want[x.port].(id := x.id)]
                    else Updated(before, want, prefix, same))
  {
    forall p {
      FirstSnoc(got, i, prefix, p);
    }
  }

  method Compare<T>(got: seq<Keyed<T>>, want: map<int, Keyed<T>>, prefix: string, same: (Keyed<T>, Keyed<T>) -> bool)
    returns (ops: Ops<T>)
    requires forall p | p in want :: want[p].port == p
    ensures ops == Compared(got, want, prefix, same)
  {
    var remove: seq<Keyed<T>> := [];
    var update: map<int, Keyed<T>> := map[];
    var keep: map<int, Keyed<T>> := map[];
    var evaluated: map<int, Keyed<T>> := map[];

    for i := 0 to |got|
      invariant remove == Surplus(got[..i], want, prefix)
      invariant keep == Kept(got[..i], want, prefix, same)
      invariant update == Updated(got[..i], want, prefix, same)
      invariant forall p :: p in evaluated <==> First(got[..i], prefix, p).Some?
    {
      var current := got[i];
      SurplusSnoc(got, i, want, prefix);
      ComparedSnoc(got, i, want, prefix, same);
      if !Managed(current.name, prefix) {
        continue;
      }
      if current.port in evaluated {
        remove := remove + [current];
        continue;
      }
      evaluated := evaluated[current.port := current];
      if current.port in want {
        var target := want[current.port];
        if same(current, target) {
          keep := keep[target.port := current];
        } else {
          update := update[target.port := target.(id := current.id)];
        }
      } else {
        remove := remove + [current];
      }
    }
    assert got[..|got|] == got;
    var create := Additions(want, evaluated);
    return Ops(remove, update, create, keep);
  }

  method Additions<T>(want: map<int, Keyed<T>>, evaluated: map<int, Keyed<T>>) returns (create: map<int, Keyed<T>>)
    requires forall p | p in want :: want[p].port == p
    ensures create == map p | p in want && p !in evaluated :: want[p]
  {
    create := map[];
    var rest := want.Keys;
    while exists p :: p in rest
      invariant rest <= want.Keys
      decreases rest
      invariant create == map p | p in want.Keys - rest && p !in evaluated :: want[p]
    {
      var p :| p in rest;
      if want[p].port !in evaluated {
        create := create[want[p].port := want[p]];
      }
      rest := rest - {p};
    }
  }

  // ---- The diff is a partition ----

  ghost predicate DistinctIds<T>(got: seq<Keyed<T>>) {
    forall i, j | 0 <= i < j < |got| :: got[i].id != got[j].id
  }

  lemma {:induction false} FirstIsFirst<T>(got: seq<Keyed<T>>, prefix: string, port: int)
    ensures First(got, prefix, port).None? <==>
            forall i | 0 <= i < |got| :: !(Managed(got[i].name, prefix) && got[i].port == port)
    ensures First(got, prefix, port).Some? ==>
            exists i :: && 0 <= i < |got| && First(got, prefix, port) == Some(got[i])
                        && Managed(got[i].name, prefix) && got[i].port == port
                        && forall j | 0 <= j < i :: !(Managed(got[j].name, prefix) && got[j].port == port)
  {
    if got != [] {
      var n := |got| - 1;
      FirstIsFirst(got[..n], prefix, port);
      assert forall j | 0 <= j < n :: got[..n][j] == got[j];
      if First(got[..n], prefix, port).None? && First(got, prefix, port).Some? {
        assert First(got, prefix, port) == Some(got[n]);
      }
    }
  }

  lemma {:induction false} SurplusIn<T>(got: seq<Keyed<T>>, want: map<int, Keyed<T>>, prefix: string, x: Keyed<T>)
    requires DistinctIds(got)
    ensures x in Surplus(got, want, prefix) <==>
            && x in got && Managed(x.name, prefix)
            && !(x.port in want && First(got, prefix, x.port) == Some(x))
  {
    if got != [] {
      var n := |got| - 1;
      var init, last := got[..n], got[n];
      assert got == init + [last];
      SurplusIn(init, want, prefix, x);
      FirstIsFirst(init, prefix, x.port);
    }
  }

  /** Every listed object of the prefix is dealt with exactly once: removed, or kept or updated
      under its own identifier as the first of its port. */
  lemma ListedPartition<T>(got: seq<Keyed<T>>, want: map<int, Keyed<T>>, prefix: string,
                           same: (Keyed<T>, Keyed<T>) -> bool, x: Keyed<T>)
    requires DistinctIds(got) && x in got
    ensures var ops := Compared(got, want, prefix, same);
            var removed := x in ops.remove;
            var kept := x.port in ops.keep && ops.keep[x.port] == x;
            var updated := x.port in ops.update && ops.update[x.port].id == x.id;
            if Managed(x.name, prefix)
            then (removed && !kept && !updated) || (!removed && kept && !updated) || (!removed && !kept && updated)
            else !removed && !kept && !updated
  {
    SurplusIn(got, want, prefix, x);
    FirstIsFirst(got, prefix, x.port);
    if First(got, prefix, x.port).Some? && First(got, prefix, x.port).value.id == x.id {
      SameId(got, First(got, prefix, x.port).value, x);
    }
  }

  lemma SameId<T>(got: seq<Keyed<T>>, x: Keyed<T>, y: Keyed<T>)
    requires DistinctIds(got) && x in got && y in got && x.id == y.id
    ensures x == y
  {
  }

  /** `update` rewrites, in place, a listed object of the prefix that does not match `target`. */
  ghost predicate Outdated<T>(got: seq<Keyed<T>>, target: Keyed<T>, prefix: string, same: (Keyed<T>, Keyed<T>) -> bool,
                              update: Keyed<T>)
  {
    exists x | x in got ::
      Managed(x.name, prefix) && x.port == update.port && !same(x, target) && update == target.(id := x.id)
  }

  ghost predicate PortFree<T>(got: seq<Keyed<T>>, prefix: string, port: int) {
    forall x | x in got :: Managed(x.name, prefix) ==> x.port != port
  }

  /** Every wanted port gets exactly one of update, create and keep, and no other port gets any.
      Objects found under the port keep their identifier; kept ones already match, updated ones do
      not; a port is created on only when nothing of the prefix listens there. */
  lemma WantedPartition<T>(got: seq<Keyed<T>>, want: map<int, Keyed<T>>, prefix: string,
                           same: (Keyed<T>, Keyed<T>) -> bool)
    requires DistinctIds(got) && forall p | p in want :: want[p].port == p
    ensures var ops := Compared(got, want, prefix, same);
            && ops.update.Keys + ops.create.Keys + ops.keep.Keys == want.Keys
            && ops.update.Keys !! ops.create.Keys && ops.update.Keys !! ops.keep.Keys
            && ops.create.Keys !! ops.keep.Keys
            && (forall p | p in ops.keep :: ops.keep[p] in got && Managed(ops.keep[p].name, prefix)
                  && ops.keep[p].port == p && same(ops.keep[p], want[p]))
            && (forall p | p in ops.update :: Outdated(got, want[p], prefix, same, ops.update[p]))
            && (forall p | p in ops.create :: ops.create[p] == want[p] && PortFree(got, prefix, p))
  {
    hide First, Managed, Outdated, PortFree;
    var ops := Compared(got, want, prefix, same);
    forall p | p in want
      ensures p in ops.keep ==> ops.keep[p] in got && Managed(ops.keep[p].name, prefix) && ops.keep[p].port == p
      ensures p in ops.update ==> Outdated(got, want[p], prefix, same, ops.update[p])
      ensures p in ops.create ==> PortFree(got, prefix, p)
    {
      WantedAt(got, want, prefix, same, p);
    }
  }

  lemma WantedAt<T>(got: seq<Keyed<T>>, want: map<int, Keyed<T>>, prefix: string, same: (Keyed<T>, Keyed<T>) -> bool,
                    p: int)
    requires p in want && want[p].port == p
    ensures var ops := Compared(got, want, prefix, same);
            && (p in ops.keep ==> ops.keep[p] in got && Managed(ops.keep[p].name, prefix) && ops.keep[p].port == p)
            && (p in ops.update ==> Outdated(got, want[p], prefix, same, ops.update[p]))
            && (p in ops.create ==> PortFree(got, prefix, p))
  {
    hide First, Managed;
    FirstIsFirst(got, prefix, p);
    if First(got, prefix, p).Some? {
      assert First(got, prefix, p).value in got;
    }
  }

  lemma {:induction false} SurplusDistinct<T>(got: seq<Keyed<T>>, want: map<int, Keyed<T>>, prefix: string)
    requires DistinctIds(got)
    ensures DistinctIds(Surplus(got, want, prefix))
  {
    if got != [] {
      var n := |got| - 1;
      var init := got[..n];
      SurplusDistinct(init, want, prefix);
      var r := Surplus(init, want, prefix);
      forall i | 0 <= i < |r| ensures r[i].id != got[n].id {
        SurplusIn(init, want, prefix, r[i]);
        assert r[i] in init;
      }
    }
  }

  // ---- The diff, seen through identifiers ----

  /** Which listed object stands for each port the diff found occupied. */
  function Owners<T>(ops: Ops<T>): map<int, Id> {
    map p | p in ops.keep.Keys + ops.update.Keys :: if p in ops.keep then ops.keep[p].id else ops.update[p].id
  }

  ghost predicate ListedAs<T>(got: seq<Keyed<T>>, prefix: string, id: Id, port: int) {
    exists x | x in got :: x.id == id && Managed(x.name, prefix) && x.port == port
  }

  /** An object of the prefix is removed unless it owns its port. */
  lemma OwnedOrRemoved<T>(got: seq<Keyed<T>>, want: map<int, Keyed<T>>, prefix: string,
                          same: (Keyed<T>, Keyed<T>) -> bool, x: Keyed<T>)
    requires DistinctIds(got) && x in got && Managed(x.name, prefix)
    ensures var ops := Compared(got, want, prefix, same);
            x in ops.remove <==> !(x.port in Owners(ops) && Owners(ops)[x.port] == x.id)
  {
    ListedPartition(got, want, prefix, same, x);
    var ops := Compared(got, want, prefix, same);
    FirstIsFirst(got, prefix, x.port);
    if x.port in ops.keep && ops.keep[x.port].id == x.id {
      SameId(got, ops.keep[x.port], x);
    }
  }

  lemma OwnersListed<T>(got: seq<Keyed<T>>, want: map<int, Keyed<T>>, prefix: string,
                        same: (Keyed<T>, Keyed<T>) -> bool, p: int)
    requires p in Owners(Compared(got, want, prefix, same))
    ensures ListedAs(got, prefix, Owners(Compared(got, want, prefix, same))[p], p)
  {
    FirstIsFirst(got, prefix, p);
    assert First(got, prefix, p).value in got;
  }
}
