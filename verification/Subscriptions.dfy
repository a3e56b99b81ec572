/**
 The broker's subscriber index: who receives which type of broadcast.

 The index is a map of maps. It is specified three ways that are proved to agree: the
 operations on the table, the plain relation of (type, actor) pairs, and a direct reading
 of the request log that mentions no table at all.
 */
module Subscriptions {
  import opened Wrappers

  type TypeId = nat
  type Ern = nat

  /**
   One incarnation of an actor. The framework compares handles by `id` alone, so a
   restarted actor's handle equals the one it replaces although their mailboxes differ.
   */
  datatype Handle = Handle(id: Ern, incarnation: nat)

  /** Everything the broker can be asked for. */
  datatype Request<B> =
    | Broadcast(ty: TypeId, body: B)
    | Subscribe(ty: TypeId, who: Handle)
    | Unsubscribe(ty: TypeId, who: Handle)
    | UnsubscribeAll(id: Ern)
    | Flush

  /** For each type, the subscribed actors keyed by the part of a handle that is compared. */
  type Table = map<TypeId, map<Ern, Handle>>

  ghost function Lookup(t: Table, ty: TypeId, id: Ern): Option<Handle> {
    if ty in t && id in t[ty] then Some(t[ty][id]) else None
  }

  ghost predicate NoEmptySet(t: Table) {
    forall ty | ty in t :: t[ty] != map[]
  }

  /** Every handle is filed under its own identifier. */
  ghost predicate Filed(t: Table) {
    forall ty, id | ty in t && id in t[ty] :: t[ty][id].id == id
  }

  // ----- the three edits -----

  /** Set insertion: an element equal to one already present changes nothing. */
  ghost function Inserted(t: Table, ty: TypeId, who: Handle): Table {
    var s := if ty in t then t[ty] else map[];
    t[ty := if who.id in s then s else s[who.id := who]]
  }

  ghost function Removed(t: Table, ty: TypeId, id: Ern): Table {
    if ty !in t then t
    else if t[ty] - {id} == map[] then t - {ty}
    else t[ty := t[ty] - {id}]
  }

  ghost function RemovedAll(t: Table, id: Ern): Table {
    map ty | ty in t && t[ty] - {id} != map[] :: t[ty] - {id}
  }

  ghost function Apply<B>(t: Table, r: Request<B>): Table {
    match r
    case Subscribe(ty, who) => Inserted(t, ty, who)
    case Unsubscribe(ty, who) => Removed(t, ty, who.id)
    case UnsubscribeAll(id) => RemovedAll(t, id)
    case _ => t
  }

  /** The table once the broker has handled every request of `log`, in order. */
  ghost function TableAfter<B>(log: seq<Request<B>>): Table {
    if log == [] then map[] else Apply(TableAfter(log[..|log| - 1]), log[|log| - 1])
  }

  // ----- as a relation -----

  ghost function Pairs(t: Table): iset<(TypeId, Ern)> {
    iset ty: TypeId, id: Ern | Lookup(t, ty, id).Some? :: (ty, id)
  }

  /** The three edits are insertion, deletion and deletion by actor on the plain relation. */
  lemma EditsRefineTheRelation(t: Table, ty: TypeId, who: Handle)
    ensures Pairs(Inserted(t, ty, who)) == Pairs(t) + iset{(ty, who.id)}
    ensures Pairs(Removed(t, ty, who.id)) == Pairs(t) - iset{(ty, who.id)}
    ensures Pairs(RemovedAll(t, who.id)) == iset p | p in Pairs(t) && p.1 != who.id
  {
    forall ty': TypeId, id': Ern
      ensures Lookup(Removed(t, ty, who.id), ty', id').Some?
              <==> Lookup(t, ty', id').Some? && (ty', id') != (ty, who.id)
      ensures Lookup(RemovedAll(t, who.id), ty', id').Some?
              <==> Lookup(t, ty', id').Some? && id' != who.id
    {
      LookupAfterEdits(t, ty, who, ty', id');
    }
  }

  lemma LookupAfterEdits(t: Table, ty: TypeId, who: Handle, ty': TypeId, id': Ern)
    ensures Lookup(Inserted(t, ty, who), ty', id')
         == if (ty', id') == (ty, who.id) && Lookup(t, ty', id').None? then Some(who) else Lookup(t, ty', id')
    ensures Lookup(Removed(t, ty, who.id), ty', id')
         == if (ty', id') == (ty, who.id) then None else Lookup(t, ty', id')
    ensures Lookup(RemovedAll(t, who.id), ty', id')
         == if id' == who.id then None else Lookup(t, ty', id')
  {
    if ty' in t && id' in t[ty'] && id' != who.id {
      assert id' in t[ty'] - {who.id};
    }
  }

  /** Sweeping an actor out of the whole table is the same as removing it type by type, in any order. */
  ghost function RemovedFromEach(t: Table, tys: seq<TypeId>, id: Ern): Table {
    if tys == [] then t else RemovedFromEach(Removed(t, tys[0], id), tys[1..], id)
  }

  lemma {:induction false} LookupRemovedFromEach(t: Table, tys: seq<TypeId>, id: Ern, ty': TypeId, id': Ern)
    requires NoEmptySet(t)
    ensures NoEmptySet(RemovedFromEach(t, tys, id))
    ensures Lookup(RemovedFromEach(t, tys, id), ty', id')
         == if ty' in tys && id' == id then None else Lookup(t, ty', id')
  {
    if tys != [] {
      LookupAfterEdits(t, tys[0], Handle(id, 0), ty', id');
      LookupRemovedFromEach(Removed(t, tys[0], id), tys[1..], id, ty', id');
    }
  }

  lemma RemoveAllIsRemoveFromEach(t: Table, tys: seq<TypeId>, id: Ern)
    requires NoEmptySet(t)
    requires forall ty | ty in t :: ty in tys
    ensures RemovedFromEach(t, tys, id) == RemovedAll(t, id)
  {
    var each, all := RemovedFromEach(t, tys, id), RemovedAll(t, id);
    LookupRemovedFromEach(t, tys, id, 0, 0);
    forall ty: TypeId, id': Ern
      ensures Lookup(each, ty, id') == Lookup(all, ty, id')
    {
      LookupRemovedFromEach(t, tys, id, ty, id');
      LookupAfterEdits(t, ty, Handle(id, 0), ty, id');
    }
    LookupDeterminesTable(each, all);
  }

  /** A table without empty sets is no more than what its lookups say. */
  lemma LookupDeterminesTable(a: Table, b: Table)
    requires NoEmptySet(a) && NoEmptySet(b)
    requires forall ty: TypeId, id: Ern :: Lookup(a, ty, id) == Lookup(b, ty, id)
    ensures a == b
  {
    forall ty: TypeId
      ensures ty in a <==> ty in b
      ensures ty in a && ty in b ==> a[ty] == b[ty]
    {
      if ty in a {
        var id :| id in a[ty];
        assert Lookup(a, ty, id) == Lookup(b, ty, id);
      }
      if ty in b {
        var id :| id in b[ty];
        assert Lookup(a, ty, id) == Lookup(b, ty, id);
      }
      if ty in a && ty in b {
        forall id: Ern
          ensures id in a[ty] <==> id in b[ty]
          ensures id in a[ty] && id in b[ty] ==> a[ty][id] == b[ty][id]
        {
          assert Lookup(a, ty, id) == Lookup(b, ty, id);
        }
      }
    }
  }

  // ----- as a reading of the log -----

  ghost predicate Subscribes<B>(r: Request<B>, ty: TypeId, id: Ern) {
    r.Subscribe? && r.ty == ty && r.who.id == id
  }

  ghost predicate Removes<B>(r: Request<B>, ty: TypeId, id: Ern) {
    (r.Unsubscribe? && r.ty == ty && r.who.id == id) || (r.UnsubscribeAll? && r.id == id)
  }

  /** Request `k` subscribed `h`, nothing removed it since, and it was the first to do so since the last removal. */
  ghost predicate FirstSince<B>(log: seq<Request<B>>, k: int, ty: TypeId, h: Handle) {
    && 0 <= k < |log|
    && log[k] == Subscribe(ty, h)
    && (forall j | k < j < |log| :: !Removes(log[j], ty, h.id))
    && (forall j | 0 <= j < k && Subscribes(log[j], ty, h.id) ::
          exists r :: j < r < k && Removes(log[r], ty, h.id))
  }

  ghost predicate EverSubscribed<B>(log: seq<Request<B>>, ty: TypeId, id: Ern) {
    exists k :: 0 <= k < |log| && Subscribes(log[k], ty, id)
             && forall j | k < j < |log| :: !Removes(log[j], ty, id)
  }

  /**
   Who the table names is settled by the log alone: the handle of the earliest subscription
   not yet removed. A later subscription under the same identifier does not replace it.
   */
  lemma {:induction false} TableHoldsEarliestUnremoved<B>(log: seq<Request<B>>, ty: TypeId, h: Handle)
    ensures NoEmptySet(TableAfter(log)) && Filed(TableAfter(log))
    ensures Lookup(TableAfter(log), ty, h.id).None? <==> !EverSubscribed(log, ty, h.id)
    ensures Lookup(TableAfter(log), ty, h.id) == Some(h) <==> exists k :: FirstSince(log, k, ty, h)
  {
    if log != [] {
      var n := |log| - 1;
      var prev, r := log[..n], log[n];
      var t := TableAfter(prev);
      TableHoldsEarliestUnremoved(prev, ty, h);
      EditKeepsShape(t, r);
      var who := if r.Subscribe? || r.Unsubscribe? then r.who else if r.UnsubscribeAll? then Handle(r.id, 0) else h;
      var rty := if r.Subscribe? || r.Unsubscribe? then r.ty else ty;
      LookupAfterEdits(t, rty, who, ty, h.id);
      EverSubscribedStep(log, ty, h.id);
      FirstSinceStep(log, ty, h);
    }
  }

  lemma EditKeepsShape<B>(t: Table, r: Request<B>)
    requires NoEmptySet(t) && Filed(t)
    ensures NoEmptySet(Apply(t, r)) && Filed(Apply(t, r))
  {
    if r.Subscribe? {
      assert r.who.id in Apply(t, r)[r.ty];
    }
  }

  lemma EverSubscribedStep<B>(log: seq<Request<B>>, ty: TypeId, id: Ern)
    requires log != []
    ensures var n := |log| - 1;
            EverSubscribed(log, ty, id)
            <==> Subscribes(log[n], ty, id) || (!Removes(log[n], ty, id) && EverSubscribed(log[..n], ty, id))
  {
    var n := |log| - 1;
    if Subscribes(log[n], ty, id) {
      assert 0 <= n < |log| && Subscribes(log[n], ty, id);
    } else if !Removes(log[n], ty, id) && EverSubscribed(log[..n], ty, id) {
      var k :| 0 <= k < n && Subscribes(log[..n][k], ty, id)
               && forall j | k < j < n :: !Removes(log[..n][j], ty, id);
      assert Subscribes(log[k], ty, id);
      forall j | k < j < |log| ensures !Removes(log[j], ty, id) {
        if j < n { assert log[..n][j] == log[j]; }
      }
    }
    if EverSubscribed(log, ty, id) && !Subscribes(log[n], ty, id) {
      var k :| 0 <= k < |log| && Subscribes(log[k], ty, id)
               && forall j | k < j < |log| :: !Removes(log[j], ty, id);
      assert k < n && log[..n][k] == log[k];
    }
  }

  lemma FirstSinceStep<B>(log: seq<Request<B>>, ty: TypeId, h: Handle)
    requires log != []
    ensures var n := |log| - 1;
            (exists k :: FirstSince(log, k, ty, h))
            <==> if log[n] == Subscribe(ty, h) && !EverSubscribed(log[..n], ty, h.id) then true
                 else !Removes(log[n], ty, h.id) && exists k :: FirstSince(log[..n], k, ty, h)
  {
    var n := |log| - 1;
    var prev := log[..n];
    if log[n] == Subscribe(ty, h) && !EverSubscribed(prev, ty, h.id) {
      forall j | 0 <= j < n && Subscribes(log[j], ty, h.id)
        ensures exists r :: j < r < n && Removes(log[r], ty, h.id)
      {
        assert Subscribes(prev[j], ty, h.id);
        var r :| j < r < n && Removes(prev[r], ty, h.id);
        assert Removes(log[r], ty, h.id);
      }
      assert FirstSince(log, n, ty, h);
    } else {
      if k :| FirstSince(log, k, ty, h) {
        SubscribedIsNotFirst(log, n, ty, h);
        FirstSincePrefix(log, n, k, ty, h);
      }
      if !Removes(log[n], ty, h.id) && exists k :: FirstSince(prev, k, ty, h) {
        var k :| FirstSince(prev, k, ty, h);
        FirstSincePrefix(log, n, k, ty, h);
      }
    }
  }

  lemma SubscribedIsNotFirst<B>(log: seq<Request<B>>, n: nat, ty: TypeId, h: Handle)
    requires n < |log|
    ensures EverSubscribed(log[..n], ty, h.id) ==> !FirstSince(log, n, ty, h)
  {
    var prev := log[..n];
    if EverSubscribed(prev, ty, h.id) {
      var j :| 0 <= j < n && Subscribes(prev[j], ty, h.id) && forall i | j < i < n :: !Removes(prev[i], ty, h.id);
      assert Subscribes(log[j], ty, h.id);
      forall r | j < r < n ensures !Removes(log[r], ty, h.id) {
        assert log[r] == prev[r];
      }
    }
  }

  lemma FirstSincePrefix<B>(log: seq<Request<B>>, n: nat, k: nat, ty: TypeId, h: Handle)
    requires k < n == |log| - 1
    ensures FirstSince(log, k, ty, h) <==> FirstSince(log[..n], k, ty, h) && !Removes(log[n], ty, h.id)
  {
    var prev := log[..n];
    assert forall j | 0 <= j < n :: prev[j] == log[j];
    if FirstSince(log, k, ty, h) {
      forall j | 0 <= j < k && Subscribes(prev[j], ty, h.id)
        ensures exists r :: j < r < k && Removes(prev[r], ty, h.id)
      {
        assert Subscribes(log[j], ty, h.id);
        var r :| j < r < k && Removes(log[r], ty, h.id);
        assert Removes(prev[r], ty, h.id);
      }
    }
    if FirstSince(prev, k, ty, h) && !Removes(log[n], ty, h.id) {
      forall j | 0 <= j < k && Subscribes(log[j], ty, h.id)
        ensures exists r :: j < r < k && Removes(log[r], ty, h.id)
      {
        assert Subscribes(prev[j], ty, h.id);
        var r :| j < r < k && Removes(prev[r], ty, h.id);
        assert Removes(log[r], ty, h.id);
      }
    }
  }

  // ----- the broker's own edits, in place -----

  /** The broker actor's model state, edited by its handlers. */
  class Broker {
    var subscribers: Table

    constructor ()
      ensures subscribers == map[]
    {
      subscribers := map[];
    }

    method HandleSubscribe(ty: TypeId, who: Handle)
      modifies this
      ensures subscribers == Inserted(old(subscribers), ty, who)
    {
      if ty !in subscribers {
        subscribers := subscribers[ty := map[]];
      }
      var entry: map<Ern, Handle> := subscribers[ty];
      if who.id !in entry {
        entry := entry[who.id := who];
        subscribers := subscribers[ty := entry];
      }
    }

    method RemoveSubscription(ty: TypeId, who: Handle)
      modifies this
      ensures subscribers == Removed(old(subscribers), ty, who.id)
    {
      if ty in subscribers {
        subscribers := subscribers[ty := subscribers[ty] - {who.id}];
      }
      if ty in subscribers && subscribers[ty] == map[] {
        subscribers := subscribers - {ty};
      }
    }

    method RemoveAllSubscriptions(id: Ern)
      modifies this
      ensures subscribers == RemovedAll(old(subscribers), id)
    {
      var rest := subscribers.Keys;
      ghost var was := subscribers;
      while rest != {}
        invariant rest <= was.Keys
        invariant forall ty | ty in was :: ty in rest ==> ty in subscribers && subscribers[ty] == was[ty]
        invariant forall ty | ty in was :: ty !in rest ==> (ty in subscribers <==> was[ty] - {id} != map[])
        invariant forall ty | ty in subscribers :: ty in was && (ty !in rest ==> subscribers[ty] == was[ty] - {id})
        decreases rest
      {
        var ty :| ty in rest;
        rest := rest - {ty};
        subscribers := subscribers[ty := subscribers[ty] - {id}];
        if subscribers[ty] == map[] {
          subscribers := subscribers - {ty};
        }
      }
    }

    /** One pending send per subscriber of `ty`, and none for anybody else. */
    method CollectSends(ty: TypeId) returns (sends: seq<Handle>)
      ensures forall h :: h in sends <==> ty in subscribers && h in subscribers[ty].Values
      ensures Filed(subscribers) ==> forall i, j | 0 <= i < j < |sends| :: sends[i] != sends[j]
    {
      sends := [];
      if ty in subscribers {
        var rest := subscribers[ty].Keys;
        ghost var done: seq<Ern> := [];
        while rest != {}
          invariant rest <= subscribers[ty].Keys
          invariant |done| == |sends|
          invariant forall id :: id in subscribers[ty] && id !in rest <==> id in done
          invariant forall i | 0 <= i < |done| :: done[i] in subscribers[ty] && sends[i] == subscribers[ty][done[i]]
          invariant forall i, j | 0 <= i < j < |done| :: done[i] != done[j]
          decreases rest
        {
          var id :| id in rest;
          rest := rest - {id};
          done := done + [id];
          sends := sends + [subscribers[ty][id]];
        }
        forall h
          ensures h in sends <==> h in subscribers[ty].Values
        {
          if h in subscribers[ty].Values {
            var id :| id in subscribers[ty] && subscribers[ty][id] == h;
            assert id in done;
            var i :| 0 <= i < |done| && done[i] == id;
            assert sends[i] == h;
          }
        }
      }
    }
  }
}
