/**
 The names actors are exposed under, and what restarts and departures do to them.

 Each call is taken as one atomic step.
 */
module IpcRegistry {
  import opened Wrappers
  import opened Subscriptions

  type Registry = map<string, Handle>

  datatype IpcNameInUse = IpcNameInUse(name: string, heldBy: Ern)

  ghost function Find(r: Registry, name: string): Option<Handle> {
    if name in r then Some(r[name]) else None
  }

  ghost function NamesOf(r: Registry, child: Ern): set<string> {
    set name | name in r && r[name].id == child
  }

  ghost function Exposed(r: Registry, name: string, handle: Handle): Registry {
    if name in r then r else r[name := handle]
  }

  ghost function Rebound(r: Registry, child: Ern, newest: Handle): Registry {
    map name | name in r :: if r[name].id == child then newest else r[name]
  }

  ghost function Forgotten(r: Registry, child: Ern): Registry {
    map name | name in r && r[name].id != child :: r[name]
  }

  /** `names` lists `found`, each name once. */
  ghost predicate SameNames(names: seq<string>, found: set<string>) {
    |names| == |found| && forall name :: name in names <==> name in found
  }

  lemma OneMoreName(names: seq<string>, found: set<string>, name: string)
    requires SameNames(names, found) && name !in found
    ensures SameNames(names + [name], found + {name})
  {
  }

  // ----- the registry, in place -----

  class ActorRegistry {
    var entries: Registry

    constructor ()
      ensures entries == map[]
    {
      entries := map[];
    }

    method Expose(name: string, handle: Handle) returns (answer: Result<(), IpcNameInUse>)
      modifies this
      ensures entries == Exposed(old(entries), name, handle)
      ensures answer == if name in old(entries) then Err(IpcNameInUse(name, old(entries)[name].id)) else Ok(())
    {
      if name in entries {
        return Err(IpcNameInUse(name, entries[name].id));
      }
      entries := entries[name := handle];
      return Ok(());
    }

    /** Collects the names before touching any of them. */
    method CollectNames(child: Ern) returns (names: seq<string>)
      ensures forall name :: name in names <==> name in NamesOf(entries, child)
      ensures |names| == |NamesOf(entries, child)|
    {
      names := [];
      var rest := entries.Keys;
      ghost var found: set<string> := {};
      while rest != {}
        invariant rest <= entries.Keys
        invariant forall name :: name in found <==> name in NamesOf(entries, child) && name !in rest
        invariant SameNames(names, found)
        decreases rest
      {
        var name :| name in rest;
        rest := rest - {name};
        if entries[name].id == child {
          OneMoreName(names, found, name);
          names := names + [name];
          found := found + {name};
        }
      }
      assert found == NamesOf(entries, child);
    }

    method Rebind(child: Ern, newest: Handle) returns (count: nat)
      modifies this
      ensures entries == Rebound(old(entries), child, newest)
      ensures count == |NamesOf(old(entries), child)|
    {
      var names := CollectNames(child);
      var i := 0;
      while i < |names|
        invariant 0 <= i <= |names|
        invariant entries.Keys == old(entries).Keys
        invariant forall name | name in entries :: entries[name] == if name in names[..i] then newest else old(entries)[name]
      {
        assert names[i] in names;
        entries := entries[names[i] := newest];
        i := i + 1;
      }
      assert names[..i] == names;
      count := |names|;
    }

    method Forget(child: Ern) returns (count: nat)
      modifies this
      ensures entries == Forgotten(old(entries), child)
      ensures count == |NamesOf(old(entries), child)|
    {
      var names := CollectNames(child);
      var i := 0;
      while i < |names|
        invariant 0 <= i <= |names|
        invariant forall name :: name in entries <==> name in old(entries) && name !in names[..i]
        invariant forall name | name in entries :: entries[name] == old(entries)[name]
      {
        entries := entries - {names[i]};
        i := i + 1;
      }
      assert names[..i] == names;
      count := |names|;
    }

    method Hide(name: string) returns (removed: Option<Handle>)
      modifies this
      ensures removed == Find(old(entries), name) && entries == old(entries) - {name}
    {
      removed := if name in entries then Some(entries[name]) else None;
      entries := entries - {name};
    }

    method Lookup(name: string) returns (found: Option<Handle>)
      ensures found == Find(entries, name)
    {
      found := if name in entries then Some(entries[name]) else None;
    }
  }

  // ----- any sequence of calls -----

  datatype Call =
    | Expose(name: string, handle: Handle)
    | Rebind(child: Ern, newest: Handle)
    | Forget(child: Ern)
    | Hide(name: string)

  ghost function Apply(r: Registry, c: Call): Registry {
    match c
    case Expose(name, handle) => Exposed(r, name, handle)
    case Rebind(child, replacement) => Rebound(r, child, replacement)
    case Forget(child) => Forgotten(r, child)
    case Hide(name) => r - {name}
  }

  ghost function After(calls: seq<Call>): Registry {
    if calls == [] then map[] else Apply(After(calls[..|calls| - 1]), calls[|calls| - 1])
  }

  /** A restart keeps the identifier of the child it replaces. */
  ghost predicate KeepsIds(calls: seq<Call>) {
    forall i | 0 <= i < |calls| && calls[i].Rebind? :: calls[i].newest.id == calls[i].child
  }

  /** The call takes away a name held by the actor `id`. */
  ghost predicate Ends(c: Call, name: string, id: Ern) {
    (c.Hide? && c.name == name) || (c.Forget? && c.child == id)
  }

  /** The newest incarnation of the actor first exposed as `handle`, after `calls`. */
  ghost function Newest(calls: seq<Call>, handle: Handle): Handle {
    if calls == [] then handle
    else
      var last := calls[|calls| - 1];
      if last.Rebind? && last.child == handle.id then last.newest else Newest(calls[..|calls| - 1], handle)
  }

  /** Call `k` claimed a name on which no claim stood, and nothing took it away since. */
  ghost predicate Stands(calls: seq<Call>, k: int, name: string)
    decreases |calls|, 0
  {
    && 0 <= k < |calls|
    && calls[k].Expose? && calls[k].name == name && !Taken(calls[..k], name)
    && (forall j | k < j < |calls| :: !Ends(calls[j], name, calls[k].handle.id))
  }

  ghost predicate Taken(calls: seq<Call>, name: string)
    decreases |calls|, 1
  {
    exists k :: Stands(calls, k, name)
  }

  /** The claim of call `k` stands, and `h` is its actor now. */
  ghost predicate Claims(calls: seq<Call>, k: int, name: string, h: Handle) {
    Stands(calls, k, name) && h == Newest(calls[k + 1..], calls[k].handle)
  }

  lemma {:induction false} NewestKeepsId(calls: seq<Call>, handle: Handle)
    requires KeepsIds(calls)
    ensures Newest(calls, handle).id == handle.id
  {
    if calls != [] {
      NewestKeepsId(calls[..|calls| - 1], handle);
    }
  }

  /** A name's entry after one more call, from its entry before. */
  lemma FindAfter(r: Registry, c: Call, name: string)
    ensures Find(Apply(r, c), name) ==
      match c {
        case Expose(n, handle) => if n == name && Find(r, name).None? then Some(handle) else Find(r, name)
        case Rebind(child, replacement) => if Find(r, name).Some? && Find(r, name).value.id == child then Some(replacement) else Find(r, name)
        case Forget(child) => if Find(r, name).Some? && Find(r, name).value.id == child then None else Find(r, name)
        case Hide(n) => if n == name then None else Find(r, name)
      }
  {
  }

  /** A claim survives, renewed if its actor restarted, exactly the calls that do not end it. */
  lemma ClaimStep(calls: seq<Call>, k: nat, name: string, h: Handle)
    requires k < |calls| - 1 && KeepsIds(calls)
    ensures var n := |calls| - 1;
      Claims(calls, k, name, h) <==>
        !Ends(calls[n], name, h.id)
        && (if calls[n].Rebind? && calls[n].child == h.id
            then h == calls[n].newest && calls[k].Expose? && calls[k].handle.id == h.id
                 && Claims(calls[..n], k, name, Newest(calls[..n][k + 1..], calls[k].handle))
            else Claims(calls[..n], k, name, h))
  {
    var n := |calls| - 1;
    assert calls[..n][..k] == calls[..k];
    assert calls[k + 1..][..n - k - 1] == calls[..n][k + 1..];
    assert forall j | 0 <= j < n :: calls[..n][j] == calls[j];
    if calls[k].Expose? {
      NewestKeepsId(calls[..n][k + 1..], calls[k].handle);
      NewestKeepsId(calls[k + 1..], calls[k].handle);
    }
  }

  /** A name is free exactly when no claim on it stands. */
  lemma {:induction false} TakenIsRegistered(calls: seq<Call>, name: string)
    requires KeepsIds(calls)
    ensures Taken(calls, name) <==> name in After(calls)
    decreases |calls|, 1
  {
    if name in After(calls) {
      LookupIsTheStandingClaim(calls, name, After(calls)[name]);
    }
    if k :| Stands(calls, k, name) {
      var h := Newest(calls[k + 1..], calls[k].handle);
      assert Claims(calls, k, name, h);
      LookupIsTheStandingClaim(calls, name, h);
    }
  }

  /**
   What a lookup returns after any sequence of calls: the newest incarnation of the actor whose
   claim on the name stands. So claiming a live name changes nothing, a restart repoints every
   name its actor holds and no other, and only hiding the name or forgetting the actor frees it.
   */
  lemma {:induction false} LookupIsTheStandingClaim(calls: seq<Call>, name: string, h: Handle)
    requires KeepsIds(calls)
    ensures Find(After(calls), name) == Some(h) <==> exists k :: Claims(calls, k, name, h)
    decreases |calls|, 0
  {
    if calls != [] {
      var n := |calls| - 1;
      var prev, c := calls[..n], calls[n];
      TakenIsRegistered(prev, name);
      FindAfter(After(prev), c, name);
      LookupIsTheStandingClaim(prev, name, h);
      if Find(After(prev), name).Some? {
        LookupIsTheStandingClaim(prev, name, Find(After(prev), name).value);
      }
      if Find(After(calls), name) == Some(h) {
        if c.Expose? && c.name == name && Find(After(prev), name).None? {
          assert Claims(calls, n, name, h);
        } else {
          var was := Find(After(prev), name).value;
          var k :| Claims(prev, k, name, was);
          NewestKeepsId(prev[k + 1..], calls[k].handle);
          ClaimStep(calls, k, name, h);
        }
      }
      if k :| Claims(calls, k, name, h) {
        if k == n {
          assert calls[..k] == prev && calls[k + 1..] == [];
        } else {
          ClaimStep(calls, k, name, h);
          if c.Rebind? && c.child == h.id {
            NewestKeepsId(prev[k + 1..], calls[k].handle);
            LookupIsTheStandingClaim(prev, name, Newest(prev[k + 1..], calls[k].handle));
          }
        }
      }
    }
  }

  /** Rebinding and forgetting act on exactly the names of one child, and the counts they return are the change in what it holds. */
  lemma CountsAreExact(r: Registry, child: Ern, newest: Handle)
    requires newest.id == child
    ensures NamesOf(Rebound(r, child, newest), child) == NamesOf(r, child)
    ensures forall name | name in NamesOf(r, child) :: Rebound(r, child, newest)[name] == newest
    ensures NamesOf(Forgotten(r, child), child) == {}
    ensures |Forgotten(r, child)| + |NamesOf(r, child)| == |r|
  {
    assert Forgotten(r, child).Keys == r.Keys - NamesOf(r, child);
  }
}
