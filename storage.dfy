/** The provider registry (dotDNS/Services/ProviderStorage.swift): an ordered list of
    providers kept in one persisted slot, changed by read-modify-write. */
module Storage {
  import opened Wrappers
  import opened Providers

  /** `providers.firstIndex(where: { $0.id == id })`. */
  function FirstIndexWithId(ps: seq<Provider>, id: Uuid): (r: Option<nat>)
    ensures r.Some? ==> r.value < |ps| && ps[r.value].id == id
    ensures r.Some? ==> forall j :: 0 <= j < r.value ==> ps[j].id != id
    ensures r.None? <==> forall j :: 0 <= j < |ps| ==> ps[j].id != id
    decreases |ps|
  {
    if ps == [] then None
    else if ps[0].id == id then Some(0)
    else match FirstIndexWithId(ps[1..], id)
      case None => None
      case Some(k) => Some(k + 1)
  }

  /** `providers.removeAll { $0.id == id }`. */
  function RemoveAllWithId(ps: seq<Provider>, id: Uuid): (r: seq<Provider>)
    ensures |r| <= |ps|
    ensures forall i :: 0 <= i < |r| ==> r[i].id != id
    decreases |ps|
  {
    if ps == [] then []
    else (if ps[0].id == id then [] else [ps[0]]) + RemoveAllWithId(ps[1..], id)
  }

  /** What survives is exactly the entries with another id. */
  lemma {:induction false} RemoveAllMembers(ps: seq<Provider>, id: Uuid)
    ensures forall x :: x in RemoveAllWithId(ps, id) <==> x in ps && x.id != id
    ensures |RemoveAllWithId(ps, id)| <= |ps|
    decreases |ps|
  {
    if ps != [] {
      RemoveAllMembers(ps[1..], id);
      assert ps == [ps[0]] + ps[1..];
    }
  }

  /** Removal acts on each part of a list separately, so the survivors keep their relative
      order. */
  lemma {:induction false} RemoveAllConcat(a: seq<Provider>, b: seq<Provider>, id: Uuid)
    ensures RemoveAllWithId(a + b, id) == RemoveAllWithId(a, id) + RemoveAllWithId(b, id)
    decreases |a|
  {
    if a != [] {
      assert (a + b)[1..] == a[1..] + b;
      RemoveAllConcat(a[1..], b, id);
    } else {
      assert a + b == b;
    }
  }

  /** A list with no entry of the id is left as it is. */
  lemma {:induction false} RemoveAllNoMatch(ps: seq<Provider>, id: Uuid)
    requires forall j :: 0 <= j < |ps| ==> ps[j].id != id
    ensures RemoveAllWithId(ps, id) == ps
    decreases |ps|
  {
    if ps != [] {
      RemoveAllNoMatch(ps[1..], id);
    }
  }

  /** Removing twice removes no more than removing once. */
  lemma RemoveAllIdempotent(ps: seq<Provider>, id: Uuid)
    ensures RemoveAllWithId(RemoveAllWithId(ps, id), id) == RemoveAllWithId(ps, id)
  {
    var r := RemoveAllWithId(ps, id);
    RemoveAllMembers(ps, id);
    assert forall j :: 0 <= j < |r| ==> r[j] in r;
    RemoveAllNoMatch(r, id);
  }

  /** Replacing the first entry with `p.id` changes that position and no other one, later
      entries with the same id included. */
  lemma UpdateTouchesFirstMatchOnly(ps: seq<Provider>, p: Provider)
    requires FirstIndexWithId(ps, p.id).Some?
    ensures var i := FirstIndexWithId(ps, p.id).value;
      var r := ps[i := p];
      |r| == |ps| && r[i] == p
      && (forall j :: 0 <= j < |ps| && j != i ==> r[j] == ps[j])
      && (forall j :: 0 <= j < i ==> ps[j].id != p.id)
  {
  }

  /** The persisted registry. `stored` is the `stored_providers` slot: None until the first
      save. */
  class ProviderStorage {
    var stored: Option<seq<Provider>>

    constructor (initial: Option<seq<Provider>>)
      ensures stored == initial
    {
      stored := initial;
    }

    /** The list `loadProviders` reads: an empty slot reads as no providers. */
    function Contents(): seq<Provider>
      reads this
    {
      stored.GetOr([])
    }

    method LoadProviders() returns (ps: seq<Provider>)
      ensures stored.None? ==> ps == []
      ensures stored.Some? ==> ps == stored.value
    {
      if stored.None? {
        return [];
      }
      ps := stored.value;
    }

    method SaveProviders(ps: seq<Provider>)
      modifies this
      ensures stored == Some(ps)
    {
      stored := Some(ps);
    }

    /** Appends; the existing entries keep their places. */
    method AddProvider(p: Provider)
      modifies this
      ensures stored == Some(old(Contents()) + [p])
      ensures |Contents()| == |old(Contents())| + 1 && Contents()[..|old(Contents())|] == old(Contents())
    {
      var providers := LoadProviders();
      providers := providers + [p];
      SaveProviders(providers);
    }

    /** Replaces the first entry with the same id and saves; with no such entry nothing is
        saved, so even an empty slot stays empty. */
    method UpdateProvider(p: Provider)
      modifies this
      ensures FirstIndexWithId(old(Contents()), p.id).None? ==> stored == old(stored)
      ensures FirstIndexWithId(old(Contents()), p.id).Some? ==>
        stored == Some(old(Contents())[FirstIndexWithId(old(Contents()), p.id).value := p])
    {
      var providers := LoadProviders();
      var index := FirstIndexWithId(providers, p.id);
      if index.Some? {
        providers := providers[index.value := p];
        SaveProviders(providers);
      }
    }

    /** Removes every entry with the same id and always saves, so removing from an empty
        slot stores an empty list. */
    method RemoveProvider(p: Provider)
      modifies this
      ensures stored == Some(RemoveAllWithId(old(Contents()), p.id))
      ensures forall j :: 0 <= j < |Contents()| ==> Contents()[j].id != p.id
    {
      var providers := LoadProviders();
      providers := RemoveAllWithId(providers, p.id);
      SaveProviders(providers);
      RemoveAllMembers(old(Contents()), p.id);
      assert forall j :: 0 <= j < |Contents()| ==> Contents()[j] in Contents();
    }
  }
}
