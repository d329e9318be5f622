/** The record list of one domain
    (dotDNS/Features/Records/ViewModels/DNSRecordListViewModel.swift), including the
    deletion of a selection of rows. */
module RecordList {
  import opened Wrappers
  import opened Providers
  import opened Dns
  import opened Failures

  /** `Array.remove(at:)` on a value. */
  function RemoveAt(rs: seq<DnsRecord>, i: nat): (r: seq<DnsRecord>)
    requires i < |rs|
    ensures |r| == |rs| - 1
  {
    rs[..i] + rs[i + 1..]
  }

  /** An `IndexSet` as its ascending iteration order. */
  predicate StrictlyIncreasing(indices: seq<nat>) {
    forall a, b :: 0 <= a < b < |indices| ==> indices[a] < indices[b]
  }

  function Elements(indices: seq<nat>): set<nat> {
    set k | k in indices
  }

  /** Removing the indices one after another, each from the array the previous removals
      left, stays in bounds: the k-th index must be below the original count less k. */
  predicate ShiftedInBounds(n: nat, indices: seq<nat>) {
    forall k :: 0 <= k < |indices| ==> indices[k] < n - k
  }

  /** What the ascending removal loop computes: each index applied to the array the
      previous removals left. */
  function RemoveInTurn(rs: seq<DnsRecord>, indices: seq<nat>): (r: seq<DnsRecord>)
    requires ShiftedInBounds(|rs|, indices)
    ensures |r| == |rs| - |indices|
    decreases |indices|
  {
    if indices == [] then rs
    else RemoveInTurn(RemoveAt(rs, indices[0]), indices[1..])
  }

  /** The records whose positions, counted from `base`, are not selected, in their order:
      what deleting the selected rows means. */
  function Unselected(rs: seq<DnsRecord>, selected: set<nat>, base: nat): (r: seq<DnsRecord>)
    ensures |r| <= |rs|
    decreases |rs|
  {
    if rs == [] then []
    else (if base in selected then [] else [rs[0]]) + Unselected(rs[1..], selected, base + 1)
  }

  /** A record survives exactly when it stands at some position that is not selected. */
  lemma {:induction false} UnselectedMembers(rs: seq<DnsRecord>, selected: set<nat>, base: nat, x: DnsRecord)
    ensures x in Unselected(rs, selected, base) <==>
      exists i :: 0 <= i < |rs| && base + i !in selected && rs[i] == x
    decreases |rs|
  {
    if rs != [] {
      var head := if base in selected then [] else [rs[0]];
      var rest := Unselected(rs[1..], selected, base + 1);
      assert Unselected(rs, selected, base) == head + rest;
      UnselectedMembers(rs[1..], selected, base + 1, x);
      if x in head {
        assert base + 0 !in selected && rs[0] == x;
      } else if x in rest {
        var i :| 0 <= i < |rs[1..]| && base + 1 + i !in selected && rs[1..][i] == x;
        assert base + (i + 1) !in selected && rs[i + 1] == x;
      }
      if exists i :: 0 <= i < |rs| && base + i !in selected && rs[i] == x {
        var i :| 0 <= i < |rs| && base + i !in selected && rs[i] == x;
        if i == 0 {
          assert x in head;
        } else {
          assert base + 1 + (i - 1) !in selected && rs[1..][i - 1] == x;
        }
      }
    }
  }

  /** With nothing in its range selected, every record is kept. */
  lemma {:induction false} UnselectedNone(rs: seq<DnsRecord>, selected: set<nat>, base: nat)
    requires forall t :: t in selected ==> t < base || t >= base + |rs|
    ensures Unselected(rs, selected, base) == rs
    decreases |rs|
  {
    if rs != [] {
      UnselectedNone(rs[1..], selected, base + 1);
      assert [rs[0]] + rs[1..] == rs;
    }
  }

  /** A selected position before the range makes no difference. */
  lemma {:induction false} UnselectedIgnoresBelow(rs: seq<DnsRecord>, selected: set<nat>, x: nat, base: nat)
    requires x < base
    ensures Unselected(rs, selected + {x}, base) == Unselected(rs, selected, base)
    decreases |rs|
  {
    if rs != [] {
      UnselectedIgnoresBelow(rs[1..], selected, x, base + 1);
    }
  }

  /** Removing position p, when every selected position lies beyond it, is the same as
      selecting p as well. */
  lemma {:induction false} RemoveBeforeSelected(rs: seq<DnsRecord>, selected: set<nat>, base: nat, p: nat)
    requires p < |rs|
    requires forall t :: t in selected ==> t > base + p
    ensures p < |Unselected(rs, selected, base)|
    ensures RemoveAt(Unselected(rs, selected, base), p) == Unselected(rs, selected + {base + p}, base)
    decreases p
  {
    var rest := Unselected(rs[1..], selected, base + 1);
    assert base !in selected;
    assert Unselected(rs, selected, base) == [rs[0]] + rest;
    if p == 0 {
      UnselectedIgnoresBelow(rs[1..], selected, base, base + 1);
      assert Unselected(rs, selected + {base}, base) == Unselected(rs[1..], selected + {base}, base + 1);
      assert RemoveAt([rs[0]] + rest, 0) == rest;
    } else {
      RemoveBeforeSelected(rs[1..], selected, base + 1, p - 1);
      assert base + 1 + (p - 1) == base + p;
      assert RemoveAt([rs[0]] + rest, p) == [rs[0]] + RemoveAt(rest, p - 1);
      assert Unselected(rs, selected + {base + p}, base)
        == [rs[0]] + Unselected(rs[1..], selected + {base + p}, base + 1);
    }
  }

  /** In a strictly increasing sequence each later entry is at least as far above. */
  lemma {:induction false} IncreasingGap(indices: seq<nat>, k: nat, j: nat)
    requires StrictlyIncreasing(indices)
    requires k + j < |indices|
    ensures indices[k + j] >= indices[k] + j
    decreases j
  {
    if j > 0 {
      IncreasingGap(indices, k, j - 1);
      assert indices[k + j - 1] < indices[k + j];
    }
  }

  /** The ascending loop, for records [a, b, c] and the selection {0, 1}: a and c go and b
      stays, where the selection meant a and b; and the selection {1, 2} runs past the end
      of the array on its second removal. */
  lemma AscendingDeleteShiftsIndices(a: DnsRecord, b: DnsRecord, c: DnsRecord)
    ensures ShiftedInBounds(3, [0, 1])
    ensures RemoveInTurn([a, b, c], [0, 1]) == [b]
    ensures Unselected([a, b, c], {0, 1}, 0) == [c]
    ensures !ShiftedInBounds(3, [1, 2])
  {
    assert RemoveAt([a, b, c], 0) == [b, c];
    assert RemoveAt([b, c], 1) == [b];
    assert [0, 1][1..] == [1];
    assert [1][1..] == [];
    assert Unselected([c], {0, 1}, 2) == [c];
    assert Unselected([b, c], {0, 1}, 1) == [c];
    assert [1, 2][1] >= 3 - 1;
  }

  lemma {:induction false} RemoveInTurnOne(rs: seq<DnsRecord>, i: nat)
    requires i < |rs|
    ensures ShiftedInBounds(|rs|, [i])
    ensures RemoveInTurn(rs, [i]) == RemoveAt(rs, i)
  {
    assert ShiftedInBounds(|rs|, [i]);
    assert [i][1..] == [];
  }

  /** Selecting one position drops exactly that record. */
  lemma {:induction false} UnselectedOne(rs: seq<DnsRecord>, selected: set<nat>, i: nat, base: nat)
    requires i < |rs| && selected == {base + i}
    ensures Unselected(rs, selected, base) == RemoveAt(rs, i)
    decreases i
  {
    if i == 0 {
      UnselectedNone(rs[1..], selected, base + 1);
      assert Unselected(rs, selected, base) == Unselected(rs[1..], selected, base + 1);
      assert RemoveAt(rs, 0) == rs[1..];
    } else {
      UnselectedOne(rs[1..], selected, i - 1, base + 1);
      assert base !in selected;
      assert Unselected(rs, selected, base) == [rs[0]] + Unselected(rs[1..], selected, base + 1);
      assert [rs[0]] + RemoveAt(rs[1..], i - 1) == RemoveAt(rs, i);
    }
  }

  /** A single selected row, as a swipe deletes it, is removed correctly by either loop. */
  lemma {:induction false} SingleDeleteAgrees(rs: seq<DnsRecord>, i: nat)
    requires i < |rs|
    ensures ShiftedInBounds(|rs|, [i])
    ensures RemoveInTurn(rs, [i]) == RemoveAt(rs, i) == Unselected(rs, {i}, 0)
  {
    RemoveInTurnOne(rs, i);
    UnselectedOne(rs, {i}, i, 0);
  }

  class DnsRecordListViewModel {
    var records: seq<DnsRecord>
    var isLoading: bool
    var errorMessage: Option<string>

    constructor ()
      ensures records == [] && !isLoading && errorMessage == None
    {
      records := [];
      isLoading := false;
      errorMessage := None;
    }

    /** `loadRecords`: no provider has an implementation yet, so only the loading flag
        moves, and it is false again on exit. */
    method LoadRecords(domain: Domain)
      modifies this
      ensures records == old(records) && errorMessage == old(errorMessage) && !isLoading
    {
      isLoading := true;
      isLoading := false;
    }

    /** `deleteRecord`: not implemented yet; it never throws. */
    method DeleteRecord(record: DnsRecord, provider: Provider) returns (r: Outcome<Failure>)
      ensures r == Pass
    {
      r := Pass;
    }

    /** `deleteRecords(at:)` as written: the indices are visited in ascending order and each
        is removed from the array the earlier removals already shortened. Callers must keep
        every removal in bounds, or the removal traps. */
    method DeleteRecords(indices: seq<nat>)
      requires StrictlyIncreasing(indices)
      requires |records| > 0 ==> ShiftedInBounds(|records|, indices)
      modifies this`records
      ensures old(records) == [] ==> records == []
      ensures old(records) != [] ==> records == RemoveInTurn(old(records), indices)
      ensures old(records) != [] ==> |records| == |old(records)| - |indices|
    {
      if records == [] {
        return;
      }
      var provider := records[0].provider;
      var k := 0;
      while k < |indices|
        invariant 0 <= k <= |indices|
        invariant ShiftedInBounds(|records|, indices[k..])
        invariant RemoveInTurn(records, indices[k..]) == RemoveInTurn(old(records), indices)
      {
        var index := indices[k];
        var record := records[index];
        var outcome := DeleteRecord(record, provider);
        records := RemoveAt(records, index);
        assert indices[k..][1..] == indices[k + 1..];
        k := k + 1;
      }
    }

    /** Deletion as intended: the indices are positions in the list as the user saw it,
        and removing them from the highest down keeps every later position valid. Exactly
        the unselected records remain, in their order. */
    method DeleteRecordsAtOffsets(indices: seq<nat>)
      requires StrictlyIncreasing(indices)
      requires |records| > 0 ==> forall k :: 0 <= k < |indices| ==> indices[k] < |records|
      modifies this`records
      ensures old(records) == [] ==> records == []
      ensures old(records) != [] ==> records == Unselected(old(records), Elements(indices), 0)
      ensures old(records) != [] ==> |records| == |old(records)| - |indices|
    {
      if records == [] {
        return;
      }
      var provider := records[0].provider;
      UnselectedNone(records, {}, 0);
      assert Elements(indices[|indices|..]) == {};
      var k := |indices|;
      while k > 0
        invariant 0 <= k <= |indices|
        invariant records == Unselected(old(records), Elements(indices[k..]), 0)
        invariant |records| == |old(records)| - (|indices| - k)
      {
        k := k - 1;
        var index := indices[k];
        IncreasingGap(indices, k, |indices| - 1 - k);
        var later := Elements(indices[k + 1..]);
        forall t | t in later
          ensures t > index
        {
          var j :| 0 <= j < |indices[k + 1..]| && indices[k + 1..][j] == t;
          assert indices[k + 1 + j] == t;
        }
        RemoveBeforeSelected(old(records), later, 0, index);
        assert Elements(indices[k..]) == later + {index} by {
          assert indices[k..] == [index] + indices[k + 1..];
        }
        var record := records[index];
        var outcome := DeleteRecord(record, provider);
        records := RemoveAt(records, index);
      }
      assert indices[0..] == indices;
    }
  }
}
