/** Claiming and releasing the 64 hazard slots.

    `hazard_pointer_init` walks the slots and takes the first free one with a
    CAS; another thread may take or release any slot meanwhile. The lemmas here
    keep the claim exclusive and show that the walk of one of at most 64
    threads never falls off the end.
  */
module HazardSlots {
  import opened StackMachine

  /** `claiming` is the slot a thread tries next, -1 outside `hazard_pointer_init`. */
  datatype Registration = Registration(slot: int, registered: bool, claiming: int)

  ghost predicate Claimed(rs: seq<Registration>, i: nat) {
    exists u :: 0 <= u < |rs| && rs[u].slot == i
  }

  ghost predicate RegistrationOk(ids: seq<nat>, rs: seq<Registration>, u: nat)
    requires |ids| == MAX_HAZARD_POINTERS && u < |rs|
  {
    var r := rs[u];
    && -1 <= r.slot < MAX_HAZARD_POINTERS
    && (r.registered ==> r.slot >= 0 && ids[r.slot] == u + 1)
    && (r.claiming >= 0 ==> r.slot == -1 && forall i :: 0 <= i < r.claiming ==> Claimed(rs, i))
  }

  ghost predicate SlotOk(ids: seq<nat>, rs: seq<Registration>, i: nat)
    requires i < |ids|
  {
    ids[i] != 0 ==> ids[i] <= |rs| && rs[ids[i] - 1].registered && rs[ids[i] - 1].slot == i
  }

  ghost predicate SlotsOk(ids: seq<nat>, rs: seq<Registration>) {
    && |ids| == MAX_HAZARD_POINTERS
    && (forall u :: 0 <= u < |rs| ==> RegistrationOk(ids, rs, u))
    && (forall i :: 0 <= i < |ids| ==> SlotOk(ids, rs, i))
  }

  /** No two threads own one slot. */
  lemma SlotsExclusive(ids: seq<nat>, rs: seq<Registration>, t: nat, u: nat)
    requires SlotsOk(ids, rs)
    requires t < |rs| && u < |rs| && rs[t].registered && rs[u].registered && rs[t].slot == rs[u].slot
    ensures t == u
  {
    assert RegistrationOk(ids, rs, t) && RegistrationOk(ids, rs, u);
  }

  /** Any change of one registration that forgets no slot. */
  lemma Keep(ids: seq<nat>, rs: seq<Registration>, t: nat, r: Registration)
    requires SlotsOk(ids, rs) && t < |rs|
    requires r.slot == rs[t].slot && r.registered == rs[t].registered
    requires r.claiming >= 0 ==> r.slot == -1 && forall i :: 0 <= i < r.claiming ==> Claimed(rs, i)
    ensures SlotsOk(ids, rs[t := r])
  {
    var rs' := rs[t := r];
    ClaimsStay(rs, rs');
    forall u | 0 <= u < |rs'|
      ensures RegistrationOk(ids, rs', u)
    { assert RegistrationOk(ids, rs, u); }
    forall i | 0 <= i < |ids|
      ensures SlotOk(ids, rs', i)
    { assert SlotOk(ids, rs, i); }
  }

  lemma ClaimsStay(rs: seq<Registration>, rs': seq<Registration>)
    requires |rs'| == |rs|
    requires forall u :: 0 <= u < |rs| && rs[u].slot >= 0 ==> rs'[u].slot == rs[u].slot
    ensures forall i: nat :: Claimed(rs, i) ==> Claimed(rs', i)
  {
    forall i: nat | Claimed(rs, i)
      ensures Claimed(rs', i)
    {
      var u :| 0 <= u < |rs| && rs[u].slot == i;
      assert rs'[u].slot == i;
    }
  }

  /** The CAS on a taken slot fails: one more slot is known to be claimed. */
  lemma ClaimFails(ids: seq<nat>, rs: seq<Registration>, t: nat)
    requires SlotsOk(ids, rs) && t < |rs|
    requires 0 <= rs[t].claiming < MAX_HAZARD_POINTERS && ids[rs[t].claiming] != 0
    ensures SlotsOk(ids, rs[t := rs[t].(claiming := rs[t].claiming + 1)])
  {
    var i := rs[t].claiming;
    assert SlotOk(ids, rs, i) && RegistrationOk(ids, rs, t);
    assert rs[ids[i] - 1].slot == i;
    assert Claimed(rs, i);
    Keep(ids, rs, t, rs[t].(claiming := i + 1));
  }

  lemma ClaimSucceeds(ids: seq<nat>, rs: seq<Registration>, t: nat)
    requires SlotsOk(ids, rs) && t < |rs|
    requires 0 <= rs[t].claiming < MAX_HAZARD_POINTERS && ids[rs[t].claiming] == 0
    ensures SlotsOk(ids[rs[t].claiming := t + 1], rs[t := Registration(rs[t].claiming, true, -1)])
  {
    var i := rs[t].claiming;
    var ids', rs' := ids[i := t + 1], rs[t := Registration(i, true, -1)];
    assert RegistrationOk(ids, rs, t);
    ClaimsStay(rs, rs');
    forall u | 0 <= u < |rs'|
      ensures RegistrationOk(ids', rs', u)
    { assert RegistrationOk(ids, rs, u); }
    forall j | 0 <= j < |ids'|
      ensures SlotOk(ids', rs', j)
    { assert SlotOk(ids, rs, j); }
  }

  /** `hazard_pointer_cleanup`: the slot is free again, but stays known as claimed. */
  lemma ReleaseSlot(ids: seq<nat>, rs: seq<Registration>, t: nat)
    requires SlotsOk(ids, rs) && t < |rs| && rs[t].registered && rs[t].claiming == -1
    ensures 0 <= rs[t].slot < |ids|
    ensures SlotsOk(ids[rs[t].slot := 0], rs[t := rs[t].(registered := false)])
  {
    assert RegistrationOk(ids, rs, t);
    var ids', rs' := ids[rs[t].slot := 0], rs[t := rs[t].(registered := false)];
    ClaimsStay(rs, rs');
    forall u | 0 <= u < |rs'|
      ensures RegistrationOk(ids', rs', u)
    { assert RegistrationOk(ids, rs, u); }
    forall j | 0 <= j < |ids'|
      ensures SlotOk(ids', rs', j)
    { assert SlotOk(ids, rs, j); }
  }

  /** With at most 64 threads the walk stops at a free slot. */
  lemma ClaimNeverFails(ids: seq<nat>, rs: seq<Registration>, t: nat)
    requires SlotsOk(ids, rs) && t < |rs| <= MAX_HAZARD_POINTERS
    ensures rs[t].claiming < MAX_HAZARD_POINTERS
  {
    if rs[t].claiming >= MAX_HAZARD_POINTERS {
      assert RegistrationOk(ids, rs, t);
      var others := rs[..t] + rs[t + 1..];
      forall i | 0 <= i < MAX_HAZARD_POINTERS
        ensures Claimed(others, i)
      {
        assert Claimed(rs, i);
        var u :| 0 <= u < |rs| && rs[u].slot == i;
        assert others[if u < t then u else u - 1].slot == i;
      }
      Pigeonhole(others, MAX_HAZARD_POINTERS);
    }
  }

  lemma {:induction false} Pigeonhole(rs: seq<Registration>, k: nat)
    requires forall i :: 0 <= i < k ==> Claimed(rs, i)
    ensures k <= |rs|
  {
    if k > 0 {
      assert Claimed(rs, k - 1);
      var u :| 0 <= u < |rs| && rs[u].slot == k - 1;
      var rest := rs[..u] + rs[u + 1..];
      forall i | 0 <= i < k - 1
        ensures Claimed(rest, i)
      {
        assert Claimed(rs, i);
        var v :| 0 <= v < |rs| && rs[v].slot == i;
        assert rest[if v < u then v else v - 1].slot == i;
      }
      Pigeonhole(rest, k - 1);
    }
  }
}
