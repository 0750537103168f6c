/** Allocation of Firecracker guest context ids by circular probing, and the guards that free them. */
module GuestCids {
  import opened Common

  const CID_RANGE: nat := 2_000_000_000

  /** The `k`-th id probed for a job whose hash prefix is `hash`. */
  function Probe(hash: nat, k: nat): (cid: nat)
    ensures 3 <= cid <= 2_000_000_002
  {
    3 + (hash + k) % CID_RANGE
  }

  lemma ProbeStep(hash: nat, k: nat)
    ensures 3 + (Probe(hash, k) - 2) % CID_RANGE == Probe(hash, k + 1)
  {
  }

  lemma ProbesDiffer(hash: nat, j: nat, k: nat)
    requires j < k < j + CID_RANGE
    ensures Probe(hash, j) != Probe(hash, k)
  {
  }

  ghost function Probes(hash: nat, n: nat): set<nat> {
    set k | 0 <= k < n :: Probe(hash, k)
  }

  lemma {:induction false} ProbesCount(hash: nat, n: nat)
    requires n <= CID_RANGE
    ensures |Probes(hash, n)| == n
  {
    if n > 0 {
      ProbesCount(hash, n - 1);
      assert Probes(hash, n) == Probes(hash, n - 1) + {Probe(hash, n - 1)};
      forall k | 0 <= k < n - 1
        ensures Probe(hash, k) != Probe(hash, n - 1)
      {
        ProbesDiffer(hash, k, n - 1);
      }
    }
  }

  /** Pigeonhole: with at most `limit` ids taken, one of the first `limit` + 1 probes is free. */
  lemma VacantProbeExists(taken: set<nat>, hash: nat, limit: nat)
    requires |taken| <= limit < CID_RANGE
    ensures exists k :: 0 <= k <= limit && Probe(hash, k) !in taken
  {
    if forall k :: 0 <= k <= limit ==> Probe(hash, k) in taken {
      ProbesCount(hash, limit + 1);
      SubsetSize(Probes(hash, limit + 1), taken);
    }
  }

  /** The first free one of the probes `k` to `limit`. */
  function FirstVacant(taken: set<nat>, hash: nat, k: nat, limit: nat): (cid: Option<nat>)
    ensures cid.None? <==> forall j :: k <= j <= limit ==> Probe(hash, j) in taken
    ensures cid.Some? ==> cid.value !in taken && 3 <= cid.value <= 2_000_000_002
    decreases limit + 1 - k
  {
    if k > limit then None
    else if Probe(hash, k) !in taken then Some(Probe(hash, k))
    else FirstVacant(taken, hash, k + 1, limit)
  }

  lemma {:induction false} FirstVacantAt(taken: set<nat>, hash: nat, k: nat, found: nat, limit: nat)
    requires k <= found <= limit && Probe(hash, found) !in taken
    requires forall j :: k <= j < found ==> Probe(hash, j) in taken
    ensures FirstVacant(taken, hash, k, limit) == Some(Probe(hash, found))
    decreases found - k
  {
    if k < found {
      FirstVacantAt(taken, hash, k + 1, found, limit);
    }
  }

  class Guard {
    const cid: nat

    constructor (cid: nat)
      ensures this.cid == cid
    {
      this.cid := cid;
    }
  }

  class Allocator {
    const queueLimit: nat
    var active: map<nat, string>
    ghost var live: set<Guard>

    /** The active table holds exactly the ids of the live guards, no two of them share one, and every id is in
        the guest range. */
    ghost predicate Valid()
      reads this
    {
      && (forall g :: g in live ==> g.cid in active)
      && (forall cid :: cid in active ==> 3 <= cid <= 2_000_000_002 && exists g :: g in live && g.cid == cid)
      && (forall g, h :: g in live && h in live && g.cid == h.cid ==> g == h)
    }

    constructor (queueLimit: nat)
      ensures Valid() && this.queueLimit == queueLimit && active == map[] && live == {}
    {
      this.queueLimit := queueLimit;
      active, live := map[], {};
    }

    /** The probe loop: the first of `queueLimit` + 1 probes that is free. */
    method FindVacant(hash: nat) returns (found: bool, k: nat, candidate: nat)
      ensures forall j :: 0 <= j < k ==> Probe(hash, j) in active
      ensures found ==> k <= queueLimit && candidate == Probe(hash, k) && candidate !in active
      ensures found ==> FirstVacant(active.Keys, hash, 0, queueLimit) == Some(candidate)
      ensures !found ==> k == queueLimit + 1
    {
      candidate := 3 + hash % CID_RANGE;
      for i := 0 to queueLimit + 1
        invariant candidate == Probe(hash, i)
        invariant forall j :: 0 <= j < i ==> Probe(hash, j) in active
      {
        if candidate !in active {
          FirstVacantAt(active.Keys, hash, 0, i, queueLimit);
          return true, i, candidate;
        }
        ProbeStep(hash, i);
        candidate := 3 + (candidate - 2) % CID_RANGE;
      }
      return false, queueLimit + 1, candidate;
    }

    /** Takes the first free probe among `queueLimit` + 1; fails exactly when all of them are taken, which cannot
        happen while at most `queueLimit` ids are live. `hash` is the job id's hash prefix. */
    method Allocate(jobId: string, hash: nat) returns (guard: Guard?)
      requires Valid()
      modifies this
      ensures Valid()
      ensures guard == null <==> forall k :: 0 <= k <= queueLimit ==> Probe(hash, k) in old(active)
      ensures guard == null ==> active == old(active) && live == old(live)
      ensures guard != null ==>
                && fresh(guard) && guard.cid !in old(active)
                && active == old(active)[guard.cid := jobId] && live == old(live) + {guard}
                && exists k :: 0 <= k <= queueLimit && guard.cid == Probe(hash, k)
                     && forall j :: 0 <= j < k ==> Probe(hash, j) in old(active)
      ensures guard != null ==> FirstVacant(old(active).Keys, hash, 0, queueLimit) == Some(guard.cid)
      ensures |old(active)| <= queueLimit < CID_RANGE ==> guard != null
    {
      if |active| <= queueLimit < CID_RANGE {
        VacantProbeExists(active.Keys, hash, queueLimit);
      }
      var found, k, candidate := FindVacant(hash);
      if found {
        active := active[candidate := jobId];
        guard := new Guard(candidate);
        live := live + {guard};
      } else {
        guard := null;
      }
    }

    /** Dropping a guard frees its own id and nothing else. */
    method Drop(guard: Guard)
      requires Valid() && guard in live
      modifies this
      ensures Valid() && live == old(live) - {guard}
      ensures active == old(active) - {guard.cid} && guard.cid in old(active)
    {
      live := live - {guard};
      if guard.cid in active {
        active := active - {guard.cid};
      }
    }
  }
}
