/** What the lease operations do to the lock invariant. */
module Locks {
  import opened Api
  import opened Lifecycle
  import opened Phases
  import opened Invariant
  import opened Entries
  import opened Preservation

  lemma LossEvolves(cfg: Config, entries: map<string, Entry>, ln: string, l: Lease, why: Loss, n: string)
    requires EntriesInv(cfg, entries) && Justified(cfg, why) && n in entries
    ensures EntryInv(cfg, MarkLost(cfg, entries, ln, l, why)[n])
    ensures Evolves(entries[n], MarkLost(cfg, entries, ln, l, why)[n])
  {
    hide EntryInv;
    LossKept(cfg, entries[n], why);
  }

  /** Snapshots and tokens survive an evolution of every request. */
  lemma ReadersSurvive(entries: map<string, Entry>, entries': map<string, Entry>, tasks: map<nat, Task>, tokens: set<string>)
    requires TasksInv(entries, tasks) && TokensInv(entries, tokens)
    requires forall n :: n in entries ==> n in entries' && Evolves(entries[n], entries'[n])
    ensures TasksInv(entries', tasks) && TokensInv(entries', tokens)
  {
    hide TaskInv, Height;
    forall id | id in tasks && !tasks[id].Finished? ensures TaskInv(entries'[tasks[id].n], tasks[id]) {
      TaskSurvives(entries[tasks[id].n], entries'[tasks[id].n], tasks[id]);
    }
  }

  lemma MarkLostKeeps(cfg: Config, entries: map<string, Entry>, tasks: map<nat, Task>, tokens: set<string>,
                      ln: string, l: Lease, why: Loss)
    requires EntriesInv(cfg, entries) && TasksInv(entries, tasks) && TokensInv(entries, tokens)
    requires Justified(cfg, why)
    ensures EntriesInv(cfg, MarkLost(cfg, entries, ln, l, why))
    ensures TasksInv(MarkLost(cfg, entries, ln, l, why), tasks)
    ensures TokensInv(MarkLost(cfg, entries, ln, l, why), tokens)
  {
    hide EntryInv, TasksInv, TokensInv, Evolves;
    var entries' := MarkLost(cfg, entries, ln, l, why);
    forall n | n in entries ensures EntryInv(cfg, entries'[n]) && Evolves(entries[n], entries'[n]) {
      LossEvolves(cfg, entries, ln, l, why, n);
    }
    ReadersSurvive(entries, entries', tasks, tokens);
  }

  lemma MarkLostTimes(cfg: Config, entries: map<string, Entry>, now: int, ln: string, l: Lease, why: Loss)
    requires TimesInv(entries, now)
    ensures TimesInv(MarkLost(cfg, entries, ln, l, why), now)
  {
    hide ActiveHolder;
  }

  /** A lease name with no lease: the active requests there have all lost it. */
  lemma RemovedLease(cfg: Config, entries: map<string, Entry>, leases: map<string, Lease>, ln: string, why: Loss)
    requires LeasesInv(cfg, entries, leases) && ln in leases
    ensures LeasesInv(cfg, MarkLost(cfg, entries, ln, leases[ln], why), leases - {ln})
  {
    var entries' := MarkLost(cfg, entries, ln, leases[ln], why);
    forall n | n in entries ensures LeaseInv(cfg, leases - {ln}, n, entries'[n]) {
      assert LeaseInv(cfg, leases, n, entries[n]);
      assert LeaseName(cfg, entries[n].r.spec.uri) != ln ==>
        Holds(cfg, leases - {ln}, n, entries[n].r.spec) == Holds(cfg, leases, n, entries[n].r.spec);
    }
    hide LeaseInv, Owned;
    assert Grows(entries, entries');
    OwnedKept(cfg, entries, entries', leases);
  }

  /** Only the holder of a lease can answer to its holder identity. */
  lemma OneHolder(cfg: Config, entries: map<string, Entry>, leases: map<string, Lease>, m: string, n: string)
    requires EntriesInv(cfg, entries) && m in entries && n in entries
    requires LeaseName(cfg, entries[m].r.spec.uri) == LeaseName(cfg, entries[n].r.spec.uri)
    requires Holds(cfg, leases, m, entries[m].r.spec) && Holds(cfg, leases, n, entries[n].r.spec)
    ensures m == n
  {
    hide EntryInv;
    HolderIdInjective(entries[m].r.spec, m, entries[n].r.spec, n);
  }

  /** Giving up the lease of a request that is not active marks nobody. */
  lemma NobodyLost(cfg: Config, entries: map<string, Entry>, leases: map<string, Lease>, n: string, why: Loss)
    requires EntriesInv(cfg, entries) && n in entries && !Active(entries[n].r.phase)
    requires Holds(cfg, leases, n, entries[n].r.spec)
    ensures var ln := LeaseName(cfg, entries[n].r.spec.uri);
            MarkLost(cfg, entries, ln, leases[ln], why) == entries
  {
    hide EntryInv;
    var ln := LeaseName(cfg, entries[n].r.spec.uri);
    forall m | m in entries ensures !ActiveHolder(cfg, ln, leases[ln], m, entries[m]) {
      if ActiveHolder(cfg, ln, leases[ln], m, entries[m]) { OneHolder(cfg, entries, leases, m, n); }
    }
  }

  lemma TakenBy(cfg: Config, leases: map<string, Lease>, n: string, spec: Spec, t: int, m: string, e: Entry)
    requires GoodName(m) && GoodName(n) && LeaseInv(cfg, leases - {LeaseName(cfg, spec.uri)}, m, e)
    requires m == n ==> e.r.spec == spec && e.r.phase == Pending && !Barred(spec)
    ensures LeaseInv(cfg, leases[LeaseName(cfg, spec.uri) := OwnLease(cfg, n, spec, t)], m, e)
  {
    var ln := LeaseName(cfg, spec.uri);
    var leases' := leases[ln := OwnLease(cfg, n, spec, t)];
    hide LeaseName;
    if Holds(cfg, leases', m, e.r.spec) && LeaseName(cfg, e.r.spec.uri) == ln {
      HolderIdInjective(e.r.spec, m, spec, n);
    }
    hide HolderId;
  }

  /** A free lease name can be taken by a request that is pending. */
  lemma TakenLease(cfg: Config, entries: map<string, Entry>, leases: map<string, Lease>, n: string, t: int)
    requires EntriesInv(cfg, entries) && n in entries
    requires entries[n].r.phase == Pending
    requires var ln := LeaseName(cfg, entries[n].r.spec.uri); LeasesInv(cfg, entries, leases - {ln})
    ensures var ln := LeaseName(cfg, entries[n].r.spec.uri);
            LeasesInv(cfg, entries, leases[ln := OwnLease(cfg, n, entries[n].r.spec, t)])
  {
    var spec := entries[n].r.spec;
    var ln := LeaseName(cfg, spec.uri);
    var free := leases - {ln};
    var leases' := leases[ln := OwnLease(cfg, n, spec, t)];
    assert !Barred(spec) by { assert EntryInv(cfg, entries[n]); }
    hide EntryInv, LeaseInv, Barred, Owned;
    forall m | m in entries ensures LeaseInv(cfg, leases', m, entries[m]) {
      TakenBy(cfg, leases, n, spec, t, m, entries[m]);
    }
    hide OwnLease, HolderId;
    OwnedTaken(cfg, entries, leases, n, t);
  }

  lemma OwnedTaken(cfg: Config, entries: map<string, Entry>, leases: map<string, Lease>, n: string, t: int)
    requires n in entries
    requires var free := leases - {LeaseName(cfg, entries[n].r.spec.uri)}; forall k :: k in free ==> Owned(cfg, entries, k, free[k])
    ensures var leases' := leases[LeaseName(cfg, entries[n].r.spec.uri) := OwnLease(cfg, n, entries[n].r.spec, t)];
            forall k :: k in leases' ==> Owned(cfg, entries, k, leases'[k])
  {
    var ln := LeaseName(cfg, entries[n].r.spec.uri);
    var free, leases' := leases - {ln}, leases[ln := OwnLease(cfg, n, entries[n].r.spec, t)];
    assert Owned(cfg, entries, ln, leases'[ln]) by { assert IsOwner(cfg, n, entries[n], ln, leases'[ln]); }
    hide Owned, LeaseName, OwnLease;
    assert forall k :: k in leases' && k != ln ==> k in free && leases'[k] == free[k];
  }

  lemma RenewedFor(cfg: Config, leases: map<string, Lease>, ln: string, t: int, n: string, m: string, e: Entry)
    requires ln in leases && LeaseInv(cfg, leases, m, e) && GoodName(m)
    requires m == n ==> e.approvedAt.Some? && t <= e.approvedAt.value + ApprovedTimeout(cfg)
    requires Holds(cfg, leases, m, e.r.spec) && LeaseName(cfg, e.r.spec.uri) == ln ==> m == n
    ensures LeaseInv(cfg, leases[ln := leases[ln].(renewed := t)], m, e)
  {
  }

  lemma OwnedRenewed(cfg: Config, entries: map<string, Entry>, leases: map<string, Lease>, ln: string, t: int)
    requires ln in leases && forall k :: k in leases ==> Owned(cfg, entries, k, leases[k])
    ensures var leases' := leases[ln := leases[ln].(renewed := t)];
            forall k :: k in leases' ==> Owned(cfg, entries, k, leases'[k])
  {
    var leases' := leases[ln := leases[ln].(renewed := t)];
    forall k | k in leases' ensures Owned(cfg, entries, k, leases'[k]) {
      var m :| m in entries && IsOwner(cfg, m, entries[m], k, leases[k]);
      assert IsOwner(cfg, m, entries[m], k, leases'[k]);
    }
  }

  /** A heartbeat inside the approval window. */
  lemma RenewedLease(cfg: Config, entries: map<string, Entry>, leases: map<string, Lease>, n: string, t: int)
    requires EntriesInv(cfg, entries) && LeasesInv(cfg, entries, leases) && n in entries
    requires Holds(cfg, leases, n, entries[n].r.spec)
    requires entries[n].approvedAt.Some? && t <= entries[n].approvedAt.value + ApprovedTimeout(cfg)
    ensures var ln := LeaseName(cfg, entries[n].r.spec.uri);
            LeasesInv(cfg, entries, leases[ln := leases[ln].(renewed := t)])
  {
    var ln := LeaseName(cfg, entries[n].r.spec.uri);
    var leases' := leases[ln := leases[ln].(renewed := t)];
    hide EntryInv, LeaseInv, Owned;
    forall m | m in entries ensures LeaseInv(cfg, leases', m, entries[m]) {
      if Holds(cfg, leases, m, entries[m].r.spec) && LeaseName(cfg, entries[m].r.spec.uri) == ln {
        OneHolder(cfg, entries, leases, m, n);
      }
      RenewedFor(cfg, leases, ln, t, n, m, entries[m]);
    }
    OwnedRenewed(cfg, entries, leases, ln, t);
  }
}
