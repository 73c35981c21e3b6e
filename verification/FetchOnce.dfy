/**
 * One fetch per key: what every run of Embed calls guarantees about a key that is not lost from the
 * cache, and exactly when a call fetches a key that it does not hold.
 */
module FetchOnce {
  import opened Wrappers
  import opened Text
  import opened FlightGroup
  import opened SingleFlight

  // ----- the invariant for one key

  /** Key k was fetched and its call has yet to store it. */
  ghost predicate BeingStored(s: State, k: string) {
    && k in s.owner && s.owner[k] in s.threads && s.threads[s.owner[k]].Storing?
    && var pc := s.threads[s.owner[k]]; pc.i <= |pc.missing| && k in pc.missing[pc.i..]
  }

  ghost predicate CountInv(s: State, k: string) {
    0 < Count(s.fetches, k) ==> Count(s.fetches, k) == 1 && (k in s.cache || BeingStored(s, k))
  }

  /** If k is an input of a call past its scan of k, it hits or the call locks it. */
  predicate Covered(k: string, hit: bool, pc: PC) {
    match pc
    case Scanning(inputs, i, missing) =>
      i <= |inputs| && (k in inputs ==> !Blank(k)) && (k in missing ==> k in inputs)
      && (k in inputs[..i] ==> hit || k in missing)
    case Taking(inputs, keys, _) => k in inputs ==> hit || k in keys
    case Waiting(inputs, keys, _, _) => k in inputs ==> hit || k in keys
    case Rechecking(inputs, keys, _, _) => k in inputs ==> hit || k in keys
    case _ => true
  }

  /** A call that is about to fetch k locked it, and k is neither cached nor fetched before. */
  predicate Fresh(k: string, unseen: bool, pc: PC) {
    match pc
    case Rechecking(_, keys, _, missing) => k in missing ==> k in keys && unseen
    case Fetching(keys, missing) => k in missing ==> k in keys && unseen
    case Storing(keys, missing, i) => i <= |missing| && (k in missing ==> k in keys)
    case _ => true
  }

  predicate Unseen(s: State, k: string) { k !in s.cache && Count(s.fetches, k) == 0 }

  predicate Knows(s: State, k: string, pc: PC) { Covered(k, k in s.cache, pc) && Fresh(k, Unseen(s, k), pc) }

  ghost predicate FetchInv(s: State, k: string) {
    CountInv(s, k) && forall t :: t in s.threads ==> Knows(s, k, s.threads[t])
  }

  /** What a call does to k, if it holds it at all, leaves the others with what they knew. */
  lemma KeepsOthers(s: State, t: Tid, pc: PC, n: State, k: string)
    requires OwnerInv(s) && FetchInv(s, k) && n.threads == s.threads[t := pc]
    requires k in s.cache ==> k in n.cache
    requires (Unseen(n, k) <==> Unseen(s, k)) || (t in s.threads && k in Owned(s.threads[t]))
    ensures forall u :: u in n.threads && u != t ==> Knows(n, k, n.threads[u])
  {
    forall u | u in n.threads && u != t ensures Knows(n, k, n.threads[u]) {
      assert Knows(s, k, s.threads[u]);
      if t in s.threads && k in Owned(s.threads[t]) {
        assert s.owner[k] == t;
        assert s.threads[u].Rechecking? || s.threads[u].Fetching? ==> Owned(s.threads[u]) == s.threads[u].keys;
      }
    }
  }

  /** The owner of k and its progress in storing are as before. */
  lemma StillStored(s: State, t: Tid, pc: PC, n: State, k: string)
    requires BeingStored(s, k) && n.threads == s.threads[t := pc] && s.owner[k] != t
    requires k in n.owner && n.owner[k] == s.owner[k]
    ensures BeingStored(n, k)
  {
  }

  /** A step of t that neither fetches nor stores, and takes no key from anybody. */
  lemma QuietKeepsFetch(s: State, t: Tid, pc: PC, n: State, k: string)
    requires OwnerInv(s) && FetchInv(s, k) && n.threads == s.threads[t := pc]
    requires n.fetches == s.fetches && n.cache == s.cache && Knows(n, k, pc)
    requires t in s.threads ==> !s.threads[t].Storing?
    requires k in s.owner ==> k in n.owner && n.owner[k] == s.owner[k]
    ensures FetchInv(n, k)
  {
    KeepsOthers(s, t, pc, n, k);
    if 0 < Count(n.fetches, k) && k !in n.cache { StillStored(s, t, pc, n, k); }
  }

  lemma ScanKnows(s: State, pc: PC, k: string)
    requires pc.Scanning? && Knows(s, k, pc)
    ensures Knows(s, k, AfterScan(s, pc))
  {
    if pc.i < |pc.inputs| {
      assert pc.inputs[..pc.i + 1] == pc.inputs[..pc.i] + [pc.inputs[pc.i]];
    } else {
      assert pc.inputs[..pc.i] == pc.inputs;
    }
  }

  /** A call that is about to list k holds it, so nobody is storing it and nobody fetched it. */
  lemma RecheckKnows(s: State, t: Tid, pc: PC, k: string)
    requires OwnerInv(s) && FetchInv(s, k) && t in s.threads && s.threads[t] == pc && pc.Rechecking?
    ensures Knows(s, k, AfterRecheck(s, pc))
  {
    assert Knows(s, k, pc);
    if pc.i < |pc.inputs| && pc.inputs[pc.i] == k && k !in s.cache {
      assert k in pc.inputs && k in Owned(pc) && s.owner[k] == t;
      assert !BeingStored(s, k);
    }
  }

  lemma TakeKnows(s: State, t: Tid, pc: PC, n: State, k: string)
    requires Knows(s, k, pc) && pc.Taking? && n == ApplyTake(s, t, pc)
    ensures t in n.threads && Knows(n, k, n.threads[t]) && n.threads == s.threads[t := n.threads[t]]
    ensures n.fetches == s.fetches && n.cache == s.cache
    ensures k in s.owner.Keys * s.flights.waiters.Keys ==> k in n.owner && n.owner[k] == s.owner[k]
  {
  }

  lemma TakeKeepsFetch(s: State, t: Tid, pc: PC, n: State, k: string)
    requires LockInv(s) && FetchInv(s, k) && t in s.threads && s.threads[t] == pc && pc.Taking?
    requires n == ApplyTake(s, t, pc)
    ensures FetchInv(n, k)
  {
    TakeKnows(s, t, pc, n, k);
    QuietKeepsFetch(s, t, n.threads[t], n, k);
  }

  lemma FetchKeepsFetch(s: State, t: Tid, n: State, k: string)
    requires OwnerInv(s) && FetchInv(s, k) && t in s.threads && s.threads[t].Fetching?
    requires var pc := s.threads[t];
             n == Go(s, t, Storing(pc.keys, pc.missing, 0)).(fetches := CountAll(s.fetches, pc.missing))
    ensures FetchInv(n, k)
  {
    var pc := s.threads[t];
    assert Knows(s, k, pc) && Owned(pc) == pc.keys;
    KeepsOthers(s, t, n.threads[t], n, k);
    if k in pc.missing {
      assert k in Owned(pc) && s.owner[k] == t;
      assert pc.missing[0..] == pc.missing;
      assert BeingStored(n, k);
    } else if 0 < Count(n.fetches, k) && k !in s.cache {
      StillStored(s, t, n.threads[t], n, k);
    }
  }

  lemma StoreKeepsFetch(s: State, t: Tid, n: State, k: string)
    requires OwnerInv(s) && FetchInv(s, k) && t in s.threads && s.threads[t].Storing?
    requires s.threads[t].i < |s.threads[t].missing|
    requires var pc := s.threads[t];
             n == Go(s, t, Storing(pc.keys, pc.missing, pc.i + 1)).(cache := s.cache + {pc.missing[pc.i]})
    ensures FetchInv(n, k)
  {
    var pc := s.threads[t];
    assert Knows(s, k, pc) && Owned(pc) == pc.keys;
    assert pc.missing[pc.i] in pc.missing;
    KeepsOthers(s, t, n.threads[t], n, k);
    assert pc.missing[pc.i..] == [pc.missing[pc.i]] + pc.missing[pc.i + 1..];
    if 0 < Count(n.fetches, k) && k !in n.cache && s.owner[k] != t {
      StillStored(s, t, n.threads[t], n, k);
    }
  }

  /** The call gives up the lock, with nothing left to store. */
  lemma LeaveKeepsFetch(s: State, t: Tid, pc: PC, n: State, k: string)
    requires OwnerInv(s) && FetchInv(s, k) && t in s.threads && (pc.Unlocking? || pc.Done?)
    requires n.threads == s.threads[t := pc] && n.fetches == s.fetches && n.cache == s.cache
    requires s.threads[t].Storing? ==> s.threads[t].i >= |s.threads[t].missing|
    requires k in s.owner && s.owner[k] != t ==> k in n.owner && n.owner[k] == s.owner[k]
    ensures FetchInv(n, k)
  {
    KeepsOthers(s, t, pc, n, k);
    assert Knows(s, k, s.threads[t]);
    if 0 < Count(n.fetches, k) && k !in n.cache { StillStored(s, t, pc, n, k); }
  }

  lemma UnlockKeepsFetch(s: State, t: Tid, keys: seq<string>, n: State, k: string)
    requires LockInv(s) && FetchInv(s, k) && t in s.threads && s.threads[t] == Unlocking(keys)
    requires n == ApplyUnlock(s, t, keys)
    ensures FetchInv(n, k)
  {
    assert Owned(s.threads[t]) == keys;
    assert k in keys ==> k in s.owner && s.owner[k] == t;
    LeaveKeepsFetch(s, t, Done, n, k);
  }

  /** Losing another key changes nothing for k. */
  lemma EvictKeepsFetch(s: State, q: string, k: string)
    requires FetchInv(s, k) && q != k
    ensures FetchInv(s.(cache := s.cache - {q}), k)
  {
    var n := s.(cache := s.cache - {q});
    assert BeingStored(s, k) <==> BeingStored(n, k);
    forall t | t in n.threads ensures Knows(n, k, n.threads[t]) { assert Knows(s, k, s.threads[t]); }
  }

  lemma OwnStepKeepsFetch(s: State, a: Action, k: string)
    requires LockInv(s) && FetchInv(s, k) && Enabled(s, a) && (a.Call? || a.Wake? || a.GiveUp? || a.Scan? || a.Recheck?)
    ensures FetchInv(Apply(s, a), k)
  {
    var n := Apply(s, a);
    if a.t in s.threads { assert Knows(s, k, s.threads[a.t]); }
    if a.Scan? { ScanKnows(s, s.threads[a.t], k); }
    if a.Recheck? { RecheckKnows(s, a.t, s.threads[a.t], k); }
    QuietKeepsFetch(s, a.t, n.threads[a.t], n, k);
  }

  lemma FetchStepKeepsFetch(s: State, a: Action, k: string)
    requires LockInv(s) && FetchInv(s, k) && Enabled(s, a) && (a.Fetch? || a.Store? || a.Unlock? || a.Take?)
    ensures FetchInv(Apply(s, a), k)
  {
    hide FetchInv, Owned;
    if a.Take? {
      TakeKeepsFetch(s, a.t, s.threads[a.t], Apply(s, a), k);
    } else if a.Fetch? {
      FetchKeepsFetch(s, a.t, Apply(s, a), k);
    } else if a.Unlock? {
      UnlockKeepsFetch(s, a.t, s.threads[a.t].keys, Apply(s, a), k);
    } else if s.threads[a.t].i < |s.threads[a.t].missing| {
      StoreKeepsFetch(s, a.t, Apply(s, a), k);
    } else {
      LeaveKeepsFetch(s, a.t, Unlocking(s.threads[a.t].keys), Apply(s, a), k);
    }
  }

  /** Every action but the loss of k keeps the invariant for k. */
  lemma StepKeepsFetch(s: State, a: Action, k: string)
    requires LockInv(s) && FetchInv(s, k) && Enabled(s, a) && a != Evict(k)
    ensures FetchInv(Apply(s, a), k)
  {
    if a.Evict? {
      EvictKeepsFetch(s, a.key, k);
    } else if a.Fetch? || a.Store? || a.Unlock? || a.Take? {
      FetchStepKeepsFetch(s, a, k);
    } else {
      OwnStepKeepsFetch(s, a, k);
    }
  }

  lemma {:induction false} RunKeepsFetch(s: State, acts: seq<Action>, k: string)
    requires LockInv(s) && FetchInv(s, k) && CanRun(s, acts) && Evict(k) !in acts
    ensures FetchInv(Exec(s, acts), k)
    decreases |acts|
  {
    if acts != [] {
      StepKeepsLock(s, acts[0]);
      StepKeepsFetch(s, acts[0], k);
      RunKeepsFetch(Apply(s, acts[0]), acts[1..], k);
    }
  }

  /**
   * In every run in which key k is not lost from the cache, whatever happens to other keys, k is
   * successfully fetched at most once and only by a call that holds it.
   */
  lemma FetchedOnce(cache: set<string>, acts: seq<Action>, k: string, t: Tid)
    requires CanRun(Start(cache), acts) && Evict(k) !in acts
    ensures var n := Exec(Start(cache), acts);
            && Count(n.fetches, k) <= 1
            && (t in n.threads && n.threads[t].Fetching? && k in n.threads[t].missing ==>
                  k in n.threads[t].keys && k in n.owner && n.owner[k] == t)
  {
    var n := Exec(Start(cache), acts);
    RunKeepsLock(Start(cache), acts);
    RunKeepsFetch(Start(cache), acts, k);
    if t in n.threads && n.threads[t].Fetching? {
      assert Knows(n, k, n.threads[t]) && Owned(n.threads[t]) == n.threads[t].keys;
    }
  }

  // ----- exactly when a call fetches a key that it does not hold

  lemma {:induction false} RunPrefix(s: State, acts: seq<Action>, i: nat)
    requires CanRun(s, acts) && i <= |acts|
    ensures CanRun(s, acts[..i])
    decreases i
  {
    if i > 0 {
      RunPrefix(Apply(s, acts[0]), acts[1..], i - 1);
      assert acts[..i][1..] == acts[1..][..i - 1];
    }
  }

  /** The state before action i of a run. */
  ghost function StateAt(s: State, acts: seq<Action>, i: nat): State
    requires CanRun(s, acts) && i <= |acts|
  {
    RunPrefix(s, acts, i);
    Exec(s, acts[..i])
  }

  lemma {:induction false} RunStep(s: State, acts: seq<Action>, i: nat)
    requires CanRun(s, acts) && i < |acts|
    ensures Enabled(StateAt(s, acts, i), acts[i])
    ensures StateAt(s, acts, i + 1) == Apply(StateAt(s, acts, i), acts[i])
    decreases i
  {
    Begins(s, acts);
    if i == 0 {
      Continues(s, acts, 0);
      Begins(Apply(s, acts[0]), acts[1..]);
    } else {
      Continues(s, acts, i - 1);
      Continues(s, acts, i);
      RunStep(Apply(s, acts[0]), acts[1..], i - 1);
    }
  }

  lemma Begins(s: State, acts: seq<Action>)
    requires CanRun(s, acts)
    ensures StateAt(s, acts, 0) == s
  {
    assert acts[..0] == [];
  }

  /** A later state of a run is one of the run without its first action. */
  lemma Continues(s: State, acts: seq<Action>, i: nat)
    requires CanRun(s, acts) && i < |acts|
    ensures StateAt(s, acts, i + 1) == StateAt(Apply(s, acts[0]), acts[1..], i)
  {
    RunPrefix(s, acts, i + 1);
    assert acts[..i + 1][1..] == acts[1..][..i];
  }

  /** The call looks k up in its first pass. */
  predicate Scans(s: State, a: Action, t: Tid, k: string) {
    a == Scan(t) && t in s.threads && s.threads[t].Scanning?
    && var pc := s.threads[t]; pc.i < |pc.inputs| && pc.inputs[pc.i] == k
  }

  /** The call looks k up in its second pass and misses it. */
  predicate Loses(s: State, a: Action, t: Tid, k: string) {
    a == Recheck(t) && t in s.threads && s.threads[t].Rechecking? && k !in s.cache
    && var pc := s.threads[t]; pc.i < |pc.inputs| && pc.inputs[pc.i] == k
  }

  ghost predicate HitsAt(s: State, acts: seq<Action>, t: Tid, k: string, i: int)
    requires CanRun(s, acts)
  {
    0 <= i < |acts| && Scans(StateAt(s, acts, i), acts[i], t, k) && k in StateAt(s, acts, i).cache
  }

  ghost predicate MissesAt(s: State, acts: seq<Action>, t: Tid, k: string, i: int)
    requires CanRun(s, acts)
  {
    0 <= i < |acts| && Scans(StateAt(s, acts, i), acts[i], t, k) && k !in StateAt(s, acts, i).cache
  }

  ghost predicate LosesAt(s: State, acts: seq<Action>, t: Tid, k: string, i: int)
    requires CanRun(s, acts)
  {
    0 <= i < |acts| && Loses(StateAt(s, acts, i), acts[i], t, k)
  }

  predicate Left(pc: PC) { pc.Unlocking? || pc.Done? }

  /** The first pass listed k. */
  predicate Listed(pc: PC, k: string) { if pc.Scanning? then k in pc.missing else !pc.Done? && k in pc.keys }

  /** The second pass listed k. */
  predicate Relisted(pc: PC, k: string) { (pc.Rechecking? || pc.Fetching? || pc.Storing?) && k in pc.missing }

  /** The first pass came by k, as far as the call still knows its inputs. */
  predicate Looked(pc: PC, k: string) {
    match pc
    case Scanning(inputs, i, _) => k in if i <= |inputs| then inputs[..i] else inputs
    case Taking(inputs, _, _) => k in inputs
    case Waiting(inputs, _, _, _) => k in inputs
    case Rechecking(inputs, _, _, missing) => k in inputs || k in missing
    case _ => Relisted(pc, k)
  }

  /** What one action may change in what call t lists. */
  ghost predicate ListsStep(s: State, a: Action, t: Tid, k: string, n: State)
    requires t in n.threads
  {
    var pc := n.threads[t];
    if t !in s.threads then !Listed(pc, k) && !Relisted(pc, k) && !Looked(pc, k)
    else
      && !Left(s.threads[t])
      && (Listed(pc, k) <==> Listed(s.threads[t], k) || (Scans(s, a, t, k) && k !in s.cache))
      && (Relisted(pc, k) <==> Relisted(s.threads[t], k) || Loses(s, a, t, k))
      && (Looked(pc, k) ==> Looked(s.threads[t], k) || Scans(s, a, t, k))
  }

  lemma LookupLists(s: State, a: Action, t: Tid, k: string)
    requires Enabled(s, a) && (a == Scan(t) || a == Recheck(t)) && !Blank(k) && !Left(Apply(s, a).threads[t])
    ensures ListsStep(s, a, t, k, Apply(s, a))
  {
    hide TakeRegion, UnlockRegion, CountAll;
    var pc := s.threads[t];
    if pc.i < |pc.inputs| { assert pc.inputs[..pc.i + 1] == pc.inputs[..pc.i] + [pc.inputs[pc.i]]; }
  }

  lemma BeginLists(s: State, a: Action, t: Tid, k: string)
    requires Enabled(s, a) && t in Apply(s, a).threads && t !in s.threads
    ensures ListsStep(s, a, t, k, Apply(s, a))
  {
    hide TakeRegion, UnlockRegion, CountAll, Look, SortedUnique;
  }

  /** The actions of t beside its lookups, and those of others, list nothing. */
  lemma QuietLists(s: State, a: Action, t: Tid, k: string)
    requires Enabled(s, a) && t in s.threads && a != Scan(t) && a != Recheck(t)
    requires t in Apply(s, a).threads && !Left(Apply(s, a).threads[t])
    ensures ListsStep(s, a, t, k, Apply(s, a))
  {
    hide TakeRegion, UnlockRegion, CountAll, Look, SortedUnique;
    if a.Evict? || a.t != t {
      assert Apply(s, a).threads[t] == s.threads[t];
    }
  }

  /** One action changes what call t lists exactly as its lookup says. */
  lemma StepLists(s: State, a: Action, t: Tid, k: string)
    requires Enabled(s, a) && !Blank(k) && t in Apply(s, a).threads && !Left(Apply(s, a).threads[t])
    ensures ListsStep(s, a, t, k, Apply(s, a))
  {
    hide Apply, ListsStep, Left;
    if t !in s.threads {
      BeginLists(s, a, t, k);
    } else if a == Scan(t) || a == Recheck(t) {
      LookupLists(s, a, t, k);
    } else {
      QuietLists(s, a, t, k);
    }
  }

  lemma {:induction false} ThreadsStay(s: State, acts: seq<Action>, t: Tid, i: nat, n: nat)
    requires CanRun(s, acts) && i <= n <= |acts| && t in StateAt(s, acts, i).threads
    ensures t in StateAt(s, acts, n).threads
  {
    if i < n {
      ThreadsStay(s, acts, t, i, n - 1);
      RunStep(s, acts, n - 1);
    }
  }

  /** A call that has not begun looked nothing up. */
  lemma NothingBefore(s: State, acts: seq<Action>, t: Tid, k: string, n: nat)
    requires CanRun(s, acts) && n <= |acts| && t !in StateAt(s, acts, n).threads
    ensures forall i :: i < n ==> !HitsAt(s, acts, t, k, i) && !MissesAt(s, acts, t, k, i) && !LosesAt(s, acts, t, k, i)
  {
    forall i | 0 <= i < n && t in StateAt(s, acts, i).threads ensures false { ThreadsStay(s, acts, t, i, n); }
  }

  /** What call t lists after n actions is what its lookups so far missed. */
  lemma {:induction false} ListsWhatMissed(s: State, acts: seq<Action>, t: Tid, k: string, n: nat)
    requires CanRun(s, acts) && n <= |acts| && s.threads == map[] && !Blank(k)
    requires t in StateAt(s, acts, n).threads && !Left(StateAt(s, acts, n).threads[t])
    ensures var pc := StateAt(s, acts, n).threads[t];
            && (Listed(pc, k) <==> exists i :: i < n && MissesAt(s, acts, t, k, i))
            && (Relisted(pc, k) <==> exists i :: i < n && LosesAt(s, acts, t, k, i))
            && (Looked(pc, k) ==> exists i :: i < n && (HitsAt(s, acts, t, k, i) || MissesAt(s, acts, t, k, i)))
  {
    Begins(s, acts);
    if n > 0 {
      var m := n - 1;
      RunStep(s, acts, m);
      var was := StateAt(s, acts, m);
      StepLists(was, acts[m], t, k);
      if t in was.threads {
        ListsWhatMissed(s, acts, t, k, m);
      } else {
        NothingBefore(s, acts, t, k, m);
      }
      hide Listed, Relisted, Looked, Left, Scans, Loses, StateAt;
      assert MissesAt(s, acts, t, k, m) <==> Scans(was, acts[m], t, k) && k !in was.cache;
      assert HitsAt(s, acts, t, k, m) <==> Scans(was, acts[m], t, k) && k in was.cache;
      assert LosesAt(s, acts, t, k, m) <==> Loses(was, acts[m], t, k);
    }
  }

  /** One lookup of the second pass lists k without a lock exactly when the call neither holds nor hits it. */
  lemma RecheckListsUnlocked(s: State, pc: PC, k: string)
    requires pc.Rechecking? && pc.i < |pc.inputs| && pc.inputs[pc.i] == k && k !in pc.missing
    ensures var n := AfterRecheck(s, pc); k in n.missing && k !in n.keys <==> k !in pc.keys && k !in s.cache
  {
  }

  lemma StateAtEnd(s: State, acts: seq<Action>)
    requires CanRun(s, acts)
    ensures StateAt(s, acts, |acts|) == Exec(s, acts)
  {
    assert acts[..|acts|] == acts;
  }

  /** A key that the second pass misses was looked up by the first pass before. */
  lemma LookedBefore(s: State, acts: seq<Action>, t: Tid, k: string, j: int) returns (i: int)
    requires CanRun(s, acts) && s.threads == map[] && !Blank(k) && LosesAt(s, acts, t, k, j)
    ensures i < j && (HitsAt(s, acts, t, k, i) || MissesAt(s, acts, t, k, i))
  {
    ListsWhatMissed(s, acts, t, k, j);
    hide HitsAt, MissesAt, StateAt;
    i :| i < j && (HitsAt(s, acts, t, k, i) || MissesAt(s, acts, t, k, i));
  }

  /** What a call that is about to fetch has listed, in terms of its lookups. */
  lemma FetchLists(s: State, acts: seq<Action>, t: Tid, k: string, pc: PC)
    requires CanRun(s, acts) && s.threads == map[] && !Blank(k)
    requires t in Exec(s, acts).threads && Exec(s, acts).threads[t] == pc && pc.Fetching?
    ensures k in pc.keys <==> exists i :: MissesAt(s, acts, t, k, i)
    ensures k in pc.missing <==> exists j :: LosesAt(s, acts, t, k, j)
  {
    StateAtEnd(s, acts);
    ListsWhatMissed(s, acts, t, k, |acts|);
    assert forall i :: MissesAt(s, acts, t, k, i) || LosesAt(s, acts, t, k, i) ==> i < |acts|;
  }

  /**
   * A call fetches k without holding it exactly when every scan of its first pass that came by k hit
   * and, later, its second pass found k lost.
   */
  lemma FetchesUnlockedIffLost(cache: set<string>, acts: seq<Action>, t: Tid, k: string)
    requires CanRun(Start(cache), acts) && !Blank(k)
    requires var n := Exec(Start(cache), acts); t in n.threads && n.threads[t].Fetching?
    ensures var s := Start(cache);
            var pc := Exec(s, acts).threads[t];
            k in pc.missing && k !in pc.keys <==>
              (forall i :: !MissesAt(s, acts, t, k, i))
              && exists i, j :: i < j && HitsAt(s, acts, t, k, i) && LosesAt(s, acts, t, k, j)
  {
    var s := Start(cache);
    FetchLists(s, acts, t, k, Exec(s, acts).threads[t]);
    hide HitsAt, MissesAt, LosesAt, Exec, CanRun;
    if j :| LosesAt(s, acts, t, k, j) {
      var i := LookedBefore(s, acts, t, k, j);
    }
  }

  /** Between a hit and a later loss of k, k is lost from the cache. */
  lemma {:induction false} LostBetween(s: State, acts: seq<Action>, k: string, i: nat, j: nat) returns (e: nat)
    requires CanRun(s, acts) && i <= j <= |acts|
    requires k in StateAt(s, acts, i).cache && k !in StateAt(s, acts, j).cache
    ensures i <= e < j && acts[e] == Evict(k)
  {
    e := j - 1;
    RunStep(s, acts, e);
    if k !in StateAt(s, acts, e).cache { e := LostBetween(s, acts, k, i, e); }
  }

  // ----- a key fetched twice at once

  lemma {:induction false} Extend(s: State, acts: seq<Action>, at: State, a: Action, next: State)
    requires CanRun(s, acts) && Exec(s, acts) == at && Enabled(at, a) && Apply(at, a) == next
    ensures CanRun(s, acts + [a]) && Exec(s, acts + [a]) == next
    decreases |acts|
  {
    if acts != [] {
      assert (acts + [a])[1..] == acts[1..] + [a];
      Extend(Apply(s, acts[0]), acts[1..], at, a, next);
    } else {
      assert (acts + [a])[1..] == [];
    }
  }

  lemma OneKey(k: string)
    requires !Blank(k)
    ensures SortedUnique([k]) == [k]
  {
    assert [k][1..] == [];
  }

  /** A state with the one call 1. */
  function Alone(waiters: map<string, nat>, made: nat, cache: set<string>, pc: PC, owner: map<string, Tid>): State {
    State(Flights(waiters, made, {}), cache, map[1 := pc], owner, map[])
  }

  /** Call 1 hits a, misses b and locks b. */
  lemma FirstPass(a: string, b: string) returns (acts: seq<Action>)
    requires a != b && !Blank(a) && !Blank(b)
    ensures |acts| == 6 && forall i :: 0 <= i < |acts| ==> !acts[i].Evict?
    ensures CanRun(Start({a}), acts)
    ensures Exec(Start({a}), acts) == Alone(map[b := 0], 1, {a}, Rechecking([a, b], [b], 0, []), map[b := 1])
  {
    OneKey(b);
    var s0 := Start({a});
    var s1 := Alone(map[], 0, {a}, Scanning([a, b], 0, []), map[]);
    var s2 := Alone(map[], 0, {a}, Scanning([a, b], 1, []), map[]);
    var s3 := Alone(map[], 0, {a}, Scanning([a, b], 2, [b]), map[]);
    var s4 := Alone(map[], 0, {a}, Taking([a, b], [b], 0), map[]);
    var s5 := Alone(map[b := 0], 1, {a}, Taking([a, b], [b], 1), map[b := 1]);
    var s6 := Alone(map[b := 0], 1, {a}, Rechecking([a, b], [b], 0, []), map[b := 1]);
    Extend(s0, [], s0, Call(1, [a, b]), s1);
    acts := [Call(1, [a, b])];
    Extend(s0, acts, s1, Scan(1), s2);
    acts := acts + [Scan(1)];
    assert Look({a}, b, []) == [b];
    Extend(s0, acts, s2, Scan(1), s3);
    acts := acts + [Scan(1)];
    Extend(s0, acts, s3, Scan(1), s4);
    acts := acts + [Scan(1)];
    Extend(s0, acts, s4, Take(1), s5);
    acts := acts + [Take(1)];
    Extend(s0, acts, s5, Take(1), s6);
    acts := acts + [Take(1)];
  }

  /** The seventh action of a run is the loss of a, and nothing else is lost. */
  predicate OnlyLoss(acts: seq<Action>, a: string) {
    |acts| > 6 && acts[6] == Evict(a) && forall i :: 0 <= i < |acts| && acts[i].Evict? ==> i == 6
  }

  /** After that the entry of a is lost, and the second pass of call 1 misses both. */
  lemma SecondPass(a: string, b: string, first: seq<Action>)
    requires a != b && !Blank(a) && !Blank(b) && CanRun(Start({a}), first)
    requires Exec(Start({a}), first) == Alone(map[b := 0], 1, {a}, Rechecking([a, b], [b], 0, []), map[b := 1])
    ensures var acts := first + [Evict(a)] + [Recheck(1)] + [Recheck(1)] + [Recheck(1)];
            CanRun(Start({a}), acts)
            && Exec(Start({a}), acts) == Alone(map[b := 0], 1, {}, Fetching([b], [a, b]), map[b := 1])
  {
    hide TakeRegion, UnlockRegion, CountAll, SortedUnique;
    var s0 := Start({a});
    var s6 := Alone(map[b := 0], 1, {a}, Rechecking([a, b], [b], 0, []), map[b := 1]);
    var s7 := Alone(map[b := 0], 1, {}, Rechecking([a, b], [b], 0, []), map[b := 1]);
    var s8 := Alone(map[b := 0], 1, {}, Rechecking([a, b], [b], 1, [a]), map[b := 1]);
    var s9 := Alone(map[b := 0], 1, {}, Rechecking([a, b], [b], 2, [a, b]), map[b := 1]);
    var s10 := Alone(map[b := 0], 1, {}, Fetching([b], [a, b]), map[b := 1]);
    Extend(s0, first, s6, Evict(a), s7);
    assert Look({}, a, []) == [a] && Look({}, b, [a]) == [a, b];
    Extend(s0, first + [Evict(a)], s7, Recheck(1), s8);
    Extend(s0, first + [Evict(a)] + [Recheck(1)], s8, Recheck(1), s9);
    Extend(s0, first + [Evict(a)] + [Recheck(1)] + [Recheck(1)], s9, Recheck(1), s10);
  }

  /** The entry of a is lost between the two passes of call 1, which then fetches a without holding it. */
  lemma LostHitIsFetchedUnlocked(a: string, b: string) returns (acts: seq<Action>)
    requires a != b && !Blank(a) && !Blank(b)
    ensures CanRun(Start({a}), acts) && OnlyLoss(acts, a)
    ensures var s := Exec(Start({a}), acts);
            && s.threads == map[1 := Fetching([b], [a, b])]
            && a !in s.flights.waiters && s.cache == {} && s.fetches == map[]
  {
    hide Exec, CanRun;
    var first := FirstPass(a, b);
    SecondPass(a, b, first);
    acts := first + [Evict(a)] + [Recheck(1)] + [Recheck(1)] + [Recheck(1)];
  }

  /** The states of a new call t on a key k that is neither cached nor held, up to its fetch. */
  function Next(s: State, t: Tid, k: string, step: nat): State {
    if step == 0 then s
    else if step == 1 then Go(s, t, Scanning([k], 0, []))
    else if step == 2 then Go(s, t, Scanning([k], 1, [k]))
    else if step == 3 then Go(s, t, Taking([k], [k], 0))
    else
      var held := s.(flights := TakeRegion(s.flights, k).0, owner := s.owner[k := t]);
      if step == 4 then Go(held, t, Taking([k], [k], 1))
      else if step == 5 then Go(held, t, Rechecking([k], [k], 0, []))
      else if step == 6 then Go(held, t, Rechecking([k], [k], 1, [k]))
      else if step == 7 then Go(held, t, Fetching([k], [k]))
      else Go(held, t, Storing([k], [k], 0)).(fetches := CountAll(s.fetches, [k]))
  }

  function NextAction(t: Tid, k: string, step: nat): Action {
    if step == 0 then Call(t, [k])
    else if step <= 2 then Scan(t)
    else if step <= 4 then Take(t)
    else if step <= 6 then Recheck(t)
    else Fetch(t)
  }

  lemma NextScans(s: State, t: Tid, k: string, step: nat)
    requires step < 3 && t !in s.threads && k !in s.cache && !Blank(k)
    ensures var n := Next(s, t, k, step);
            Enabled(n, NextAction(t, k, step)) && Apply(n, NextAction(t, k, step)) == Next(s, t, k, step + 1)
  {
    hide TakeRegion, UnlockRegion, CountAll;
    OneKey(k);
    assert Look(s.cache, k, []) == [k];
  }

  lemma NextTakes(s: State, t: Tid, k: string, step: nat)
    requires 3 <= step < 5 && t !in s.threads && k !in s.flights.waiters
    ensures var n := Next(s, t, k, step);
            Enabled(n, NextAction(t, k, step)) && Apply(n, NextAction(t, k, step)) == Next(s, t, k, step + 1)
  {
    hide UnlockRegion, CountAll, SortedUnique;
    assert s.threads[t := Taking([k], [k], 0)][t := Taking([k], [k], 1)] == s.threads[t := Taking([k], [k], 1)];
  }

  lemma NextFetches(s: State, t: Tid, k: string, step: nat)
    requires 5 <= step < 8 && t !in s.threads && k !in s.cache
    ensures var n := Next(s, t, k, step);
            Enabled(n, NextAction(t, k, step)) && Apply(n, NextAction(t, k, step)) == Next(s, t, k, step + 1)
  {
    hide TakeRegion, UnlockRegion, CountAll, SortedUnique;
    assert Look(s.cache, k, []) == [k];
  }

  lemma NextIsNext(s: State, t: Tid, k: string, step: nat)
    requires step < 8 && t !in s.threads && k !in s.cache && k !in s.flights.waiters && !Blank(k)
    ensures var n := Next(s, t, k, step);
            Enabled(n, NextAction(t, k, step)) && Apply(n, NextAction(t, k, step)) == Next(s, t, k, step + 1)
  {
    hide Next, NextAction, Apply, Enabled;
    if step < 3 {
      NextScans(s, t, k, step);
    } else if step < 5 {
      NextTakes(s, t, k, step);
    } else {
      NextFetches(s, t, k, step);
    }
  }

  function NextActions(t: Tid, k: string, step: nat): (acts: seq<Action>)
    ensures forall i :: 0 <= i < |acts| ==> !acts[i].Evict?
  {
    if step == 0 then [] else NextActions(t, k, step - 1) + [NextAction(t, k, step - 1)]
  }

  /** A key that is neither cached nor held is fetched by any new call at once. */
  lemma {:induction false} FetchAlone(s0: State, acts: seq<Action>, s: State, t: Tid, k: string, step: nat)
    requires CanRun(s0, acts) && Exec(s0, acts) == s && step <= 8
    requires t !in s.threads && k !in s.cache && k !in s.flights.waiters && !Blank(k)
    ensures CanRun(s0, acts + NextActions(t, k, step))
    ensures Exec(s0, acts + NextActions(t, k, step)) == Next(s, t, k, step)
  {
    if step == 0 {
      assert acts + [] == acts;
    } else {
      FetchAlone(s0, acts, s, t, k, step - 1);
      NextIsNext(s, t, k, step - 1);
      Extend(s0, acts + NextActions(t, k, step - 1), Next(s, t, k, step - 1), NextAction(t, k, step - 1),
             Next(s, t, k, step));
      assert acts + NextActions(t, k, step - 1) + [NextAction(t, k, step - 1)] == acts + NextActions(t, k, step);
    }
  }

  /** Call 1 then fetches a. */
  lemma FetchedUnlocked(a: string, b: string) returns (acts: seq<Action>)
    requires a != b && !Blank(a) && !Blank(b)
    ensures CanRun(Start({a}), acts) && OnlyLoss(acts, a)
    ensures var s := Exec(Start({a}), acts);
            && s.threads == map[1 := Storing([b], [a, b], 0)]
            && a !in s.flights.waiters && s.cache == {} && Count(s.fetches, a) == 1
  {
    hide Exec, CanRun, TakeRegion, UnlockRegion, SortedUnique;
    var first := LostHitIsFetchedUnlocked(a, b);
    var s := Exec(Start({a}), first);
    var next := Go(s, 1, Storing([b], [a, b], 0)).(fetches := CountAll(s.fetches, [a, b]));
    Extend(Start({a}), first, s, Fetch(1), next);
    acts := first + [Fetch(1)];
  }

  lemma FetchCounts(s: State, t: Tid, k: string)
    ensures var n := Next(s, t, k, 8);
            n.threads == s.threads[t := Storing([k], [k], 0)] && Count(n.fetches, k) == Count(s.fetches, k) + 1
  {
    hide TakeRegion;
  }

  /**
   * One loss of an entry is enough for two successful fetches of its key at the same time: both calls
   * have fetched a and neither has stored it yet.
   */
  lemma FetchedTwiceAtOnce(a: string, b: string) returns (acts: seq<Action>)
    requires a != b && !Blank(a) && !Blank(b)
    ensures CanRun(Start({a}), acts) && OnlyLoss(acts, a)
    ensures var n := Exec(Start({a}), acts);
            && Count(n.fetches, a) == 2
            && n.threads == map[1 := Storing([b], [a, b], 0), 2 := Storing([a], [a], 0)]
  {
    hide Exec, CanRun, Next, NextActions, Count;
    var first := FetchedUnlocked(a, b);
    var s := Exec(Start({a}), first);
    FetchAlone(Start({a}), first, s, 2, a, 8);
    FetchCounts(s, 2, a);
    acts := first + NextActions(2, a, 8);
  }
}
