/**
 Claims that runs lose. A pass that ends between the deletion of a claim and its creation may leave the
 claim gone; the passes after it do not look for it. These lemmas say when that happens, and when not.
 */
module Losses {
  import opened Api
  import opened Claims
  import opened Kube
  import opened Passes
  import opened PassLaws
  import opened Restore
  import opened Runs
  import Validate

  /** Between the passes nobody but the cluster touches claims: they get bound, and deletions come to their end. */
  ghost predicate ClaimsLeftAlone(ps: seq<Pass>) {
    forall i, j :: 0 <= i < j < |ps| && j == i + 1 ==> ClaimsMayBecome(ps[i].end.claims, ps[j].start.claims)
  }

  function LogOf(p: Pass): seq<Event>
  {
    if p.start.events <= p.end.events then p.end.events[|p.start.events|..] else []
  }

  // ---------------------------------------------------------------- the last effect

  /** The event deleted the claim, or created it, with effect, and none after it did the opposite. */
  predicate DeletionStands(tail: seq<Event>, k: Key, i: nat) {
    i < |tail| && IsDeletion(tail[i], k) && forall j :: i < j < |tail| ==> !IsCreation(tail[j], k)
  }

  predicate CreationStands(tail: seq<Event>, k: Key, i: nat) {
    i < |tail| && IsCreation(tail[i], k) && forall j :: i < j < |tail| ==> !IsDeletion(tail[j], k)
  }

  /** The last effect on the claim that the log shows is that it was deleted, or that it was created. */
  ghost predicate DeletedLast(tail: seq<Event>, k: Key) { exists i :: DeletionStands(tail, k, i) }

  ghost predicate CreatedLast(tail: seq<Event>, k: Key) { exists i :: CreationStands(tail, k, i) }

  lemma {:induction false} LastEffectDecides(tail: seq<Event>, k: Key, live: bool)
    ensures LiveAfter(tail, k, live) <==> CreatedLast(tail, k) || (live && !DeletedLast(tail, k))
    ensures !(CreatedLast(tail, k) && DeletedLast(tail, k))
    decreases |tail|
  {
    if tail != [] {
      var init, last := tail[..|tail| - 1], tail[|tail| - 1];
      LastEffectDecides(init, k, live);
      assert tail == init + [last];
      OneMoreDeletion(init, last, k);
      OneMoreCreation(init, last, k);
    }
  }

  lemma OneMoreDeletion(tail: seq<Event>, e: Event, k: Key)
    ensures DeletedLast(tail + [e], k) <==> IsDeletion(e, k) || (DeletedLast(tail, k) && !IsCreation(e, k))
  {
    if IsDeletion(e, k) { assert DeletionStands(tail + [e], k, |tail|); }
    forall i: nat | i < |tail|
      ensures DeletionStands(tail + [e], k, i) <==> DeletionStands(tail, k, i) && !IsCreation(e, k)
    {
      DeletionStandsStill(tail, e, k, i);
    }
  }

  lemma DeletionStandsStill(tail: seq<Event>, e: Event, k: Key, i: nat)
    requires i < |tail|
    ensures DeletionStands(tail + [e], k, i) <==> DeletionStands(tail, k, i) && !IsCreation(e, k)
  {
    var more := tail + [e];
    assert more[|tail|] == e && forall j :: 0 <= j < |tail| ==> more[j] == tail[j];
  }

  lemma OneMoreCreation(tail: seq<Event>, e: Event, k: Key)
    ensures CreatedLast(tail + [e], k) <==> IsCreation(e, k) || (CreatedLast(tail, k) && !IsDeletion(e, k))
  {
    if IsCreation(e, k) { assert CreationStands(tail + [e], k, |tail|); }
    forall i: nat | i < |tail|
      ensures CreationStands(tail + [e], k, i) <==> CreationStands(tail, k, i) && !IsDeletion(e, k)
    {
      CreationStandsStill(tail, e, k, i);
    }
  }

  lemma CreationStandsStill(tail: seq<Event>, e: Event, k: Key, i: nat)
    requires i < |tail|
    ensures CreationStands(tail + [e], k, i) <==> CreationStands(tail, k, i) && !IsDeletion(e, k)
  {
    var more := tail + [e];
    assert more[|tail|] == e && forall j :: 0 <= j < |tail| ==> more[j] == tail[j];
  }

  // ---------------------------------------------------------------- one pass

  /** The pass ended within the restore, and the last effect it had on the claim was to delete it. */
  ghost predicate Interrupted(p: Pass, k: Key) { p.reached == 3 && DeletedLast(LogOf(p), k) }

  /** The claim was not there at the start of the pass, or marked for deletion, and is there at its end. */
  predicate Revives(p: Pass, k: Key) { !LiveIn(p.start.claims, k) && LiveIn(p.end.claims, k) }

  predicate OfNoClaim(tail: seq<Event>) { forall i :: 0 <= i < |tail| ==> !OnClaims(tail[i]) }

  lemma NoEffectOnClaims(tail: seq<Event>, k: Key, live: bool)
    requires OfNoClaim(tail)
    ensures LiveAfter(tail, k, live) == live
  {
    LiveAfterOthers(tail, k, live);
  }

  /** The log of a pass before, during and after its restore. */
  ghost predicate LogSplits(p: Pass, head: seq<Event>, more: seq<Event>) {
    && p.down.events <= p.restored.events && LogOf(p) == head + p.restored.events[|p.down.events|..] + more
    && OfNoClaim(head) && OfNoClaim(more)
  }

  /** Outside the restore no event is on a claim. */
  predicate OthersAreOfNoClaim(p: Pass) {
    forall i :: |p.start.events| <= i < |p.end.events| && (i < |p.down.events| || |p.restored.events| <= i) ==>
      !OnClaims(p.end.events[i])
  }

  lemma OnlyRestoreIsOfClaims(p: Pass)
    requires IsPass(p)
    ensures OthersAreOfNoClaim(p)
  {
    forall i | |p.start.events| <= i < |p.end.events| && OnClaims(p.end.events[i])
      ensures |p.down.events| <= i < |p.restored.events|
    {
      ClaimEventsAreOfTheRestore(p, i);
    }
  }

  lemma LogPrefixesOfRestore(p: Pass)
    requires IsPass(p)
    ensures p.start.events <= p.down.events <= p.restored.events <= p.end.events
  {
    LogGrows(p);
  }

  lemma RestoreWithinLog(p: Pass) returns (head: seq<Event>, more: seq<Event>)
    requires IsPass(p)
    ensures LogSplits(p, head, more)
  {
    LogPrefixesOfRestore(p);
    OnlyRestoreIsOfClaims(p);
    head, more := Split(p);
  }

  lemma Split(p: Pass) returns (head: seq<Event>, more: seq<Event>)
    requires p.start.events <= p.down.events <= p.restored.events <= p.end.events && OthersAreOfNoClaim(p)
    ensures LogSplits(p, head, more)
  {
    head, more := LogParts(p.start.events, p.down.events, p.restored.events, p.end.events);
  }

  lemma LogParts(e0: seq<Event>, e1: seq<Event>, e2: seq<Event>, e3: seq<Event>)
    returns (head: seq<Event>, more: seq<Event>)
    requires e0 <= e1 <= e2 <= e3
    ensures e0 <= e3 && e3[|e0|..] == head + e2[|e1|..] + more
    ensures |e0| + |head| == |e1| && forall i :: 0 <= i < |head| ==> head[i] == e3[|e0| + i]
    ensures |e2| + |more| == |e3| && forall i :: 0 <= i < |more| ==> more[i] == e3[|e2| + i]
  {
    head, more := e3[|e0|..|e1|], e3[|e2|..];
    assert e3[|e1|..|e2|] == e2[|e1|..];
  }

  /** Whether a claim is there after a pass can be told from the log alone, however the pass ended. */
  lemma LiveAsLogged(p: Pass, k: Key)
    requires IsPass(p)
    ensures LiveIn(p.end.claims, k) == LiveAfter(LogOf(p), k, LiveIn(p.start.claims, k))
  {
    ClaimsChangeInTheRestore(p);
    RestoreIsAsLogged(p, k);
    var head, more := RestoreWithinLog(p);
    var live, tail := LiveIn(p.start.claims, k), p.restored.events[|p.down.events|..];
    NoEffectOnClaims(head, k, live);
    LiveAfterBoth(head, tail, k, live);
    LiveAfterBoth(head + tail, more, k, live);
    NoEffectOnClaims(more, k, LiveAfter(tail, k, live));
  }

  lemma RestoreIsAsLogged(p: Pass, k: Key)
    requires IsPass(p)
    ensures p.down.events <= p.restored.events
    ensures LiveIn(p.restored.claims, k) == LiveAfter(p.restored.events[|p.down.events|..], k, LiveIn(p.down.claims, k))
  {
    LogGrows(p);
  }

  /** What the restore accounts for. */
  lemma RestoreAccounts(p: Pass, k: Key)
    requires IsPass(p) && p.reached >= 3
    ensures LiveIn(p.down.claims, k) && !LiveIn(p.restored.claims, k) ==> p.reached == 3 && p.but == Some(k)
    ensures !LiveIn(p.down.claims, k) && LiveIn(p.restored.claims, k) ==> k in p.down.claims
  {
    RestoreIsAccounted(p.env.spec, p.down, p.restored, p.but, p.reached >= 4, k);
  }

  lemma RestoreIsAccounted(spec: Spec, a: Moment, b: Moment, but: Option<Key>, ok: bool, k: Key)
    requires Restores(spec, a, b, but, ok)
    ensures LiveIn(a.claims, k) && !LiveIn(b.claims, k) ==> !ok && but == Some(k)
    ensures !LiveIn(a.claims, k) && LiveIn(b.claims, k) ==> k in a.claims
  {
  }

  /** A pass loses a claim only by ending between its deletion and its creation; it is the one claim under way. */
  lemma LossIsInterruption(p: Pass, k: Key)
    requires IsPass(p) && LiveIn(p.start.claims, k) && !LiveIn(p.end.claims, k)
    ensures Interrupted(p, k) && p.but == Some(k)
  {
    ClaimsChangeInTheRestore(p);
    RestoreAccounts(p, k);
    LiveAsLogged(p, k);
    LastEffectDecides(LogOf(p), k, true);
  }

  /** A pass creates a claim again only while the claim marked for deletion is still there to be copied. */
  lemma RevivalIsLogged(p: Pass, k: Key)
    requires IsPass(p) && Revives(p, k)
    ensures k in p.start.claims && p.start.claims[k].terminating && CreatedLast(LogOf(p), k)
  {
    ClaimsChangeInTheRestore(p);
    RestoreAccounts(p, k);
    LiveAsLogged(p, k);
    LastEffectDecides(LogOf(p), k, false);
  }

  /** The restore of the pass has a reference to the claim to work on. */
  ghost predicate ToBeRestored(p: Pass, k: Key) {
    exists q, t, ref :: IsReference(p.env.spec, p.down.stored, k, q, t, ref)
  }

  /** A claim still there, marked for deletion or not, is there after a pass that restores a reference to it. */
  lemma ReferencedClaimIsThere(p: Pass, k: Key)
    requires IsPass(p) && p.reached >= 4 && ToBeRestored(p, k)
    ensures LiveIn(p.end.claims, k)
  {
    var q, t, ref :| IsReference(p.env.spec, p.down.stored, k, q, t, ref);
    ClaimsChangeInTheRestore(p);
    ReferencedClaimsAreReported(p.env.spec, p.down, p.restored, p.but, q, t, ref);
  }

  /**
   What a pass that gets through the restore makes of a claim can be told before the restore: it is there
   afterwards exactly when it was there, not marked for deletion, or a reference to be restored names it.
   */
  lemma ThereAfterRestoreIff(p: Pass, k: Key)
    requires IsPass(p) && p.reached >= 4
    ensures LiveIn(p.end.claims, k) <==> LiveIn(p.start.claims, k) || ToBeRestored(p, k)
  {
    if ToBeRestored(p, k) { ReferencedClaimIsThere(p, k); }
    if LiveIn(p.start.claims, k) && !LiveIn(p.end.claims, k) { LossIsInterruption(p, k); }
    if Revives(p, k) { RevivedByReference(p, k); }
  }

  lemma RevivedByReference(p: Pass, k: Key)
    requires IsPass(p) && Revives(p, k)
    ensures ToBeRestored(p, k)
  {
    RevivalIsLogged(p, k);
    LogPrefixes(p);
    var i := CreationIn(p, k);
    ClaimEventsAreOfTheRestore(p, i);
    CreationNamesReference(p.env.spec, p.down.stored, p.end.events[i], k);
  }

  lemma CreationIn(p: Pass, k: Key) returns (i: nat)
    requires p.start.events <= p.end.events && CreatedLast(LogOf(p), k)
    ensures |p.start.events| <= i < |p.end.events| && IsCreation(p.end.events[i], k)
  {
    var n: nat :| CreationStands(LogOf(p), k, n);
    i := |p.start.events| + n;
  }

  lemma CreationNamesReference(spec: Spec, st: Status, e: Event, k: Key)
    requires e in RestoreEvents(spec, st) && IsCreation(e, k)
    ensures exists q, t, ref :: IsReference(spec, st, k, q, t, ref)
  {
    var q :| q in ToRestore(spec, st) && e in PlanEvents(q, st.plans[q].clusters);
    var t :| t in st.plans[q].clusters && e in TargetEvents(q, t);
    var ref :| ref in t.snapshotsRef && !ref.skipRestoringPVC && e in RefEvents(q, t.namespace, ref);
    assert IsReference(spec, st, k, q, t, ref);
  }

  // ---------------------------------------------------------------- whole runs

  lemma SameLiveBetween(ps: seq<Pass>, k: Key, j: nat)
    requires ClaimsLeftAlone(ps) && 0 < j < |ps|
    ensures LiveIn(ps[j].start.claims, k) <==> LiveIn(ps[j - 1].end.claims, k)
    ensures k in ps[j].start.claims ==> k in ps[j - 1].end.claims
  {
  }

  /** The last effect of none of these passes on the claim was to create it. */
  ghost predicate NoneCreates(ps: seq<Pass>, k: Key, i: nat, j: nat)
    requires j < |ps|
  {
    forall m :: i < m <= j ==> !CreatedLast(LogOf(ps[m]), k)
  }

  /** Pass `i` was interrupted over the claim, and no pass since, up to `j`, created it again: the log says it all. */
  ghost predicate LostSince(ps: seq<Pass>, k: Key, i: nat, j: nat)
    requires j < |ps|
  {
    i <= j && Interrupted(ps[i], k) && NoneCreates(ps, k, i, j)
  }

  ghost predicate IsLost(ps: seq<Pass>, k: Key, j: nat)
    requires j < |ps|
  {
    exists i :: LostSince(ps, k, i, j)
  }

  /** A claim is there after pass `m` only if it was after the pass before, or pass `m` created it. */
  ghost predicate ThereByLog(ps: seq<Pass>, k: Key, m: nat)
    requires 0 < m < |ps|
  {
    LiveIn(ps[m].end.claims, k) ==> LiveIn(ps[m - 1].end.claims, k) || CreatedLast(LogOf(ps[m]), k)
  }

  lemma ThereOnlyByLog(ps: seq<Pass>, k: Key, m: nat)
    requires IsRun(ps) && ClaimsLeftAlone(ps) && 0 < m < |ps|
    ensures ThereByLog(ps, k, m)
  {
    SameLiveBetween(ps, k, m);
    LiveAsLogged(ps[m], k);
    LastEffectDecides(LogOf(ps[m]), k, LiveIn(ps[m].start.claims, k));
  }

  lemma {:induction false} LostClaimsStayLost(ps: seq<Pass>, k: Key, i: nat, j: nat)
    requires i <= j < |ps| && !LiveIn(ps[i].end.claims, k) && NoneCreates(ps, k, i, j)
    requires forall m :: i < m <= j ==> ThereByLog(ps, k, m)
    ensures !LiveIn(ps[j].end.claims, k)
    decreases j
  {
    if i < j {
      LostClaimsStayLost(ps, k, i, j - 1);
      assert ThereByLog(ps, k, j) && !CreatedLast(LogOf(ps[j]), k);
    }
  }

  lemma InterruptionLoses(p: Pass, k: Key)
    requires IsPass(p) && DeletedLast(LogOf(p), k)
    ensures !LiveIn(p.end.claims, k)
  {
    LiveAsLogged(p, k);
    LastEffectDecides(LogOf(p), k, LiveIn(p.start.claims, k));
  }

  lemma {:induction false} LossHasACause(ps: seq<Pass>, k: Key, j: nat) returns (i: nat)
    requires IsRun(ps) && ClaimsLeftAlone(ps) && j < |ps| && LiveIn(ps[0].start.claims, k)
      && !LiveIn(ps[j].end.claims, k)
    ensures LostSince(ps, k, i, j)
    decreases j
  {
    if LiveIn(ps[j].start.claims, k) {
      i := j;
      LossAt(ps, k, j);
    } else {
      SameLiveBetween(ps, k, j);
      i := LossHasACause(ps, k, j - 1);
      NotCreated(ps[j], k);
      StillLost(ps, k, i, j);
    }
  }

  lemma LossAt(ps: seq<Pass>, k: Key, j: nat)
    requires IsRun(ps) && j < |ps| && LiveIn(ps[j].start.claims, k) && !LiveIn(ps[j].end.claims, k)
    ensures LostSince(ps, k, j, j)
  {
    LossIsInterruption(ps[j], k);
  }

  lemma NotCreated(p: Pass, k: Key)
    requires IsPass(p) && !LiveIn(p.end.claims, k)
    ensures !CreatedLast(LogOf(p), k)
  {
    LiveAsLogged(p, k);
    LastEffectDecides(LogOf(p), k, LiveIn(p.start.claims, k));
  }

  lemma StillLost(ps: seq<Pass>, k: Key, i: nat, j: nat)
    requires 0 < j < |ps| && LostSince(ps, k, i, j - 1) && !CreatedLast(LogOf(ps[j]), k)
    ensures LostSince(ps, k, i, j)
  {
    forall m | i < m <= j ensures !CreatedLast(LogOf(ps[m]), k) {
      if m < j { assert NoneCreates(ps, k, i, j - 1); }
    }
  }

  /**
   Conservation over a run. A claim that was there at the first pass, and that only the operator deletes,
   is missing after a pass exactly when the log shows that this pass or an earlier one ended within the
   restore with the deletion of the claim as the last effect on it, and that no pass since created it.
   */
  lemma LostIffInterrupted(ps: seq<Pass>, k: Key, j: nat)
    requires IsRun(ps) && ClaimsLeftAlone(ps) && j < |ps| && LiveIn(ps[0].start.claims, k)
    ensures !LiveIn(ps[j].end.claims, k) <==> IsLost(ps, k, j)
  {
    if !LiveIn(ps[j].end.claims, k) {
      var i := LossHasACause(ps, k, j);
    } else if i :| LostSince(ps, k, i, j) {
      LostAsLogged(ps, k, i, j);
    }
  }

  lemma LostAsLogged(ps: seq<Pass>, k: Key, i: nat, j: nat)
    requires IsRun(ps) && ClaimsLeftAlone(ps) && j < |ps| && LostSince(ps, k, i, j)
    ensures !LiveIn(ps[j].end.claims, k)
  {
    InterruptionLoses(ps[i], k);
    forall m | i < m <= j ensures ThereByLog(ps, k, m) { ThereOnlyByLog(ps, k, m); }
    LostClaimsStayLost(ps, k, i, j);
  }

  /** Without a pass that ends so over the claim no run loses it. */
  lemma NeverInterruptedNeverLost(ps: seq<Pass>, k: Key, j: nat)
    requires IsRun(ps) && ClaimsLeftAlone(ps) && j < |ps| && LiveIn(ps[0].start.claims, k)
    requires forall i :: 0 <= i <= j ==> !Interrupted(ps[i], k)
    ensures LiveIn(ps[j].end.claims, k)
  {
    LostIffInterrupted(ps, k, j);
  }

  /**
   Exactly when a retry brings a lost claim back. After a pass that gets through the restore, and so locks
   the plans, a claim is missing exactly when it was lost before that pass began and no reference the pass
   is to restore names it.
   */
  lemma MissingAtTheLockIff(ps: seq<Pass>, k: Key, j: nat)
    requires IsRun(ps) && ClaimsLeftAlone(ps) && 0 < j < |ps| && LiveIn(ps[0].start.claims, k) && ps[j].reached >= 4
    ensures !LiveIn(ps[j].end.claims, k) <==> IsLost(ps, k, j - 1) && !ToBeRestored(ps[j], k)
  {
    FoundUnlessLost(ps, k, j);
    ThereAfterRestoreAt(ps, k, j);
  }

  lemma FoundUnlessLost(ps: seq<Pass>, k: Key, j: nat)
    requires IsRun(ps) && ClaimsLeftAlone(ps) && 0 < j < |ps| && LiveIn(ps[0].start.claims, k)
    ensures LiveIn(ps[j].start.claims, k) <==> !IsLost(ps, k, j - 1)
  {
    assert LiveIn(ps[j - 1].end.claims, k) <==> !IsLost(ps, k, j - 1) by { LostIffInterrupted(ps, k, j - 1); }
    assert LiveIn(ps[j].start.claims, k) <==> LiveIn(ps[j - 1].end.claims, k) by { SameLiveBetween(ps, k, j); }
  }

  lemma ThereAfterRestoreAt(ps: seq<Pass>, k: Key, j: nat)
    requires IsRun(ps) && j < |ps| && ps[j].reached >= 4
    ensures LiveIn(ps[j].end.claims, k) <==> LiveIn(ps[j].start.claims, k) || ToBeRestored(ps[j], k)
  {
    ThereAfterRestoreIff(ps[j], k);
  }

  /** Once a claim is gone, it is gone for good: no later pass creates it. */
  lemma {:induction false} GoneForGood(ps: seq<Pass>, k: Key, i: nat, j: nat)
    requires IsRun(ps) && ClaimsLeftAlone(ps) && i <= j < |ps| && k !in ps[i].start.claims && k != NAMELESS
    ensures k !in ps[j].start.claims && k !in ps[j].end.claims
    decreases j
  {
    if i < j {
      GoneForGood(ps, k, i, j - 1);
      SameLiveBetween(ps, k, j);
    }
    LostClaimIsForgotten(ps[j], k);
  }

  /**
   What a lost claim means for its plan: once a pass began with the claim gone, no pass names it in a
   reference, and each that gets through the restore locks the plan, with the claim missing.
   */
  lemma LockedWithoutTheClaim(ps: seq<Pass>, k: Key, i: nat, j: nat, q: string)
    requires IsRun(ps) && ClaimsLeftAlone(ps) && i <= j < |ps| && k !in ps[i].start.claims && k != NAMELESS
    requires q in ps[j].env.spec
    ensures k !in ps[j].end.claims
    ensures ps[j].reached >= 1 ==> !Validate.Refers(PlanOf(ps[j].checked.stored, q).clusters, k)
    ensures ps[j].reached >= 4 ==> PlanOf(ps[j].end.stored, q).lock
  {
    GoneForGood(ps, k, i, j);
    LostClaimIsForgotten(ps[j], k);
  }

  /** A lost claim is brought back by a pass that restores a reference to it, and by none once it is gone. */
  lemma SavedInTime(ps: seq<Pass>, k: Key, j: nat)
    requires IsRun(ps) && ClaimsLeftAlone(ps) && 0 < j < |ps| && !LiveIn(ps[j - 1].end.claims, k) && ps[j].reached >= 4
    ensures Revives(ps[j], k) <==> ToBeRestored(ps[j], k)
    ensures Revives(ps[j], k) ==> k in ps[j].start.claims
  {
    ThereAfterRestoreIff(ps[j], k);
    SameLiveBetween(ps, k, j);
    if Revives(ps[j], k) { RevivalIsLogged(ps[j], k); }
  }

  // ---------------------------------------------------------------- claims restored twice

  /** The pass reports the claim of the reference restored for the plan. */
  ghost predicate ReportedBy(p: Pass, q: string, k: Key) {
    exists i :: |p.start.events| <= i < |p.end.events| && ReportsFor(p.end.events[i], q, k)
  }

  predicate ReportsFor(e: Event, q: string, k: Key) { e.ClaimRestored? && e.plan == q && e.id == k }

  /**
   A pass that gets through the restore restores a recorded reference of a plan of the spec exactly when
   validation left the plan unlocked, whether or not the claim was restored before.
   */
  lemma RestoredIff(p: Pass, q: string, t: TargetStatus, ref: SnapshotRef)
    requires IsPass(p) && p.reached >= 4 && q in p.env.spec
    requires t in PlanOf(p.checked.stored, q).clusters && ref in t.snapshotsRef && !ref.skipRestoringPVC
    ensures ReportedBy(p, q, Key(t.namespace, ref.pvcName)) <==> !PlanOf(p.checked.stored, q).lock
  {
    var k := Key(t.namespace, ref.pvcName);
    if PlanOf(p.checked.stored, q).lock {
      forall i | |p.start.events| <= i < |p.end.events| ensures !ReportsFor(p.end.events[i], q, k) {
        if OnClaims(p.end.events[i]) { LockedByValidationKeepClaims(p, q, i); }
      }
    } else {
      LocksStayClosed(p, q);
      RestoreLocksAll(p, q);
      RestoreEarnsLocks(p, q);
      var i := WhereReported(p.restored.events, |p.down.events|, q, PlanOf(p.checked.stored, q).clusters, t, ref);
      LogGrows(p);
      assert ReportsFor(p.end.events[i], q, k);
    }
  }

  lemma WhereReported(events: seq<Event>, lo: nat, q: string, ts: seq<TargetStatus>, t: TargetStatus, ref: SnapshotRef)
    returns (i: nat)
    requires AllReported(events, lo, q, ts) && t in ts && ref in t.snapshotsRef && !ref.skipRestoringPVC
    ensures lo <= i < |events| && ReportsFor(events[i], q, Key(t.namespace, ref.pvcName))
  {
    var n :| 0 <= n < |ts| && ts[n] == t;
    assert RefsReported(events, lo, q, ts[n], |t.snapshotsRef|);
    var j :| 0 <= j < |t.snapshotsRef| && t.snapshotsRef[j] == ref;
    assert Reported(events, lo, q, t.namespace, t.snapshotsRef[j]);
    i :| lo <= i < |events|
      && events[i] == ClaimRestored(q, Key(t.namespace, ref.pvcName), ref.snapshotName, ref.pvcStorageClass);
  }

  /**
   Claims are touched for a plan in two passes of a run only if the first ended within its restore and left
   the plan unlocked: a later reference failed, or the write of the lock was lost.
   */
  lemma TouchedTwice(ps: seq<Pass>, q: string, i: nat, m: nat, j: nat, n: nat)
    requires IsRun(ps) && AlwaysInSpec(ps, q) && i < j < |ps|
    requires |ps[i].start.events| <= m < |ps[i].end.events| && OnClaims(ps[i].end.events[m])
      && ps[i].end.events[m].plan == q
    requires |ps[j].start.events| <= n < |ps[j].end.events| && OnClaims(ps[j].end.events[n])
      && ps[j].end.events[n].plan == q
    ensures ps[i].reached == 3 && !PlanOf(ps[i].end.stored, q).lock
  {
    ClaimEventsAreOfTheRestore(ps[i], m);
    UnlockedWhenTouchedAgain(ps, q, i, j, n);
    if ps[i].reached >= 4 {
      RestoreLocksAll(ps[i], q);
      LocksStayClosed(ps[i], q);
    }
  }

  lemma UnlockedWhenTouchedAgain(ps: seq<Pass>, q: string, i: nat, j: nat, n: nat)
    requires IsRun(ps) && AlwaysInSpec(ps, q) && i < j < |ps|
    requires |ps[j].start.events| <= n < |ps[j].end.events| && OnClaims(ps[j].end.events[n])
      && ps[j].end.events[n].plan == q
    ensures !PlanOf(ps[i].end.stored, q).lock
  {
    LockedPlansKeepTheirClaims(ps[j], n);
    if PlanOf(ps[i].end.stored, q).lock { LockStaysFrom(ps, q, i, j); }
  }
}
