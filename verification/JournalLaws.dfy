/** What the journal of all lives of a generation says when it is read by position: forwards, arms, deletions, bindings
    and stops. */
module JournalLaws {
  import opened Vocabulary
  import opened Journal
  import opened GateModel
  import opened GateInvariant
  import opened PolicyModel
  import opened PolicyInvariant
  import opened WriteReplay
  import opened Resting
  import opened Lives

  predicate IsRecord(entries: seq<Entry>, i: nat) {
    i < |entries| && entries[i].Rec?
  }

  predicate IsBind(e: Entry) {
    e.Rec? && e.record.Bind?
  }

  /** No BIND after position `i` and before position `j`: both belong to one execution. */
  predicate SameSegment(entries: seq<Entry>, i: nat, j: nat) {
    i <= j <= |entries| && forall k | i < k < j :: !IsBind(entries[k])
  }

  predicate ArmedAt(entries: seq<Entry>, i: nat, id: nat, t: Target) {
    IsRecord(entries, i) && entries[i].record.Arm? && entries[i].record.actionId == id
      && entries[i].record.verb == t.verb
    && entries[i].record.manifestDigest == t.manifestDigest && entries[i].record.recordedUid == t.uid
  }

  /** A durable 201 for the action at `i`'s CREATE of the manifest, with the UID it observed. */
  ghost predicate CreatedAt(entries: seq<Entry>, i: nat, manifestDigest: string, uid: string) {
    IsRecord(entries, i) && entries[i].record.Terminal? && entries[i].record.details.Delivered?
    && entries[i].record.details.httpStatus == 201 && entries[i].record.details.observedUid == Some(uid)
    && exists k: nat, t ::
         k < i && ArmedAt(entries, k, entries[i].record.actionId, t) && t.verb == Create
           && t.manifestDigest == manifestDigest
         && SameSegment(entries, k, i)
  }

  lemma Prefixed(entries: seq<Entry>, i: nat, j: nat)
    requires j < |entries| && SameSegment(entries[..j], i, j) && i < j
    requires !IsBind(entries[j])
    ensures SameSegment(entries, i, j + 1)
  {
    forall k | i < k < j + 1
      ensures !IsBind(entries[k])
    {
      if k < j { assert entries[..j][k] == entries[k]; }
    }
  }

  // ---------------------------------------------------------------------------------------------- folds by position

  /** What the fold remembers as armed was armed at some position of the current execution. */
  lemma {:induction false} ArmsHavePositions(entries: seq<Entry>, id: nat)
    requires id in AccountOf(entries).arms
    ensures exists i: nat :: ArmedAt(entries, i, id, AccountOf(entries).arms[id]) && SameSegment(entries, i, |entries|)
  {
    var n := |entries| - 1;
    var before := entries[..n];
    if entries[n].Rec? && entries[n].record.Arm? && entries[n].record.actionId == id {
      assert ArmedAt(entries, n, id, AccountOf(entries).arms[id]) && SameSegment(entries, n, |entries|);
    } else {
      ArmsHavePositions(before, id);
      var i: nat :| ArmedAt(before, i, id, AccountOf(before).arms[id]) && SameSegment(before, i, n);
      Prefixed(entries, i, n);
      assert ArmedAt(entries, i, id, AccountOf(entries).arms[id]) && SameSegment(entries, i, |entries|);
    }
  }

  lemma CreationExtends(entries: seq<Entry>, n: nat, i: nat, manifestDigest: string, uid: string)
    requires n <= |entries| && CreatedAt(entries[..n], i, manifestDigest, uid)
    ensures CreatedAt(entries, i, manifestDigest, uid)
  {
    var before := entries[..n];
    var k: nat, t :| k < i && ArmedAt(before, k, before[i].record.actionId, t) && t.verb == Create
      && t.manifestDigest == manifestDigest
                && SameSegment(before, k, i);
    assert ArmedAt(entries, k, entries[i].record.actionId, t);
    assert SameSegment(entries, k, i) by { assert forall m | k < m < i :: entries[m] == before[m]; }
  }

  /** What the fold remembers as created has its CREATE and its 201 in the current execution. */
  lemma {:induction false} CreationsHavePositions(entries: seq<Entry>, manifestDigest: string, uid: string)
    requires (manifestDigest, uid) in AccountOf(entries).created
    ensures exists i: nat :: CreatedAt(entries, i, manifestDigest, uid) && SameSegment(entries, i, |entries|)
  {
    var n := |entries| - 1;
    var before := entries[..n];
    if (manifestDigest, uid) in AccountOf(before).created && !IsBind(entries[n]) {
      CreationsHavePositions(before, manifestDigest, uid);
      var i: nat :| CreatedAt(before, i, manifestDigest, uid) && SameSegment(before, i, n);
      CreationExtends(entries, n, i, manifestDigest, uid);
      Prefixed(entries, i, n);
      assert CreatedAt(entries, i, manifestDigest, uid) && SameSegment(entries, i, |entries|);
    } else {
      var id := entries[n].record.actionId;
      ArmsHavePositions(before, id);
      var k: nat :| ArmedAt(before, k, id, AccountOf(before).arms[id]) && SameSegment(before, k, n);
      assert ArmedAt(entries, k, id, AccountOf(before).arms[id]);
      assert SameSegment(entries, k, n) by { assert forall m | k < m < n :: entries[m] == before[m]; }
      assert CreatedAt(entries, n, manifestDigest, uid) && SameSegment(entries, n, |entries|);
    }
  }

  lemma {:induction false} SoundPrefix(entries: seq<Entry>, n: nat)
    requires n <= |entries| && AccountOf(entries).sound
    ensures AccountOf(entries[..n]).sound
  {
    if n < |entries| {
      SoundPrefix(entries[..|entries| - 1], n);
      assert entries[..|entries| - 1][..n] == entries[..n];
    } else {
      assert entries[..n] == entries;
    }
  }

  lemma FoldAt(entries: seq<Entry>, n: nat)
    requires n < |entries|
    ensures AccountOf(entries[..n + 1]) == AccountEntry(AccountOf(entries[..n]), entries[n])
    ensures Quench(entries[..n + 1]) == QuenchEntry(Quench(entries[..n]), entries[n])
  {
    assert entries[..n + 1][..n] == entries[..n];
  }

  // ---------------------------------------------------------------------------------------------- laws

  /** Every CONSUMED record follows the ARM record of its action in the same execution. */
  lemma ForwardFollowsArm(entries: seq<Entry>, j: nat)
    requires AccountOf(entries).sound && IsRecord(entries, j) && entries[j].record.Consumed?
    ensures exists i: nat, t ::
              i < j && ArmedAt(entries, i, entries[j].record.actionId, t) && SameSegment(entries, i, j)
  {
    SoundPrefix(entries, j + 1);
    FoldAt(entries, j);
    var before := entries[..j];
    var id := entries[j].record.actionId;
    ArmsHavePositions(before, id);
    var i: nat :| ArmedAt(before, i, id, AccountOf(before).arms[id]) && SameSegment(before, i, j);
    assert ArmedAt(entries, i, id, AccountOf(before).arms[id]);
    assert SameSegment(entries, i, j) by { assert forall m | i < m < j :: entries[m] == before[m]; }
  }

  /** Every ARM of a DELETE follows, in the same execution, a durable 201 for a CREATE of the same manifest that
      observed the recorded UID. */
  lemma DeleteFollowsCreate(entries: seq<Entry>, j: nat)
    requires AccountOf(entries).sound && IsRecord(entries, j) && entries[j].record.Arm?
             && entries[j].record.verb == Delete
    ensures entries[j].record.recordedUid.Some?
    ensures exists i: nat ::
              i < j && CreatedAt(entries, i, entries[j].record.manifestDigest, entries[j].record.recordedUid.value)
                        && SameSegment(entries, i, j)
  {
    SoundPrefix(entries, j + 1);
    FoldAt(entries, j);
    var before := entries[..j];
    var (m, u) := (entries[j].record.manifestDigest, entries[j].record.recordedUid.value);
    CreationsHavePositions(before, m, u);
    var i: nat :| CreatedAt(before, i, m, u) && SameSegment(before, i, j);
    CreationExtends(entries, j, i, m, u);
    assert SameSegment(entries, i, j) by { assert forall k | i < k < j :: entries[k] == before[k]; }
  }

  /** A mutation key armed at `i` is still remembered at `j` of the same execution. */
  lemma {:induction false} KeysRemembered(entries: seq<Entry>, i: nat, j: nat, t: Target, id: nat)
    requires i < j <= |entries| && ArmedAt(entries, i, id, t) && SameSegment(entries, i, j)
    ensures KeyOf(t.verb, t.manifestDigest, t.uid) <= AccountOf(entries[..j]).keys
    ensures id in AccountOf(entries[..j]).arms
    decreases j
  {
    FoldAt(entries, j - 1);
    if i < j - 1 {
      KeysRemembered(entries, i, j - 1, t, id);
      assert !IsBind(entries[j - 1]);
    }
  }

  /** Within one execution no action id is armed twice, no manifest is created twice and no UID is deleted twice. */
  lemma ArmsNeverRepeat(entries: seq<Entry>, i: nat, j: nat)
    requires AccountOf(entries).sound && i < j && IsRecord(entries, j) && SameSegment(entries, i, j)
    requires IsRecord(entries, i) && entries[i].record.Arm? && entries[j].record.Arm?
    ensures var (a, b) := (entries[i].record, entries[j].record);
            && a.actionId != b.actionId
            && (a.verb == Create && b.verb == Create ==> a.manifestDigest != b.manifestDigest)
            && (a.verb == Delete && b.verb == Delete ==> a.recordedUid != b.recordedUid)
  {
    var (a, b) := (entries[i].record, entries[j].record);
    SoundPrefix(entries, j + 1);
    FoldAt(entries, j);
    KeysRemembered(entries, i, j, Target(a.verb, a.manifestDigest, a.recordedUid), a.actionId);
    var key := KeyOf(b.verb, b.manifestDigest, b.recordedUid);
    assert key * AccountOf(entries[..j]).keys == {};
    assert forall k | k in key :: k !in AccountOf(entries[..j]).keys;
  }

  lemma {:induction false} ExecutionsRemembered(entries: seq<Entry>, i: nat, j: nat)
    requires i < j <= |entries| && IsBind(entries[i])
    ensures entries[i].record.executionId in AccountOf(entries[..j]).executions
    decreases j
  {
    FoldAt(entries, j - 1);
    if i < j - 1 {
      ExecutionsRemembered(entries, i, j - 1);
    }
  }

  /** No execution is bound twice in one generation. */
  lemma BindsNeverRepeat(entries: seq<Entry>, i: nat, j: nat)
    requires AccountOf(entries).sound && i < j < |entries| && IsBind(entries[i]) && IsBind(entries[j])
    ensures entries[i].record.executionId != entries[j].record.executionId
  {
    SoundPrefix(entries, j + 1);
    FoldAt(entries, j);
    ExecutionsRemembered(entries, i, j);
  }

  lemma {:induction false} CleanPrefix(entries: seq<Entry>, n: nat)
    requires n <= |entries| && Quench(entries).clean
    ensures Quench(entries[..n]).clean
  {
    if n < |entries| {
      CleanPrefix(entries[..|entries| - 1], n);
      assert entries[..|entries| - 1][..n] == entries[..n];
    } else {
      assert entries[..n] == entries;
    }
  }

  lemma {:induction false} StopsRemembered(entries: seq<Entry>, i: nat, j: nat)
    requires i < j <= |entries| && IsRecord(entries, i) && IsStop(entries[i].record)
    ensures Quench(entries[..j]).stopped
    decreases j
  {
    FoldAt(entries, j - 1);
    if i < j - 1 {
      StopsRemembered(entries, i, j - 1);
    }
  }

  /** No CONSUMED record follows a drain, a close, an invalidation, a channel end, a restart or an opened
      maintenance. */
  lemma NoForwardAfterStop(entries: seq<Entry>, i: nat, j: nat)
    requires Quench(entries).clean && i < j && IsRecord(entries, i) && IsRecord(entries, j) && IsStop(entries[i].record)
    ensures !entries[j].record.Consumed?
  {
    CleanPrefix(entries, j + 1);
    FoldAt(entries, j);
    StopsRemembered(entries, i, j);
  }

  /** Whatever the storage did: the journal of every process, and every file. */
  lemma JournalIsOk(c: PolicyConfig, w: World, hs: seq<Happening>)
    ensures var y := RunTo(c, w, Born(c), hs); Readable(JournalOf(y)) && Readable(FileOf(y))
  {
    hide RunTo, Born, PolicySound, Fenced, Readable, Rested;
    BornSane(c);
    AlwaysSane(c, w, Born(c), hs);
    var y := RunTo(c, w, Born(c), hs);
    if y.Up? {
      if PolicySound(y.policy) && Fenced(y.policy) { SoundReadable(y.policy); } else { RestedIs(y.policy); }
    }
  }

  /** The laws hold at every position of the journal of all lives, in memory and in the file, whatever the storage
      did. */
  lemma EveryJournal(c: PolicyConfig, w: World, hs: seq<Happening>, entries: seq<Entry>, i: nat, j: nat)
    requires entries == JournalOf(RunTo(c, w, Born(c), hs)) || entries == FileOf(RunTo(c, w, Born(c), hs))
    requires i < j && IsRecord(entries, i) && IsRecord(entries, j)
    ensures var (a, b) := (entries[i].record, entries[j].record);
            && (IsStop(a) ==> !b.Consumed?)
            && (a.Bind? && b.Bind? ==> a.executionId != b.executionId)
            && (b.Consumed? ==> exists k: nat, t ::
                  k < j && ArmedAt(entries, k, b.actionId, t) && SameSegment(entries, k, j))
            && (b.Arm? && b.verb == Delete ==>
                  b.recordedUid.Some?
                  && exists k: nat ::
                    k < j && CreatedAt(entries, k, b.manifestDigest, b.recordedUid.value) && SameSegment(entries, k, j))
            && (a.Arm? && b.Arm? && SameSegment(entries, i, j) ==>
                  && a.actionId != b.actionId
                  && (a.verb == Create && b.verb == Create ==> a.manifestDigest != b.manifestDigest)
                  && (a.verb == Delete && b.verb == Delete ==> a.recordedUid != b.recordedUid))
  {
    hide RunTo, Born, CreatedAt, IsStop, AccountOf, Quench, Replay, ReplayWrites;
    JournalIsOk(c, w, hs);
    var (a, b) := (entries[i].record, entries[j].record);
    if IsStop(a) { NoForwardAfterStop(entries, i, j); }
    if a.Bind? && b.Bind? { BindsNeverRepeat(entries, i, j); }
    if b.Consumed? { ForwardFollowsArm(entries, j); }
    if b.Arm? && b.verb == Delete { DeleteFollowsCreate(entries, j); }
    if a.Arm? && b.Arm? && SameSegment(entries, i, j) { ArmsNeverRepeat(entries, i, j); }
  }

  /** Where a stop is remembered, a sound gate is stopped: its mirror says so, or it is HELD. */
  lemma QuenchedStops(g: Gate, entries: seq<Entry>)
    requires Sound(g) && (entries == g.stores.entries || entries == g.stores.file) && Quench(entries).stopped
    ensures Stopped(g)
  {
    hide SoundOn, Filed, Quench;
  }

  /** A process whose journal or file holds a stop can no longer forward. */
  lemma StopsStop(c: PolicyConfig, w: World, hs: seq<Happening>, entries: seq<Entry>, i: nat)
    requires RunTo(c, w, Born(c), hs).Up?
    requires entries == JournalOf(RunTo(c, w, Born(c), hs)) || entries == FileOf(RunTo(c, w, Born(c), hs))
    requires IsRecord(entries, i) && IsStop(entries[i].record)
    ensures Stopped(RunTo(c, w, Born(c), hs).policy.gate)
  {
    hide RunTo, Born, PolicySound, Fenced, Quench, IsStop, Readable, Alike;
    BornSane(c);
    AlwaysSane(c, w, Born(c), hs);
    var p := RunTo(c, w, Born(c), hs).policy;
    StopsRemembered(entries, i, |entries|);
    assert entries[..|entries|] == entries;
    if PolicySound(p) && Fenced(p) {
      SoundPolicy(p);
      QuenchedStops(p.gate, entries);
    }
  }
}
