/** What one pass of the sink does with each record, read off the ownership rows the snapshot holds: which
    records of a batch it writes, dead-letters, skips, drops as empty or leaves on hold. */
module PassMeaning {
  import opened Options
  import opened Ownership
  import opened Routing
  import opened Batches
  import opened Isolation

  // ---- One record ----

  /** The ownership row the snapshot holds for the record's table. */
  function RowFor(snap: Snapshot, r: Record): Option<Owner> {
    if r.parsed.Change? && Key(r.parsed.sourceId, r.parsed.table) in snap.entries
    then Some(snap.entries[Key(r.parsed.sourceId, r.parsed.table)]) else None
  }

  /** A change of a source the snapshot knows. */
  predicate Known(snap: Snapshot, r: Record) { r.parsed.Change? && r.parsed.sourceId in snap.sources }

  /** A change of a source nobody registered. */
  predicate Stray(snap: Snapshot, r: Record) { r.parsed.Change? && r.parsed.sourceId !in snap.sources }

  /** Its table is paused. */
  predicate OnHold(snap: Snapshot, r: Record) {
    Known(snap, r) && RowFor(snap, r).Some? && RowFor(snap, r).value.state == PAUSED
  }

  /** KAFKA owns its table or shadows it. */
  predicate Ours(snap: Snapshot, r: Record) {
    && Known(snap, r) && RowFor(snap, r).Some?
    && RowFor(snap, r).value.state != PAUSED && OfKafka(RowFor(snap, r).value)
  }

  /** A known table KAFKA has no part in. */
  predicate NotOurs(snap: Snapshot, r: Record) {
    && Known(snap, r)
    && (RowFor(snap, r).None? || (RowFor(snap, r).value.state != PAUSED && !OfKafka(RowFor(snap, r).value)))
  }

  /** A record the parser refuses, or a stray one under the policy that dead-letters them. */
  predicate Undeliverable(snap: Snapshot, r: Record, skipUnknown: bool) {
    r.parsed == Poison || (Stray(snap, r) && !skipUnknown)
  }

  predicate Skippable(snap: Snapshot, r: Record, skipUnknown: bool) {
    NotOurs(snap, r) || (Stray(snap, r) && skipUnknown)
  }

  /** The disposition of a record, case by case, and the target and epoch a write is stamped with. */
  lemma DisposeMeans(snap: Snapshot, r: Record, skipUnknown: bool)
    ensures Dispose(r, snap, skipUnknown) == Hold <==> OnHold(snap, r)
    ensures Dispose(r, snap, skipUnknown) == Write <==> Ours(snap, r)
    ensures Dispose(r, snap, skipUnknown) == Letter <==> Undeliverable(snap, r, skipUnknown)
    ensures Dispose(r, snap, skipUnknown) == Skip <==> Skippable(snap, r, skipUnknown)
    ensures Dispose(r, snap, skipUnknown) == Ignore <==> r.parsed == Nothing
    ensures Ours(snap, r) ==>
      var row := RowFor(snap, r).value;
      snap.RouteOf(r.parsed.sourceId, r.parsed.table) == Route(if row.engine == KAFKA then PROD else SHADOW, row.epoch)
  {
  }

  // ---- A whole pass ----

  /** Nothing keeps the pass from taking record i: its partition is not held already, and no record of it up
      to and including i is of a paused table. */
  predicate Reached(batch: seq<Record>, i: nat, snap: Snapshot, held: Offsets)
    requires i < |batch|
  {
    batch[i].tp !in held && forall j | 0 <= j <= i && batch[j].tp == batch[i].tp :: !OnHold(snap, batch[j])
  }

  /** The first record of a partition that is of a paused table. */
  predicate FirstPaused(batch: seq<Record>, i: nat, snap: Snapshot)
    requires i < |batch|
  {
    OnHold(snap, batch[i]) && forall j | 0 <= j < i && batch[j].tp == batch[i].tp :: !OnHold(snap, batch[j])
  }

  /** The positions of the records of one kind the pass reaches. */
  function At(batch: seq<Record>, snap: Snapshot, held: Offsets, kind: Record -> bool): set<nat> {
    set i: nat | i < |batch| && Reached(batch, i, snap, held) && kind(batch[i])
  }

  ghost predicate ListsAre(p: Plan, batch: seq<Record>, snap: Snapshot, held: Offsets, skipUnknown: bool) {
    && p.writes == Chosen(batch, At(batch, snap, held, r => Ours(snap, r)))
    && p.letters == Chosen(batch, At(batch, snap, held, r => Undeliverable(snap, r, skipUnknown)))
    && p.skips == Chosen(batch, At(batch, snap, held, r => Skippable(snap, r, skipUnknown)))
    && p.ignored == Chosen(batch, At(batch, snap, held, (r: Record) => r.parsed == Nothing))
  }

  /** A partition is held if it was, then at the same offset, or from its first record of a paused table. */
  ghost predicate HoldsAre(h: Offsets, batch: seq<Record>, snap: Snapshot, held: Offsets) {
    && (forall tp | tp in held :: tp in h && h[tp] == held[tp])
    && (forall tp | tp in h && tp !in held ::
          exists i: nat | i < |batch| :: batch[i].tp == tp && FirstPaused(batch, i, snap) && h[tp] == batch[i].offset)
    && (forall i: nat | i < |batch| && OnHold(snap, batch[i]) :: batch[i].tp in h)
  }

  /** A partition's next offset is one past the largest record taken from it. */
  ghost predicate OffsetsAre(next: Offsets, batch: seq<Record>, snap: Snapshot, held: Offsets) {
    && (forall i: nat | i < |batch| && Reached(batch, i, snap, held) ::
          batch[i].tp in next && batch[i].offset < next[batch[i].tp])
    && (forall tp | tp in next ::
          exists i: nat | i < |batch| ::
            Reached(batch, i, snap, held) && batch[i].tp == tp && next[tp] == batch[i].offset + 1)
  }

  ghost predicate PassIs(p: Plan, batch: seq<Record>, snap: Snapshot, held: Offsets, skipUnknown: bool) {
    && ListsAre(p, batch, snap, held, skipUnknown)
    && HoldsAre(p.held, batch, snap, held)
    && OffsetsAre(p.next, batch, snap, held)
  }

  lemma {:induction false} BlockedMeans(batch: seq<Record>, n: nat, tp: Partition, snap: Snapshot, held: Offsets,
                                        skipUnknown: bool)
    requires n <= |batch|
    ensures Blocked(batch, n, tp, snap, held, skipUnknown) <==>
            tp in held || exists j: nat | j < n :: batch[j].tp == tp && OnHold(snap, batch[j])
  {
    if n == 0 {
    } else {
      BlockedMeans(batch, n - 1, tp, snap, held, skipUnknown);
      DisposeMeans(snap, batch[n - 1], skipUnknown);
    }
  }

  lemma TakenIsReached(batch: seq<Record>, i: nat, snap: Snapshot, held: Offsets, skipUnknown: bool)
    requires i < |batch|
    ensures TakenAt(batch, i, snap, held, skipUnknown) <==> Reached(batch, i, snap, held)
  {
    BlockedMeans(batch, i + 1, batch[i].tp, snap, held, skipUnknown);
  }

  /** The taken records of one disposition are those at the positions of their kind. */
  lemma {:induction false} PickIsChosen(batch: seq<Record>, n: nat, snap: Snapshot, held: Offsets, skipUnknown: bool,
                                        d: Disposition, kind: Record -> bool)
    requires n <= |batch| && forall r :: kind(r) <==> Dispose(r, snap, skipUnknown) == d
    ensures Pick(batch, n, snap, held, skipUnknown, d) == Chosen(batch[..n], At(batch, snap, held, kind))
  {
    if n == 0 {
    } else {
      PickIsChosen(batch, n - 1, snap, held, skipUnknown, d, kind);
      TakenIsReached(batch, n - 1, snap, held, skipUnknown);
      var front := batch[..n];
      assert front[..|front| - 1] == batch[..n - 1] && front[|front| - 1] == batch[n - 1];
    }
  }

  lemma ListsMeanIt(p: Plan, batch: seq<Record>, snap: Snapshot, held: Offsets, skipUnknown: bool)
    requires ListsMean(p, batch, |batch|, snap, held, skipUnknown)
    ensures ListsAre(p, batch, snap, held, skipUnknown)
  {
    forall r ensures Dispose(r, snap, skipUnknown) == Write <==> Ours(snap, r)
             ensures Dispose(r, snap, skipUnknown) == Letter <==> Undeliverable(snap, r, skipUnknown)
             ensures Dispose(r, snap, skipUnknown) == Skip <==> Skippable(snap, r, skipUnknown)
             ensures Dispose(r, snap, skipUnknown) == Ignore <==> r.parsed == Nothing
    {
      DisposeMeans(snap, r, skipUnknown);
    }
    assert batch[..|batch|] == batch;
    PickIsChosen(batch, |batch|, snap, held, skipUnknown, Write, r => Ours(snap, r));
    PickIsChosen(batch, |batch|, snap, held, skipUnknown, Letter, r => Undeliverable(snap, r, skipUnknown));
    PickIsChosen(batch, |batch|, snap, held, skipUnknown, Skip, r => Skippable(snap, r, skipUnknown));
    PickIsChosen(batch, |batch|, snap, held, skipUnknown, Ignore, (r: Record) => r.parsed == Nothing);
  }

  /** A partition with a record of a paused table has a first one. */
  lemma {:induction false} SomeFirst(batch: seq<Record>, n: nat, tp: Partition, snap: Snapshot) returns (i: nat)
    requires n < |batch| && batch[n].tp == tp && OnHold(snap, batch[n])
    ensures i <= n && batch[i].tp == tp && FirstPaused(batch, i, snap)
  {
    if j: nat :| j < n && batch[j].tp == tp && OnHold(snap, batch[j]) {
      i := SomeFirst(batch, j, tp, snap);
    } else {
      i := n;
    }
  }

  lemma HoldsMeanIt(h: Offsets, batch: seq<Record>, snap: Snapshot, held: Offsets, skipUnknown: bool)
    requires HoldsMean(h, batch, |batch|, snap, held, skipUnknown)
    ensures HoldsAre(h, batch, snap, held)
  {
    forall i: nat | i < |batch| && OnHold(snap, batch[i]) ensures batch[i].tp in h {
      BlockedMeans(batch, |batch|, batch[i].tp, snap, held, skipUnknown);
    }
    forall tp | tp in h && tp !in held
      ensures exists i: nat | i < |batch| ::
        batch[i].tp == tp && FirstPaused(batch, i, snap) && h[tp] == batch[i].offset
    {
      BlockedMeans(batch, |batch|, tp, snap, held, skipUnknown);
      var n: nat :| n < |batch| && batch[n].tp == tp && OnHold(snap, batch[n]);
      var i := SomeFirst(batch, n, tp, snap);
      BlockedMeans(batch, i, tp, snap, held, skipUnknown);
      DisposeMeans(snap, batch[i], skipUnknown);
      assert FirstHold(batch, i, snap, held, skipUnknown);
    }
    forall tp | tp in held ensures tp in h { BlockedMeans(batch, |batch|, tp, snap, held, skipUnknown); }
  }

  lemma NextMeansIt(next: Offsets, batch: seq<Record>, snap: Snapshot, held: Offsets, skipUnknown: bool)
    requires NextMeans(next, batch, |batch|, snap, held, skipUnknown)
    ensures OffsetsAre(next, batch, snap, held)
  {
    forall i: nat | i < |batch| ensures TakenAt(batch, i, snap, held, skipUnknown) <==> Reached(batch, i, snap, held) {
      TakenIsReached(batch, i, snap, held, skipUnknown);
    }
  }

  /** What a pass does, in terms of the rows of its snapshot. */
  lemma PassMeans(batch: seq<Record>, snap: Snapshot, held: Offsets, skipUnknown: bool)
    ensures PassIs(PlanOf(batch, snap, held, skipUnknown), batch, snap, held, skipUnknown)
  {
    var p := PlanOf(batch, snap, held, skipUnknown);
    PlanMeans(batch, |batch|, snap, held, skipUnknown);
    assert batch[..|batch|] == batch;
    ListsMeanIt(p, batch, snap, held, skipUnknown);
    HoldsMeanIt(p.held, batch, snap, held, skipUnknown);
    NextMeansIt(p.next, batch, snap, held, skipUnknown);
  }

  /** Every record at a chosen position is chosen, and no other. */
  lemma {:induction false} ChosenHolds(rs: seq<Record>, at: set<nat>, r: Record)
    ensures r in Chosen(rs, at) <==> exists i: nat | i < |rs| :: i in at && rs[i] == r
    decreases |rs|
  {
    if rs == [] {
    } else {
      var front := rs[..|rs| - 1];
      ChosenHolds(front, at, r);
      assert forall i: nat | i < |front| :: front[i] == rs[i];
    }
  }

  /** A record in one of a plan's lists is of that list's kind. */
  lemma ListedKinds(batch: seq<Record>, snap: Snapshot, held: Offsets, skipUnknown: bool, r: Record)
    ensures var p := PlanOf(batch, snap, held, skipUnknown);
            && (r in p.writes ==> Ours(snap, r))
            && (r in p.letters ==> Undeliverable(snap, r, skipUnknown))
            && (r in p.skips ==> Skippable(snap, r, skipUnknown))
            && (r in p.ignored ==> r.parsed == Nothing)
  {
    PassMeans(batch, snap, held, skipUnknown);
    ChosenHolds(batch, At(batch, snap, held, x => Ours(snap, x)), r);
    ChosenHolds(batch, At(batch, snap, held, x => Undeliverable(snap, x, skipUnknown)), r);
    ChosenHolds(batch, At(batch, snap, held, x => Skippable(snap, x, skipUnknown)), r);
    ChosenHolds(batch, At(batch, snap, held, (x: Record) => x.parsed == Nothing), r);
  }
}
