/** The tables implement the stored state of the protocol: one transaction is one commit,
    and a restart changes nothing. */
module StorageRefinement {
  import opened Common
  import opened Errors
  import opened Pricing
  import opened Batches
  import opened Storage
  import opened Protocol

  /** Every read of the tables returns the stored state. */
  ghost predicate Shows(t: Tables, c: Committed) {
    && WellFormed(t)
    && t.health.Some?
    && (forall r :: SnapshotRead(t, r) ==> r == Ok(c.snapshot))
    && ShowsHealth(t.health.value, c.health)
  }

  ghost predicate ShowsHealth(rows: map<string, HealthRow>, health: map<string, LastAttempt>) {
    && (forall source :: source in rows <==> source in health)
    && forall source :: source in health ==> rows[source] == EncodeHealth(health[source])
  }

  lemma {:induction false} UpsertsRecordAttempts(rows: map<string, HealthRow>,
                                                 health: map<string, LastAttempt>, results: seq<Fetched>)
    requires ShowsHealth(rows, health)
    ensures ShowsHealth(Upserted(rows, HealthOf(results)), RecordAttempts(health, results))
    decreases |results|
  {
    if results != [] {
      var n := |results| - 1;
      UpsertsRecordAttempts(rows, health, results[..n]);
      assert HealthOf(results)[..n] == HealthOf(results[..n]);
    }
  }

  /** A successful transaction takes the tables from one stored state to the committed next. */
  lemma {:induction false} StoreImplementsCommit(t: Tables, c: Committed, results: seq<Fetched>, unix: int)
    requires Shows(t, c)
    ensures var batch := BatchOf(c.snapshot, results, unix);
            Shows(AfterStore(t, batch.snapshot, batch.health), CommittedAfter(c, results, batch))
  {
    var batch := BatchOf(c.snapshot, results, unix);
    var t' := AfterStore(t, batch.snapshot, batch.health);
    StoreWellFormed(t, batch.snapshot, batch.health);
    UpsertsRecordAttempts(t.health.value, c.health, results);
    forall r | SnapshotRead(t', r) ensures r == Ok(CommittedAfter(c, results, batch).snapshot) {
      if batch.snapshot.Some? {
        SnapshotRoundTrip(t, batch.snapshot.value, batch.health, r);
      } else {
        HealthOnlyStore(t, batch.health, r);
      }
    }
  }

  /** Startup on the current schema shows the same stored state. */
  lemma {:induction false} StartupImplementsRestart(t: Tables, c: Committed)
    requires Shows(t, c) && t.version == SCHEMA_VERSION
    ensures Shows(AfterInit(t), c)
  {
    forall r | SnapshotRead(AfterInit(t), r) ensures r == Ok(c.snapshot) {
      StartupPreservesReads(t, r);
    }
    if Latest(t.snapshots).Some? {
      RowsOfSurviving(t.quotes, SnapshotIds(t.snapshots) - {Latest(t.snapshots).value.id}, 0);
    }
  }
}
