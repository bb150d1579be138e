/** Which ledgers can still be brought to a finalized run. */
module LedgerEndings {
  import opened PermitModel
  import opened LifecycleModel
  import opened ContinuityModel
  import opened ContinuityEndings
  import opened ContinuityFinish
  import opened ContinuityStranded
  import opened LedgerModel

  /** Artifacts may be added to a run directory, none is lost. */
  ghost predicate Enriched(env: Evidenced, more: Evidenced) {
    more.digest == env.digest && Grown(env.files, more.files) && env.present <= more.present
  }

  predicate Finalized(entries: seq<Entry>) {
    Accepted(ReceiptsOf(entries), StrictCurrent)
  }

  ghost predicate Finishable(env: Evidenced, entries: seq<Entry>) {
    exists more: Evidenced, ext: seq<Entry> :: Enriched(env, more) && Authoritative(more, entries + ext) && Finalized(entries + ext)
  }

  lemma ReceiptsOfBoth(a: seq<Entry>, b: seq<Entry>)
    ensures ReceiptsOf(a + b) == ReceiptsOf(a) + ReceiptsOf(b)
  {
  }

  function EntriesOf(rs: seq<Receipt>): seq<Entry> {
    seq(|rs|, i requires 0 <= i < |rs| => Entry(rs[i], Genesis))
  }

  function ArtifactsOf(rs: seq<Receipt>): set<Descriptor> {
    set r, a | r in rs && a in r.artifacts :: a
  }

  lemma EntriesRead(rs: seq<Receipt>)
    ensures ReceiptsOf(EntriesOf(rs)) == rs
    ensures forall e, a :: e in EntriesOf(rs) && a in e.receipt.artifacts ==> a in ArtifactsOf(rs)
  {
  }

  lemma StoredInTime(env: Evidenced, entries: seq<Entry>, files: Attachments, ext: seq<Receipt>)
    requires Authoritative(env, entries) && Grown(env.files, files) && Concluded(env.digest, files, ReceiptsOf(entries) + ext)
    ensures Finishable(env, entries)
  {
    hide Live, Continuous, ReceiptsOf, EntriesOf, ArtifactsOf;
    var more := Evidenced(env.digest, files, env.present + ArtifactsOf(ext));
    EntriesRead(ext);
    ReceiptsOfBoth(entries, EntriesOf(ext));
    assert Continuous(env.digest, files, ReceiptsOf(entries) + ext) by { TaleIsContinuous(env.digest, files, ReceiptsOf(entries) + ext); }
    assert Enriched(env, more);
    assert Authoritative(more, entries + EntriesOf(ext)) && Finalized(entries + EntriesOf(ext));
  }

  lemma TaleIsContinuous(digest: Digest, files: Attachments, rs: seq<Receipt>)
    ensures Tale(digest, files, rs).Some? <==> Continuous(digest, files, rs)
  {
  }

  /** A begun and unfinished authoritative log can be brought to a finalized one exactly when it is not stranded. */
  lemma FinishableUnlessStranded(env: Evidenced, entries: seq<Entry>)
    requires Authoritative(env, entries) && entries != [] && !Live(ReceiptsOf(entries)).value.finalized
    ensures Finishable(env, entries)
       <==> !Stranded(Live(ReceiptsOf(entries)).value, Tale(env.digest, env.files, ReceiptsOf(entries)).value)
  {
    hide Live, Continuous, Tale, Stranded, Concluded, Enriched;
    var rs := ReceiptsOf(entries);
    FinishableIff(env.digest, env.files, rs);
    if CanFinish(env.digest, env.files, rs) {
      var files, ext :| Grown(env.files, files) && Concluded(env.digest, files, rs + ext);
      StoredInTime(env, entries, files, ext);
    }
    if Finishable(env, entries) {
      var more, ext :| Enriched(env, more) && Authoritative(more, entries + ext) && Finalized(entries + ext);
      ReceiptsOfBoth(entries, ext);
      assert Concluded(env.digest, more.files, rs + ReceiptsOf(ext)) && Grown(env.files, more.files) by {
        EnrichedFiles(env, more);
        TaleIsContinuous(env.digest, more.files, rs + ReceiptsOf(ext));
        ConcludedFrom(env.digest, more.files, rs + ReceiptsOf(ext));
      }
    }
  }

  lemma EnrichedFiles(env: Evidenced, more: Evidenced)
    requires Enriched(env, more)
    ensures Grown(env.files, more.files) && more.digest == env.digest
  {
  }

  lemma ConcludedFrom(digest: Digest, files: Attachments, rs: seq<Receipt>)
    requires Accepted(rs, StrictCurrent) && Tale(digest, files, rs).Some?
    ensures Concluded(digest, files, rs)
  {
  }

  /** Some authoritative log can never be brought to a finalized one. */
  lemma SomeLogIsStranded(digest: Digest) returns (env: Evidenced, entries: seq<Entry>)
    ensures Authoritative(env, entries) && entries != [] && !Finishable(env, entries)
  {
    hide Live, Continuous, Tale, Concluded, CanFinish, Stranded;
    env, entries := Evidenced(digest, FILES, ArtifactsOf(TRANSCRIPT)), EntriesOf(TRANSCRIPT);
    EntriesRead(TRANSCRIPT);
    StrandedIsReached(digest);
    FinishableIff(digest, FILES, TRANSCRIPT);
    FinishableUnlessStranded(env, entries);
  }
}
