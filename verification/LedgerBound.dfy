/** The size bound is reached: every codec and every environment has a log that an acknowledged append makes unreadable. */
module LedgerBound {
  import opened Common
  import opened PermitModel
  import opened LifecycleModel
  import opened LifecycleTheorems
  import opened ContinuityModel
  import opened LedgerModel
  import opened LedgerTheorems
  import opened LedgerRuns

  // ----- a run that prepares one child after the other -----

  /** The `k`th receipt: the start of the run, then children told apart by the length of their digest. */
  function Nth(k: nat): Receipt {
    Receipt("run", "", if k == 0 then RunStarted else ChildAdmissionPrepared, 0, LINEAGE, "", seq(k, i => 'a'), [], Ok)
  }

  function Grown(codec: Codec, k: nat): seq<Entry> {
    if k == 0 then [] else Grown(codec, k - 1) + [Entry(Nth(k - 1), HeadOf(codec, Grown(codec, k - 1)))]
  }

  function Next(codec: Codec, k: nat): Entry {
    Entry(Nth(k), HeadOf(codec, Grown(codec, k)))
  }

  lemma NthIsMaterial(k: nat)
    ensures MaterialOk(Nth(k))
  {
  }

  lemma OneMore(codec: Codec, k: nat)
    ensures var g, n := Grown(codec, k), Grown(codec, k + 1);
            && |n| == |g| + 1 && n[..|n| - 1] == g && n[|g|] == Next(codec, k) && n == g + [Next(codec, k)]
            && ReceiptsOf(n)[..|n| - 1] == ReceiptsOf(g) && ReceiptsOf(n)[|g|] == Nth(k)
  {
    var g, n := Grown(codec, k), Grown(codec, k + 1);
    assert ReceiptsOf(n)[..|n| - 1] == ReceiptsOf(g);
  }

  lemma {:induction false} GrownIsChained(codec: Codec, k: nat)
    ensures Chained(codec, Grown(codec, k)) && |Grown(codec, k)| == k
  {
    hide MaterialOk;
    if 0 < k {
      GrownIsChained(codec, k - 1);
      OneMore(codec, k - 1);
      NthIsMaterial(k - 1);
    }
  }

  /** Nothing ends the run, and the digests prepared so far are shorter than the next. */
  ghost predicate Preparing(l: Life, k: nat) {
    && l.count == k && l.terminal.None? && !l.finalized && (l.run.Some? ==> l.run.value == "run")
    && forall x :: x in l.prepared ==> |x| < k
  }

  lemma NextIsTaken(l: Life, k: nat)
    requires Preparing(l, k)
    ensures Advance(l, Nth(k)).Some? && Preparing(Advance(l, Nth(k)).value, k + 1)
  {
    NthIsMaterial(k);
  }

  lemma {:induction false} GrownIsLive(codec: Codec, k: nat)
    ensures Live(ReceiptsOf(Grown(codec, k))).Some? && Preparing(Live(ReceiptsOf(Grown(codec, k))).value, k)
  {
    hide Advance, Preparing, Grown, Nth, HeadOf;
    if k == 0 {
      StartsUnborn(codec);
    } else {
      GrownIsLive(codec, k - 1);
      OneMore(codec, k - 1);
      NextIsTaken(Live(ReceiptsOf(Grown(codec, k - 1))).value, k - 1);
    }
  }

  lemma StartsUnborn(codec: Codec)
    ensures ReceiptsOf(Grown(codec, 0)) == [] && Preparing(UNBORN, 0)
  {
  }

  lemma {:induction false} GrownIsAdmitted(codec: Codec, files: Attachments, k: nat)
    ensures Admitted(files, ReceiptsOf(Grown(codec, k))).Some?
  {
    if 0 < k {
      GrownIsAdmitted(codec, files, k - 1);
      OneMore(codec, k - 1);
    }
  }

  lemma {:induction false} GrownIsTold(codec: Codec, digest: Digest, proofs: Proofs, k: nat)
    ensures Told(digest, proofs, ReceiptsOf(Grown(codec, k))).Some?
  {
    if 0 < k {
      GrownIsTold(codec, digest, proofs, k - 1);
      OneMore(codec, k - 1);
    }
  }

  lemma {:induction false} GrownHasNoArtifacts(codec: Codec, k: nat, e: Entry)
    requires e in Grown(codec, k)
    ensures e.receipt.artifacts == []
  {
    if e in Grown(codec, k - 1) {
      GrownHasNoArtifacts(codec, k - 1, e);
    }
  }

  lemma GrownIsAuthoritative(codec: Codec, env: Evidenced, k: nat)
    ensures Authoritative(env, Grown(codec, k))
  {
    hide Live, Admitted, Told, Grown;
    var rs := ReceiptsOf(Grown(codec, k));
    GrownIsLive(codec, k);
    GrownIsAdmitted(codec, env.files, k);
    GrownIsTold(codec, env.digest, Proofs(env.files.evidence, Admitted(env.files, rs).value), k);
    forall e | e in Grown(codec, k) ensures e.receipt.artifacts == [] {
      GrownHasNoArtifacts(codec, k, e);
    }
  }

  // ----- the line that crosses the bound -----

  function Size(codec: Codec, k: nat): nat {
    |LogOf(codec, Grown(codec, k))|
  }

  lemma {:induction false} SizeGrows(codec: Codec, k: nat)
    ensures k <= Size(codec, k)
    ensures Size(codec, k + 1) == Size(codec, k) + |Line(codec, Next(codec, k))|
  {
    GrownIsChained(codec, k);
    OneMore(codec, k);
    if 0 < k {
      SizeGrows(codec, k - 1);
    }
  }

  lemma {:induction false} Crossing(codec: Codec, n: nat) returns (k: nat)
    requires MAX_LOG_BYTES < Size(codec, n)
    ensures k < n && Size(codec, k) <= MAX_LOG_BYTES < Size(codec, k + 1)
  {
    if n == 0 {
      EmptyLog(codec);
    } else if MAX_LOG_BYTES < Size(codec, n - 1) {
      k := Crossing(codec, n - 1);
    } else {
      k := n - 1;
    }
  }

  lemma GrownOpens(codec: Codec, env: Evidenced, k: nat, now: Time)
    requires Canonical(codec) && Size(codec, k) <= MAX_LOG_BYTES
    ensures var o := Reconcile(codec, env, Disk(LogOf(codec, Grown(codec, k)), None), now);
            && o.Some? && o.value.disk.log == LogOf(codec, Grown(codec, k)) && o.value.scan.entries == Grown(codec, k)
            && o.value.scan.head == HeadOf(codec, Grown(codec, k)) && Next(codec, k).predecessor == o.value.scan.head
            && ReceiptId(Next(codec, k)) !in o.value.scan.ids
  {
    hide Canonical, Chained, Live, Authoritative, MendTail, Grown, LogOf, HeadOf, ScanLines;
    var log := LogOf(codec, Grown(codec, k));
    GrownIsChained(codec, k);
    GrownIsLive(codec, k);
    GrownIsAuthoritative(codec, env, k);
    EncodingScans(codec, Grown(codec, k));
    ScannedIsWhole(codec, NOTHING, log);
    WholeIsMended(codec, log);
    HeadMakesUnique(codec, log, Next(codec, k));
  }

  /**
   * For every codec and every environment there are a log and an entry such that
   * the append is acknowledged and nobody can open the log again.
   */
  lemma AppendCanOutgrow(codec: Codec, env: Evidenced, now: Time, createdAt: Time) returns (disk: Disk, e: Entry)
    requires Canonical(codec)
    ensures var o := Reconcile(codec, env, disk, now);
            o.Some? && MayAppend(env, o.value.scan, e) && !AlwaysRecoverable(codec, env, o.value, createdAt, e)
    ensures var c := AppendEntry(env, now, None, createdAt, e);
            && Acknowledges(codec, disk, c)
            && forall any: Evidenced, later: Time :: Reconcile(codec, any, After(codec, disk, c), later).None?
  {
    hide Canonical, Reconcile, Authoritative, Grown, LogOf, HeadOf, MaterialOk, AlwaysRecoverable, RecoverLog;
    SizeGrows(codec, MAX_LOG_BYTES + 1);
    var k := Crossing(codec, MAX_LOG_BYTES + 1);
    disk, e := Disk(LogOf(codec, Grown(codec, k)), None), Next(codec, k);
    GrownOpens(codec, env, k, now);
    OneMore(codec, k);
    GrownIsAuthoritative(codec, env, k + 1);
    NthIsMaterial(k);
    SizeGrows(codec, k);
    RecoverableIff(codec, env, disk, now, e, createdAt);
    var c := AppendEntry(env, now, None, createdAt, e);
    forall any: Evidenced, later: Time ensures Reconcile(codec, any, After(codec, disk, c), later).None? {
      Outgrown(codec, disk, c);
      TooLong(codec, any, After(codec, disk, c), later);
    }
  }

  lemma Outgrown(codec: Codec, disk: Disk, c: Call)
    requires Acknowledges(codec, disk, c)
    requires |Reconcile(codec, c.env, disk, c.now).value.disk.log| + |Line(codec, c.e)| > MAX_LOG_BYTES
    ensures |After(codec, disk, c).log| > MAX_LOG_BYTES
  {
    hide MayAppend, MendTail, ScanLog, Authoritative;
  }

  // ----- recovery itself can cross the bound -----

  /** Completing the last record of a log that is as long as may be read leaves one that is not read any more. */
  lemma CompletionOutgrows(codec: Codec, env: Evidenced, entries: seq<Entry>, now: Time)
    requires Canonical(codec) && Chained(codec, entries) && Authoritative(env, entries)
    requires |LogOf(codec, entries)| == MAX_LOG_BYTES + 1
    ensures var disk := Disk(LogOf(codec, entries)[..MAX_LOG_BYTES], None);
            var o := Reconcile(codec, env, disk, now);
            && Full(codec, disk.log) && o.Some? && o.value.scan.entries == entries
            && forall any: Evidenced, later: Time :: Reconcile(codec, any, o.value.disk, later).None?
  {
    hide MendTail, TailStart, Live, Authoritative, MaterialOk, HeadOf, ScanLines;
    var front, last := entries[..|entries| - 1], entries[|entries| - 1];
    var log, raw := LogOf(codec, front), codec.encode(last);
    EncodingScans(codec, front);
    EncodingScans(codec, entries);
    ScannedIsWhole(codec, NOTHING, log);
    var cut := LogOf(codec, entries)[..MAX_LOG_BYTES];
    assert cut == log + raw && cut == log + Line(codec, last)[..|raw|];
    MendCut(codec, log, last, |raw|);
    TailOf(log, raw);
    assert cut[|log|..] == raw && cut[|cut| - 1] == raw[|raw| - 1];
    LiveOfAuthoritative(env, entries);
    var o := Reconcile(codec, env, Disk(cut, None), now).value;
    forall any: Evidenced, later: Time ensures Reconcile(codec, any, o.disk, later).None? {
      TooLong(codec, any, o.disk, later);
    }
  }
}
