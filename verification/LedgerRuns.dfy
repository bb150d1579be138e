/** Nothing recorded is lost over any run of opens and appends, wherever each of them is cut short. */
module LedgerRuns {
  import opened Common
  import opened PermitModel
  import opened LifecycleModel
  import opened LedgerModel
  import opened LedgerTheorems

  /** A call ends before it touches a file, between tail and metadata recovery, or inside its append. */
  datatype Halt = BeforeTail | AfterTail | Within(cut: Cut)

  /** Calls may come from different handles, each with its own creation time, and find different artifacts. */
  datatype Call =
    | OpenChain(env: Evidenced, now: Time, halt: Option<Halt>)
    | AppendEntry(env: Evidenced, now: Time, halt: Option<Halt>, createdAt: Time, e: Entry)

  ghost predicate Takes(codec: Codec, disk: Disk, c: Call) {
    && c.AppendEntry?
    && var o := Reconcile(codec, c.env, disk, c.now);
    o.Some? && MayAppend(c.env, o.value.scan, c.e)
  }

  ghost predicate Acknowledges(codec: Codec, disk: Disk, c: Call) {
    Takes(codec, disk, c) && c.halt.None?
  }

  function CutOf(h: Option<Halt>): Cut {
    if h.Some? && h.value.Within? then h.value.cut else AfterRename
  }

  /** The files after a call. */
  ghost function After(codec: Codec, disk: Disk, c: Call): Disk {
    var log := RecoverLog(codec, disk.log);
    if c.halt == Some(BeforeTail) || log.None? then disk
    else if c.halt == Some(AfterTail) then disk.(log := log.value)
    else if !Takes(codec, disk, c) then Left(codec, c.env, disk, c.now)
    else Appended(codec, Reconcile(codec, c.env, disk, c.now).value, c.createdAt, c.e, CutOf(c.halt))
  }

  ghost predicate IsRun(codec: Codec, trace: seq<Disk>, calls: seq<Call>) {
    && |trace| == |calls| + 1
    && forall i :: 0 <= i < |calls| ==> trace[i + 1] == After(codec, trace[i], calls[i])
  }

  /** What a log records, however long it is. */
  function Contents(codec: Codec, log: seq<Byte>): Option<Scan> {
    var mended := MendTail(codec, log);
    if mended.None? then None else ScanLog(codec, mended.value)
  }

  function Entries(codec: Codec, log: seq<Byte>): seq<Entry> {
    var s := Contents(codec, log);
    if s.None? then [] else s.value.entries
  }

  // ----- one call -----

  lemma ContentsAreWhole(codec: Codec, log: seq<Byte>)
    requires Contents(codec, log).Some?
    ensures var whole := MendTail(codec, log).value;
            WholeLines(whole) && Contents(codec, whole) == Contents(codec, log) && MendTail(codec, whole) == Some(whole)
  {
    hide MendTail, ScanLines, Live;
    var whole := MendTail(codec, log).value;
    ScannedIsWhole(codec, NOTHING, whole);
    WholeIsMended(codec, whole);
  }

  /** A log is opened exactly when it is not too long and what it records is authoritative. */
  lemma OpensIff(codec: Codec, env: Evidenced, disk: Disk, now: Time)
    requires Contents(codec, disk.log).Some?
    ensures var o := Reconcile(codec, env, disk, now);
            && (o.Some? <==> |disk.log| <= MAX_LOG_BYTES && Authoritative(env, Entries(codec, disk.log)))
            && (o.Some? ==> Some(o.value.scan) == Contents(codec, disk.log) && Some(o.value.disk.log) == MendTail(codec, disk.log))
  {
    hide MendTail, ScanLog, Authoritative;
  }

  lemma CutContents(codec: Codec, env: Evidenced, disk: Disk, now: Time, e: Entry, createdAt: Time, cut: Cut)
    requires Canonical(codec) && Reconcile(codec, env, disk, now).Some?
    requires MayAppend(env, Reconcile(codec, env, disk, now).value.scan, e)
    ensures var o := Reconcile(codec, env, disk, now).value;
            (Contents(codec, Appended(codec, o, createdAt, e, cut).log)
             == Some(if Completes(codec, e, cut) then Extended(codec, o.scan, e) else o.scan))
  {
    hide Authoritative, Live, ScanLines, Canonical, MendTail, MaterialOk, Reconcile, ReceiptsOf;
    var o := Reconcile(codec, env, disk, now).value;
    ReconciledScan(codec, env, disk, now);
    ScanAppended(codec, o.scan, o.disk.log, e);
    LiveOfAuthoritative(env, o.scan.entries + [e]);
    var line := Line(codec, e);
    var n := if cut.AfterBytes? then Min(cut.n, |line|) else |line|;
    MendCut(codec, o.disk.log, e, n);
    assert line[..|line|] == line;
    assert Appended(codec, o, createdAt, e, cut).log == o.disk.log + line[..n];
  }

  /** Whatever becomes of a call, it adds its own entry as a whole or nothing. */
  lemma CallExtends(codec: Codec, disk: Disk, c: Call)
    requires Canonical(codec) && Contents(codec, disk.log).Some?
    ensures var after := Contents(codec, After(codec, disk, c).log);
            && after.Some?
            && (after.value.entries == Entries(codec, disk.log)
                || (Takes(codec, disk, c) && after.value.entries == Entries(codec, disk.log) + [c.e]))
            && (Acknowledges(codec, disk, c) ==> after.value.entries == Entries(codec, disk.log) + [c.e])
  {
    hide Reconcile, MayAppend, Contents, Canonical, MendTail;
    ContentsAreWhole(codec, disk.log);
    OpensIff(codec, c.env, disk, c.now);
    if Takes(codec, disk, c) {
      CutContents(codec, c.env, disk, c.now, c.e, c.createdAt, CutOf(c.halt));
    }
  }

  // ----- whole runs -----

  /**
   * Over any run each log records everything the earlier ones did, in the same
   * order, and an acknowledged entry stays where it was put. No bound on the size
   * of the log is needed; the bound decides only whether the log can be opened.
   */
  lemma {:induction false} NothingIsLost(codec: Codec, trace: seq<Disk>, calls: seq<Call>, i: nat, j: nat)
    requires Canonical(codec) && IsRun(codec, trace, calls) && Contents(codec, trace[0].log).Some?
    requires i <= j < |trace|
    ensures Contents(codec, trace[i].log).Some? && Contents(codec, trace[j].log).Some?
    ensures Entries(codec, trace[i].log) <= Entries(codec, trace[j].log)
    ensures i < j && Acknowledges(codec, trace[i], calls[i])
        ==> Entries(codec, trace[i].log) + [calls[i].e] <= Entries(codec, trace[j].log)
    decreases j
  {
    hide Contents, Acknowledges, Takes, After, Canonical;
    if 0 < j {
      NothingIsLost(codec, trace, calls, if i < j then i else j - 1, j - 1);
      CallExtends(codec, trace[j - 1], calls[j - 1]);
    }
  }

  /** Every append that is taken leaves room for its line. */
  ghost predicate LeavesRoom(codec: Codec, disk: Disk, c: Call) {
    Takes(codec, disk, c) ==> |MendTail(codec, disk.log).value| + |Line(codec, c.e)| <= MAX_LOG_BYTES
  }

  ghost predicate Opens(codec: Codec, env: Evidenced, disk: Disk) {
    && Contents(codec, disk.log).Some? && |disk.log| <= MAX_LOG_BYTES && !Full(codec, disk.log)
    && Authoritative(env, Entries(codec, disk.log))
  }

  lemma WholeIsNotFull(codec: Codec, log: seq<Byte>)
    requires WholeLines(log)
    ensures !Full(codec, log)
  {
  }

  lemma CutHasRoom(codec: Codec, o: Opened, e: Entry, createdAt: Time, cut: Cut)
    requires |o.disk.log| + |Line(codec, e)| <= MAX_LOG_BYTES
    ensures var log := Appended(codec, o, createdAt, e, cut).log; |log| <= MAX_LOG_BYTES && !Full(codec, log)
  {
    hide TailStart;
    var log, line := Appended(codec, o, createdAt, e, cut).log, Line(codec, e);
    if |log| == MAX_LOG_BYTES {
      assert log == o.disk.log + line;
      WholeIsNotFull(codec, log);
    }
  }

  lemma CallKeepsOpen(codec: Codec, env: Evidenced, disk: Disk, c: Call)
    requires Canonical(codec) && Opens(codec, env, disk) && c.env == env && LeavesRoom(codec, disk, c)
    ensures Opens(codec, env, After(codec, disk, c))
  {
    hide Contents, Canonical, MendTail, Full, Authoritative, Reconcile;
    CallExtends(codec, disk, c);
    ContentsAreWhole(codec, disk.log);
    OpensIff(codec, env, disk, c.now);
    MendedLength(codec, disk.log);
    WholeIsNotFull(codec, MendTail(codec, disk.log).value);
    if Takes(codec, disk, c) {
      var o := Reconcile(codec, env, disk, c.now).value;
      CutHasRoom(codec, o, c.e, c.createdAt, CutOf(c.halt));
    }
  }

  /** As long as the appends leave room, a log that opens opens after every call, however it was cut. */
  lemma {:induction false} StaysOpen(codec: Codec, env: Evidenced, trace: seq<Disk>, calls: seq<Call>, j: nat, now: Time)
    requires Canonical(codec) && IsRun(codec, trace, calls) && Opens(codec, env, trace[0]) && j < |trace|
    requires forall i :: 0 <= i < |calls| ==> calls[i].env == env && LeavesRoom(codec, trace[i], calls[i])
    ensures Opens(codec, env, trace[j])
    ensures var o := Reconcile(codec, env, trace[j], now);
            && o.Some? && Some(o.value.scan) == Contents(codec, trace[j].log)
            && Reconcile(codec, env, o.value.disk, now) == o
    decreases j
  {
    hide Contents, LeavesRoom, After, Canonical, Authoritative, Full, Reconcile;
    if 0 < j {
      StaysOpen(codec, env, trace, calls, j - 1, now);
      CallKeepsOpen(codec, env, trace[j - 1], calls[j - 1]);
    }
    OpensIff(codec, env, trace[j], now);
    ReconcileIsIdempotent(codec, env, trace[j], now, now);
  }
}
