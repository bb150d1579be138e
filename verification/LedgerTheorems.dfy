/** The log is what its scan says, its head commits to it, and an append is atomic under any cut. */
module LedgerTheorems {
  import opened Common
  import opened PermitModel
  import opened LifecycleModel
  import opened LedgerModel

  // ----- scan and encoding are inverse -----

  function LogOf(codec: Codec, entries: seq<Entry>): seq<Byte> {
    if entries == [] then [] else LogOf(codec, entries[..|entries| - 1]) + Line(codec, entries[|entries| - 1])
  }

  /** Scanning a record adds exactly its line. */
  lemma ScanLineIs(codec: Codec, s: Scan, raw: seq<Byte>)
    requires ScanLine(codec, s, raw).Some?
    ensures var t := ScanLine(codec, s, raw).value;
            && |t.entries| == |s.entries| + 1 && t.entries[..|s.entries|] == s.entries
            && raw == codec.encode(t.entries[|s.entries|]) && t.entries[|s.entries|].predecessor == s.head
            && t == Extended(codec, s, t.entries[|s.entries|])
  {
  }

  lemma OneLineMore(codec: Codec, s: Scan, raw: seq<Byte>)
    requires ScanLine(codec, s, raw).Some?
    ensures LogOf(codec, ScanLine(codec, s, raw).value.entries) == LogOf(codec, s.entries) + (raw + [NEWLINE])
    ensures Unrolled(ScanLine(codec, s, raw).value.head) == Unrolled(s.head) + (raw + [NEWLINE])
  {
  }

  lemma Regroup(a: seq<Byte>, line: seq<Byte>, rest: seq<Byte>, bytes: seq<Byte>)
    requires bytes == line + rest
    ensures (a + line) + rest == a + bytes
  {
  }

  lemma {:induction false} ScanIsEncoding(codec: Codec, s: Scan, bytes: seq<Byte>)
    requires ScanLines(codec, s, bytes).Some?
    ensures LogOf(codec, ScanLines(codec, s, bytes).value.entries) == LogOf(codec, s.entries) + bytes
    ensures Unrolled(ScanLines(codec, s, bytes).value.head) == Unrolled(s.head) + bytes
    decreases |bytes|
  {
    hide LogOf, Unrolled, ScanLine;
    if bytes == [] {
      assert LogOf(codec, s.entries) + bytes == LogOf(codec, s.entries);
      assert Unrolled(s.head) + bytes == Unrolled(s.head);
    } else {
      var n := LineLength(bytes);
      var raw, rest := bytes[..n], bytes[n + 1..];
      OneLineMore(codec, s, raw);
      ScanIsEncoding(codec, ScanLine(codec, s, raw).value, rest);
      assert bytes == (raw + [NEWLINE]) + rest;
      Regroup(LogOf(codec, s.entries), raw + [NEWLINE], rest, bytes);
      Regroup(Unrolled(s.head), raw + [NEWLINE], rest, bytes);
    }
  }

  /** The bytes a chain digest was taken over, line by line. */
  function Unrolled(c: Chain): seq<Byte> {
    match c
    case Genesis => []
    case Link(p, record) => Unrolled(p) + record + [NEWLINE]
  }

  lemma ReadsBack(codec: Codec, bytes: seq<Byte>)
    requires ScanLog(codec, bytes).Some?
    ensures bytes == LogOf(codec, ScanLog(codec, bytes).value.entries)
    ensures bytes == Unrolled(ScanLog(codec, bytes).value.head)
  {
    hide Live, ScanLines, Unrolled, LogOf;
    ScanIsEncoding(codec, NOTHING, bytes);
    assert LogOf(codec, []) == [] && Unrolled(Genesis) == [] by { EmptyLog(codec); }
    assert [] + bytes == bytes;
  }

  lemma EmptyLog(codec: Codec)
    ensures LogOf(codec, []) == [] && Unrolled(Genesis) == []
  {
  }

  /** The head commits to the log: two accepted logs with the same head are the same bytes. */
  lemma HeadCommits(codec: Codec, a: seq<Byte>, b: seq<Byte>)
    requires ScanLog(codec, a).Some? && ScanLog(codec, b).Some?
    requires ScanLog(codec, a).value.head == ScanLog(codec, b).value.head
    ensures a == b && ScanLog(codec, a) == ScanLog(codec, b)
  {
    hide ScanLog;
    ReadsBack(codec, a);
    ReadsBack(codec, b);
  }

  // ----- scanning a longer log -----

  ghost predicate WholeLines(bytes: seq<Byte>) {
    bytes == [] || bytes[|bytes| - 1] == NEWLINE
  }

  lemma {:induction false} LineOfLonger(a: seq<Byte>, b: seq<Byte>)
    requires NEWLINE in a
    ensures NEWLINE in a + b && LineLength(a + b) == LineLength(a)
  {
    assert (a + b)[0] == a[0];
    assert NEWLINE in a + b by { var i :| 0 <= i < |a| && a[i] == NEWLINE; assert (a + b)[i] == NEWLINE; }
    if a[0] != NEWLINE {
      assert (a + b)[1..] == a[1..] + b;
      assert NEWLINE in a[1..];
      LineOfLonger(a[1..], b);
    }
  }

  lemma {:induction false} ScanConcat(codec: Codec, s: Scan, a: seq<Byte>, b: seq<Byte>)
    requires ScanLines(codec, s, a).Some?
    ensures ScanLines(codec, s, a + b) == ScanLines(codec, ScanLines(codec, s, a).value, b)
    decreases |a|
  {
    hide ScanLine;
    if a == [] {
      assert a + b == b;
    } else {
      LineOfLonger(a, b);
      var n := LineLength(a);
      assert (a + b)[..n] == a[..n];
      assert (a + b)[n + 1..] == a[n + 1..] + b;
      ScanConcat(codec, ScanLine(codec, s, a[..n]).value, a[n + 1..], b);
    }
  }

  lemma {:induction false} ScannedIsWhole(codec: Codec, s: Scan, bytes: seq<Byte>)
    requires ScanLines(codec, s, bytes).Some?
    ensures WholeLines(bytes)
    decreases |bytes|
  {
    hide ScanLine;
    if bytes != [] {
      var n := LineLength(bytes);
      ScannedIsWhole(codec, ScanLine(codec, s, bytes[..n]).value, bytes[n + 1..]);
      assert bytes[n + 1..] != [] ==> bytes[n + 1..][|bytes| - n - 2] == bytes[|bytes| - 1];
    }
  }

  lemma FirstLine(raw: seq<Byte>)
    requires NEWLINE !in raw
    ensures NEWLINE in raw + [NEWLINE] && LineLength(raw + [NEWLINE]) == |raw|
  {
  }

  /** A complete new line is read as the new entry. */
  lemma ScanAppended(codec: Codec, s: Scan, log: seq<Byte>, e: Entry)
    requires Canonical(codec) && ScanLines(codec, NOTHING, log) == Some(s)
    requires e.predecessor == s.head && ReceiptId(e) !in s.ids && MaterialOk(e.receipt)
    ensures ScanLines(codec, NOTHING, log + Line(codec, e)) == Some(Extended(codec, s, e))
  {
    hide MaterialOk;
    var raw := codec.encode(e);
    ScanConcat(codec, NOTHING, log, Line(codec, e));
    FirstLine(raw);
    var line := Line(codec, e);
    assert line[..|raw|] == raw && line[|raw| + 1..] == [];
    assert ScanLines(codec, Extended(codec, s, e), []) == Some(Extended(codec, s, e));
  }

  // ----- recovering a cut append -----

  lemma {:induction false} TailOf(log: seq<Byte>, part: seq<Byte>)
    requires WholeLines(log) && NEWLINE !in part
    ensures TailStart(log + part) == |log|
    decreases |part|
  {
    if part == [] {
      assert log + part == log;
    } else {
      var n := |part| - 1;
      assert (log + part)[..|log| + n] == log + part[..n];
      assert (log + part)[|log| + n] == part[n];
      TailOf(log, part[..n]);
    }
  }

  /** Whatever part of the line was written, recovery takes it away or completes it. */
  lemma MendCut(codec: Codec, log: seq<Byte>, e: Entry, n: nat)
    requires Canonical(codec) && WholeLines(log) && MaterialOk(e.receipt) && n <= |Line(codec, e)|
    ensures MendTail(codec, log + Line(codec, e)[..n])
         == Some(if n < |codec.encode(e)| then log else log + Line(codec, e))
  {
    hide MaterialOk, TailStart;
    var raw, line := codec.encode(e), Line(codec, e);
    var bytes := log + line[..n];
    if n == |line| {
      assert line[..n] == line && bytes[|bytes| - 1] == NEWLINE;
    } else if n == 0 {
      assert bytes == log;
    } else {
      assert line[..n] == raw[..n];
      assert bytes[|bytes| - 1] == raw[n - 1];
      TailOf(log, raw[..n]);
      assert bytes[|log|..] == raw[..n] && bytes[..|log|] == log;
      if n == |raw| {
        assert raw[..n] == raw && bytes + [NEWLINE] == log + line;
      }
    }
  }

  /** A log as long as recovery reads, whose last record is complete but for its newline. */
  predicate Full(codec: Codec, log: seq<Byte>) {
    |log| == MAX_LOG_BYTES && log[|log| - 1] != NEWLINE && codec.parse(log[TailStart(log)..]).Value?
  }

  lemma MendedLength(codec: Codec, log: seq<Byte>)
    requires RecoverLog(codec, log).Some?
    ensures |RecoverLog(codec, log).value| <= MAX_LOG_BYTES <==> !Full(codec, log)
  {
    hide MaterialOk, TailStart;
  }

  /**
   * Recovery of recovered files changes nothing, unless completing the last record
   * took the log over the bound; then the recovered log is never read again.
   */
  lemma ReconcileIsIdempotent(codec: Codec, env: Evidenced, disk: Disk, now: Time, later: Time)
    requires Reconcile(codec, env, disk, now).Some?
    ensures var o := Reconcile(codec, env, disk, now).value;
            Reconcile(codec, env, o.disk, later) == if Full(codec, disk.log) then None else Some(o)
  {
    hide Authoritative, Live, ScanLines, MendTail, Full;
    var o := Reconcile(codec, env, disk, now).value;
    ScannedIsWhole(codec, NOTHING, o.disk.log);
    MendedLength(codec, disk.log);
    assert MendTail(codec, o.disk.log) == Some(o.disk.log) by { WholeIsMended(codec, o.disk.log); }
  }

  lemma WholeIsMended(codec: Codec, log: seq<Byte>)
    requires WholeLines(log)
    ensures MendTail(codec, log) == Some(log)
  {
  }

  lemma ReconciledScan(codec: Codec, env: Evidenced, disk: Disk, now: Time)
    requires Reconcile(codec, env, disk, now).Some?
    ensures var o := Reconcile(codec, env, disk, now).value;
            && ScanLines(codec, NOTHING, o.disk.log) == Some(o.scan) && WholeLines(o.disk.log)
            && Authoritative(env, o.scan.entries) && ScanLog(codec, o.disk.log) == Some(o.scan)
            && o.disk.meta == Some(MetaFor(o.scan, o.createdAt))
  {
    hide Authoritative, Live, ScanLines, TailStart;
    ScannedIsWhole(codec, NOTHING, Reconcile(codec, env, disk, now).value.disk.log);
  }

  /** The old chain, or the old chain and the whole new entry. */
  ghost predicate OldOrNew(codec: Codec, o: Opened, e: Entry, createdAt: Time, after: Option<Opened>, complete: bool) {
    && after.Some?
    && after.value.scan == (if complete then Extended(codec, o.scan, e) else o.scan)
    && after.value.disk.log == (if complete then o.disk.log + Line(codec, e) else o.disk.log)
    && after.value.disk.meta == Some(MetaFor(after.value.scan, after.value.createdAt))
    && (after.value.createdAt == o.createdAt || after.value.createdAt == createdAt)
  }

  predicate Completes(codec: Codec, e: Entry, cut: Cut) {
    cut.AfterBytes? ==> |codec.encode(e)| <= cut.n
  }

  lemma LiveOfAuthoritative(env: Evidenced, entries: seq<Entry>)
    requires Authoritative(env, entries)
    ensures Live(ReceiptsOf(entries)).Some?
  {
  }

  /**
   * Crash atomicity: wherever an append that fits the log is cut, recovery gives
   * back the old chain or the old chain with the whole new receipt, with metadata
   * to match, and recovering again changes nothing.
   */
  lemma AppendIsAtomic(codec: Codec, env: Evidenced, disk: Disk, now: Time, e: Entry, createdAt: Time, cut: Cut, later: Time)
    requires Canonical(codec) && Reconcile(codec, env, disk, now).Some?
    requires MayAppend(env, Reconcile(codec, env, disk, now).value.scan, e)
    requires |Reconcile(codec, env, disk, now).value.disk.log| + |Line(codec, e)| <= MAX_LOG_BYTES
    ensures var o := Reconcile(codec, env, disk, now).value;
            var after := Reconcile(codec, env, Appended(codec, o, createdAt, e, cut), later);
            && OldOrNew(codec, o, e, createdAt, after, Completes(codec, e, cut))
            && forall again :: Reconcile(codec, env, after.value.disk, again) == after
  {
    hide Authoritative, Live, ScanLines, Canonical, MendTail, MaterialOk, Full;
    var o := Reconcile(codec, env, disk, now).value;
    ReconciledScan(codec, env, disk, now);
    ScanAppended(codec, o.scan, o.disk.log, e);
    LiveOfAuthoritative(env, o.scan.entries + [e]);
    var line := Line(codec, e);
    var n := if cut.AfterBytes? then Min(cut.n, |line|) else |line|;
    MendCut(codec, o.disk.log, e, n);
    assert line[..|line|] == line;
    var left := Appended(codec, o, createdAt, e, cut);
    assert left.log == o.disk.log + line[..n];
    var after := Reconcile(codec, env, left, later);
    forall again ensures Reconcile(codec, env, after.value.disk, again) == after {
      ReconcileIsIdempotent(codec, env, left, later, again);
      MendedLength(codec, left.log);
    }
  }

  // ----- the size bound -----

  /** Every cut can be recovered from, any number of times. */
  ghost predicate AlwaysRecoverable(codec: Codec, env: Evidenced, o: Opened, createdAt: Time, e: Entry) {
    forall cut: Cut, later: Time, again: Time :: RecoversTwice(codec, env, Appended(codec, o, createdAt, e, cut), later, again)
  }

  ghost predicate RecoversTwice(codec: Codec, env: Evidenced, left: Disk, later: Time, again: Time) {
    var after := Reconcile(codec, env, left, later);
    after.Some? && Reconcile(codec, env, after.value.disk, again).Some?
  }

  lemma TooLong(codec: Codec, env: Evidenced, disk: Disk, now: Time)
    requires |disk.log| > MAX_LOG_BYTES
    ensures Reconcile(codec, env, disk, now).None?
  {
  }

  /**
   * An append does not look at the size of the log. A log that takes the record is
   * recoverable whatever happens exactly when old log and new line together stay
   * within the bound that recovery reads.
   */
  lemma RecoverableIff(codec: Codec, env: Evidenced, disk: Disk, now: Time, e: Entry, createdAt: Time)
    requires Canonical(codec) && Reconcile(codec, env, disk, now).Some?
    requires MayAppend(env, Reconcile(codec, env, disk, now).value.scan, e)
    ensures var o := Reconcile(codec, env, disk, now).value;
            AlwaysRecoverable(codec, env, o, createdAt, e) <==> |o.disk.log| + |Line(codec, e)| <= MAX_LOG_BYTES
  {
    hide Canonical, MayAppend, Reconcile;
    var o := Reconcile(codec, env, disk, now).value;
    if |o.disk.log| + |Line(codec, e)| <= MAX_LOG_BYTES {
      forall cut: Cut, later: Time, again: Time
        ensures RecoversTwice(codec, env, Appended(codec, o, createdAt, e, cut), later, again)
      {
        AppendIsAtomic(codec, env, disk, now, e, createdAt, cut, later);
      }
    } else {
      TooLong(codec, env, Appended(codec, o, createdAt, e, AfterRename), now);
      assert !RecoversTwice(codec, env, Appended(codec, o, createdAt, e, AfterRename), now, now);
    }
  }

  // ----- a predecessor is never reused -----

  function ChainLength(c: Chain): nat {
    match c
    case Genesis => 0
    case Link(p, _) => 1 + ChainLength(p)
  }

  ghost predicate IdsBehind(s: Scan) {
    forall x :: x in s.ids ==> ChainLength(x.predecessor) < ChainLength(s.head)
  }

  lemma {:induction false} ScanKeepsIdsBehind(codec: Codec, s: Scan, bytes: seq<Byte>)
    requires IdsBehind(s) && ScanLines(codec, s, bytes).Some?
    ensures IdsBehind(ScanLines(codec, s, bytes).value)
    decreases |bytes|
  {
    if bytes != [] {
      var n := LineLength(bytes);
      ScanKeepsIdsBehind(codec, ScanLine(codec, s, bytes[..n]).value, bytes[n + 1..]);
    }
  }

  /** A receipt that names the current head is never a duplicate: its id binds the head. */
  lemma HeadMakesUnique(codec: Codec, bytes: seq<Byte>, e: Entry)
    requires ScanLog(codec, bytes).Some? && e.predecessor == ScanLog(codec, bytes).value.head
    ensures ReceiptId(e) !in ScanLog(codec, bytes).value.ids
  {
    hide Live, ScanLines;
    ScanKeepsIdsBehind(codec, NOTHING, bytes);
  }

  // ----- exactly the chained logs are accepted -----

  function HeadOf(codec: Codec, entries: seq<Entry>): Chain {
    if entries == [] then Genesis
    else Link(HeadOf(codec, entries[..|entries| - 1]), codec.encode(entries[|entries| - 1]))
  }

  /** Each entry names the head of everything before it. */
  predicate Chained(codec: Codec, entries: seq<Entry>) {
    entries == [] ||
    var front, last := entries[..|entries| - 1], entries[|entries| - 1];
    Chained(codec, front) && last.predecessor == HeadOf(codec, front) && MaterialOk(last.receipt)
  }

  lemma {:induction false} EncodingScans(codec: Codec, entries: seq<Entry>)
    requires Canonical(codec) && Chained(codec, entries)
    ensures var s := ScanLines(codec, NOTHING, LogOf(codec, entries));
            s.Some? && s.value.entries == entries && s.value.head == HeadOf(codec, entries) && IdsBehind(s.value)
  {
    hide Canonical, MaterialOk, ScanLine, Line;
    if entries == [] {
      assert ScanLines(codec, NOTHING, []) == Some(NOTHING);
    } else {
      var front, last := entries[..|entries| - 1], entries[|entries| - 1];
      EncodingScans(codec, front);
      var s := ScanLines(codec, NOTHING, LogOf(codec, front)).value;
      ScanAppended(codec, s, LogOf(codec, front), last);
      assert front + [last] == entries;
      ScanKeepsIdsBehind(codec, NOTHING, LogOf(codec, entries));
    }
  }

  lemma {:induction false} ScanIsChained(codec: Codec, s: Scan, bytes: seq<Byte>)
    requires Chained(codec, s.entries) && s.head == HeadOf(codec, s.entries) && ScanLines(codec, s, bytes).Some?
    ensures var t := ScanLines(codec, s, bytes).value; Chained(codec, t.entries) && t.head == HeadOf(codec, t.entries)
    decreases |bytes|
  {
    hide MaterialOk;
    if bytes != [] {
      var n := LineLength(bytes);
      var t := ScanLine(codec, s, bytes[..n]).value;
      ScanLineIs(codec, s, bytes[..n]);
      assert t.entries[..|t.entries| - 1] == s.entries;
      ScanIsChained(codec, t, bytes[n + 1..]);
    }
  }

  /** A log is accepted exactly when it is the encoding of a chained, live sequence, and then it reads back as that. */
  lemma AcceptedIff(codec: Codec, bytes: seq<Byte>, entries: seq<Entry>)
    requires Canonical(codec)
    ensures (ScanLog(codec, bytes).Some? && ScanLog(codec, bytes).value.entries == entries)
       <==> (bytes == LogOf(codec, entries) && Chained(codec, entries) && Live(ReceiptsOf(entries)).Some?)
  {
    hide Canonical, Live, ScanLines, Chained;
    if ScanLog(codec, bytes).Some? && ScanLog(codec, bytes).value.entries == entries {
      ReadsBack(codec, bytes);
      assert Chained(codec, []) && HeadOf(codec, []) == Genesis by { NothingIsChained(codec); }
      ScanIsChained(codec, NOTHING, bytes);
    }
    if bytes == LogOf(codec, entries) && Chained(codec, entries) {
      EncodingScans(codec, entries);
    }
  }

  lemma NothingIsChained(codec: Codec)
    ensures Chained(codec, []) && HeadOf(codec, []) == Genesis
  {
  }
}
