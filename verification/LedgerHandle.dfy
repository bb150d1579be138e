/** A chain handle: scanning, recovery and append as loops over bytes and files changed in place. */
module LedgerHandle {
  import opened Common
  import opened PermitModel
  import opened LifecycleModel
  import opened ContinuityModel
  import opened LedgerModel
  import ContinuityCheck

  method LineEnd(bytes: seq<Byte>, start: nat) returns (end: nat)
    requires start <= |bytes|
    ensures start <= end <= |bytes| && NEWLINE !in bytes[start..end]
    ensures end < |bytes| ==> bytes[end] == NEWLINE
  {
    end := start;
    while end < |bytes| && bytes[end] != NEWLINE
      invariant start <= end <= |bytes|
      invariant NEWLINE !in bytes[start..end]
    {
      assert bytes[start..end + 1] == bytes[start..end] + [bytes[end]];
      end := end + 1;
    }
  }

  lemma {:induction false} LineEnds(bytes: seq<Byte>, n: nat)
    requires n < |bytes| && bytes[n] == NEWLINE && NEWLINE !in bytes[..n]
    ensures NEWLINE in bytes && LineLength(bytes) == n
  {
  }

  /** The line of a scan that ends at `end`. */
  lemma StepLine(codec: Codec, s: Scan, bytes: seq<Byte>, start: nat, end: nat)
    requires start <= end < |bytes| && bytes[end] == NEWLINE && NEWLINE !in bytes[start..end]
    ensures var next := ScanLine(codec, s, bytes[start..end]);
            ScanLines(codec, s, bytes[start..]) == if next.None? then None else ScanLines(codec, next.value, bytes[end + 1..])
  {
    hide ScanLine;
    var rest := bytes[start..];
    assert rest[..end - start] == bytes[start..end] && rest[end - start + 1..] == bytes[end + 1..];
    LineEnds(rest, end - start);
  }

  /** `scan_complete_bytes`: line after line into a growing scan. */
  method ScanComplete(codec: Codec, bytes: seq<Byte>) returns (result: Option<Scan>)
    ensures result == ScanLog(codec, bytes)
  {
    hide Live, ScanLine, ScanLines;
    var scan := NOTHING;
    var start := 0;
    assert bytes[0..] == bytes;
    while start < |bytes|
      invariant start <= |bytes|
      invariant ScanLines(codec, scan, bytes[start..]) == ScanLines(codec, NOTHING, bytes)
    {
      var end := LineEnd(bytes, start);
      if end == |bytes| {
        assert bytes[start..end] == bytes[start..];
        Unended(codec, scan, bytes[start..]);
        return None;
      }
      StepLine(codec, scan, bytes, start, end);
      var next := TakeLine(codec, scan, bytes[start..end]);
      if next.None? { return None; }
      scan := next.value;
      start := end + 1;
    }
    assert bytes[start..] == [];
    Scanned(codec, scan);
    assert ScanLines(codec, NOTHING, bytes) == Some(scan);
    var life := LifecycleModel.Validate(ReceiptsOf(scan.entries), AppendInProgress);
    if life.None? { return None; }
    return Some(scan);
  }

  lemma Unended(codec: Codec, s: Scan, bytes: seq<Byte>)
    requires bytes != [] && NEWLINE !in bytes
    ensures ScanLines(codec, s, bytes).None?
  {
  }

  lemma Scanned(codec: Codec, s: Scan)
    ensures ScanLines(codec, s, []) == Some(s)
  {
  }

  method TakeLine(codec: Codec, s: Scan, raw: seq<Byte>) returns (next: Option<Scan>)
    ensures next == ScanLine(codec, s, raw)
  {
    hide MaterialOk;
    if raw == [] { return None; }
    var p := codec.parse(raw);
    if !p.Value? || !MaterialOk(p.entry.receipt) || codec.encode(p.entry) != raw { return None; }
    if ReceiptId(p.entry) in s.ids { return None; }
    if p.entry.predecessor != s.head { return None; }
    return Some(Scan(Link(s.head, raw), s.length + 1, s.ids + {ReceiptId(p.entry)}, s.entries + [p.entry]));
  }

  /** All three checks on a sequence that is to be authoritative. */
  method CheckAuthoritative(env: Evidenced, entries: seq<Entry>) returns (ok: bool)
    ensures ok == Authoritative(env, entries)
  {
    hide Live, Continuous;
    var receipts := ReceiptsOf(entries);
    var life := LifecycleModel.Validate(receipts, AppendInProgress);
    if life.None? { return false; }
    var i := 0;
    while i < |entries|
      invariant i <= |entries|
      invariant forall k, a :: 0 <= k < i && a in entries[k].receipt.artifacts ==> a in env.present
    {
      if exists a :: a in entries[i].receipt.artifacts && a !in env.present {
        assert entries[i] in entries;
        return false;
      }
      i := i + 1;
    }
    ok := ContinuityCheck.Check(env.digest, env.files, receipts);
  }

  class ChainHandle {
    const codec: Codec
    const env: Evidenced
    /** The two files of the run directory. */
    var log: seq<Byte>
    var meta: Option<Meta>
    /** What the handle believes. */
    var head: Chain
    var length: nat
    var ids: set<Entry>
    var createdAt: Time

    function Files(): Disk
      reads this
    {
      Disk(log, meta)
    }

    constructor (c: Codec, e: Evidenced, found: Disk)
      ensures codec == c && env == e && Files() == found
    {
      codec, env, log, meta := c, e, found.log, found.meta;
      head, length, ids, createdAt := Genesis, 0, {}, 0;
    }

    /** Cut off or complete an unfinished last record. */
    method RecoverTail() returns (ok: bool)
      modifies `log
      ensures var r := RecoverLog(codec, old(log)); ok == r.Some? && log == if ok then r.value else old(log)
    {
      hide MaterialOk;
      if |log| > MAX_LOG_BYTES { return false; }
      if log == [] || log[|log| - 1] == NEWLINE { return true; }
      var start := |log|;
      assert log[..start] == log;
      while start > 0 && log[start - 1] != NEWLINE
        invariant log == old(log) && start <= |log| && TailStart(log[..start]) == TailStart(log)
      {
        assert log[..start][..start - 1] == log[..start - 1];
        start := start - 1;
      }
      assert TailStart(log) == start;
      match codec.parse(log[start..]) {
        case Value(e) =>
          if !MaterialOk(e.receipt) || codec.encode(e) != log[start..] { return false; }
          log := log + [NEWLINE];
        case Incomplete =>
          log := log[..start];
        case Malformed =>
          return false;
      }
      return true;
    }

    /** `reconcile_locked`. */
    method ReconcileFiles(now: Time) returns (found: Option<Opened>)
      modifies `log, `meta
      ensures found == Reconcile(codec, env, old(Files()), now)
      ensures Files() == Left(codec, env, old(Files()), now)
    {
      hide RecoverLog, ScanLog, Authoritative;
      var recovered := RecoverTail();
      if !recovered { return None; }
      var scan := ScanComplete(codec, log);
      if scan.None? { return None; }
      var authoritative := CheckAuthoritative(env, scan.value.entries);
      if !authoritative { return None; }
      var created := if meta.Some? then meta.value.createdAt else now;
      var expected := MetaFor(scan.value, created);
      if meta != Some(expected) { meta := Some(expected); }
      return Some(Opened(Files(), scan.value, created));
    }

    method Open(now: Time) returns (ok: bool)
      modifies this
      ensures Files() == Left(codec, env, old(Files()), now)
      ensures var o := Reconcile(codec, env, old(Files()), now);
              && ok == o.Some?
              && (if ok then head == o.value.scan.head && length == o.value.scan.length && ids == o.value.scan.ids
                             && createdAt == o.value.createdAt
                  else head == old(head) && length == old(length) && ids == old(ids) && createdAt == old(createdAt))
    {
      hide Reconcile;
      var o := ReconcileFiles(now);
      if o.None? { return false; }
      head, length, ids, createdAt := o.value.scan.head, o.value.scan.length, o.value.scan.ids, o.value.createdAt;
      return true;
    }

    /** `append_with_interruption`: the handle moves only when everything was written. */
    method Append(e: Entry, now: Time, cut: Option<Cut>) returns (ok: bool)
      modifies this
      ensures var o := Reconcile(codec, env, old(Files()), now);
              if o.Some? && MayAppend(env, o.value.scan, e)
              then Files() == Appended(codec, o.value, old(createdAt), e, if cut.Some? then cut.value else AfterRename)
                   && ok == cut.None?
                   && (if ok then head == Link(o.value.scan.head, codec.encode(e)) && length == o.value.scan.length + 1
                               && ids == o.value.scan.ids + {ReceiptId(e)}
                       else head == old(head) && length == old(length) && ids == old(ids))
              else !ok && head == old(head) && length == old(length) && ids == old(ids)
                   && Files() == Left(codec, env, old(Files()), now)
      ensures createdAt == old(createdAt)
    {
      hide Reconcile, Authoritative, MaterialOk;
      var found := ReconcileFiles(now);
      if found.None? { return false; }
      var scan := found.value.scan;
      if e.predecessor != scan.head || ReceiptId(e) in scan.ids || !MaterialOk(e.receipt) { return false; }
      var authoritative := CheckAuthoritative(env, scan.entries + [e]);
      if !authoritative { return false; }
      var line := codec.encode(e) + [NEWLINE];
      if cut.Some? && cut.value.AfterBytes? {
        log := log + line[..Min(cut.value.n, |line|)];
        return false;
      }
      log := log + line;
      if cut == Some(BeforeRename) { return false; }
      scan := Scan(Link(scan.head, codec.encode(e)), scan.length + 1, scan.ids + {ReceiptId(e)}, scan.entries + [e]);
      meta := Some(MetaFor(scan, createdAt));
      if cut == Some(AfterRename) { return false; }
      head, length, ids := scan.head, scan.length, scan.ids;
      return true;
    }
  }
}
