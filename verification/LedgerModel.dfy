/**
 * The receipt log: newline-separated canonical records, a chain digest over them,
 * a metadata file, and recovery of an interrupted append. The chain digest is
 * modelled by what it is taken of: the predecessor digest and the record's bytes.
 */
module LedgerModel {
  import opened Common
  import opened PermitModel
  import opened LifecycleModel
  import opened ContinuityModel

  type Byte = b: int | 0 <= b < 256

  const NEWLINE: Byte := 10
  const MAX_LOG_BYTES: nat := 64 * 1024 * 1024

  datatype Chain = Genesis | Link(predecessor: Chain, record: seq<Byte>)

  /** A receipt as recorded, with the head it was appended to. */
  datatype Entry = Entry(receipt: Receipt, predecessor: Chain)

  datatype Parsed = Value(entry: Entry) | Incomplete | Malformed

  /** Canonical encoding and JSON parser. */
  datatype Codec = Codec(encode: Entry -> seq<Byte>, parse: seq<Byte> -> Parsed)

  /**
   * What canonical JSON objects give: a record is one non-empty line, parses back
   * to itself, and any proper part of it ends too early.
   */
  ghost predicate Canonical(codec: Codec) {
    && (forall e: Entry :: codec.encode(e) != [] && NEWLINE !in codec.encode(e))
    && (forall e: Entry :: codec.parse(codec.encode(e)) == Value(e))
    && (forall e: Entry, n: nat :: n < |codec.encode(e)| ==> codec.parse(codec.encode(e)[..n]) == Incomplete)
  }

  /** A receipt id binds everything but the observed times. */
  function ReceiptId(e: Entry): Entry {
    e.(receipt := e.receipt.(validTime := 0))
  }

  datatype Scan = Scan(head: Chain, length: nat, ids: set<Entry>, entries: seq<Entry>)

  const NOTHING := Scan(Genesis, 0, {}, [])

  function ReceiptsOf(entries: seq<Entry>): seq<Receipt> {
    seq(|entries|, i requires 0 <= i < |entries| => entries[i].receipt)
  }

  /** What else an authoritative sequence is checked against. */
  datatype Evidenced = Evidenced(digest: Digest, files: Attachments, present: set<Descriptor>)

  ghost predicate Authoritative(env: Evidenced, entries: seq<Entry>) {
    && Live(ReceiptsOf(entries)).Some?
    && (forall e, a :: e in entries && a in e.receipt.artifacts ==> a in env.present)
    && Continuous(env.digest, env.files, ReceiptsOf(entries))
  }

  // ----- scanning -----

  /** The length of the first line, without its newline. */
  function LineLength(bytes: seq<Byte>): nat
    requires NEWLINE in bytes
    ensures LineLength(bytes) < |bytes| && bytes[LineLength(bytes)] == NEWLINE && NEWLINE !in bytes[..LineLength(bytes)]
  {
    if bytes[0] == NEWLINE then 0
    else
      assert NEWLINE in bytes[1..];
      var n := LineLength(bytes[1..]);
      assert bytes[..n + 1] == [bytes[0]] + bytes[1..][..n];
      1 + n
  }

  /** One line of the log, appended to what was scanned before it. */
  function ScanLine(codec: Codec, s: Scan, raw: seq<Byte>): Option<Scan> {
    if raw == [] then None
    else
      var p := codec.parse(raw);
      if !p.Value? || codec.encode(p.entry) != raw || !MaterialOk(p.entry.receipt) then None
      else if ReceiptId(p.entry) in s.ids || p.entry.predecessor != s.head then None
      else Some(Scan(Link(s.head, raw), s.length + 1, s.ids + {ReceiptId(p.entry)}, s.entries + [p.entry]))
  }

  function ScanLines(codec: Codec, s: Scan, bytes: seq<Byte>): Option<Scan>
    decreases |bytes|
  {
    if bytes == [] then Some(s)
    else if NEWLINE !in bytes then None
    else
      var n := LineLength(bytes);
      var next := ScanLine(codec, s, bytes[..n]);
      if next.None? then None else ScanLines(codec, next.value, bytes[n + 1..])
  }

  /** `scan_complete_bytes`. */
  function ScanLog(codec: Codec, bytes: seq<Byte>): Option<Scan> {
    var s := ScanLines(codec, NOTHING, bytes);
    if s.None? || Live(ReceiptsOf(s.value.entries)).None? then None else s
  }

  // ----- recovery -----

  /** Where the unfinished last line begins. */
  function TailStart(bytes: seq<Byte>): nat
    ensures TailStart(bytes) <= |bytes|
  {
    if bytes == [] || bytes[|bytes| - 1] == NEWLINE then |bytes| else TailStart(bytes[..|bytes| - 1])
  }

  /** `recover_tail`: complete or cut off an unfinished last record. */
  function MendTail(codec: Codec, bytes: seq<Byte>): Option<seq<Byte>> {
    if bytes == [] || bytes[|bytes| - 1] == NEWLINE then Some(bytes)
    else
      var start := TailStart(bytes);
      var p := codec.parse(bytes[start..]);
      match p
      case Value(e) => if MaterialOk(e.receipt) && codec.encode(e) == bytes[start..] then Some(bytes + [NEWLINE]) else None
      case Incomplete => Some(bytes[..start])
      case Malformed => None
  }

  /** The log after recovery, if it can be recovered; the bound is on what is read. */
  function RecoverLog(codec: Codec, bytes: seq<Byte>): Option<seq<Byte>> {
    if |bytes| > MAX_LOG_BYTES then None else MendTail(codec, bytes)
  }

  datatype Meta = Meta(head: Chain, length: nat, createdAt: Time)

  /** The two files; metadata that is missing or does not parse is `None`. */
  datatype Disk = Disk(log: seq<Byte>, meta: Option<Meta>)

  function MetaFor(s: Scan, createdAt: Time): Meta {
    Meta(s.head, s.length, createdAt)
  }

  datatype Opened = Opened(disk: Disk, scan: Scan, createdAt: Time)

  /** `reconcile_locked`. */
  ghost function Reconcile(codec: Codec, env: Evidenced, disk: Disk, now: Time): Option<Opened> {
    var log := RecoverLog(codec, disk.log);
    if log.None? then None
    else
      var scan := ScanLog(codec, log.value);
      if scan.None? || !Authoritative(env, scan.value.entries) then None
      else
        var createdAt := if disk.meta.Some? then disk.meta.value.createdAt else now;
        Some(Opened(Disk(log.value, Some(MetaFor(scan.value, createdAt))), scan.value, createdAt))
  }

  /** The files `reconcile_locked` leaves behind, also when it refuses them. */
  ghost function Left(codec: Codec, env: Evidenced, disk: Disk, now: Time): Disk {
    var o := Reconcile(codec, env, disk, now);
    var log := RecoverLog(codec, disk.log);
    if o.Some? then o.value.disk else if log.Some? then disk.(log := log.value) else disk
  }

  // ----- appending -----

  function Line(codec: Codec, e: Entry): seq<Byte> {
    codec.encode(e) + [NEWLINE]
  }

  ghost predicate MayAppend(env: Evidenced, s: Scan, e: Entry) {
    && e.predecessor == s.head && ReceiptId(e) !in s.ids && MaterialOk(e.receipt)
    && Authoritative(env, s.entries + [e])
  }

  /** Where an append is cut short: after some bytes of its line, before or after the metadata rename. */
  datatype Cut = AfterBytes(n: nat) | BeforeRename | AfterRename

  function Extended(codec: Codec, s: Scan, e: Entry): Scan {
    Scan(Link(s.head, codec.encode(e)), s.length + 1, s.ids + {ReceiptId(e)}, s.entries + [e])
  }

  /** What an append leaves on disk, given the reconciled files it started from. */
  function Appended(codec: Codec, o: Opened, createdAt: Time, e: Entry, cut: Cut): Disk {
    var line := Line(codec, e);
    match cut
    case AfterBytes(n) => o.disk.(log := o.disk.log + line[..Min(n, |line|)])
    case BeforeRename => o.disk.(log := o.disk.log + line)
    case AfterRename => Disk(o.disk.log + line, Some(MetaFor(Extended(codec, o.scan, e), createdAt)))
  }
}
