/** A codec with the properties assumed of canonical JSON, and a log that completing its last record makes too long. */
module LedgerCodec {
  import opened Common
  import opened PermitModel
  import opened LifecycleModel
  import opened LifecycleTheorems
  import opened ContinuityModel
  import opened LedgerModel
  import opened LedgerTheorems
  import opened LedgerBound

  // ----- trees as self-delimiting text -----

  datatype Tree = Leaf(n: int) | Pair(left: Tree, right: Tree)

  function Unary(n: nat): seq<Byte> {
    if n == 0 then [0] else [1] + Unary(n - 1)
  }

  function Text(t: Tree): seq<Byte> {
    match t
    case Leaf(n) => if 0 <= n then [2] + Unary(n) else [3] + Unary(-n)
    case Pair(l, r) => [4] + Text(l) + Text(r)
  }

  lemma {:induction false} UnaryApart(m: nat, n: nat, x: seq<Byte>, y: seq<Byte>)
    requires Unary(m) + x == Unary(n) + y
    ensures m == n && x == y
  {
    var a, b := Unary(m) + x, Unary(n) + y;
    assert a[0] == Unary(m)[0] && b[0] == Unary(n)[0];
    if m == 0 || n == 0 {
      assert a[1..] == x && b[1..] == y;
    } else {
      assert a[1..] == Unary(m - 1) + x && b[1..] == Unary(n - 1) + y;
      UnaryApart(m - 1, n - 1, x, y);
    }
  }

  function Mark(t: Tree): Byte {
    if t.Pair? then 4 else if 0 <= t.n then 2 else 3
  }

  function Rest(t: Tree, x: seq<Byte>): seq<Byte> {
    match t
    case Leaf(n) => Unary(if 0 <= n then n else -n) + x
    case Pair(l, r) => Text(l) + (Text(r) + x)
  }

  lemma Split(t: Tree, x: seq<Byte>)
    ensures Text(t) + x == [Mark(t)] + Rest(t, x)
  {
  }

  /** A text says where it ends: two texts with anything behind them are equal only part by part. */
  lemma {:induction false} TextApart(t: Tree, u: Tree, x: seq<Byte>, y: seq<Byte>)
    requires Text(t) + x == Text(u) + y
    ensures t == u && x == y
  {
    hide Text, Unary;
    Split(t, x);
    Split(u, y);
    var a, b := [Mark(t)] + Rest(t, x), [Mark(u)] + Rest(u, y);
    assert a[0] == b[0] && a[1..] == Rest(t, x) && b[1..] == Rest(u, y);
    if t.Leaf? {
      UnaryApart(if 0 <= t.n then t.n else -t.n, if 0 <= u.n then u.n else -u.n, x, y);
    } else {
      TextApart(t.left, u.left, Text(t.right) + x, Text(u.right) + y);
      TextApart(t.right, u.right, x, y);
    }
  }

  lemma {:induction false} UnaryIsPlain(n: nat)
    ensures |Unary(n)| == n + 1 && NEWLINE !in Unary(n)
  {
    if 0 < n { UnaryIsPlain(n - 1); }
  }

  lemma {:induction false} TextIsPlain(t: Tree)
    ensures Text(t) != [] && NEWLINE !in Text(t)
  {
    match t {
      case Leaf(n) => UnaryIsPlain(if 0 <= n then n else -n);
      case Pair(l, r) => TextIsPlain(l); TextIsPlain(r);
    }
  }

  // ----- entries as trees -----

  function List<T>(f: T -> Tree, s: seq<T>): Tree {
    if s == [] then Leaf(0) else Pair(f(s[0]), List(f, s[1..]))
  }

  function Maybe<T>(f: T -> Tree, o: Option<T>): Tree {
    if o.None? then Leaf(0) else Pair(Leaf(0), f(o.value))
  }

  ghost predicate OneToOne<T(!new)>(f: T -> Tree) {
    forall x: T, y: T :: f(x) == f(y) ==> x == y
  }

  lemma {:induction false} ListOnce<T(!new)>(f: T -> Tree, a: seq<T>, b: seq<T>)
    requires OneToOne(f) && List(f, a) == List(f, b)
    ensures a == b
  {
    if a != [] && b != [] {
      ListOnce(f, a[1..], b[1..]);
      assert a == [a[0]] + a[1..] && b == [b[0]] + b[1..];
    }
  }

  function OfByte(b: Byte): Tree {
    Leaf(b)
  }

  function OfChar(c: char): Tree {
    Leaf(c as int)
  }

  function OfString(s: string): Tree {
    List(OfChar, s)
  }

  function OfStrings(s: seq<string>): Tree {
    List(OfString, s)
  }

  lemma StringOnce(a: string, b: string)
    requires OfString(a) == OfString(b)
    ensures a == b
  {
    assert OneToOne(OfChar);
    ListOnce(OfChar, a, b);
  }

  lemma StringsOnce(a: seq<string>, b: seq<string>)
    requires OfStrings(a) == OfStrings(b)
    ensures a == b
  {
    forall x, y | OfString(x) == OfString(y) ensures x == y { StringOnce(x, y); }
    assert OneToOne(OfString);
    ListOnce(OfString, a, b);
  }

  function OfBool(b: bool): Tree {
    Leaf(if b then 1 else 0)
  }

  function OfPath(p: Path): Tree {
    Pair(OfBool(p.absolute), OfStrings(p.parts))
  }

  lemma PathsOnce(a: seq<Path>, b: seq<Path>)
    requires List(OfPath, a) == List(OfPath, b)
    ensures a == b
  {
    forall x, y | OfPath(x) == OfPath(y) ensures x == y { StringsOnce(x.parts, y.parts); }
    assert OneToOne(OfPath);
    ListOnce(OfPath, a, b);
  }

  function OfEffect(e: EffectScope): Tree {
    Pair(OfString(e.name), Pair(List(OfPath, e.readRoots), Pair(List(OfPath, e.writeRoots), OfBool(e.network))))
  }

  lemma EffectOnce(a: EffectScope, b: EffectScope)
    requires OfEffect(a) == OfEffect(b)
    ensures a == b
  {
    StringOnce(a.name, b.name);
    PathsOnce(a.readRoots, b.readRoots);
    PathsOnce(a.writeRoots, b.writeRoots);
  }

  function OfAction(a: Action): Tree {
    Pair(OfString(a.tool), Pair(OfString(a.actionDigest), Pair(OfString(a.argsDigest),
      Pair(OfEffect(a.effect), OfStrings(a.executables)))))
  }

  lemma ActionsOnce(a: seq<Action>, b: seq<Action>)
    requires List(OfAction, a) == List(OfAction, b)
    ensures a == b
  {
    forall x, y | OfAction(x) == OfAction(y) ensures x == y {
      StringOnce(x.tool, y.tool);
      StringOnce(x.actionDigest, y.actionDigest);
      StringOnce(x.argsDigest, y.argsDigest);
      EffectOnce(x.effect, y.effect);
      StringsOnce(x.executables, y.executables);
    }
    assert OneToOne(OfAction);
    ListOnce(OfAction, a, b);
  }

  function OfBudget(b: Budget): Tree {
    Pair(Leaf(b.wallTimeMs), Pair(Leaf(b.outputBytes), Leaf(b.artifactBytes)))
  }

  function OfCeiling(c: CeilingId): Tree {
    Pair(OfString(c.actor), Pair(OfString(c.policyVersion), Pair(OfString(c.run), Pair(OfBool(c.transition.ControlToEffect?),
      Pair(OfStrings(c.audiences), Pair(List(OfAction, c.actions), Pair(OfBudget(c.budget),
        Pair(Leaf(c.delay), Leaf(c.validity)))))))))
  }

  lemma CeilingOnce(a: CeilingId, b: CeilingId)
    requires OfCeiling(a) == OfCeiling(b)
    ensures a == b
  {
    StringOnce(a.actor, b.actor);
    StringOnce(a.policyVersion, b.policyVersion);
    StringOnce(a.run, b.run);
    StringsOnce(a.audiences, b.audiences);
    ActionsOnce(a.actions, b.actions);
  }

  function OfDelegation(d: Delegation): Tree {
    Pair(OfString(d.actor), Pair(OfString(d.delegate), Pair(OfString(d.audience), Leaf(d.depth))))
  }

  lemma DelegationOnce(a: Delegation, b: Delegation)
    requires OfDelegation(a) == OfDelegation(b)
    ensures a == b
  {
    StringOnce(a.actor, b.actor);
    StringOnce(a.delegate, b.delegate);
    StringOnce(a.audience, b.audience);
  }

  function OfBody(b: Body): Tree {
    Pair(OfStrings([b.actor, b.actionDigest, b.policyVersion, b.run, b.step, b.tool, b.argsDigest]),
      Pair(OfEffect(b.effect), Pair(OfBudget(b.budget), Pair(Maybe(OfString, b.parentOperation),
        Pair(Leaf(b.delay), Pair(Leaf(b.validity), Pair(OfBool(b.purpose.Effect?), Pair(Maybe(OfCeiling, b.ceiling),
          Pair(Maybe(OfDelegation, b.delegation), OfStrings(b.executables))))))))))
  }

  lemma BodyOnce(a: Body, b: Body)
    requires OfBody(a) == OfBody(b)
    ensures a == b
  {
    hide OfStrings, OfEffect, OfCeiling, OfDelegation, OfString;
    var s := [a.actor, a.actionDigest, a.policyVersion, a.run, a.step, a.tool, a.argsDigest];
    var t := [b.actor, b.actionDigest, b.policyVersion, b.run, b.step, b.tool, b.argsDigest];
    StringsOnce(s, t);
    assert forall i :: 0 <= i < 7 ==> s[i] == t[i];
    assert s[0] == t[0] && s[1] == t[1] && s[2] == t[2] && s[3] == t[3] && s[4] == t[4] && s[5] == t[5] && s[6] == t[6];
    EffectOnce(a.effect, b.effect);
    if a.parentOperation.Some? && b.parentOperation.Some? { StringOnce(a.parentOperation.value, b.parentOperation.value); }
    if a.ceiling.Some? && b.ceiling.Some? { CeilingOnce(a.ceiling.value, b.ceiling.value); }
    if a.delegation.Some? && b.delegation.Some? { DelegationOnce(a.delegation.value, b.delegation.value); }
    StringsOnce(a.executables, b.executables);
  }

  function OfPermit(p: PermitId): Tree {
    Pair(if p.parent.None? then Leaf(0) else OfPermit(p.parent.value), OfBody(p.body))
  }

  lemma {:induction false} PermitOnce(p: PermitId, q: PermitId)
    requires OfPermit(p) == OfPermit(q)
    ensures p == q
  {
    hide OfBody;
    BodyOnce(p.body, q.body);
    if p.parent.Some? && q.parent.Some? { PermitOnce(p.parent.value, q.parent.value); }
  }

  function OfOrigin(o: Origin): Tree {
    match o
    case FromRequest => Leaf(0)
    case FromPlan => Leaf(1)
    case FromPolicy => Leaf(2)
    case FromApproval => Leaf(3)
    case FromTool => Leaf(4)
    case FromEffect => Leaf(5)
  }

  function OfLineage(x: LineageEntry): Tree {
    Pair(OfOrigin(x.origin), Pair(OfString(x.principal), Pair(Maybe(OfPermit, x.permit), OfString(x.policyVersion))))
  }

  lemma LineagesOnce(a: seq<LineageEntry>, b: seq<LineageEntry>)
    requires List(OfLineage, a) == List(OfLineage, b)
    ensures a == b
  {
    hide OfPermit, OfString;
    forall x, y | OfLineage(x) == OfLineage(y) ensures x == y {
      StringOnce(x.principal, y.principal);
      if x.permit.Some? && y.permit.Some? { PermitOnce(x.permit.value, y.permit.value); }
      StringOnce(x.policyVersion, y.policyVersion);
    }
    assert OneToOne(OfLineage);
    ListOnce(OfLineage, a, b);
  }

  function OfDescriptor(a: Descriptor): Tree {
    Pair(OfString(a.owner), Pair(OfString(a.digest), Pair(Leaf(a.bytes), Pair(OfString(a.mediaType), Maybe(OfString, a.encoding)))))
  }

  lemma DescriptorsOnce(a: seq<Descriptor>, b: seq<Descriptor>)
    requires List(OfDescriptor, a) == List(OfDescriptor, b)
    ensures a == b
  {
    hide OfString;
    forall x, y | OfDescriptor(x) == OfDescriptor(y) ensures x == y {
      StringOnce(x.owner, y.owner);
      StringOnce(x.digest, y.digest);
      StringOnce(x.mediaType, y.mediaType);
      if x.encoding.Some? && y.encoding.Some? { StringOnce(x.encoding.value, y.encoding.value); }
    }
    assert OneToOne(OfDescriptor);
    ListOnce(OfDescriptor, a, b);
  }

  function OfKind(k: Kind): Tree {
    match k
    case RunStarted => Leaf(0)
    case ProviderEgressAdmitted => Leaf(1)
    case StepStarted => Leaf(2)
    case PermitIssued => Leaf(3)
    case PermitConsumed => Leaf(4)
    case PermitRejected => Leaf(5)
    case PermitRevoked => Leaf(6)
    case ArtifactStored => Leaf(7)
    case StepCompleted => Leaf(8)
    case StepFailed => Leaf(9)
    case ParentCancelled => Leaf(10)
    case ChildAdmissionPrepared => Leaf(11)
    case ChildLinked => Leaf(12)
    case ChildClosed => Leaf(13)
    case RunFinalized => Leaf(14)
  }

  function OfVerdict(v: Verdict): Tree {
    match v
    case Ok => Leaf(0)
    case Denial => Leaf(1)
    case Failure(reason) => Pair(Leaf(2), OfString(reason))
    case TimedOut(reason) => Pair(Leaf(3), OfString(reason))
    case Cancelled(reason) => Pair(Leaf(4), OfString(reason))
    case SandboxFailed(reason) => Pair(Leaf(5), OfString(reason))
    case Corrupted(reason) => Pair(Leaf(6), OfString(reason))
    case Degraded(reason) => Pair(Leaf(7), OfString(reason))
  }

  lemma VerdictOnce(v: Verdict, w: Verdict)
    requires OfVerdict(v) == OfVerdict(w)
    ensures v == w
  {
    hide OfString;
    if !v.Ok? && !v.Denial? && !w.Ok? && !w.Denial? { StringOnce(v.reason, w.reason); }
  }

  function OfReceipt(r: Receipt): Tree {
    Pair(Leaf(r.validTime), Pair(OfString(r.run), Pair(OfString(r.step), Pair(OfKind(r.kind), Pair(List(OfLineage, r.lineage),
      Pair(OfString(r.spec), Pair(OfString(r.args), Pair(List(OfDescriptor, r.artifacts), OfVerdict(r.outcome)))))))))
  }

  lemma ReceiptOnce(a: Receipt, b: Receipt)
    requires OfReceipt(a) == OfReceipt(b)
    ensures a == b
  {
    hide OfString, OfVerdict, List;
    StringOnce(a.run, b.run);
    StringOnce(a.step, b.step);
    LineagesOnce(a.lineage, b.lineage);
    StringOnce(a.spec, b.spec);
    StringOnce(a.args, b.args);
    DescriptorsOnce(a.artifacts, b.artifacts);
    VerdictOnce(a.outcome, b.outcome);
  }

  function OfBytes(s: seq<Byte>): Tree {
    List(OfByte, s)
  }

  function OfChain(c: Chain): Tree {
    match c
    case Genesis => Leaf(0)
    case Link(p, record) => Pair(OfChain(p), OfBytes(record))
  }

  lemma {:induction false} ChainOnce(c: Chain, d: Chain)
    requires OfChain(c) == OfChain(d)
    ensures c == d
  {
    if c.Link? && d.Link? {
      ChainOnce(c.predecessor, d.predecessor);
      assert OneToOne(OfByte);
      ListOnce(OfByte, c.record, d.record);
    }
  }

  function OfEntry(e: Entry): Tree {
    Pair(OfReceipt(e.receipt), OfChain(e.predecessor))
  }

  // ----- the codec -----

  function Encode(e: Entry): seq<Byte> {
    Text(OfEntry(e))
  }

  ghost function Parse(raw: seq<Byte>): Parsed {
    if exists e: Entry :: Encode(e) == raw then
      var e: Entry :| Encode(e) == raw; Value(e)
    else if exists e: Entry, n: nat :: n < |Encode(e)| && Encode(e)[..n] == raw then Incomplete
    else Malformed
  }

  ghost const STRUCTURAL := Codec((e: Entry) => Encode(e), (raw: seq<Byte>) => Parse(raw))

  /** No encoding is another one or the beginning of another one. */
  lemma EncodeApart(d: Entry, e: Entry, n: nat)
    requires n <= |Encode(e)| && Encode(d) == Encode(e)[..n]
    ensures d == e && n == |Encode(e)|
  {
    hide Text, OfReceipt, OfChain;
    assert Encode(d) + Encode(e)[n..] == Encode(e) + [];
    TextApart(OfEntry(d), OfEntry(e), Encode(e)[n..], []);
    ReceiptOnce(d.receipt, e.receipt);
    ChainOnce(d.predecessor, e.predecessor);
  }

  lemma ParsesBack(e: Entry, n: nat)
    requires n <= |Encode(e)|
    ensures Parse(Encode(e)[..n]) == if n == |Encode(e)| then Value(e) else Incomplete
  {
    hide Encode;
    forall d: Entry | Encode(d) == Encode(e)[..n] ensures d == e && n == |Encode(e)| {
      EncodeApart(d, e, n);
    }
    if n == |Encode(e)| {
      assert Encode(e)[..n] == Encode(e);
    }
  }

  /** What is assumed of canonical JSON can be had. */
  lemma StructuralIsCanonical()
    ensures Canonical(STRUCTURAL)
  {
    hide Encode, Parse;
    forall e: Entry
      ensures STRUCTURAL.encode(e) != [] && NEWLINE !in STRUCTURAL.encode(e)
      ensures STRUCTURAL.parse(STRUCTURAL.encode(e)) == Value(e)
    {
      assert Encode(e) != [] && NEWLINE !in Encode(e) by { EncodeIsPlain(e); }
      ParsesBack(e, |Encode(e)|);
      assert Encode(e)[..|Encode(e)|] == Encode(e);
    }
    forall e: Entry, n: nat | n < |STRUCTURAL.encode(e)|
      ensures STRUCTURAL.parse(STRUCTURAL.encode(e)[..n]) == Incomplete
    {
      ParsesBack(e, n);
    }
  }

  lemma EncodeIsPlain(e: Entry)
    ensures Encode(e) != [] && NEWLINE !in Encode(e)
  {
    TextIsPlain(OfEntry(e));
  }

  // ----- a log of every length -----

  /** The start of a run, as long as its time is late. */
  function Start(t: Time): Entry {
    Entry(Receipt("", "", RunStarted, t, LINEAGE, "", "", [], Ok), Genesis)
  }

  lemma StartHas(t: nat)
    ensures |Encode(Start(t))| == 58 + t
  {
    UnaryIsPlain(t);
    LineageHas();
    var zero, lineage := Leaf(0), List(OfLineage, LINEAGE);
    assert |Text(zero)| == 2 && |Text(Leaf(t))| == t + 2;
    var last := Pair(zero, Pair(zero, Pair(zero, zero)));
    assert |Text(Pair(zero, Pair(zero, zero)))| == 8 && |Text(last)| == 11;
    var middle := Pair(zero, Pair(zero, Pair(zero, Pair(lineage, last))));
    assert |Text(Pair(lineage, last))| == 43 && |Text(Pair(zero, Pair(lineage, last)))| == 46;
    assert |Text(middle)| == 52 && |Text(Pair(Leaf(t), middle))| == 55 + t;
    StartIs(t);
  }

  lemma StartIs(t: nat)
    ensures var zero, lineage := Leaf(0), List(OfLineage, LINEAGE);
            OfEntry(Start(t)) == Pair(Pair(Leaf(t), Pair(zero, Pair(zero, Pair(zero, Pair(lineage,
              Pair(zero, Pair(zero, Pair(zero, zero)))))))), zero)
  {
    var none: seq<Descriptor> := [];
    assert OfString("") == Leaf(0) && List(OfDescriptor, none) == Leaf(0);
  }

  lemma LineageHas()
    ensures |Text(List(OfLineage, LINEAGE))| == 31
  {
    var a, b := LINEAGE[0], LINEAGE[1];
    assert LINEAGE[1..] == [b] && [b][1..] == [];
    assert List(OfLineage, LINEAGE) == Pair(OfLineage(a), Pair(OfLineage(b), Leaf(0)));
  }

  lemma StartIsMaterial(t: Time)
    ensures MaterialOk(Start(t).receipt) && ReceiptsOf([Start(t)]) == [Start(t).receipt]
  {
  }

  lemma StartIsLive(t: Time)
    ensures Live([Start(t).receipt]).Some?
  {
    hide MaterialOk;
    var rs := [Start(t).receipt];
    StartIsMaterial(t);
    assert rs[..0] == [] && Live([]) == Some(UNBORN);
  }

  lemma StartIsContinuous(digest: Digest, files: Attachments, t: Time)
    ensures Continuous(digest, files, [Start(t).receipt])
  {
    var rs := [Start(t).receipt];
    assert rs[..0] == [] && Admitted(files, []) == Some(map[]) && Admitted(files, rs) == Some(map[]);
    var proofs := Proofs(files.evidence, map[]);
    assert Told(digest, proofs, []) == Some(BLANK) && Told(digest, proofs, rs).Some?;
  }

  lemma StartIsChained(t: Time)
    ensures Chained(STRUCTURAL, [Start(t)])
  {
    hide MaterialOk;
    StartIsMaterial(t);
    assert [Start(t)][..0] == [];
    assert Chained(STRUCTURAL, []) && HeadOf(STRUCTURAL, []) == Genesis by { NothingIsChained(STRUCTURAL); }
  }

  lemma StartIsAuthoritative(env: Evidenced, t: Time)
    ensures Chained(STRUCTURAL, [Start(t)]) && Authoritative(env, [Start(t)])
  {
    hide Live, Continuous, MaterialOk, Chained;
    StartIsChained(t);
    StartIsMaterial(t);
    StartIsLive(t);
    StartIsContinuous(env.digest, env.files, t);
  }

  /** There is such a log: recovery accepts it, completes it, and nobody can open it again. */
  lemma RecoveryCanOutgrow(env: Evidenced, now: Time) returns (disk: Disk)
    ensures Full(STRUCTURAL, disk.log) && Reconcile(STRUCTURAL, env, disk, now).Some?
    ensures forall any: Evidenced, later: Time ::
              Reconcile(STRUCTURAL, any, Reconcile(STRUCTURAL, env, disk, now).value.disk, later).None?
  {
    hide Canonical, Authoritative, Reconcile, Full, Chained, Encode, Start;
    var t := MAX_LOG_BYTES - 58;
    var entries := [Start(t)];
    StructuralIsCanonical();
    StartIsAuthoritative(env, t);
    StartHas(t);
    assert entries[..0] == [] && LogOf(STRUCTURAL, entries) == LogOf(STRUCTURAL, []) + Line(STRUCTURAL, Start(t));
    assert STRUCTURAL.encode(Start(t)) == Encode(Start(t));
    CompletionOutgrows(STRUCTURAL, env, entries, now);
    disk := Disk(LogOf(STRUCTURAL, entries)[..MAX_LOG_BYTES], None);
  }
}
