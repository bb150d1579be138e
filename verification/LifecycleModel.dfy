/** The receipt lifecycle: a fifteen-kind automaton over receipt sequences. */
module LifecycleModel {
  import opened Common
  import opened PermitModel

  datatype Origin = FromRequest | FromPlan | FromPolicy | FromApproval | FromTool | FromEffect

  datatype LineageEntry = LineageEntry(origin: Origin, principal: string, permit: Option<PermitId>, policyVersion: string)

  datatype Descriptor = Descriptor(owner: Id, digest: Id, bytes: U64, mediaType: string, encoding: Option<string>)

  datatype Kind =
    | RunStarted | ProviderEgressAdmitted | StepStarted | PermitIssued | PermitConsumed | PermitRejected | PermitRevoked
    | ArtifactStored | StepCompleted | StepFailed | ParentCancelled | ChildAdmissionPrepared | ChildLinked | ChildClosed
    | RunFinalized

  datatype Verdict =
    | Ok | Denial | Failure(reason: string) | TimedOut(reason: string) | Cancelled(reason: string)
    | SandboxFailed(reason: string) | Corrupted(reason: string) | Degraded(reason: string)

  datatype Terminal = Success | FailedRun | DeniedRun | TimedOutRun | CancelledRun | SandboxFailedRun | CorruptedRun | LegacyUnknown

  datatype Receipt = Receipt(
    run: Id, step: Id, kind: Kind, validTime: Time, lineage: seq<LineageEntry>, spec: Id, args: Id,
    artifacts: seq<Descriptor>, outcome: Verdict)

  function TerminalOf(o: Verdict): Option<Terminal> {
    match o
    case Ok => Some(Success)
    case Denial => Some(DeniedRun)
    case Failure(_) => Some(FailedRun)
    case TimedOut(_) => Some(TimedOutRun)
    case Cancelled(_) => Some(CancelledRun)
    case SandboxFailed(_) => Some(SandboxFailedRun)
    case Corrupted(_) => Some(CorruptedRun)
    case Degraded(_) => None
  }

  function VerdictOf(t: Terminal, reason: string): Verdict {
    match t
    case Success => Ok
    case FailedRun => Failure(reason)
    case DeniedRun => Denial
    case TimedOutRun => TimedOut(reason)
    case CancelledRun => Cancelled(reason)
    case SandboxFailedRun => SandboxFailed(reason)
    case CorruptedRun => Corrupted(reason)
    case LegacyUnknown => Degraded(reason)
  }

  // ----- the material of one receipt -----

  predicate LineageOk(chain: seq<LineageEntry>) {
    && chain != []
    && (forall i, j :: 0 <= i < j < |chain| ==> chain[i].origin != chain[j].origin)
    && chain[0].origin == FromRequest && chain[|chain| - 1].origin == FromEffect
  }

  predicate DescriptorOk(a: Descriptor) {
    '/' in a.mediaType && Plain(a.mediaType) && (a.encoding.Some? ==> a.encoding.value != "" && Plain(a.encoding.value))
  }

  predicate MaterialOk(r: Receipt) {
    LineageOk(r.lineage) && forall a :: a in r.artifacts ==> DescriptorOk(a)
  }

  // ----- the automaton -----

  datatype StepState = Started | Permitted | Spent | Stored | Complete

  datatype Life = Life(
    count: nat, run: Option<Id>, steps: map<Id, StepState>, stored: map<Id, set<Id>>, terminal: Option<Terminal>,
    finalized: bool, prepared: set<Id>, linked: set<Id>, closed: set<Id>, admitted: set<Id>)

  const UNBORN := Life(0, None, map[], map[], None, false, {}, {}, {}, {})

  predicate In(l: Life, step: Id, state: StepState) {
    step in l.steps && l.steps[step] == state
  }

  function Owners(artifacts: seq<Descriptor>): set<Id> {
    set a | a in artifacts :: a.owner
  }

  function StoredFor(l: Life, step: Id): set<Id> {
    if step in l.stored then l.stored[step] else {}
  }

  /** A terminal cause may be set only once. */
  function Ended(l: Life, t: Terminal): Option<Life> {
    if l.terminal.Some? then None else Some(l.(terminal := Some(t)))
  }

  function Finished(l: Option<Life>, step: Id): Option<Life> {
    if l.None? then None else Some(l.value.(steps := l.value.steps[step := Complete]))
  }

  predicate FailureFits(l: Life, r: Receipt, t: Terminal) {
    if t == DeniedRun then In(l, r.step, Started) else In(l, r.step, Spent) || In(l, r.step, Stored)
  }

  function Finalize(l: Life, r: Receipt): Option<Life> {
    var observed := TerminalOf(r.outcome);
    var expected := if l.terminal.Some? then l.terminal.value else Success;
    if l.count == 0 || observed != Some(expected) then None
    else if exists s :: s in l.steps && l.steps[s] != Complete then None
    else if expected == Success && l.prepared != l.closed then None
    else Some(l.(terminal := Some(expected), finalized := true))
  }

  /** The kind-specific part of one receipt. */
  function Accept(l: Life, r: Receipt): Option<Life> {
    match r.kind
    case RunStarted => if l.count != 0 || !r.outcome.Ok? then None else Some(l)
    case ProviderEgressAdmitted =>
      if l.terminal.Some? || !r.outcome.Ok? || |r.artifacts| != 1 || r.step in l.steps || r.step in l.admitted then None
      else Some(l.(admitted := l.admitted + {r.step}))
    case StepStarted =>
      if !r.outcome.Ok? || l.terminal.Some? || r.step in l.steps then None
      else Some(l.(steps := l.steps[r.step := Started]))
    case PermitIssued =>
      if !r.outcome.Ok? || !In(l, r.step, Started) then None
      else Some(l.(steps := l.steps[r.step := Permitted]))
    case PermitConsumed =>
      if !r.outcome.Ok? || !In(l, r.step, Permitted) then None
      else Some(l.(steps := l.steps[r.step := Spent]))
    case PermitRejected =>
      if !r.outcome.Denial? || !In(l, r.step, Permitted) then None
      else Finished(Ended(l, DeniedRun), r.step)
    case PermitRevoked =>
      if !In(l, r.step, Permitted) then None
      else if r.outcome.Ok? then Finished(Some(l), r.step)
      else if r.outcome.Denial? then Finished(Ended(l, DeniedRun), r.step)
      else None
    case ArtifactStored =>
      if !(In(l, r.step, Spent) || In(l, r.step, Stored)) || !r.outcome.Ok? || r.artifacts == [] then None
      else Some(l.(stored := l.stored[r.step := StoredFor(l, r.step) + Owners(r.artifacts)],
                   steps := l.steps[r.step := Stored]))
    case StepCompleted =>
      if !In(l, r.step, Stored) || !r.outcome.Ok? || r.artifacts == [] || r.step !in l.stored
         || !(Owners(r.artifacts) <= l.stored[r.step]) then None
      else Finished(Some(l), r.step)
    case StepFailed =>
      var t := TerminalOf(r.outcome);
      if t.None? || t.value == Success || t.value == LegacyUnknown || !FailureFits(l, r, t.value) then None
      else Finished(Ended(l, t.value), r.step)
    case ParentCancelled =>
      if l.terminal.Some? || !r.outcome.Cancelled? || r.artifacts != [] then None else Ended(l, CancelledRun)
    case ChildAdmissionPrepared =>
      if l.terminal.Some? || !r.outcome.Ok? || r.artifacts != [] || r.args in l.prepared then None
      else Some(l.(prepared := l.prepared + {r.args}))
    case ChildLinked =>
      if l.terminal.Some? || !r.outcome.Ok? || r.artifacts == [] || r.args !in l.prepared || r.args in l.linked then None
      else Some(l.(linked := l.linked + {r.args}))
    case ChildClosed =>
      if l.terminal.Some? || !r.outcome.Ok? || r.artifacts == [] || r.args !in l.linked || r.args in l.closed then None
      else Some(l.(closed := l.closed + {r.args}))
    case RunFinalized => Finalize(l, r)
  }

  function Advance(l: Life, r: Receipt): Option<Life> {
    if !MaterialOk(r) || l.finalized || (l.run.Some? && l.run.value != r.run) then None
    else if l.count == 0 && r.kind != RunStarted then None
    else
      var next := Accept(l.(run := Some(r.run)), r);
      if next.None? then None else Some(next.value.(count := l.count + 1))
  }

  function Live(receipts: seq<Receipt>): Option<Life> {
    if receipts == [] then Some(UNBORN)
    else
      var before := Live(receipts[..|receipts| - 1]);
      if before.None? then None else Advance(before.value, receipts[|receipts| - 1])
  }

  datatype Mode = AppendInProgress | StrictCurrent

  predicate Accepted(receipts: seq<Receipt>, mode: Mode) {
    Live(receipts).Some? && (mode == StrictCurrent ==> Live(receipts).value.finalized)
  }

  /** The state of a run as the validator keeps it, changed receipt by receipt. */
  class Validator {
    var count: nat
    var run: Option<Id>
    var steps: map<Id, StepState>
    var stored: map<Id, set<Id>>
    var terminal: Option<Terminal>
    var finalized: bool
    var prepared: set<Id>
    var linked: set<Id>
    var closed: set<Id>
    var admitted: set<Id>

    function State(): Life
      reads this
    {
      Life(count, run, steps, stored, terminal, finalized, prepared, linked, closed, admitted)
    }

    constructor ()
      ensures State() == UNBORN
    {
      count, run, steps, stored, terminal, finalized := 0, None, map[], map[], None, false;
      prepared, linked, closed, admitted := {}, {}, {}, {};
    }

    method SetTerminal(t: Terminal) returns (ok: bool)
      modifies `terminal
      ensures ok == old(terminal).None? && (ok ==> terminal == Some(t))
    {
      ok := terminal.None?;
      terminal := Some(t);
    }

    method Step(r: Receipt) returns (ok: bool)
      requires r.kind.StepStarted? || r.kind.PermitIssued? || r.kind.PermitConsumed? || r.kind.PermitRejected?
            || r.kind.PermitRevoked?
      modifies `steps, `terminal
      ensures ok == Accept(old(State()), r).Some? && (ok ==> State() == Accept(old(State()), r).value)
    {
      match r.kind {
        case StepStarted =>
          if !r.outcome.Ok? || terminal.Some? || r.step in steps { return false; }
          steps := steps[r.step := Started];
        case PermitIssued =>
          if !r.outcome.Ok? || !In(State(), r.step, Started) { return false; }
          steps := steps[r.step := Permitted];
        case PermitConsumed =>
          if !r.outcome.Ok? || !In(State(), r.step, Permitted) { return false; }
          steps := steps[r.step := Spent];
        case PermitRejected =>
          if !r.outcome.Denial? || !In(State(), r.step, Permitted) { return false; }
          var first := SetTerminal(DeniedRun);
          if !first { return false; }
          steps := steps[r.step := Complete];
        case PermitRevoked =>
          if !r.outcome.Ok? && !r.outcome.Denial? { return false; }
          if !In(State(), r.step, Permitted) { return false; }
          if r.outcome.Denial? {
            var first := SetTerminal(DeniedRun);
            if !first { return false; }
          }
          steps := steps[r.step := Complete];
      }
      return true;
    }

    method Observe(r: Receipt) returns (ok: bool)
      requires r.kind.ArtifactStored? || r.kind.StepCompleted? || r.kind.StepFailed?
      modifies `steps, `stored, `terminal
      ensures ok == Accept(old(State()), r).Some? && (ok ==> State() == Accept(old(State()), r).value)
    {
      match r.kind {
        case ArtifactStored =>
          if !(In(State(), r.step, Spent) || In(State(), r.step, Stored)) { return false; }
          if !r.outcome.Ok? || r.artifacts == [] { return false; }
          stored := stored[r.step := StoredFor(State(), r.step) + Owners(r.artifacts)];
          steps := steps[r.step := Stored];
        case StepCompleted =>
          if !In(State(), r.step, Stored) || !r.outcome.Ok? || r.artifacts == [] { return false; }
          if r.step !in stored || !(Owners(r.artifacts) <= stored[r.step]) { return false; }
          steps := steps[r.step := Complete];
        case StepFailed =>
          var t := TerminalOf(r.outcome);
          if t.None? || t.value == Success || t.value == LegacyUnknown { return false; }
          if !FailureFits(State(), r, t.value) { return false; }
          var first := SetTerminal(t.value);
          if !first { return false; }
          steps := steps[r.step := Complete];
      }
      return true;
    }

    method Child(r: Receipt) returns (ok: bool)
      requires r.kind.ChildAdmissionPrepared? || r.kind.ChildLinked? || r.kind.ChildClosed?
      modifies `prepared, `linked, `closed
      ensures ok == Accept(old(State()), r).Some? && (ok ==> State() == Accept(old(State()), r).value)
    {
      if terminal.Some? || !r.outcome.Ok? { return false; }
      match r.kind {
        case ChildAdmissionPrepared =>
          if r.artifacts != [] || r.args in prepared { return false; }
          prepared := prepared + {r.args};
        case ChildLinked =>
          if r.artifacts == [] || r.args !in prepared || r.args in linked { return false; }
          linked := linked + {r.args};
        case ChildClosed =>
          if r.artifacts == [] || r.args !in linked || r.args in closed { return false; }
          closed := closed + {r.args};
      }
      return true;
    }

    method Run(r: Receipt) returns (ok: bool)
      requires r.kind.RunStarted? || r.kind.ProviderEgressAdmitted? || r.kind.ParentCancelled? || r.kind.RunFinalized?
      modifies `admitted, `terminal, `finalized
      ensures ok == Accept(old(State()), r).Some? && (ok ==> State() == Accept(old(State()), r).value)
    {
      match r.kind {
        case RunStarted =>
          if count != 0 || !r.outcome.Ok? { return false; }
        case ProviderEgressAdmitted =>
          if terminal.Some? || !r.outcome.Ok? || |r.artifacts| != 1 || r.step in steps || r.step in admitted { return false; }
          admitted := admitted + {r.step};
        case ParentCancelled =>
          if terminal.Some? || !r.outcome.Cancelled? || r.artifacts != [] { return false; }
          var first := SetTerminal(CancelledRun);
          if !first { return false; }
        case RunFinalized =>
          if count == 0 { return false; }
          var observed := TerminalOf(r.outcome);
          if observed.None? { return false; }
          var expected := if terminal.Some? then terminal.value else Success;
          if observed.value != expected { return false; }
          if exists s :: s in steps && steps[s] != Complete { return false; }
          if observed.value == Success && prepared != closed { return false; }
          terminal := observed;
          finalized := true;
      }
      return true;
    }

    method Take(r: Receipt) returns (ok: bool)
      modifies this
      ensures ok == Advance(old(State()), r).Some? && (ok ==> State() == Advance(old(State()), r).value)
    {
      hide Accept, MaterialOk;
      if !MaterialOk(r) || finalized { return false; }
      if run.Some? && run.value != r.run { return false; }
      var first := count == 0;
      run := Some(r.run);
      if first && r.kind != RunStarted { return false; }
      match r.kind {
        case StepStarted | PermitIssued | PermitConsumed | PermitRejected | PermitRevoked => ok := Step(r);
        case ArtifactStored | StepCompleted | StepFailed => ok := Observe(r);
        case ChildAdmissionPrepared | ChildLinked | ChildClosed => ok := Child(r);
        case RunStarted | ProviderEgressAdmitted | ParentCancelled | RunFinalized => ok := Run(r);
      }
      count := count + 1;
    }
  }

  /** `validate_receipt_sequence`: one pass over the receipts. */
  method Validate(receipts: seq<Receipt>, mode: Mode) returns (result: Option<Life>)
    ensures result.Some? <==> Accepted(receipts, mode)
    ensures result.Some? ==> result == Live(receipts)
  {
    hide Advance;
    var v := new Validator();
    var i := 0;
    while i < |receipts|
      invariant i <= |receipts|
      invariant Live(receipts[..i]) == Some(v.State())
    {
      assert receipts[..i + 1][..i] == receipts[..i];
      var ok := v.Take(receipts[i]);
      if !ok {
        Stuck(receipts, i + 1);
        return None;
      }
      i := i + 1;
    }
    assert receipts[..i] == receipts;
    if mode == StrictCurrent && !v.finalized { return None; }
    return Some(v.State());
  }

  /** Nothing repairs a rejected prefix. */
  lemma {:induction false} Stuck(receipts: seq<Receipt>, n: nat)
    requires n <= |receipts| && Live(receipts[..n]).None?
    ensures Live(receipts).None?
    decreases |receipts| - n
  {
    hide Advance;
    if n == |receipts| {
      assert receipts[..n] == receipts;
    } else {
      assert receipts[..n + 1][..n] == receipts[..n];
      Stuck(receipts, n + 1);
    }
  }
}
