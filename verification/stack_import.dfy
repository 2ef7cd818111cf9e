/**
 * The validation `pulumi stack import` applies to a deployment before
 * importing it (the Run closure in cmd/stack_import.go).
 *
 * A deserialization failure is classified into one of three messages. Every
 * resource whose URN names another stack contributes one mismatch message:
 * without --force they are all collected into one error, closed by a message
 * suggesting --force; with --force each is a warning and the import goes on.
 * Pending operations are always dropped, with one warning each, and the
 * cleaned snapshot is re-wrapped with the current schema version.
 *
 * Reading the input, decoding JSON, the deserializer itself, re-serialization
 * and the backend call that performs the import are not part of this model:
 * the deserializer's outcome is an input, and the re-wrapped deployment is the
 * output.
 */
module StackImport {

  /** A resource of the deployment: its URN and the stack name embedded in it. */
  datatype ResourceState = ResourceState(urn: string, stack: string)

  /** An operation that was in flight when the deployment was exported. */
  datatype PendingOperation = PendingOperation(opType: string, urn: string)

  datatype Snapshot = Snapshot(resources: seq<ResourceState>, pendingOperations: seq<PendingOperation>)

  datatype DeserializeError =
    | SchemaVersionTooOld
    | SchemaVersionTooNew
    | OtherError(message: string)

  /** What the deserializer made of the untyped deployment. */
  datatype Deserialized = Deserialized(snapshot: Snapshot) | DeserializeFailed(error: DeserializeError)

  /** A deployment envelope: a schema version and the deployment it wraps. */
  datatype Deployment = Deployment(version: int, snapshot: Snapshot)

  /** The outcome of validation: the errors that stop the import, or the
      warnings issued and the deployment to hand to the backend. */
  datatype ImportOutcome =
    | Rejected(errors: seq<string>)
    | ReadyToImport(warnings: seq<string>, deployment: Deployment)

  function TooOldMessage(stackName: string): string {
    "the stack '" + stackName + "' is too old to be used by this version of the Pulumi CLI"
  }

  function TooNewMessage(stackName: string): string {
    "the stack '" + stackName + "' is newer than what this version of the Pulumi CLI understands. " +
    "Please update your version of the Pulumi CLI"
  }

  const DeserializePrefix: string := "could not deserialize deployment: "

  /** The error reported for a deployment that could not be deserialized. */
  function DeserializeErrorMessage(err: DeserializeError, stackName: string): string {
    match err
    case SchemaVersionTooOld => TooOldMessage(stackName)
    case SchemaVersionTooNew => TooNewMessage(stackName)
    case OtherError(m) => DeserializePrefix + m
  }

  function MismatchMessage(res: ResourceState, stackName: string): string {
    "resource '" + res.urn + "' is from a different stack (" + res.stack + " != " + stackName + ")"
  }

  const DangerMessage: string := "importing this file could be dangerous; rerun with --force to proceed anyway"

  function PendingMessage(op: PendingOperation): string {
    "removing pending operation '" + op.opType + "' on '" + op.urn + "' from snapshot"
  }

  /** The mismatch messages for `resources`, in resource order. */
  function Mismatches(resources: seq<ResourceState>, stackName: string): seq<string> {
    if |resources| == 0 then []
    else
      (if resources[0].stack != stackName then [MismatchMessage(resources[0], stackName)] else [])
      + Mismatches(resources[1..], stackName)
  }

  /** The indices of the resources that belong to another stack. */
  function MismatchedIndices(resources: seq<ResourceState>, stackName: string): set<nat> {
    set i: nat | i < |resources| && resources[i].stack != stackName
  }

  /** The warnings issued for dropping `ops`, in order. */
  function PendingWarnings(ops: seq<PendingOperation>): (ws: seq<string>)
    ensures |ws| == |ops|
    ensures forall i | 0 <= i < |ops| :: ws[i] == PendingMessage(ops[i])
  {
    seq(|ops|, i requires 0 <= i < |ops| => PendingMessage(ops[i]))
  }

  lemma {:induction false} MismatchesAppend(resources: seq<ResourceState>, res: ResourceState, stackName: string)
    ensures Mismatches(resources + [res], stackName) ==
            Mismatches(resources, stackName) + (if res.stack != stackName then [MismatchMessage(res, stackName)] else [])
    decreases |resources|
  {
    if |resources| == 0 {
      assert (resources + [res])[1..] == [];
    } else {
      assert (resources + [res])[1..] == resources[1..] + [res];
      MismatchesAppend(resources[1..], res, stackName);
    }
  }

  /** There is no mismatch message exactly when every resource belongs to the
      target stack. */
  lemma {:induction false} NoMismatchesIff(resources: seq<ResourceState>, stackName: string)
    ensures Mismatches(resources, stackName) == [] <==> forall i | 0 <= i < |resources| :: resources[i].stack == stackName
    decreases |resources|
  {
    if |resources| > 0 {
      NoMismatchesIff(resources[1..], stackName);
      assert forall i | 1 <= i < |resources| :: resources[i] == resources[1..][i - 1];
    }
  }

  /** Each resource from another stack contributes exactly one message: there
      are as many messages as mismatched resources. */
  lemma {:induction false} OneMessagePerMismatch(resources: seq<ResourceState>, stackName: string)
    ensures |Mismatches(resources, stackName)| == |MismatchedIndices(resources, stackName)|
    decreases |resources|
  {
    if |resources| == 0 {
      assert MismatchedIndices(resources, stackName) == {};
    } else {
      var init := resources[..|resources| - 1];
      var last := resources[|resources| - 1];
      assert resources == init + [last];
      OneMessagePerMismatch(init, stackName);
      MismatchesAppend(init, last, stackName);
      var before := MismatchedIndices(init, stackName);
      var n := |resources| - 1;
      assert n !in before;
      if last.stack != stackName {
        assert MismatchedIndices(resources, stackName) == before + {n};
      } else {
        assert MismatchedIndices(resources, stackName) == before;
      }
    }
  }

  /** Every mismatched resource's message is among the messages, and every
      message is that of a mismatched resource. */
  lemma {:induction false} MismatchMessagesExact(resources: seq<ResourceState>, stackName: string, msg: string)
    ensures msg in Mismatches(resources, stackName) <==>
            exists i | 0 <= i < |resources| :: resources[i].stack != stackName && msg == MismatchMessage(resources[i], stackName)
    decreases |resources|
  {
    if |resources| > 0 {
      MismatchMessagesExact(resources[1..], stackName, msg);
      if exists i | 1 <= i < |resources| :: resources[i].stack != stackName && msg == MismatchMessage(resources[i], stackName) {
        var i :| 1 <= i < |resources| && resources[i].stack != stackName && msg == MismatchMessage(resources[i], stackName);
        assert resources[1..][i - 1] == resources[i];
      }
    }
  }

  /** The stack-ownership loop: without force the mismatch messages become
      errors, with force they become warnings. */
  method CheckStacks(resources: seq<ResourceState>, stackName: string, force: bool)
    returns (errors: seq<string>, warnings: seq<string>)
    ensures errors == (if force then [] else Mismatches(resources, stackName))
    ensures warnings == (if force then Mismatches(resources, stackName) else [])
  {
    errors, warnings := [], [];
    var i := 0;
    while i < |resources|
      invariant 0 <= i <= |resources|
      invariant errors == (if force then [] else Mismatches(resources[..i], stackName))
      invariant warnings == (if force then Mismatches(resources[..i], stackName) else [])
    {
      var res := resources[i];
      assert resources[..i + 1] == resources[..i] + [res];
      MismatchesAppend(resources[..i], res, stackName);
      if res.stack != stackName {
        var msg := MismatchMessage(res, stackName);
        if force {
          warnings := warnings + [msg];
        } else {
          errors := errors + [msg];
        }
      }
      i := i + 1;
    }
    assert resources[..i] == resources;
  }

  /** Drops every pending operation, with one warning per operation. */
  method StripPendingOperations(snapshot: Snapshot) returns (warnings: seq<string>, cleaned: Snapshot)
    ensures warnings == PendingWarnings(snapshot.pendingOperations)
    ensures cleaned.resources == snapshot.resources && cleaned.pendingOperations == []
  {
    var ops := snapshot.pendingOperations;
    warnings := [];
    var i := 0;
    while i < |ops|
      invariant 0 <= i <= |ops|
      invariant |warnings| == i
      invariant forall j | 0 <= j < i :: warnings[j] == PendingMessage(ops[j])
    {
      warnings := warnings + [PendingMessage(ops[i])];
      i := i + 1;
    }
    cleaned := snapshot.(pendingOperations := []);
  }

  /** The validation part of `stack import`: classify a deserialization
      failure, check stack ownership, drop pending operations and re-wrap the
      deployment with `currentVersion`, the CLI's current schema version. */
  method Import(stackName: string, force: bool, input: Deserialized, currentVersion: int)
    returns (outcome: ImportOutcome)
    ensures input.DeserializeFailed? ==> outcome == Rejected([DeserializeErrorMessage(input.error, stackName)])
    ensures input.Deserialized? && !force && Mismatches(input.snapshot.resources, stackName) != [] ==>
              outcome == Rejected(Mismatches(input.snapshot.resources, stackName) + [DangerMessage])
    ensures input.Deserialized? && (force || Mismatches(input.snapshot.resources, stackName) == []) ==>
              outcome == ReadyToImport(
                (if force then Mismatches(input.snapshot.resources, stackName) else [])
                + PendingWarnings(input.snapshot.pendingOperations),
                Deployment(currentVersion, input.snapshot.(pendingOperations := [])))
  {
    if input.DeserializeFailed? {
      return Rejected([DeserializeErrorMessage(input.error, stackName)]);
    }
    var snapshot := input.snapshot;
    var errors, warnings := CheckStacks(snapshot.resources, stackName, force);
    if errors != [] {
      return Rejected(errors + [DangerMessage]);
    }
    var pendingWarnings, cleaned := StripPendingOperations(snapshot);
    outcome := ReadyToImport(warnings + pendingWarnings, Deployment(currentVersion, cleaned));
  }

  /** The three classes of deserialization failure give different messages:
      only a generic failure is reported as "could not deserialize". */
  lemma DeserializeMessagesDistinct(err: DeserializeError, stackName: string)
    ensures DeserializePrefix <= DeserializeErrorMessage(err, stackName) <==> err.OtherError?
  {
    if !err.OtherError? {
      var m := DeserializeErrorMessage(err, stackName);
      assert m[0] == 't' != DeserializePrefix[0];
    }
  }
}
