/** The admission check of a PVCBackup, and what it spares the reconciler. */
module Admission {
  import opened Text
  import opened Types
  import opened Workloads
  import opened Protocol
  import opened Isolation

  /** A submitted PVCBackup: its spec, the repository it names and its leave-down annotation. */
  datatype Submitted = Submitted(spec: BackupSpec, repoName: string, confirmed: string)

  datatype Verdict =
    | Allowed | NoClaims | NoRepository | NoSnapshotClass | SeveralClaims | LiveFlush | Unconfirmed

  /** A pipeline step the check has nothing against. */
  predicate StepAllowed(s: BackupSpec, step: string) {
    step != "liveFlush" && (IsSnapshotStep(step) ==> s.snapshotClass != "" && |s.pvcNames| <= 1)
  }

  predicate Acceptable(o: Submitted) {
    && (o.spec.pvcName != "" || o.spec.pvcNames != []) && o.repoName != ""
    && (forall i :: 0 <= i < |o.spec.pipeline| ==> StepAllowed(o.spec, o.spec.pipeline[i]))
    && (o.spec.leaveDown ==> o.confirmed == "true")
  }

  /** The PVCBackup case of ValidateObject. */
  method ValidateBackup(o: Submitted) returns (v: Verdict)
    ensures v.Allowed? <==> Acceptable(o)
    ensures v.NoClaims? <==> PvcList(o.spec) == []
    ensures v.NoRepository? <==> PvcList(o.spec) != [] && o.repoName == ""
    ensures v.NoSnapshotClass? || v.SeveralClaims? || v.LiveFlush? ==>
              exists i :: 0 <= i < |o.spec.pipeline| && !StepAllowed(o.spec, o.spec.pipeline[i]) &&
                          forall j :: 0 <= j < i ==> StepAllowed(o.spec, o.spec.pipeline[j])
    ensures v.NoSnapshotClass? ==> o.spec.snapshotClass == ""
    ensures v.SeveralClaims? ==> o.spec.snapshotClass != "" && |PvcList(o.spec)| > 1
    ensures v.LiveFlush? ==> "liveFlush" in o.spec.pipeline
    ensures v.Unconfirmed? ==> o.spec.leaveDown && o.confirmed != "true"
  {
    if o.spec.pvcName == "" && |o.spec.pvcNames| == 0 {
      return NoClaims;
    }
    if o.repoName == "" {
      return NoRepository;
    }
    for i := 0 to |o.spec.pipeline|
      invariant forall j :: 0 <= j < i ==> StepAllowed(o.spec, o.spec.pipeline[j])
    {
      var s := o.spec.pipeline[i];
      if s == "csiSnapshot" || s == "topolvmSnapshot" {
        if o.spec.snapshotClass == "" {
          return NoSnapshotClass;
        }
        if |o.spec.pvcNames| > 1 {
          return SeveralClaims;
        }
      }
      if s == "liveFlush" {
        return LiveFlush;
      }
    }
    if o.spec.leaveDown && o.confirmed != "true" {
      return Unconfirmed;
    }
    return Allowed;
  }

  /** What the admission check asks of the snapshot steps. */
  ghost predicate SnapshotsAllowed(s: BackupSpec, steps: seq<string>) {
    forall i :: 0 <= i < |steps| && IsSnapshotStep(steps[i]) ==> s.snapshotClass != "" && |s.pvcNames| <= 1
  }

  /** As long as the API server takes the snapshots, the pipeline loop fails exactly on the steps the admission check
      refuses, whatever the length of the pipeline. */
  lemma {:induction false} PipelineFailsIff(w: World, b: PVCBackup, steps: seq<string>, inp: Inputs)
    requires Known(w, b) && PvcList(b.spec) != [] && TakeSnapshot !in inp.faults
    ensures SnapshotSteps(w, b, steps, inp).ok <==> SnapshotsAllowed(b.spec, steps)
    ensures SnapshotSteps(w, b, steps, inp).m.b.spec == b.spec
  {
    if steps != [] {
      var front, last := steps[..|steps| - 1], steps[|steps| - 1];
      PipelineFailsIff(w, b, front, inp);
      assert steps == front + [last];
      assert SnapshotsAllowed(b.spec, steps) <==>
             SnapshotsAllowed(b.spec, front) && (IsSnapshotStep(last) ==> b.spec.snapshotClass != "" && |b.spec.pvcNames| <= 1);
    }
  }

  /** An accepted backup reaches neither the failure for missing claims nor the two snapshot failures. */
  lemma AcceptedPipelineRuns(w: World, b: PVCBackup, o: Submitted, inp: Inputs)
    requires Known(w, b) && b.spec == o.spec && Acceptable(o) && TakeSnapshot !in inp.faults
    ensures PvcList(b.spec) != [] && SnapshotSteps(w, b, Pipeline(b.spec), inp).ok
  {
    PipelineFailsIff(w, b, Pipeline(b.spec), inp);
    forall i | 0 <= i < |Pipeline(b.spec)| && IsSnapshotStep(Pipeline(b.spec)[i])
      ensures b.spec.snapshotClass != "" && |b.spec.pvcNames| <= 1
    {
      assert Pipeline(b.spec) == o.spec.pipeline;
      assert StepAllowed(o.spec, o.spec.pipeline[i]);
    }
  }

  lemma {:induction false} ClaimKeysEmpty(ns: string, pvcs: seq<string>)
    ensures ClaimKeys(ns, pvcs) == [] <==> forall i :: 0 <= i < |pvcs| ==> pvcs[i] == ""
  {
    if pvcs != [] {
      var front, last := pvcs[..|pvcs| - 1], pvcs[|pvcs| - 1];
      ClaimKeysEmpty(ns, front);
      assert pvcs == front + [last];
      assert last != "" ==> ClaimKeys(ns, pvcs) == ClaimKeys(ns, front) + [PvcKey(ns, last)];
    }
  }

  /** An accepted backup takes part in the session lock if and only if one of its claim names is not empty; a list
      of empty names is accepted and locks nothing. */
  lemma AcceptedLocks(o: Submitted, b: PVCBackup)
    requires Acceptable(o) && b.spec == o.spec
    ensures BackupPVCKeys(b) == [] <==> o.spec.pvcNames != [] && forall i :: 0 <= i < |o.spec.pvcNames| ==> o.spec.pvcNames[i] == ""
  {
    ClaimKeysEmpty(b.key.ns, PvcList(b.spec));
    if o.spec.pvcNames == [] {
      assert PvcList(b.spec)[0] != "";
    }
  }
}
