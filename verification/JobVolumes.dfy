/** The volumes, mounts and paths of a backup Job, beside the paths shown for it on the host. */
module JobVolumes {
  import opened Text
  import opened Types

  datatype Volume = Volume(name: string, claim: string)

  datatype Mount = Mount(name: string, path: string)

  /** Slashes replaced by dashes, one character at a time. */
  function Dashed(s: string): (r: string)
    ensures |r| == |s| && forall i :: 0 <= i < |s| ==> r[i] == if s[i] == '/' then '-' else s[i]
  {
    seq(|s|, i requires 0 <= i < |s| => if s[i] == '/' then '-' else s[i])
  }

  function SanitizePath(s: string): string {
    if s == "" then "vol" else Dashed(s)
  }

  function DataPath(pvc: string): string { "/data/" + SanitizePath(pvc) }

  function DataPaths(pvcs: seq<string>): seq<string> {
    seq(|pvcs|, i requires 0 <= i < |pvcs| => DataPath(pvcs[i]))
  }

  /** The explicit paths; a single root or empty path counts as none. */
  function ExplicitPaths(paths: seq<string>): seq<string> {
    if |paths| == 1 && (paths[0] == "/" || paths[0] == "") then [] else paths
  }

  /** What a Job over the given claims backs up. */
  function JobPaths(s: BackupSpec, pvcs: seq<string>): seq<string> {
    if ExplicitPaths(s.paths) == [] then DataPaths(pvcs) else ExplicitPaths(s.paths)
  }

  function VolumeName(i: nat): string { "data-" + Decimal(i) }

  /** Where the i-th claim is mounted: explicit paths in order, the first one again when they run out. */
  function MountPath(s: BackupSpec, pvcs: seq<string>, i: nat): string
    requires i < |pvcs|
  {
    var paths := ExplicitPaths(s.paths);
    if paths == [] then DataPath(pvcs[i]) else if i < |paths| then paths[i] else paths[0]
  }

  /** pvcBackupPaths: the paths the host shows. */
  method PVCBackupPaths(s: BackupSpec) returns (out: seq<string>)
    ensures out == JobPaths(s, PvcList(s))
  {
    var pvcs, paths := PvcList(s), s.paths;
    if |paths| == 1 && (paths[0] == "/" || paths[0] == "") {
      paths := [];
    }
    if paths == [] {
      out := [];
      for i := 0 to |pvcs|
        invariant out == DataPaths(pvcs)[..i]
      {
        out := out + [DataPath(pvcs[i])];
      }
      return;
    }
    out := paths;
  }

  /** buildResticBackupJobVolumes. */
  method BuildVolumes(s: BackupSpec, pvcs: seq<string>)
    returns (vols: seq<Volume>, mounts: seq<Mount>, paths: seq<string>)
    ensures |vols| == |mounts| == |pvcs|
    ensures forall i :: 0 <= i < |pvcs| ==>
              vols[i] == Volume(VolumeName(i), pvcs[i]) && mounts[i] == Mount(VolumeName(i), MountPath(s, pvcs, i))
    ensures paths == JobPaths(s, pvcs)
  {
    vols, mounts, paths := [], [], s.paths;
    if |paths| == 1 && (paths[0] == "/" || paths[0] == "") {
      paths := [];
    }
    if paths == [] {
      for i := 0 to |pvcs|
        invariant |vols| == |mounts| == |paths| == i
        invariant forall j :: 0 <= j < i ==>
                    vols[j] == Volume(VolumeName(j), pvcs[j]) && mounts[j] == Mount(VolumeName(j), DataPath(pvcs[j]))
        invariant forall j :: 0 <= j < i ==> paths[j] == DataPath(pvcs[j])
      {
        var name, path := VolumeName(i), DataPath(pvcs[i]);
        vols := vols + [Volume(name, pvcs[i])];
        mounts := mounts + [Mount(name, path)];
        paths := paths + [path];
      }
    } else {
      for i := 0 to |pvcs|
        invariant |vols| == |mounts| == i
        invariant forall j :: 0 <= j < i ==>
                    vols[j] == Volume(VolumeName(j), pvcs[j]) && mounts[j] == Mount(VolumeName(j), MountPath(s, pvcs, j))
      {
        var name, mount := VolumeName(i), paths[0];
        if i < |paths| {
          mount := paths[i];
        }
        vols := vols + [Volume(name, pvcs[i])];
        mounts := mounts + [Mount(name, mount)];
      }
    }
  }

  /** Volume names are pairwise distinct, so every volume has exactly one mount and every mount one volume. */
  lemma VolumeNamesDistinct(i: nat, j: nat)
    ensures VolumeName(i) == VolumeName(j) <==> i == j
  {
    ValueOfDecimal(i);
    ValueOfDecimal(j);
    assert VolumeName(i)[5..] == Decimal(i) && VolumeName(j)[5..] == Decimal(j);
  }

  /** In the default branch the mounted paths and the backed-up paths are the same list. */
  lemma DefaultMountsArePaths(s: BackupSpec, pvcs: seq<string>, i: nat)
    requires ExplicitPaths(s.paths) == [] && i < |pvcs|
    ensures |JobPaths(s, pvcs)| == |pvcs| && JobPaths(s, pvcs)[i] == MountPath(s, pvcs, i)
  {
  }

  /** The whole disk, written as a root or an empty path, means the default paths, and the other single paths do not. */
  lemma RootMeansDefault(s: BackupSpec, pvcs: seq<string>)
    ensures JobPaths(s.(paths := ["/"]), pvcs) == JobPaths(s.(paths := [""]), pvcs) == JobPaths(s.(paths := []), pvcs)
    ensures |JobPaths(s.(paths := []), pvcs)| == |pvcs|
    ensures forall i :: 0 <= i < |pvcs| ==> JobPaths(s.(paths := []), pvcs)[i] == "/data/" + SanitizePath(pvcs[i])
    ensures |s.paths| > 1 || (|s.paths| == 1 && s.paths[0] != "/" && s.paths[0] != "") ==> JobPaths(s, pvcs) == s.paths
  {
    assert s.(paths := ["/"]).paths == ["/"] && s.(paths := [""]).paths == [""];
  }

  ghost predicate Mounted(s: BackupSpec, pvcs: seq<string>, path: string) {
    exists i :: 0 <= i < |pvcs| && MountPath(s, pvcs, i) == path
  }

  /** With explicit paths every backed-up path is a mount if and only if the paths beyond the number of claims
      repeat earlier ones. */
  lemma ExplicitPathsMounted(s: BackupSpec, pvcs: seq<string>)
    requires ExplicitPaths(s.paths) != [] && pvcs != []
    ensures (forall p :: p in JobPaths(s, pvcs) ==> Mounted(s, pvcs, p))
            <==> forall j :: |pvcs| <= j < |s.paths| ==> s.paths[j] in s.paths[..|pvcs|]
  {
    var paths := s.paths;
    if forall p :: p in JobPaths(s, pvcs) ==> Mounted(s, pvcs, p) {
      forall j | |pvcs| <= j < |paths| ensures paths[j] in paths[..|pvcs|] {
        assert paths[j] in JobPaths(s, pvcs);
        var i :| 0 <= i < |pvcs| && MountPath(s, pvcs, i) == paths[j];
        assert paths[i] == paths[..|pvcs|][i];
      }
    }
    if forall j :: |pvcs| <= j < |paths| ==> paths[j] in paths[..|pvcs|] {
      forall p | p in JobPaths(s, pvcs) ensures Mounted(s, pvcs, p) {
        var j :| 0 <= j < |paths| && paths[j] == p;
        var i :| 0 <= i < |pvcs| && i < |paths| && paths[i] == p;
        assert MountPath(s, pvcs, i) == p;
      }
    }
  }

  ghost predicate MountsDistinct(s: BackupSpec, pvcs: seq<string>) {
    forall i, j :: 0 <= i < j < |pvcs| ==> MountPath(s, pvcs, i) != MountPath(s, pvcs, j)
  }

  /** Two claims share a mount path, which no pod may have, unless there is an explicit path of its own for each. */
  lemma ExplicitMountsDistinct(s: BackupSpec, pvcs: seq<string>)
    requires ExplicitPaths(s.paths) != []
    ensures MountsDistinct(s, pvcs)
            <==> (|pvcs| <= |s.paths| || |pvcs| <= 1) &&
                 forall i, j :: 0 <= i < j < |pvcs| && j < |s.paths| ==> s.paths[i] != s.paths[j]
  {
    var paths := s.paths;
    if |paths| < |pvcs| {
      assert MountPath(s, pvcs, |paths|) == MountPath(s, pvcs, 0);
    }
    if MountsDistinct(s, pvcs) {
      forall i, j | 0 <= i < j < |pvcs| && j < |paths| ensures paths[i] != paths[j] {
        assert MountPath(s, pvcs, i) != MountPath(s, pvcs, j);
      }
    }
  }

  /** Claim names are sanitized one character at a time, so without slashes distinct claims get distinct paths. */
  lemma DefaultMountsDistinct(s: BackupSpec, pvcs: seq<string>)
    requires ExplicitPaths(s.paths) == []
    requires forall i :: 0 <= i < |pvcs| ==> pvcs[i] != "" && '/' !in pvcs[i]
    ensures MountsDistinct(s, pvcs) <==> forall i, j :: 0 <= i < j < |pvcs| ==> pvcs[i] != pvcs[j]
    ensures forall i :: 0 <= i < |pvcs| ==> MountPath(s, pvcs, i) == "/data/" + pvcs[i]
  {
    forall i | 0 <= i < |pvcs| ensures MountPath(s, pvcs, i)[6..] == pvcs[i] {
      assert MountPath(s, pvcs, i) == "/data/" + Dashed(pvcs[i]);
      assert Dashed(pvcs[i]) == pvcs[i];
    }
    if MountsDistinct(s, pvcs) {
      forall i, j | 0 <= i < j < |pvcs| ensures pvcs[i] != pvcs[j] {
        assert MountPath(s, pvcs, i) != MountPath(s, pvcs, j);
        assert MountPath(s, pvcs, i) == "/data/" + pvcs[i] && MountPath(s, pvcs, j) == "/data/" + pvcs[j];
      }
    }
  }

  /** A Job over the snapshot's clone backs up what the host shows if and only if the paths are explicit or the
      clone's name sanitizes to the claim's. */
  lemma ClonePaths(s: BackupSpec, clone: string)
    requires |PvcList(s)| == 1
    ensures JobPaths(s, [clone]) == JobPaths(s, PvcList(s))
            <==> ExplicitPaths(s.paths) != [] || SanitizePath(clone) == SanitizePath(PvcList(s)[0])
  {
    var p := PvcList(s)[0];
    assert DataPath(clone)[6..] == SanitizePath(clone) && DataPath(p)[6..] == SanitizePath(p);
    if ExplicitPaths(s.paths) == [] {
      assert JobPaths(s, [clone])[0] == DataPath(clone) && JobPaths(s, PvcList(s))[0] == DataPath(p);
      if SanitizePath(clone) == SanitizePath(p) {
        assert JobPaths(s, [clone]) == JobPaths(s, PvcList(s));
      }
    }
  }
}
