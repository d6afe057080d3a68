/** The loop programs of `CompatibilityChecker`: `get_bnb_for_cuda_python`
    (test_compatibility.py:377-387), the flash-attention accumulation
    (lines 429-437) and the three nested loops of `update_compatibility`
    (lines 399-497). The checker object only reads its reference data, so
    the data is a parameter `t` and the methods change nothing. */
module Checker {
  import opened Seqs
  import opened Text
  import opened CompatTables
  import opened Resolver

  /** `get_bnb_for_cuda_python`: the bitsandbytes versions built for this CUDA
      and Python, in table order, `*`-marked where the CUDA version is only
      assumed, and whether any was marked. */
  method GetBnbForCudaPython(t: Tables, cudaVersion: string, pythonVersion: string)
    returns (bnbVersions: seq<string>, bnbHasAssumed: bool)
    ensures bnbVersions == BnbLabels(t.bitsandbytes, cudaVersion, pythonVersion)
    ensures bnbHasAssumed
        <==> exists b :: b in t.bitsandbytes && pythonVersion in b.python && cudaVersion in b.cuda
                         && cudaVersion in b.assumedCuda
  {
    var table := t.bitsandbytes;
    bnbVersions := [];
    bnbHasAssumed := false;
    for i := 0 to |table|
      invariant bnbVersions == BnbLabels(table[..i], cudaVersion, pythonVersion)
      invariant bnbHasAssumed == AnyBnbAssumed(table[..i], cudaVersion, pythonVersion)
    {
      var bnb := table[i];
      assert table[..i + 1] == table[..i] + [bnb];
      MapAppend(BnbLabel(cudaVersion), Filter(BnbFor(cudaVersion, pythonVersion), table[..i]),
                if BnbFor(cudaVersion, pythonVersion)(bnb) then [bnb] else []);
      if pythonVersion in bnb.python && cudaVersion in bnb.cuda {
        var versionStr := bnb.bnb;
        if cudaVersion in bnb.assumedCuda {
          versionStr := versionStr + "*";
          bnbHasAssumed := true;
        }
        bnbVersions := bnbVersions + [versionStr];
      }
    }
    assert table[..|table|] == table;
  }

  /** The flash-attention loop: one label per matching entry, in order,
      `*`-marked exactly when the entry is assumed, and whether any was. */
  method CollectFa2Versions(fa2Compat: seq<FlashAttention>) returns (fa2Versions: seq<string>, fa2HasAssumed: bool)
    ensures |fa2Versions| == |fa2Compat|
    ensures forall i :: 0 <= i < |fa2Compat| ==>
      fa2Versions[i] == (if fa2Compat[i].assumed then fa2Compat[i].fa2 + "*" else fa2Compat[i].fa2)
    ensures fa2Versions == Map(Fa2Label, fa2Compat)
    ensures fa2HasAssumed <==> exists e :: e in fa2Compat && e.assumed
  {
    fa2Versions := [];
    fa2HasAssumed := false;
    for i := 0 to |fa2Compat|
      invariant |fa2Versions| == i
      invariant forall j :: 0 <= j < i ==>
        fa2Versions[j] == (if fa2Compat[j].assumed then fa2Compat[j].fa2 + "*" else fa2Compat[j].fa2)
      invariant fa2HasAssumed <==> exists e :: e in fa2Compat[..i] && e.assumed
    {
      var fa := fa2Compat[i];
      assert fa2Compat[..i + 1] == fa2Compat[..i] + [fa];
      var versionStr := fa.fa2;
      if fa.assumed {
        versionStr := versionStr + "*";
        fa2HasAssumed := true;
      }
      fa2Versions := fa2Versions + [versionStr];
    }
    assert fa2Compat[..|fa2Compat|] == fa2Compat;
  }

  /** The body of the innermost loop of `update_compatibility` for one
      Python version: `keep` is false exactly when one of its `continue`s
      fires, and otherwise `row` is the record it appends. */
  method PythonBranch(t: Tables, f: Filters, tc: TorchCuda, pt: TorchProfile, pyVer: string)
    returns (keep: bool, row: Combo)
    ensures keep == BranchPasses(t, f, Branch(tc, pt, pyVer))
    ensures keep ==> row == BuildRow(t, Branch(tc, pt, pyVer))
  {
    keep := false;
    // The record of lines 464-497; the caller appends it only when `keep` ends true.
    row := BuildRow(t, Branch(tc, pt, pyVer));
    BranchPassesParts(t, f, tc, pt, pyVer);
    if Active(f.python) && pyVer != f.python.value {
      return;
    }

    var fa2Compat := Fa2Compat(t, tc, pyVer);
    var fa2Versions: seq<string>;
    var fa2HasAssumed := false;
    if |fa2Compat| > 0 {
      fa2Versions, fa2HasAssumed := CollectFa2Versions(fa2Compat);
    } else {
      fa2Versions := ["-"];
    }
    assert fa2Versions == Fa2Shown(fa2Compat);
    if Active(f.fa2) {
      var matchingFa2 := Filter(Fa2Is(f.fa2.value), fa2Compat);
      if |matchingFa2| == 0 {
        return;
      }
    }

    var xfCompat := Filter(XformersFor(tc), t.xformers);
    var xfVersions := if |xfCompat| > 0 then Map(XformersName, xfCompat) else ["-"];
    assert xfVersions == XformersVersions(t, tc);
    if Active(f.xformers) && f.xformers.value !in xfVersions {
      return;
    }

    var bnbVersions, bnbHasAssumed := GetBnbForCudaPython(t, tc.cuda, pyVer);
    if |bnbVersions| == 0 {
      bnbVersions := ["-"];
    }
    assert bnbVersions == BnbShown(t.bitsandbytes, tc.cuda, pyVer);
    if Active(f.bnb) {
      var matchingBnb := Filter(Unstarred(f.bnb.value), bnbVersions);
      if |matchingBnb| == 0 {
        return;
      }
    }

    assert PythonPasses(f, pyVer) && Fa2Passes(f, fa2Compat);
    assert XformersPasses(f, xfVersions) && BnbPasses(f, bnbVersions);
    keep := true;
  }

  /** `update_compatibility` without the widgets: the list `compatible`,
      built by the wheel loop, which hands each surviving wheel row to
      `ProfileLoop`. */
  method UpdateCompatibility(t: Tables, f: Filters) returns (compatible: seq<Combo>)
    ensures compatible == Resolve(t, f)
  {
    var torchCuda := t.torchCuda;
    compatible := [];
    for i := 0 to |torchCuda|
      invariant compatible == Rows(t, f, WheelTriples(torchCuda[..i], t.torchPythonTriton))
    {
      var tc := torchCuda[i];
      WheelStep(t, f, torchCuda, t.torchPythonTriton, i);
      if !WheelPasses(f, tc) {
        WheelDropped(t, f, tc, MatchingProfiles(t.torchPythonTriton, tc.torch));
      }
      if Active(f.torch) && tc.torch != f.torch.value {
        continue;
      }
      if Active(f.cuda) && tc.cuda != f.cuda.value {
        continue;
      }
      if f.windowsOnly && !tc.windows {
        continue;
      }
      var rows := ProfileLoop(t, f, tc);
      compatible := compatible + rows;
    }
    assert torchCuda[..|torchCuda|] == torchCuda;
  }

  /** The profile loop of `update_compatibility` for one wheel row that passed
      the torch, CUDA and Windows checks: the records it appends. */
  method ProfileLoop(t: Tables, f: Filters, tc: TorchCuda) returns (rows: seq<Combo>)
    requires WheelPasses(f, tc)
    ensures rows == Rows(t, f, ProfileTriples(tc, MatchingProfiles(t.torchPythonTriton, tc.torch)))
  {
    var matchingPt := MatchingProfiles(t.torchPythonTriton, tc.torch);
    rows := [];
    assert matchingPt[..0] == [];
    for j := 0 to |matchingPt|
      invariant rows == Rows(t, f, ProfileTriples(tc, matchingPt[..j]))
    {
      var pt := matchingPt[j];
      ProfileStep(t, f, tc, matchingPt, j);
      if !ProfilePasses(f, tc, pt) {
        ProfileDropped(t, f, tc, pt);
      }
      var cudaShort := CudaShort(tc.cuda);
      if cudaShort !in pt.cudaVersions {
        continue;
      }
      if Active(f.triton) && f.triton.value !in pt.tritonCompat {
        continue;
      }
      var more := PythonLoop(t, f, tc, pt);
      rows := rows + more;
    }
    assert matchingPt[..|matchingPt|] == matchingPt;
  }

  /** The Python loop of `update_compatibility` for one (wheel row, profile)
      pair that passed the wheel and profile checks: the records it appends. */
  method PythonLoop(t: Tables, f: Filters, tc: TorchCuda, pt: TorchProfile) returns (rows: seq<Combo>)
    requires WheelPasses(f, tc) && ProfilePasses(f, tc, pt)
    ensures rows == Rows(t, f, PythonTriples(tc, pt, pt.python))
  {
    rows := [];
    assert pt.python[..0] == [];
    for k := 0 to |pt.python|
      invariant rows == Rows(t, f, PythonTriples(tc, pt, pt.python[..k]))
    {
      var pyVer := pt.python[k];
      PythonStep(t, f, tc, pt, pt.python, k);
      var keep, row := PythonBranch(t, f, tc, pt, pyVer);
      assert keep == Keep(t, f, Branch(tc, pt, pyVer));
      if keep {
        rows := rows + [row];
      }
    }
    assert pt.python[..|pt.python|] == pt.python;
  }
}
