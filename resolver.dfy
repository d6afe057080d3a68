/** The compatibility resolver of `CompatibilityChecker`
    (test_compatibility.py:377-497) with the Qt reads lifted into a
    `Filters` value and the table rendering dropped.

    The specification is `Resolve(t, f)`: enumerate every (wheel row,
    profile with the same torch, Python version of that profile) triple in
    the order of the three nested loops (`Triples`), keep those for which no
    `continue` fires (`Keep`), and build one result record per kept triple
    (`BuildRow`). `UpdateCompatibility` is the loop program itself, proved to
    compute `Resolve`. */
module Resolver {
  import opened Wrappers
  import opened Seqs
  import opened Text
  import opened CompatTables

  // ---------------------------------------------------------------------
  // Selections

  /** The combo-box reading: the "Any" entry means no selection. */
  function Selection(text: string): Option<string>
  {
    if text == "Any" then None else Some(text)
  }

  /** A selection filters only when Python treats it as true
      (`if torch_sel and ...`): set, and not the empty string. */
  predicate Active(sel: Option<string>)
  {
    sel.Some? && sel.value != ""
  }

  /** The seven selections and the "Windows Only" toggle. */
  datatype Filters = Filters(
    torch: Option<string>,
    python: Option<string>,
    cuda: Option<string>,
    fa2: Option<string>,
    xformers: Option<string>,
    triton: Option<string>,
    bnb: Option<string>,
    windowsOnly: bool)

  const NoFilters := Filters(None, None, None, None, None, None, None, false)

  /** A combo box showing `text` is read as `sel` when `sel` filters exactly
      for a real choice (neither "Any" nor the empty text) and then on that
      text. */
  predicate ReadsAs(sel: Option<string>, text: string)
  {
    (Active(sel) <==> text != "Any" && text != "") && (Active(sel) ==> sel.value == text)
  }

  /** The filter values as `update_compatibility` reads them from the widgets
      (lines 390-397). */
  function ReadFilters(torchText: string, pythonText: string, cudaText: string, fa2Text: string,
                       xformersText: string, tritonText: string, bnbText: string,
                       windowsChecked: bool): (f: Filters)
    ensures ReadsAs(f.torch, torchText) && ReadsAs(f.python, pythonText)
    ensures ReadsAs(f.cuda, cudaText) && ReadsAs(f.fa2, fa2Text)
    ensures ReadsAs(f.xformers, xformersText) && ReadsAs(f.triton, tritonText)
    ensures ReadsAs(f.bnb, bnbText) && f.windowsOnly == windowsChecked
  {
    Filters(Selection(torchText), Selection(pythonText), Selection(cudaText), Selection(fa2Text),
            Selection(xformersText), Selection(tritonText), Selection(bnbText), windowsChecked)
  }

  /** One result record, with the display strings the table shows. */
  datatype Combo = Combo(
    torch: string,
    torchvision: string,
    torchaudio: string,
    python: string,
    cuda: string,
    cudnn: string,
    triton: string,
    fa2: string,
    fa2HasAssumed: bool,
    xformers: string,
    bnb: string,
    bnbHasAssumed: bool,
    windows: string,
    stabilityUndocumented: bool)

  /** A point of the loop nest: a wheel row, a profile, a Python version. */
  datatype Branch = Branch(wheel: TorchCuda, profile: TorchProfile, python: string)

  // ---------------------------------------------------------------------
  // Lookups (the list comprehensions)

  function SameTorch(torch: string): TorchProfile -> bool
  {
    (p: TorchProfile) => p.torch == torch
  }

  /** `matching_pt`: the profiles of one torch version, in table order. */
  function MatchingProfiles(profiles: seq<TorchProfile>, torch: string): seq<TorchProfile>
  {
    Filter(SameTorch(torch), profiles)
  }

  /** The CUDA version cut to its first two dot-separated parts (major.minor),
      or left whole when it has fewer. */
  function CudaShort(cuda: string): string
  {
    var parts := Split(cuda, '.');
    Join(parts[..if |parts| < 2 then |parts| else 2], ".")
  }

  function Fa2For(w: TorchCuda, py: string): FlashAttention -> bool
  {
    (e: FlashAttention) => e.torch == w.torch && e.python == py && e.cuda == w.cuda
  }

  /** `fa2_compat`: same torch, same Python, exactly the same full CUDA string. */
  function Fa2Compat(t: Tables, w: TorchCuda, py: string): seq<FlashAttention>
  {
    Filter(Fa2For(w, py), t.flashAttention)
  }

  function Fa2Is(sel: string): FlashAttention -> bool
  {
    (e: FlashAttention) => e.fa2 == sel
  }

  /** The version an entry contributes; assumed entries are marked with `*`. */
  function Fa2Label(e: FlashAttention): string
  {
    if e.assumed then e.fa2 + "*" else e.fa2
  }

  /** `fa2_versions` before sorting: the labels, or `["-"]` when nothing matched. */
  function Fa2Shown(entries: seq<FlashAttention>): seq<string>
  {
    if |entries| > 0 then Map(Fa2Label, entries) else ["-"]
  }

  predicate AnyFa2Assumed(entries: seq<FlashAttention>)
  {
    exists e :: e in entries && e.assumed
  }

  function XformersFor(w: TorchCuda): Xformers -> bool
  {
    (x: Xformers) => x.torch == w.torch && w.cuda in x.cuda
  }

  function XformersName(x: Xformers): string
  {
    x.xformers
  }

  /** `xf_versions`: names of the xformers rows for this torch and CUDA, or `["-"]`. */
  function XformersVersions(t: Tables, w: TorchCuda): seq<string>
  {
    var found := Filter(XformersFor(w), t.xformers);
    if |found| > 0 then Map(XformersName, found) else ["-"]
  }

  function BnbFor(cuda: string, py: string): Bitsandbytes -> bool
  {
    (b: Bitsandbytes) => py in b.python && cuda in b.cuda
  }

  function BnbLabel(cuda: string): Bitsandbytes -> string
  {
    (b: Bitsandbytes) => if cuda in b.assumedCuda then b.bnb + "*" else b.bnb
  }

  /** The list `get_bnb_for_cuda_python` returns. */
  function BnbLabels(table: seq<Bitsandbytes>, cuda: string, py: string): seq<string>
  {
    Map(BnbLabel(cuda), Filter(BnbFor(cuda, py), table))
  }

  /** The flag `get_bnb_for_cuda_python` returns. */
  predicate AnyBnbAssumed(table: seq<Bitsandbytes>, cuda: string, py: string)
  {
    exists b :: b in table && BnbFor(cuda, py)(b) && cuda in b.assumedCuda
  }

  /** `bnb_versions` after the `["-"]` substitution for an empty list. */
  function BnbShown(table: seq<Bitsandbytes>, cuda: string, py: string): seq<string>
  {
    var found := BnbLabels(table, cuda, py);
    if |found| == 0 then ["-"] else found
  }

  function Unstarred(sel: string): string -> bool
  {
    (v: string) => Strip(v, '*') == sel
  }

  // ---------------------------------------------------------------------
  // Display strings

  function CudaDisplay(w: TorchCuda): string
  {
    if w.stabilityUndocumented then w.cuda + "†" else w.cuda
  }

  function TritonDisplay(p: TorchProfile): string
  {
    if |p.tritonCompat| > 1 then Join(p.tritonCompat, ", ") + " (pin: " + p.triton + ")"
    else p.triton
  }

  /** The first three entries joined with commas, followed by an ellipsis
      when there are more. */
  function Abbreviate(xs: seq<string>): string
  {
    Join(xs[..if |xs| < 3 then |xs| else 3], ", ") + (if |xs| > 3 then "..." else "")
  }

  /** The distinct labels, largest first, joined with commas. */
  function Fa2Display(shown: seq<string>): string
  {
    Join(SortedDistinctDescending(shown), ", ")
  }

  function WindowsSupport(w: TorchCuda): string
  {
    if w.windows then "Yes" else "No (cuDNN)"
  }

  /** The value stored under `key`, or `default` when there is none. */
  function Get(m: map<string, string>, key: string, default: string): string
  {
    if key in m then m[key] else default
  }

  /** The companion versions of a torch release, or none when it is not listed. */
  function EcosystemOf(t: Tables, torch: string): map<string, string>
  {
    if torch in t.torchEcosystem then t.torchEcosystem[torch] else map[]
  }

  /** The record appended at the end of the innermost loop. */
  function BuildRow(t: Tables, b: Branch): Combo
  {
    var w, p, py := b.wheel, b.profile, b.python;
    var fa2Compat := Fa2Compat(t, w, py);
    var eco := EcosystemOf(t, w.torch);
    Combo(
      torch := w.torch,
      torchvision := Get(eco, "torchvision", "-"),
      torchaudio := Get(eco, "torchaudio", "-"),
      python := py,
      cuda := CudaDisplay(w),
      cudnn := w.cudnn,
      triton := TritonDisplay(p),
      fa2 := Fa2Display(Fa2Shown(fa2Compat)),
      fa2HasAssumed := AnyFa2Assumed(fa2Compat),
      xformers := Abbreviate(XformersVersions(t, w)),
      bnb := Abbreviate(BnbShown(t.bitsandbytes, w.cuda, py)),
      bnbHasAssumed := AnyBnbAssumed(t.bitsandbytes, w.cuda, py),
      windows := WindowsSupport(w),
      stabilityUndocumented := w.stabilityUndocumented)
  }

  // ---------------------------------------------------------------------
  // The filters: a branch is kept exactly when no `continue` fires

  /** The three checks on the wheel row (lines 402-407). */
  predicate WheelPasses(f: Filters, w: TorchCuda)
  {
    !(Active(f.torch) && w.torch != f.torch.value)
    && !(Active(f.cuda) && w.cuda != f.cuda.value)
    && !(f.windowsOnly && !w.windows)
  }

  /** The two checks on the profile (lines 412-419). */
  predicate ProfilePasses(f: Filters, w: TorchCuda, p: TorchProfile)
  {
    CudaShort(w.cuda) in p.cudaVersions
    && !(Active(f.triton) && f.triton.value !in p.tritonCompat)
  }

  /** The four checks on the Python version and the add-ons (lines 422-462). */
  predicate BranchPasses(t: Tables, f: Filters, b: Branch)
  {
    PythonPasses(f, b.python)
    && Fa2Passes(f, Fa2Compat(t, b.wheel, b.python))
    && XformersPasses(f, XformersVersions(t, b.wheel))
    && BnbPasses(f, BnbShown(t.bitsandbytes, b.wheel.cuda, b.python))
  }

  lemma BranchPassesParts(t: Tables, f: Filters, w: TorchCuda, p: TorchProfile, py: string)
    ensures BranchPasses(t, f, Branch(w, p, py))
        == (PythonPasses(f, py) && Fa2Passes(f, Fa2Compat(t, w, py))
            && XformersPasses(f, XformersVersions(t, w)) && BnbPasses(f, BnbShown(t.bitsandbytes, w.cuda, py)))
  {
  }

  predicate PythonPasses(f: Filters, py: string)
  {
    !(Active(f.python) && py != f.python.value)
  }

  predicate Fa2Passes(f: Filters, fa2Compat: seq<FlashAttention>)
  {
    !(Active(f.fa2) && |Filter(Fa2Is(f.fa2.value), fa2Compat)| == 0)
  }

  predicate XformersPasses(f: Filters, xfVersions: seq<string>)
  {
    !(Active(f.xformers) && f.xformers.value !in xfVersions)
  }

  predicate BnbPasses(f: Filters, bnbVersions: seq<string>)
  {
    !(Active(f.bnb) && |Filter(Unstarred(f.bnb.value), bnbVersions)| == 0)
  }

  predicate Keep(t: Tables, f: Filters, b: Branch)
  {
    WheelPasses(f, b.wheel) && ProfilePasses(f, b.wheel, b.profile) && BranchPasses(t, f, b)
  }

  function KeepFn(t: Tables, f: Filters): Branch -> bool
  {
    (b: Branch) => Keep(t, f, b)
  }

  function RowFn(t: Tables): Branch -> Combo
  {
    (b: Branch) => BuildRow(t, b)
  }

  // ---------------------------------------------------------------------
  // The loop nest as an enumeration

  /** The innermost loop: one branch per Python version, in list order. */
  function PythonTriples(w: TorchCuda, p: TorchProfile, pys: seq<string>): (r: seq<Branch>)
    ensures forall b :: b in r <==> b.wheel == w && b.profile == p && b.python in pys
  {
    if |pys| == 0 then []
    else
      var n := |pys| - 1;
      assert forall y :: y in pys <==> y in pys[..n] || y == pys[n] by {
        assert pys == pys[..n] + [pys[n]];
      }
      PythonTriples(w, p, pys[..n]) + [Branch(w, p, pys[n])]
  }

  /** The middle loop over `matching_pt`. */
  function ProfileTriples(w: TorchCuda, ps: seq<TorchProfile>): (r: seq<Branch>)
    ensures forall b :: b in r <==> b.wheel == w && b.profile in ps && b.python in b.profile.python
  {
    if |ps| == 0 then []
    else
      var n := |ps| - 1;
      assert forall q :: q in ps <==> q in ps[..n] || q == ps[n] by {
        assert ps == ps[..n] + [ps[n]];
      }
      ProfileTriples(w, ps[..n]) + PythonTriples(w, ps[n], ps[n].python)
  }

  /** The outer loop over the wheel rows. */
  function WheelTriples(ws: seq<TorchCuda>, ps: seq<TorchProfile>): (r: seq<Branch>)
    ensures forall b :: b in r <==>
      b.wheel in ws && b.profile in ps && b.profile.torch == b.wheel.torch && b.python in b.profile.python
  {
    if |ws| == 0 then []
    else
      var n := |ws| - 1;
      assert forall v :: v in ws <==> v in ws[..n] || v == ws[n] by {
        assert ws == ws[..n] + [ws[n]];
      }
      WheelTriples(ws[..n], ps) + ProfileTriples(ws[n], MatchingProfiles(ps, ws[n].torch))
  }

  function Triples(t: Tables): seq<Branch>
  {
    WheelTriples(t.torchCuda, t.torchPythonTriton)
  }

  /** The records the loops append for the branches `bs`. */
  function Rows(t: Tables, f: Filters, bs: seq<Branch>): seq<Combo>
  {
    Map(RowFn(t), Filter(KeepFn(t, f), bs))
  }

  /** The branches that survive every filter, in loop order. */
  function Kept(t: Tables, f: Filters): seq<Branch>
  {
    Filter(KeepFn(t, f), Triples(t))
  }

  /** What `update_compatibility` leaves in `compatible`: at most one record
      per enumerated branch. */
  function Resolve(t: Tables, f: Filters): (r: seq<Combo>)
    ensures |r| <= |Triples(t)|
  {
    Rows(t, f, Triples(t))
  }

  // ---------------------------------------------------------------------
  // How the records of the loop nest compose

  lemma RowsAppend(t: Tables, f: Filters, a: seq<Branch>, b: seq<Branch>)
    ensures Rows(t, f, a + b) == Rows(t, f, a) + Rows(t, f, b)
  {
    FilterAppend(KeepFn(t, f), a, b);
    MapAppend(RowFn(t), Filter(KeepFn(t, f), a), Filter(KeepFn(t, f), b));
  }

  lemma RowsNone(t: Tables, f: Filters, bs: seq<Branch>)
    requires forall b :: b in bs ==> !Keep(t, f, b)
    ensures Rows(t, f, bs) == []
  {
    FilterNone(KeepFn(t, f), bs);
  }

  lemma RowsOne(t: Tables, f: Filters, b: Branch)
    ensures Rows(t, f, [b]) == if Keep(t, f, b) then [BuildRow(t, b)] else []
  {
    assert [b][..0] == [];
  }

  /** One more Python version appends at most its own record. */
  lemma PythonStep(t: Tables, f: Filters, w: TorchCuda, p: TorchProfile, pys: seq<string>, k: nat)
    requires k < |pys|
    ensures Rows(t, f, PythonTriples(w, p, pys[..k + 1]))
         == Rows(t, f, PythonTriples(w, p, pys[..k]))
            + (if Keep(t, f, Branch(w, p, pys[k])) then [BuildRow(t, Branch(w, p, pys[k]))] else [])
  {
    assert pys[..k + 1][..k] == pys[..k];
    RowsAppend(t, f, PythonTriples(w, p, pys[..k]), [Branch(w, p, pys[k])]);
    RowsOne(t, f, Branch(w, p, pys[k]));
  }

  /** One more profile appends the records of its Python loop. */
  lemma ProfileStep(t: Tables, f: Filters, w: TorchCuda, ps: seq<TorchProfile>, j: nat)
    requires j < |ps|
    ensures Rows(t, f, ProfileTriples(w, ps[..j + 1]))
         == Rows(t, f, ProfileTriples(w, ps[..j])) + Rows(t, f, PythonTriples(w, ps[j], ps[j].python))
  {
    assert ps[..j + 1][..j] == ps[..j];
    RowsAppend(t, f, ProfileTriples(w, ps[..j]), PythonTriples(w, ps[j], ps[j].python));
  }

  /** One more wheel row appends the records of its profile loop. */
  lemma WheelStep(t: Tables, f: Filters, ws: seq<TorchCuda>, ps: seq<TorchProfile>, i: nat)
    requires i < |ws|
    ensures Rows(t, f, WheelTriples(ws[..i + 1], ps))
         == Rows(t, f, WheelTriples(ws[..i], ps))
            + Rows(t, f, ProfileTriples(ws[i], MatchingProfiles(ps, ws[i].torch)))
  {
    assert ws[..i + 1][..i] == ws[..i];
    RowsAppend(t, f, WheelTriples(ws[..i], ps), ProfileTriples(ws[i], MatchingProfiles(ps, ws[i].torch)));
  }

  /** A `continue` at wheel level drops every branch of that wheel row. */
  lemma WheelDropped(t: Tables, f: Filters, w: TorchCuda, ps: seq<TorchProfile>)
    requires !WheelPasses(f, w)
    ensures Rows(t, f, ProfileTriples(w, ps)) == []
  {
    RowsNone(t, f, ProfileTriples(w, ps));
  }

  /** A `continue` at profile level drops every branch of that profile. */
  lemma ProfileDropped(t: Tables, f: Filters, w: TorchCuda, p: TorchProfile)
    requires !ProfilePasses(f, w, p)
    ensures Rows(t, f, PythonTriples(w, p, p.python)) == []
  {
    RowsNone(t, f, PythonTriples(w, p, p.python));
  }
}
