# Torch CUDA compatibility checker: the resolver, in Dafny

The checker is a desktop tool. It holds reference tables about:

- PyTorch wheels (torch version, wheel tag, CUDA toolkit, cuDNN, Windows availability);
- the Python and Triton versions each torch release supports;
- the torchvision/torchaudio releases that go with it;
- the flash-attention 2, xformers and bitsandbytes builds;
- the CUDA component packages pinned by each CUDA toolkit release.

The user picks values in seven combo boxes (torch, Python, CUDA,
flash-attention, xformers, Triton, bitsandbytes), each of which may be
"Any", and toggles "Windows Only". The tool then lists every compatible
combination and, for the selected CUDA version, the component package
pins.

This project models that resolver:

- **Data.** `CompatTables` has one datatype per kind of table row, and
  the `Tables` value that holds them. `ShippedData` carries the data as
  shipped.
- **Specification.** `Resolver` states the resolver as a specification:
  - `Triples` lists every (wheel row, profile of the same torch, Python
    version) branch in the order of the three nested loops;
  - `Keep` is true when none of the loops' `continue`s fires;
  - `BuildRow` is the record the table shows;
  - `Resolve` maps `BuildRow` over the kept branches.
- **Loop programs.** `Checker` holds the loops themselves:
  `UpdateCompatibility`, its `ProfileLoop` and `PythonLoop`, the
  flash-attention accumulation and `get_bnb_for_cuda_python`. Each is
  proved to compute the matching specification function.
- **Properties.** `ResolverProperties` proves, for all tables:
  - the filters, read as plain conditions on the data;
  - soundness and completeness of the result;
  - loop order and subsequence monotonicity in the filters;
  - the unfiltered count;
  - the meaning of every display string.
- **Metapackage panel.** `Metapackages` models the panel's three-way
  branch and relates it to the table.
- **Spot checks.** `ShippedData` proves checks on the shipped data:
  - CUDA 13.0.0 with "Windows Only" gives nothing;
  - torch 2.9.1 on CUDA 12.8.1 offers the expected record;
  - CUDA 12.4.1 pins 13 packages from cuda-nvrtc to nvjitlink;
  - bitsandbytes 0.48.2 is starred on CUDA 13.0.1.

`Seqs` and `Text` stand for Python built-ins:

- list comprehensions;
- `str.join`, `str.split` and `str.replace`;
- string comparison;
- `sorted(set(...), reverse=True)`.

## Model

| member | source | states |
|---|---|---|
| Checker.UpdateCompatibility | test_compatibility.py:399-482 | the list the nested loops build is exactly `Resolve(t, f)`: the records of the kept branches, in loop order |
| Checker.ProfileLoop | test_compatibility.py:409-421 | for a wheel row that passed the torch/CUDA/Windows checks, the records appended by its profile loop are those of its kept branches |
| Checker.PythonLoop | test_compatibility.py:421-482 | for a (wheel row, profile) pair that passed the CUDA-prefix and Triton checks, the records appended by its Python loop are those of its kept branches |
| Checker.PythonBranch | test_compatibility.py:421-497 | one Python iteration keeps the branch exactly when no `continue` fires, and then returns that branch's record (`BuildRow`) for the caller to append |
| Checker.GetBnbForCudaPython | test_compatibility.py:377-387 | the versions are the table's rows supporting both versions, in table order, `*`-marked where the CUDA version is assumed; the flag holds iff such an assumed row exists |
| Checker.CollectFa2Versions | test_compatibility.py:429-437 | one label per matching entry, in order, `*`-marked exactly for assumed entries; the flag holds iff some entry is assumed |
| Resolver.ReadFilters | test_compatibility.py:390-397 | each selection filters exactly when its text is neither "Any" nor empty (Python truthiness), and then on that text; the toggle is read as is |
| Resolver.PythonTriples | test_compatibility.py:421 | the branches of a (wheel, profile) pair are exactly its profile's Python versions |
| Resolver.ProfileTriples | test_compatibility.py:409-421 | the branches of a wheel row pair it with each given profile and each of that profile's Python versions |
| Resolver.WheelTriples | test_compatibility.py:401-421 | the enumerated branches are exactly the (wheel row, profile of the same torch, Python of that profile) triples |
| Resolver.CudaShort | test_compatibility.py:412-413 | definition: the CUDA version cut to its first two dot-separated parts; its meaning is `ResolverProperties.CudaShortMajorMinor` |
| Resolver.Keep | test_compatibility.py:401-462 | definition: no `continue` of the three loops fires for the branch; its meaning is `ResolverProperties.KeepExactly` |
| Resolver.BuildRow | test_compatibility.py:464-497 | definition: the record appended for a branch; its columns are stated by `ResolverProperties.RowShowsData` and the column lemmas |
| Resolver.Resolve | test_compatibility.py:399-482 | the records of the kept branches in loop order, at most one per enumerated branch |
| ResolverProperties.Fa2PassesExactly | test_compatibility.py:425-445 | the flash-attention check passes iff no selection, or some entry for the wheel's torch and CUDA and this Python has the selected version |
| ResolverProperties.XformersPassesExactly | test_compatibility.py:447-453 | the xformers check passes iff no selection, or a matching row carries that name, or none matches and the selection is the shown `"-"` |
| ResolverProperties.BnbPassesExactly | test_compatibility.py:455-462 | the bitsandbytes check passes iff no selection, or a row supporting both versions has that version once unstarred, or none does and the selection is `"-"` |
| ResolverProperties.BnbUnstarredMember | test_compatibility.py:459-461 | an unstarred label equals the selection iff the row it came from has that version |
| ResolverProperties.KeepExactly | test_compatibility.py:401-462 | a branch survives every `continue` iff it is admissible: each active selection met, the profile covers the CUDA major.minor, the add-ons offered |
| ResolverProperties.KeptExactly | test_compatibility.py:401-462 | filter soundness and completeness: the kept branches are exactly the admissible triples of the tables |
| ResolverProperties.KeptRowMatchesFilters | test_compatibility.py:464-497 | the record of a kept branch shows the selected torch, Python and CUDA (possibly `†`-marked) and Windows "Yes" under "Windows Only" |
| ResolverProperties.ResolveFromKept | test_compatibility.py:482-497 | every shown record is the record of some kept branch |
| ResolverProperties.ResolveSound | test_compatibility.py:399-497 | every shown record comes from a kept branch and agrees with every active torch, Python, CUDA and Windows selection |
| ResolverProperties.ResolveComplete | test_compatibility.py:399-497 | every admissible triple of the tables is shown |
| ResolverProperties.RowShowsData | test_compatibility.py:464-497 | a record shows its wheel and profile data: torch, Python, cuDNN, CUDA `†`-marked iff the stability is undocumented, Windows verdict, Triton text, ecosystem versions or `"-"` |
| ResolverProperties.WheelTriplesAppend | test_compatibility.py:401 | the wheel loop over a concatenation enumerates the first part's branches, then the second's |
| ResolverProperties.ResolveInWheelOrder | test_compatibility.py:401-482 | records of earlier wheel rows precede records of later ones |
| ResolverProperties.KeptInLoopOrder | test_compatibility.py:401-482 | the kept branches are a subsequence of the loop nest's enumeration |
| ResolverProperties.ResolveMonotone | test_compatibility.py:399-462 | selecting more (every active selection kept, "Windows Only" stays on) yields a subsequence of the records |
| ResolverProperties.ResolveWithinUnfiltered | test_compatibility.py:399-462 | any selection shows a subsequence of the unfiltered table |
| ResolverProperties.UnfilteredCount | test_compatibility.py:412-416 | with nothing selected, the count of records is the count of triples whose profile covers the wheel's CUDA major.minor |
| ResolverProperties.InactiveCudaIgnored | test_compatibility.py:392 | a CUDA selection that is unset or empty filters nothing |
| ResolverProperties.NoWheelPassesGivesNothing | test_compatibility.py:401-407 | when every wheel row fails a wheel-level check, nothing is shown |
| ResolverProperties.UnknownTorchGivesNothing | test_compatibility.py:401-402 | a torch selection matching no wheel row empties the table |
| ResolverProperties.Fa2ColumnExactly | test_compatibility.py:429-440 | the flash-attention column is `"-"` without entries, and otherwise the join of the distinct labels in strictly descending order, each the label of some entry |
| ResolverProperties.Fa2OrderCanonical | test_compatibility.py:490 | the column does not depend on the set's iteration order: any strictly descending arrangement of the labels gives it |
| ResolverProperties.BnbLabelsExactly | test_compatibility.py:377-387 | a label is listed iff some row supports both versions and has that (possibly starred) label; the rows keep table order; at most one label per row |
| ResolverProperties.CudaShortMajorMinor | test_compatibility.py:412-413 | the CUDA prefix keeps the major and minor parts of a dotted version, whatever follows the second dot, and a version of one or two parts is kept whole |
| ResolverProperties.CudaShortFourParts | test_compatibility.py:412-413 | a four-part version such as "12.8.1.2" is cut to "12.8" |
| ResolverProperties.TritonColumn | test_compatibility.py:470-475 | the Triton column is the pin alone for one compatible version, and the list followed by the pin otherwise |
| ResolverProperties.AllAnyIsNoFilters | test_compatibility.py:390-397 | with every combo box on "Any" and the toggle off, the filters read are the empty filter set |
| ResolverProperties.AbbreviateColumn | test_compatibility.py:492-493 | the xformers and bitsandbytes columns show at most three entries and mark a longer list with `...` |
| Text.JoinSplit | test_compatibility.py:412-413 | joining the pieces of a split with the same separator gives back the string |
| Text.SortedDistinctDescending | test_compatibility.py:490 | the result is strictly descending and holds exactly the input's values |
| Text.DescendingUnique | test_compatibility.py:438 | two strictly descending sequences with the same elements are equal |
| Metapackages.UpdateMetapackages | test_compatibility.py:554-572 | the panel lists a version's packages iff the selection is set, non-empty and known, with its pins in declared order and the version in the header; otherwise it prompts iff nothing is selected, and else says there is no data |
| Metapackages.PanelAgreesWithTable | test_compatibility.py:392-405 | when the panel lists packages, every shown record is for that CUDA version, with or without `†` |
| Metapackages.PanelPromptShowsAll | test_compatibility.py:392-405 | when the panel prompts for a selection, the table is the one with no CUDA filter |
| ShippedData.Cuda13RowsAreLinuxOnly | test_compatibility.py:30-54 | every shipped CUDA 13.0.0 wheel row is unavailable on Windows |
| ShippedData.Cuda13WindowsOnlyIsEmpty | test_compatibility.py:30-54 | CUDA 13.0.0 with "Windows Only" shows no record, whatever the other tables hold |
| ShippedData.Torch291OnCuda1281 | test_compatibility.py:37 | torch 2.9.1 on CUDA 12.8.1 with "Windows Only" shows Python 3.10 with torchvision 0.24.1, torchaudio 2.9.1, Triton "3.5.0, 3.5.1 (pin: 3.5.1)" and Windows "Yes" |
| ShippedData.Record291 | test_compatibility.py:59-60 | the record of that branch shows torch 2.9.1, Python 3.10, CUDA 12.8.1, cuDNN 9.10.2.21, torchvision 0.24.1, torchaudio 2.9.1, Triton "3.5.0, 3.5.1 (pin: 3.5.1)" and Windows "Yes" |
| ShippedData.Fa2Compat291 | test_compatibility.py:84 | only the first flash-attention row (2.8.3, assumed) is for torch 2.9.1, Python 3.10 and CUDA 12.8.1 |
| ShippedData.XformersVersions291 | test_compatibility.py:123-148 | only xformers 0.0.33.post2 is for torch 2.9.1 on CUDA 12.8.1 |
| ShippedData.BnbColumn291 | test_compatibility.py:150-163 | on CUDA 12.8.1 with Python 3.10 all six bitsandbytes releases are listed unstarred, so the column is "0.49.1, 0.49.0, 0.48.2..." and the flag is down |
| ShippedData.Record291Addons | test_compatibility.py:84-163 | the other columns of that record on the shipped tables: flash-attention "2.8.3*" with the assumed flag, xformers "0.0.33.post2", bitsandbytes "0.49.1, 0.49.0, 0.48.2..." without the flag, and a documented CUDA |
| ShippedData.Metapackages1241 | test_compatibility.py:166-171 | CUDA 12.4.1 lists 13 packages under "Version (CUDA 12.4.1)", from cuda-nvrtc to nvjitlink |
| ShippedData.MetapackageMessages | test_compatibility.py:165-208 | an unknown CUDA version gets the "no data" message, and no selection the prompt |
| ShippedData.Bnb1301Python310 | test_compatibility.py:155-156 | on CUDA 13.0.1 with Python 3.10, 0.48.2 is listed starred and the assumed flag is raised |

## Left out

- The Qt window is not modelled: the layout, the colours of assumed and `†` entries, tooltips, the notes text, the table rendering and its "No compatible combinations found" message. The combo boxes' contents and the `__main__` entry point are left out too. The widget reads become the `Filters` parameter.
- Saving and restoring the selections with `QSettings`, and the settings path, are left out. They are file I/O.
- The checker object only reads its reference data. So the data is a `Tables` parameter, no class is modelled, and the methods change nothing.
- `update_compatibility`'s three nested loops are modelled as three methods, one per loop level. Each `continue` is kept as written.
- `list(set(...))` is not modelled as a set with an iteration order. The column sorts it, so the model goes straight to the sorted distinct list, and `Fa2OrderCanonical` shows that any order gives the same text.
- Python dictionaries are modelled as records with fixed fields. The `.get` defaults for "windows" (true), "stability_undocumented" (false), "assumed" (false) and "assumed_cuda" (empty) therefore appear only as the field values. Every shipped row has these keys. The metapackage dictionaries are modelled as sequences of pairs in declaration order.
- Four stored fields are never shown or used by the resolver: the "sympy" field of the profiles, the xformers "notes", the xformers "fa2" range, and the wheel tag ("wheel") of the torch_cuda rows.
- ShippedData.Bnb1301Python310: states that the starred label is in the list, not the whole list for that CUDA and Python.
- ResolverProperties.TritonColumn: states the shown text for one and two compatible versions. `RowShowsData` covers the general case through `TritonDisplay`.
