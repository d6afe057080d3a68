/** The metapackage panel (`update_metapackages`, test_compatibility.py:554-572):
    for the selected CUDA version it lists the pinned versions of the CUDA
    component packages, or shows one of two messages. The widget calls are
    replaced by the view value they would display. */
module Metapackages {
  import opened Wrappers
  import opened CompatTables
  import opened Resolver
  import opened ResolverProperties

  /** What the panel shows: a one-cell message, or a two-column table whose
      second header names the CUDA version. */
  datatype MetaView =
    | Message(text: string)
    | Packages(versionHeader: string, entries: seq<(string, string)>)

  const SelectPrompt := "Select a CUDA version to view metapackage details"
  const NoData := "No metapackage data available for this CUDA version"

  /** The branch of `update_metapackages`; `cudaSel` is the CUDA selection,
      `None` for "Any". */
  function UpdateMetapackages(t: Tables, cudaSel: Option<string>): (v: MetaView)
    ensures v.Packages? <==> Active(cudaSel) && cudaSel.value in t.cudaMetapackages
    ensures v.Packages? ==>
      v.entries == t.cudaMetapackages[cudaSel.value]
      && v.versionHeader == "Version (CUDA " + cudaSel.value + ")"
    ensures v.Message? ==> (v.text == SelectPrompt <==> !Active(cudaSel))
    ensures v.Message? ==> (v.text == NoData <==> Active(cudaSel))
  {
    if Active(cudaSel) && cudaSel.value in t.cudaMetapackages then
      Packages("Version (CUDA " + cudaSel.value + ")", t.cudaMetapackages[cudaSel.value])
    else if !Active(cudaSel) then
      Message(SelectPrompt)
    else
      Message(NoData)
  }

  /** When the panel lists packages, every record of the compatibility table
      is for that CUDA version, with or without the stability mark. */
  lemma PanelAgreesWithTable(t: Tables, f: Filters, c: Combo)
    requires c in Resolve(t, f)
    ensures UpdateMetapackages(t, f.cuda).Packages? ==>
      c.cuda == f.cuda.value || c.cuda == f.cuda.value + "†"
  {
    ResolveSound(t, f, c);
  }

  /** When the panel prompts for a selection, the compatibility table is not
      narrowed by CUDA at all. */
  lemma PanelPromptShowsAll(t: Tables, f: Filters)
    ensures UpdateMetapackages(t, f.cuda) == Message(SelectPrompt) ==>
      Resolve(t, f) == Resolve(t, f.(cuda := None))
  {
    if !Active(f.cuda) {
      InactiveCudaIgnored(t, f);
    }
  }
}
