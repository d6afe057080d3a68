/** The records of the seven reference tables of `CompatibilityData`
    (test_compatibility.py:30-208). Each Python dict row becomes a datatype
    value with the same keys; each table is a sequence in declared order, or
    a map where the source indexes a dict by key. */
module CompatTables {

  /** A row of `torch_cuda`: one wheel build of a torch version. */
  datatype TorchCuda = TorchCuda(
    torch: string,
    wheel: string,
    cuda: string,
    cudnn: string,
    windows: bool,
    stabilityUndocumented: bool)

  /** A row of `torch_python_triton`: the runtime profile of a torch version. */
  datatype TorchProfile = TorchProfile(
    torch: string,
    cudaVersions: seq<string>,
    python: seq<string>,
    triton: string,
    tritonCompat: seq<string>,
    sympy: string)

  /** A row of `flash_attention`. */
  datatype FlashAttention = FlashAttention(
    fa2: string,
    python: string,
    torch: string,
    cuda: string,
    assumed: bool)

  /** A row of `xformers`; `fa2` is the supported flash-attention range as text. */
  datatype Xformers = Xformers(
    xformers: string,
    torch: string,
    fa2: string,
    cuda: seq<string>,
    notes: string)

  /** A row of `bitsandbytes`. */
  datatype Bitsandbytes = Bitsandbytes(
    bnb: string,
    cuda: seq<string>,
    python: seq<string>,
    assumedCuda: seq<string>)

  /** All reference data, passed to the resolver instead of living in a singleton.
      `cudaMetapackages` maps a CUDA version to its packages in declared order. */
  datatype Tables = Tables(
    torchCuda: seq<TorchCuda>,
    torchPythonTriton: seq<TorchProfile>,
    torchEcosystem: map<string, map<string, string>>,
    flashAttention: seq<FlashAttention>,
    xformers: seq<Xformers>,
    bitsandbytes: seq<Bitsandbytes>,
    cudaMetapackages: map<string, seq<(string, string)>>)
}
