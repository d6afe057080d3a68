/** The reference data of `CompatibilityData` (test_compatibility.py:30-208)
    as shipped, and what the resolver and the metapackage panel show for a
    few selections on it. Rows without a "windows" or
    "stability_undocumented" key would read as `true` and `false`
    (the `.get` defaults at lines 406, 468 and 477); every shipped row
    has both keys. */
module ShippedData {
  import opened Wrappers
  import opened Seqs
  import opened Text
  import opened CompatTables
  import opened Resolver
  import opened ResolverProperties
  import opened Metapackages

  const TorchCudaRows: seq<TorchCuda> := [
    TorchCuda("2.10.0", "cu130", "13.0.0", "9.15.1.9", false, false),
    TorchCuda("2.10.0", "cu129", "12.9.1", "9.10.2.21", true, true),
    TorchCuda("2.10.0", "cu128", "12.8.1", "9.10.2.21", true, false),
    TorchCuda("2.10.0", "cu126", "12.6.3", "9.10.2.21", true, false),
    TorchCuda("2.9.1", "cu130", "13.0.0", "9.13.0.50", false, false),
    TorchCuda("2.9.1", "cu129", "12.9.1", "9.10.2.21", true, true),
    TorchCuda("2.9.1", "cu128", "12.8.1", "9.10.2.21", true, false),
    TorchCuda("2.9.1", "cu126", "12.6.3", "9.10.2.21", true, false),
    TorchCuda("2.9.0", "cu130", "13.0.0", "9.13.0.50", false, false),
    TorchCuda("2.9.0", "cu128", "12.8.1", "9.10.2.21", true, false),
    TorchCuda("2.9.0", "cu126", "12.6.3", "9.10.2.21", true, false),
    TorchCuda("2.8.0", "cu129", "12.9.1", "9.10.2.21", true, false),
    TorchCuda("2.8.0", "cu128", "12.8.1", "9.10.2.21", true, false),
    TorchCuda("2.8.0", "cu126", "12.6.3", "9.10.2.21", true, false),
    TorchCuda("2.7.1", "cu128", "12.8.0", "9.5.1.17", true, false),
    TorchCuda("2.7.1", "cu126", "12.6.3", "9.5.1.17", true, false),
    TorchCuda("2.7.1", "cu118", "11.8.0", "9.5.1.17", true, false),
    TorchCuda("2.7.0", "cu128", "12.8.0", "9.5.1.17", true, false),
    TorchCuda("2.7.0", "cu126", "12.6.3", "9.5.1.17", true, false),
    TorchCuda("2.7.0", "cu118", "11.8.0", "9.5.1.17", true, false),
    TorchCuda("2.6.0", "cu126", "12.6.3", "9.1.0.70", true, false),
    TorchCuda("2.6.0", "cu124", "12.4.1", "9.1.0.70", true, false),
    TorchCuda("2.6.0", "cu118", "11.8.0", "9.1.0.70", true, false)
  ]

  const TorchPythonTritonRows: seq<TorchProfile> := [
    TorchProfile("2.10.0", ["12.6", "12.8", "12.9", "13.0"],
      ["3.10", "3.11", "3.12", "3.13", "3.14"], "3.6.0", ["3.6.0"], ">=1.13.3"),
    TorchProfile("2.9.1", ["12.6", "12.8", "12.9", "13.0"],
      ["3.10", "3.11", "3.12", "3.13", "3.14"], "3.5.1", ["3.5.0", "3.5.1"], ">=1.13.3"),
    TorchProfile("2.9.0", ["12.6", "12.8", "12.9", "13.0"],
      ["3.10", "3.11", "3.12", "3.13", "3.14"], "3.5.0", ["3.5.0", "3.5.1"], ">=1.13.3"),
    TorchProfile("2.8.0", ["12.6", "12.8", "12.9"],
      ["3.9", "3.10", "3.11", "3.12", "3.13"], "3.4.0", ["3.4.0"], ">=1.13.3"),
    TorchProfile("2.7.1", ["12.6", "12.8"],
      ["3.9", "3.10", "3.11", "3.12", "3.13"], "3.3.1", ["3.3.0", "3.3.1"], ">=1.13.3"),
    TorchProfile("2.7.0", ["12.6", "12.8"],
      ["3.9", "3.10", "3.11", "3.12", "3.13"], "3.3.0", ["3.3.0", "3.3.1"], ">=1.13.3"),
    TorchProfile("2.6.0", ["12.4", "12.6"],
      ["3.9", "3.10", "3.11", "3.12", "3.13"], "3.2.0", ["3.2.0"], "1.13.1")
  ]

  const TorchEcosystemMap: map<string, map<string, string>> := map[
    "2.10.0" := map["torchvision" := "0.25.0", "torchaudio" := "2.10.0"],
    "2.9.1" := map["torchvision" := "0.24.1", "torchaudio" := "2.9.1"],
    "2.9.0" := map["torchvision" := "0.24.0", "torchaudio" := "2.9.0"],
    "2.8.0" := map["torchvision" := "0.23.0", "torchaudio" := "2.8.0"],
    "2.7.1" := map["torchvision" := "0.22.1", "torchaudio" := "2.7.1"],
    "2.7.0" := map["torchvision" := "0.22.0", "torchaudio" := "2.7.0"],
    "2.6.0" := map["torchvision" := "0.21.0", "torchaudio" := "2.6.0"]
  ]

  const FlashAttentionRows: seq<FlashAttention> := [
    FlashAttention("2.8.3", "3.10", "2.9.1", "12.8.1", true),
    FlashAttention("2.8.3", "3.11", "2.9.1", "12.8.1", true),
    FlashAttention("2.8.3", "3.12", "2.9.1", "12.8.1", true),
    FlashAttention("2.8.3", "3.13", "2.9.1", "12.8.1", true),
    FlashAttention("2.8.3", "3.11", "2.6.0", "12.4.1", false),
    FlashAttention("2.8.3", "3.10", "2.7.0", "12.8.0", false),
    FlashAttention("2.8.3", "3.11", "2.7.0", "12.8.0", false),
    FlashAttention("2.8.3", "3.12", "2.7.0", "12.8.0", false),
    FlashAttention("2.8.3", "3.13", "2.7.0", "12.8.0", false),
    FlashAttention("2.8.3", "3.10", "2.8.0", "12.8.1", false),
    FlashAttention("2.8.3", "3.11", "2.8.0", "12.8.1", false),
    FlashAttention("2.8.3", "3.12", "2.8.0", "12.8.1", false),
    FlashAttention("2.8.3", "3.13", "2.8.0", "12.8.1", false),
    FlashAttention("2.8.3", "3.10", "2.9.0", "12.8.1", false),
    FlashAttention("2.8.3", "3.11", "2.9.0", "12.8.1", false),
    FlashAttention("2.8.3", "3.12", "2.9.0", "12.8.1", false),
    FlashAttention("2.8.3", "3.13", "2.9.0", "12.8.1", false),
    FlashAttention("2.8.2", "3.10", "2.6.0", "12.4.1", false),
    FlashAttention("2.8.2", "3.11", "2.6.0", "12.4.1", false),
    FlashAttention("2.8.2", "3.12", "2.6.0", "12.4.1", false),
    FlashAttention("2.8.2", "3.13", "2.6.0", "12.4.1", false),
    FlashAttention("2.8.2", "3.10", "2.7.0", "12.8.0", false),
    FlashAttention("2.8.2", "3.11", "2.7.0", "12.8.0", false),
    FlashAttention("2.8.2", "3.12", "2.7.0", "12.8.0", false),
    FlashAttention("2.8.2", "3.13", "2.7.0", "12.8.0", false),
    FlashAttention("2.8.2", "3.10", "2.8.0", "12.8.1", false),
    FlashAttention("2.8.2", "3.11", "2.8.0", "12.8.1", false),
    FlashAttention("2.8.2", "3.12", "2.8.0", "12.8.1", false),
    FlashAttention("2.8.2", "3.13", "2.8.0", "12.8.1", false),
    FlashAttention("2.7.4.post1", "3.10", "2.6.0", "12.4.1", false),
    FlashAttention("2.7.4.post1", "3.11", "2.6.0", "12.4.1", false),
    FlashAttention("2.7.4.post1", "3.12", "2.6.0", "12.4.1", false),
    FlashAttention("2.7.4.post1", "3.13", "2.6.0", "12.4.1", false),
    FlashAttention("2.7.4.post1", "3.10", "2.7.0", "12.8.0", false),
    FlashAttention("2.7.4.post1", "3.11", "2.7.0", "12.8.0", false),
    FlashAttention("2.7.4.post1", "3.12", "2.7.0", "12.8.0", false),
    FlashAttention("2.7.4.post1", "3.13", "2.7.0", "12.8.0", false)
  ]

  const XformersRows: seq<Xformers> := [
    Xformers("0.0.34", "2.10.0", "2.7.1-2.8.4", ["12.8.1", "12.9.1", "13.0.1"], ""),
    Xformers("0.0.33.post2", "2.9.1", "2.7.1-2.8.4", ["12.8.1", "12.9.0", "13.0.1"], ""),
    Xformers("0.0.33.post1", "2.9.0", "2.7.1-2.8.4", ["12.8.1", "12.9.0", "13.0.1"], ""),
    Xformers("0.0.33", "2.9.0", "2.7.1-2.8.4", ["12.8.1", "12.9.0", "13.0.1"], ""),
    Xformers("0.0.32.post2", "2.8.0", "2.7.1-2.8.2", ["12.8.1", "12.9.0"], ""),
    Xformers("0.0.32.post1", "2.8.0", "2.7.1-2.8.2", ["12.8.1", "12.9.0"], ""),
    Xformers("0.0.32", "2.8.0", "2.7.1-2.8.2", ["12.8.1", "12.9.0"], "Bug"),
    Xformers("0.0.31.post1", "2.7.1", "2.7.1-2.8.0", ["12.8.1"], ""),
    Xformers("0.0.31", "2.7.1", "2.7.1-2.8.0", ["12.6.3", "12.8.1"], ""),
    Xformers("0.0.30", "2.7.0", "2.7.1-2.7.4", ["12.6.3", "12.8.1"], ""),
    Xformers("0.0.29.post3", "2.6.0", "2.7.1-2.7.2", ["12.1.0", "12.4.1", "12.6.3", "12.8.0"], ""),
    Xformers("0.0.29.post2", "2.6.0", "2.7.1-2.7.2", ["12.1.0", "12.4.1", "12.6.3", "12.8.0"], "")
  ]

  const BitsandbytesRows: seq<Bitsandbytes> := [
    Bitsandbytes("0.49.1",
      ["11.8.0", "12.0.1", "12.1.1", "12.2.2", "12.3.2", "12.4.1", "12.5.1", "12.6.3", "12.8.1", "12.9.1", "13.0.2"],
      ["3.10", "3.11", "3.12", "3.13", "3.14"], []),
    Bitsandbytes("0.49.0",
      ["11.8.0", "12.0.1", "12.1.1", "12.2.2", "12.3.2", "12.4.1", "12.5.1", "12.6.3", "12.8.1", "12.9.1", "13.0.2"],
      ["3.10", "3.11", "3.12", "3.13", "3.14"], []),
    Bitsandbytes("0.48.2",
      ["11.8.0", "12.0.1", "12.1.1", "12.2.2", "12.3.2", "12.4.1", "12.5.1", "12.6.3", "12.8.1", "12.9.1", "13.0.1"],
      ["3.9", "3.10", "3.11", "3.12", "3.13"], ["13.0.1"]),
    Bitsandbytes("0.48.1",
      ["11.8.0", "12.0.1", "12.1.1", "12.2.2", "12.3.2", "12.4.1", "12.5.1", "12.6.3", "12.8.1", "12.9.1", "13.0.1"],
      ["3.9", "3.10", "3.11", "3.12", "3.13"], ["13.0.1"]),
    Bitsandbytes("0.48.0",
      ["11.8.0", "12.0.1", "12.1.1", "12.2.2", "12.3.2", "12.4.1", "12.5.1", "12.6.3", "12.8.1", "12.9.1", "13.0.1"],
      ["3.9", "3.10", "3.11", "3.12", "3.13"], ["13.0.1"]),
    Bitsandbytes("0.47.0",
      ["11.8.0", "12.0.1", "12.1.1", "12.2.2", "12.3.2", "12.4.1", "12.5.1", "12.6.3", "12.8.1", "12.9.1"],
      ["3.9", "3.10", "3.11", "3.12", "3.13"], ["12.9.1"])
  ]

  const CudaMetapackagesMap: map<string, seq<(string, string)>> := map[
    "12.4.1" := [
      ("cuda-nvrtc", "12.4.127"), ("cuda-runtime", "12.4.127"), ("cuda-nvcc", "12.4.127"),
      ("cuda-cupti", "12.4.127"), ("cublas", "12.4.5.8"), ("cufft", "11.2.1.3"),
      ("curand", "10.3.5.147"), ("cusolver", "11.6.1.9"), ("cusparse", "12.3.1.170"),
      ("cusparselt", "0.6.2"), ("nccl", "2.25.1"), ("nvtx", "12.4.127"),
      ("nvjitlink", "12.4.127")],
    "12.6.3" := [
      ("cuda-nvrtc", "12.6.77"), ("cuda-runtime", "12.6.77"), ("cuda-nvcc", "12.6.77"),
      ("cuda-cupti", "12.6.80"), ("cublas", "12.6.4.1"), ("cufft", "11.3.0.4"),
      ("curand", "10.3.7.77"), ("cusolver", "11.7.1.2"), ("cusparse", "12.5.4.2"),
      ("cusparselt", "0.6.3"), ("nccl", "2.21.5"), ("nvtx", "12.6.77"),
      ("nvjitlink", "12.6.85")],
    "12.8.0" := [
      ("cuda-nvrtc", "12.8.61"), ("cuda-runtime", "12.8.57"), ("cuda-nvcc", "12.8.57"),
      ("cuda-cupti", "12.8.57"), ("cublas", "12.8.3.14"), ("cufft", "11.3.3.41"),
      ("curand", "10.3.9.55"), ("cusolver", "11.7.2.55"), ("cusparse", "12.5.7.53"),
      ("cusparselt", "0.6.3"), ("nccl", "2.26.2"), ("nvtx", "12.8.55"),
      ("nvjitlink", "12.8.61")],
    "12.8.1" := [
      ("cuda-nvrtc", "12.8.93"), ("cuda-runtime", "12.8.90"), ("cuda-nvcc", "12.8.93"),
      ("cuda-cupti", "12.8.90"), ("cublas", "12.8.4.1"), ("cufft", "11.3.3.83"),
      ("curand", "10.3.9.90"), ("cusolver", "11.7.3.90"), ("cusparse", "12.5.8.93"),
      ("cusparselt", "0.6.3"), ("nccl", "2.26.2"), ("nvtx", "12.8.90"),
      ("nvjitlink", "12.8.93")],
    "12.9.1" := [
      ("cuda-nvrtc", "12.9.86"), ("cuda-runtime", "12.9.79"), ("cuda-nvcc", "12.9.79"),
      ("cuda-cupti", "12.9.79"), ("cublas", "12.9.1.4"), ("cufft", "11.4.1.4"),
      ("curand", "10.3.10.19"), ("cusolver", "11.7.5.82"), ("cusparse", "12.5.10.65"),
      ("cusparselt", "0.6.3"), ("nccl", "2.26.2"), ("nvtx", "12.9.79"),
      ("nvjitlink", "12.9.86")],
    "13.0.0" := [
      ("cuda-nvrtc", "13.0.48"), ("cuda-runtime", "13.0.48"), ("cuda-nvcc", "13.0.48"),
      ("cuda-cupti", "13.0.48"), ("cublas", "13.0.0.19"), ("cufft", "12.0.0.15"),
      ("curand", "10.4.0.35"), ("cusolver", "12.0.3.29"), ("cusparse", "12.6.2.49"),
      ("cusparselt", "-"), ("nccl", "-"), ("nvtx", "13.0.39"),
      ("nvjitlink", "13.0.39")],
    "13.0.2" := [
      ("cuda-nvrtc", "13.0.88"), ("cuda-runtime", "13.0.96"), ("cuda-nvcc", "13.0.88"),
      ("cuda-cupti", "13.0.85"), ("cublas", "13.1.0.3"), ("cufft", "12.0.0.61"),
      ("curand", "10.4.0.35"), ("cusolver", "12.0.4.66"), ("cusparse", "12.6.3.3"),
      ("cusparselt", "-"), ("nccl", "-"), ("nvtx", "13.0.85"),
      ("nvjitlink", "13.0.88")]
  ]

  const Shipped := Tables(TorchCudaRows, TorchPythonTritonRows, TorchEcosystemMap, FlashAttentionRows,
                          XformersRows, BitsandbytesRows, CudaMetapackagesMap)

  /** Wheel rows `lo` to `hi - 1` of CUDA 13.0.0 are all Linux-only. */
  ghost predicate LinuxOnly13(lo: nat, hi: nat)
    requires lo <= hi <= |TorchCudaRows|
  {
    forall i :: lo <= i < hi && TorchCudaRows[i].cuda == "13.0.0" ==> !TorchCudaRows[i].windows
  }

  lemma LinuxOnly13Torch210And291()
    ensures LinuxOnly13(0, 8)
  {
  }

  lemma LinuxOnly13Torch290To271()
    ensures LinuxOnly13(8, 16)
  {
  }

  lemma LinuxOnly13Torch270And260()
    ensures LinuxOnly13(16, 23)
  {
  }

  /** Every CUDA 13.0.0 wheel row is marked as not available on Windows. */
  lemma Cuda13RowsAreLinuxOnly()
    ensures forall w :: w in TorchCudaRows && w.cuda == "13.0.0" ==> !w.windows
  {
    LinuxOnly13Torch210And291();
    LinuxOnly13Torch290To271();
    LinuxOnly13Torch270And260();
  }

  /** CUDA 13.0.0 wheels exist only for Linux (cuDNN 9.x for CUDA 13 is
      Linux-only), so asking for 13.0.0 with "Windows Only" shows nothing,
      whatever the other tables hold. */
  lemma Cuda13WindowsOnlyIsEmpty(t: Tables)
    requires t.torchCuda == TorchCudaRows
    ensures Resolve(t, NoFilters.(cuda := Some("13.0.0"), windowsOnly := true)) == []
  {
    var f := NoFilters.(cuda := Some("13.0.0"), windowsOnly := true);
    Cuda13RowsAreLinuxOnly();
    NoWheelPassesGivesNothing(t, f);
  }

  lemma Ecosystem291()
    ensures "2.9.1" in TorchEcosystemMap
    ensures TorchEcosystemMap["2.9.1"] == map["torchvision" := "0.24.1", "torchaudio" := "2.9.1"]
  {
  }

  /** The filters, wheel row and profile of the torch 2.9.1 spot check. */
  const Filters291 := NoFilters.(torch := Some("2.9.1"), cuda := Some("12.8.1"), windowsOnly := true)
  const Wheel291 := TorchCuda("2.9.1", "cu128", "12.8.1", "9.10.2.21", true, false)
  const Profile291 := TorchProfile("2.9.1", ["12.6", "12.8", "12.9", "13.0"],
    ["3.10", "3.11", "3.12", "3.13", "3.14"], "3.5.1", ["3.5.0", "3.5.1"], ">=1.13.3")

  lemma Rows291()
    ensures TorchCudaRows[6] == Wheel291 && TorchPythonTritonRows[1] == Profile291
  {
  }

  lemma CudaShort1281()
    ensures CudaShort("12.8.1") == "12.8"
  {
    CudaShortMajorMinor("12", "8", "1");
    assert "12" + "." + "8" + "." + "1" == "12.8.1";
    assert "12" + "." + "8" == "12.8";
  }

  lemma TritonText291()
    ensures "3.5.0" + ", " + "3.5.1" + " (pin: " + "3.5.1" + ")" == "3.5.0, 3.5.1 (pin: 3.5.1)"
  {
  }

  /** The (torch 2.9.1 cu128, 2.9.1 profile, Python 3.10) branch survives the
      torch, CUDA and "Windows Only" filters. */
  lemma Kept291(t: Tables)
    requires t.torchCuda == TorchCudaRows && t.torchPythonTriton == TorchPythonTritonRows
    ensures BuildRow(t, Branch(Wheel291, Profile291, "3.10")) in Resolve(t, Filters291)
  {
    var b := Branch(Wheel291, Profile291, "3.10");
    Rows291();
    assert Wheel291 in t.torchCuda && Profile291 in t.torchPythonTriton;
    CudaShort1281();
    assert CudaShort(Wheel291.cuda) in Profile291.cudaVersions;
    assert Admissible(t, Filters291, b);
    ResolveComplete(t, Filters291, b);
  }

  /** Eight columns of that branch's record: torch, Python, CUDA, cuDNN,
      torchvision, torchaudio, Triton and Windows; `Record291Addons` gives
      the add-on columns. */
  lemma Record291(t: Tables)
    requires t.torchEcosystem == TorchEcosystemMap
    ensures var c := BuildRow(t, Branch(Wheel291, Profile291, "3.10"));
      && c.torch == "2.9.1" && c.python == "3.10" && c.cuda == "12.8.1" && c.cudnn == "9.10.2.21"
      && c.torchvision == "0.24.1" && c.torchaudio == "2.9.1"
      && c.triton == "3.5.0, 3.5.1 (pin: 3.5.1)" && c.windows == "Yes"
  {
    var b := Branch(Wheel291, Profile291, "3.10");
    RowShowsData(t, b);
    TritonColumn(Profile291);
    Ecosystem291();
    TritonText291();
  }

  // The add-on columns of the torch 2.9.1 record.

  /** No flash-attention row from `lo` to `hi - 1` is for torch 2.9.1,
      Python 3.10 and CUDA 12.8.1. */
  ghost predicate NoFa2For291(lo: nat, hi: nat)
    requires lo <= hi <= |FlashAttentionRows|
  {
    forall i :: lo <= i < hi ==> !Fa2For(Wheel291, "3.10")(FlashAttentionRows[i])
  }

  lemma NoFa2For291Rows1To12()
    ensures NoFa2For291(1, 13)
  {
  }

  lemma NoFa2For291Rows13To24()
    ensures NoFa2For291(13, 25)
  {
  }

  lemma NoFa2For291Rows25To36()
    ensures NoFa2For291(25, 37)
  {
  }

  /** Only the first flash-attention row (2.8.3, assumed) matches the branch. */
  lemma Fa2Compat291(t: Tables)
    requires t.flashAttention == FlashAttentionRows
    ensures Fa2Compat(t, Wheel291, "3.10") == [FlashAttentionRows[0]]
    ensures FlashAttentionRows[0] == FlashAttention("2.8.3", "3.10", "2.9.1", "12.8.1", true)
  {
    NoFa2For291Rows1To12();
    NoFa2For291Rows13To24();
    NoFa2For291Rows25To36();
    FilterOnly(Fa2For(Wheel291, "3.10"), FlashAttentionRows, 0);
  }

  /** A single matching entry shows its own label. */
  lemma Fa2SingleColumn(e: FlashAttention)
    ensures Fa2Display(Fa2Shown([e])) == Fa2Label(e)
  {
    var shown := Fa2Shown([e]);
    assert shown == [Fa2Label(e)];
    assert shown[..0] == [];
    assert SortedDistinctDescending(shown) == InsertDescending(Fa2Label(e), []);
  }

  lemma Fa2Text291()
    ensures Fa2Label(FlashAttention("2.8.3", "3.10", "2.9.1", "12.8.1", true)) == "2.8.3*"
  {
    assert "2.8.3" + "*" == "2.8.3*";
  }

  /** Only the second xformers row (0.0.33.post2) is for torch 2.9.1 on CUDA 12.8.1. */
  lemma XformersVersions291(t: Tables)
    requires t.xformers == XformersRows
    ensures XformersVersions(t, Wheel291) == ["0.0.33.post2"]
  {
    var s := XformersRows;
    assert forall i :: 0 <= i < |s| && i != 1 ==> s[i].torch != "2.9.1";
    assert s[1].cuda[0] == "12.8.1";
    FilterOnly(XformersFor(Wheel291), s, 1);
  }

  /** Every bitsandbytes row supports CUDA 12.8.1 and Python 3.10, none of
      them only by assumption. */
  lemma BnbRowsFor291()
    ensures forall i :: 0 <= i < |BitsandbytesRows| ==>
      BnbFor("12.8.1", "3.10")(BitsandbytesRows[i]) && "12.8.1" !in BitsandbytesRows[i].assumedCuda
  {
    var s := BitsandbytesRows;
    assert s[0].cuda[8] == "12.8.1" && s[0].python[0] == "3.10";
    assert s[1].cuda[8] == "12.8.1" && s[1].python[0] == "3.10";
    assert s[2].cuda[8] == "12.8.1" && s[2].python[1] == "3.10";
    assert s[3].cuda[8] == "12.8.1" && s[3].python[1] == "3.10";
    assert s[4].cuda[8] == "12.8.1" && s[4].python[1] == "3.10";
    assert s[5].cuda[8] == "12.8.1" && s[5].python[1] == "3.10";
  }

  lemma BnbText291()
    ensures "0.49.1" + ", " + ("0.49.0" + ", " + "0.48.2") + "..." == "0.49.1, 0.49.0, 0.48.2..."
  {
  }

  /** When every row supports both versions and none only by assumption,
      the list is the table's versions, unstarred, and the flag is down. */
  lemma BnbAllPlain(table: seq<Bitsandbytes>, cuda: string, py: string)
    requires forall i :: 0 <= i < |table| ==> BnbFor(cuda, py)(table[i]) && cuda !in table[i].assumedCuda
    ensures |BnbLabels(table, cuda, py)| == |table|
    ensures forall i :: 0 <= i < |table| ==> BnbLabels(table, cuda, py)[i] == table[i].bnb
    ensures !AnyBnbAssumed(table, cuda, py)
  {
    FilterAll(BnbFor(cuda, py), table);
    forall b | b in table ensures !(BnbFor(cuda, py)(b) && cuda in b.assumedCuda) {
      var i :| 0 <= i < |table| && table[i] == b;
    }
  }

  /** Six entries starting 0.49.1, 0.49.0, 0.48.2 show as those three and an ellipsis. */
  lemma AbbreviateSix(labels: seq<string>)
    requires |labels| == 6
    requires labels[0] == "0.49.1" && labels[1] == "0.49.0" && labels[2] == "0.48.2"
    ensures Abbreviate(labels) == "0.49.1, 0.49.0, 0.48.2..."
  {
    var first := labels[..3];
    assert first[0] == "0.49.1" && first[1] == "0.49.0" && first[2] == "0.48.2";
    JoinThree(first, ", ");
    assert Abbreviate(labels) == Join(first, ", ") + "...";
    BnbText291();
  }

  /** Six plain releases of which the first three are 0.49.1, 0.49.0 and
      0.48.2 give the column those three and an ellipsis. */
  lemma BnbColumnOfSix(table: seq<Bitsandbytes>, cuda: string, py: string)
    requires forall i :: 0 <= i < |table| ==> BnbFor(cuda, py)(table[i]) && cuda !in table[i].assumedCuda
    requires |table| == 6
    requires table[0].bnb == "0.49.1" && table[1].bnb == "0.49.0" && table[2].bnb == "0.48.2"
    ensures Abbreviate(BnbShown(table, cuda, py)) == "0.49.1, 0.49.0, 0.48.2..."
    ensures !AnyBnbAssumed(table, cuda, py)
  {
    BnbAllPlain(table, cuda, py);
    var labels := BnbLabels(table, cuda, py);
    assert BnbShown(table, cuda, py) == labels;
    AbbreviateSix(labels);
  }

  /** On the shipped table all six releases are listed, unstarred, so the
      column shows the first three and an ellipsis. */
  lemma BnbColumn291(table: seq<Bitsandbytes>)
    requires table == BitsandbytesRows
    ensures Abbreviate(BnbShown(table, "12.8.1", "3.10")) == "0.49.1, 0.49.0, 0.48.2..."
    ensures !AnyBnbAssumed(table, "12.8.1", "3.10")
  {
    BnbRowsFor291();
    BnbColumnOfSix(table, "12.8.1", "3.10");
  }

  /** The remaining columns of the torch 2.9.1 record on the shipped tables:
      flash-attention 2.8.3 marked assumed, the one matching xformers
      release, the first three bitsandbytes releases and an ellipsis with no
      assumed mark, and a documented CUDA. */
  lemma Record291Addons(t: Tables)
    requires t.flashAttention == FlashAttentionRows && t.xformers == XformersRows
    requires t.bitsandbytes == BitsandbytesRows
    ensures var c := BuildRow(t, Branch(Wheel291, Profile291, "3.10"));
      && c.fa2 == "2.8.3*" && c.fa2HasAssumed
      && c.xformers == "0.0.33.post2"
      && c.bnb == "0.49.1, 0.49.0, 0.48.2..." && !c.bnbHasAssumed
      && !c.stabilityUndocumented
  {
    Fa2Compat291(t);
    Fa2SingleColumn(FlashAttentionRows[0]);
    Fa2Text291();
    assert FlashAttentionRows[0] in [FlashAttentionRows[0]];
    XformersVersions291(t);
    assert Abbreviate(["0.0.33.post2"]) == "0.0.33.post2";
    BnbColumn291(t.bitsandbytes);
  }

  /** torch 2.9.1 on CUDA 12.8.1 with "Windows Only": Python 3.10 is offered,
      with torchvision 0.24.1, torchaudio 2.9.1 and both compatible tritons,
      whatever the add-on tables hold (so in particular for `Shipped`). */
  lemma Torch291OnCuda1281(t: Tables)
    requires t.torchCuda == TorchCudaRows && t.torchPythonTriton == TorchPythonTritonRows
    requires t.torchEcosystem == TorchEcosystemMap
    ensures exists c ::
      && c in Resolve(t, Filters291)
      && c.torch == "2.9.1" && c.python == "3.10" && c.cuda == "12.8.1" && c.cudnn == "9.10.2.21"
      && c.torchvision == "0.24.1" && c.torchaudio == "2.9.1"
      && c.triton == "3.5.0, 3.5.1 (pin: 3.5.1)" && c.windows == "Yes"
  {
    Kept291(t);
    Record291(t);
    var c := BuildRow(t, Branch(Wheel291, Profile291, "3.10"));
    assert c in Resolve(t, Filters291);
  }

  /** CUDA 12.4.1 lists its 13 component packages in declared order, from
      cuda-nvrtc to nvjitlink. */
  lemma Metapackages1241(t: Tables)
    requires t.cudaMetapackages == CudaMetapackagesMap
    ensures var v := UpdateMetapackages(t, Some("12.4.1"));
      && v.Packages?
      && v.versionHeader == "Version (CUDA 12.4.1)"
      && |v.entries| == 13
      && v.entries[0] == ("cuda-nvrtc", "12.4.127")
      && v.entries[1] == ("cuda-runtime", "12.4.127")
      && v.entries[12] == ("nvjitlink", "12.4.127")
  {
    assert "12.4.1" in CudaMetapackagesMap;
  }

  /** A CUDA version the table does not know gets the "no data" message,
      and no selection gets the prompt. */
  lemma MetapackageMessages(t: Tables)
    requires t.cudaMetapackages == CudaMetapackagesMap
    ensures UpdateMetapackages(t, Some("9.9.9")) == Message(NoData)
    ensures UpdateMetapackages(t, Some("11.8.0")) == Message(NoData)
    ensures UpdateMetapackages(t, None) == Message(SelectPrompt)
  {
    assert "9.9.9" !in CudaMetapackagesMap;
    assert "11.8.0" !in CudaMetapackagesMap;
  }

  lemma BnbRow048()
    ensures BitsandbytesRows[2].bnb == "0.48.2"
    ensures "3.10" in BitsandbytesRows[2].python && "13.0.1" in BitsandbytesRows[2].cuda
    ensures "13.0.1" in BitsandbytesRows[2].assumedCuda
  {
    assert BitsandbytesRows[2].python[1] == "3.10";
    assert BitsandbytesRows[2].cuda[10] == "13.0.1";
    assert BitsandbytesRows[2].assumedCuda[0] == "13.0.1";
  }

  lemma StarredText048()
    ensures "0.48.2" + "*" == "0.48.2*"
  {
  }

  /** CUDA 13.0.1 with Python 3.10: 0.48.2 is offered with the `*` mark,
      because 13.0.1 is only assumed for it, and the flag is raised. */
  lemma Bnb1301Python310(table: seq<Bitsandbytes>)
    requires table == BitsandbytesRows
    ensures "0.48.2*" in BnbLabels(table, "13.0.1", "3.10")
    ensures AnyBnbAssumed(table, "13.0.1", "3.10")
  {
    BnbLabelsExactly(table, "13.0.1", "3.10");
    BnbRow048();
    StarredText048();
    var b := table[2];
    assert b in table && BnbFor("13.0.1", "3.10")(b);
  }
}
