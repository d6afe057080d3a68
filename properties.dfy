/** What the resolver promises, stated about `Resolve` and proved once for
    every possible table: which branches survive the filters, that the result
    is in loop order, that narrowing the filters only removes records, and
    what the displayed strings mean. */
module ResolverProperties {
  import opened Wrappers
  import opened Seqs
  import opened Text
  import opened CompatTables
  import opened Resolver

  // ---------------------------------------------------------------------
  // The filters, read as conditions on the data

  /** An xformers selection `v` is offered for wheel row `w`: some xformers row
      of the same torch lists the wheel's CUDA under that name, or no row
      matches at all and `v` is the placeholder `"-"` shown in that case. */
  ghost predicate XformersOffered(t: Tables, w: TorchCuda, v: string)
  {
    (exists x :: x in t.xformers && x.torch == w.torch && w.cuda in x.cuda && x.xformers == v)
    || (v == "-" && forall x :: x in t.xformers ==> !(x.torch == w.torch && w.cuda in x.cuda))
  }

  /** A bitsandbytes selection `v` is offered for a CUDA and Python version:
      some row supports both and its version with every `*` removed is `v`,
      or no row supports both and `v` is the placeholder `"-"`. */
  ghost predicate BnbOffered(t: Tables, cuda: string, py: string, v: string)
  {
    (exists b :: b in t.bitsandbytes && py in b.python && cuda in b.cuda && Strip(b.bnb, '*') == v)
    || (v == "-" && forall b :: b in t.bitsandbytes ==> !(py in b.python && cuda in b.cuda))
  }

  /** Every check of the loop nest, written as a plain condition: each
      active selection is met, the profile covers the wheel's CUDA
      major.minor, and the add-on selections name something offered. */
  ghost predicate Admissible(t: Tables, f: Filters, b: Branch)
  {
    var w, p, py := b.wheel, b.profile, b.python;
    (Active(f.torch) ==> w.torch == f.torch.value)
    && (Active(f.cuda) ==> w.cuda == f.cuda.value)
    && (f.windowsOnly ==> w.windows)
    && CudaShort(w.cuda) in p.cudaVersions
    && (Active(f.triton) ==> f.triton.value in p.tritonCompat)
    && (Active(f.python) ==> py == f.python.value)
    && (Active(f.fa2) ==>
          exists e :: e in t.flashAttention && e.torch == w.torch && e.python == py
                      && e.cuda == w.cuda && e.fa2 == f.fa2.value)
    && (Active(f.xformers) ==> XformersOffered(t, w, f.xformers.value))
    && (Active(f.bnb) ==> BnbOffered(t, w.cuda, py, f.bnb.value))
  }

  lemma Fa2PassesExactly(t: Tables, f: Filters, w: TorchCuda, py: string)
    ensures Fa2Passes(f, Fa2Compat(t, w, py))
        <==> (Active(f.fa2) ==>
                exists e :: e in t.flashAttention && e.torch == w.torch && e.python == py
                            && e.cuda == w.cuda && e.fa2 == f.fa2.value)
  {
    if Active(f.fa2) {
      var compat := Fa2Compat(t, w, py);
      FilterEmpty(Fa2Is(f.fa2.value), compat);
      if !Fa2Passes(f, compat) {
        forall e | e in t.flashAttention
          ensures !(e.torch == w.torch && e.python == py && e.cuda == w.cuda && e.fa2 == f.fa2.value)
        {
          if e.torch == w.torch && e.python == py && e.cuda == w.cuda {
            assert e in compat;
          }
        }
      }
    }
  }

  lemma XformersPassesExactly(t: Tables, f: Filters, w: TorchCuda)
    ensures XformersPasses(f, XformersVersions(t, w))
        <==> (Active(f.xformers) ==> XformersOffered(t, w, f.xformers.value))
  {
    if Active(f.xformers) {
      var v := f.xformers.value;
      var found := Filter(XformersFor(w), t.xformers);
      FilterEmpty(XformersFor(w), t.xformers);
      if |found| > 0 {
        MapMember(XformersName, found, v);
        assert (forall x :: x in t.xformers ==> !(x.torch == w.torch && w.cuda in x.cuda)) == false by {
          assert found[0] in t.xformers && found[0].torch == w.torch && w.cuda in found[0].cuda;
        }
      }
    }
  }

  /** A label matches a selection once its `*` is removed exactly when the
      row it came from has that version. */
  lemma BnbUnstarredMember(table: seq<Bitsandbytes>, cuda: string, py: string, v: string)
    ensures (exists u :: u in BnbLabels(table, cuda, py) && Strip(u, '*') == v)
        <==> exists b :: b in table && py in b.python && cuda in b.cuda && Strip(b.bnb, '*') == v
  {
    var found := Filter(BnbFor(cuda, py), table);
    forall b | b in found
      ensures Strip(BnbLabel(cuda)(b), '*') == Strip(b.bnb, '*')
    {
      StripMarker(b.bnb, '*');
    }
    if exists u :: u in BnbLabels(table, cuda, py) && Strip(u, '*') == v {
      var u :| u in BnbLabels(table, cuda, py) && Strip(u, '*') == v;
      MapMember(BnbLabel(cuda), found, u);
    }
    if exists b :: b in table && py in b.python && cuda in b.cuda && Strip(b.bnb, '*') == v {
      var b :| b in table && py in b.python && cuda in b.cuda && Strip(b.bnb, '*') == v;
      assert b in found;
      MapMember(BnbLabel(cuda), found, BnbLabel(cuda)(b));
    }
  }

  /** Some row supports both versions: the selection must match one of them. */
  lemma BnbPassesWhenFound(t: Tables, v: string, cuda: string, py: string)
    requires |Filter(BnbFor(cuda, py), t.bitsandbytes)| > 0
    ensures |Filter(Unstarred(v), BnbShown(t.bitsandbytes, cuda, py))| > 0 <==> BnbOffered(t, cuda, py, v)
  {
    var found := Filter(BnbFor(cuda, py), t.bitsandbytes);
    var labels := BnbLabels(t.bitsandbytes, cuda, py);
    assert BnbShown(t.bitsandbytes, cuda, py) == labels;
    FilterEmpty(Unstarred(v), labels);
    BnbUnstarredMember(t.bitsandbytes, cuda, py, v);
    assert found[0] in t.bitsandbytes && py in found[0].python && cuda in found[0].cuda;
  }

  /** No row supports both versions: only the placeholder `"-"` passes. */
  lemma BnbPassesWhenNone(t: Tables, v: string, cuda: string, py: string)
    requires |Filter(BnbFor(cuda, py), t.bitsandbytes)| == 0
    ensures |Filter(Unstarred(v), BnbShown(t.bitsandbytes, cuda, py))| > 0 <==> BnbOffered(t, cuda, py, v)
  {
    FilterEmpty(BnbFor(cuda, py), t.bitsandbytes);
    assert BnbShown(t.bitsandbytes, cuda, py) == ["-"];
    FilterEmpty(Unstarred(v), ["-"]);
    StripUnchanged("-", '*');
  }

  lemma BnbPassesExactly(t: Tables, f: Filters, cuda: string, py: string)
    ensures BnbPasses(f, BnbShown(t.bitsandbytes, cuda, py))
        <==> (Active(f.bnb) ==> BnbOffered(t, cuda, py, f.bnb.value))
  {
    if Active(f.bnb) {
      if |Filter(BnbFor(cuda, py), t.bitsandbytes)| > 0 {
        BnbPassesWhenFound(t, f.bnb.value, cuda, py);
      } else {
        BnbPassesWhenNone(t, f.bnb.value, cuda, py);
      }
    }
  }

  /** A branch survives the loop nest exactly when it is admissible. */
  lemma KeepExactly(t: Tables, f: Filters, b: Branch)
    ensures Keep(t, f, b) <==> Admissible(t, f, b)
  {
    Fa2PassesExactly(t, f, b.wheel, b.python);
    XformersPassesExactly(t, f, b.wheel);
    BnbPassesExactly(t, f, b.wheel.cuda, b.python);
  }

  /** Filter soundness and completeness together: the kept branches are
      exactly the (wheel row, profile of the same torch, Python version of that
      profile) triples that are admissible. */
  lemma KeptExactly(t: Tables, f: Filters, b: Branch)
    ensures b in Kept(t, f) <==>
      b.wheel in t.torchCuda && b.profile in t.torchPythonTriton
      && b.profile.torch == b.wheel.torch && b.python in b.profile.python
      && Admissible(t, f, b)
  {
    KeepExactly(t, f, b);
  }

  // ---------------------------------------------------------------------
  // The records

  /** The record of a kept branch shows the selection in the columns the user
      filters on: the same torch and Python, the selected CUDA (marked with `†`
      when its stability is undocumented), and Windows "Yes". */
  lemma KeptRowMatchesFilters(t: Tables, f: Filters, b: Branch)
    requires Keep(t, f, b)
    ensures Active(f.torch) ==> BuildRow(t, b).torch == f.torch.value
    ensures Active(f.python) ==> BuildRow(t, b).python == f.python.value
    ensures Active(f.cuda) ==> BuildRow(t, b).cuda == f.cuda.value || BuildRow(t, b).cuda == f.cuda.value + "†"
    ensures f.windowsOnly ==> BuildRow(t, b).windows == "Yes"
  {
    RowShowsData(t, b);
  }

  /** Every record is the record of a kept branch. */
  lemma ResolveFromKept(t: Tables, f: Filters, c: Combo)
    requires c in Resolve(t, f)
    ensures exists b :: b in Kept(t, f) && c == RowFn(t)(b)
  {
    var rows := Resolve(t, f);
    var i :| 0 <= i < |rows| && rows[i] == c;
    assert Kept(t, f)[i] in Kept(t, f);
  }

  /** Every record comes from a kept branch and shows the selection. */
  lemma ResolveSound(t: Tables, f: Filters, c: Combo)
    requires c in Resolve(t, f)
    ensures exists b :: b in Kept(t, f) && c == BuildRow(t, b)
    ensures Active(f.torch) ==> c.torch == f.torch.value
    ensures Active(f.python) ==> c.python == f.python.value
    ensures Active(f.cuda) ==> c.cuda == f.cuda.value || c.cuda == f.cuda.value + "†"
    ensures f.windowsOnly ==> c.windows == "Yes"
  {
    ResolveFromKept(t, f, c);
    var b :| b in Kept(t, f) && c == RowFn(t)(b);
    KeptRowMatchesFilters(t, f, b);
  }

  /** Every admissible triple of the tables shows up as a record. */
  lemma ResolveComplete(t: Tables, f: Filters, b: Branch)
    requires b.wheel in t.torchCuda && b.profile in t.torchPythonTriton
    requires b.profile.torch == b.wheel.torch && b.python in b.profile.python
    requires Admissible(t, f, b)
    ensures BuildRow(t, b) in Resolve(t, f)
  {
    KeptExactly(t, f, b);
    MapMember(RowFn(t), Kept(t, f), BuildRow(t, b));
  }

  /** Each record shows its wheel row and profile as the tables give them:
      versions from the ecosystem map (`"-"` when the torch version or the
      package is missing there), the CUDA version
      marked `†` exactly when its stability is undocumented, the triton pin
      alone or after the compatible list, and the Windows verdict. */
  lemma RowShowsData(t: Tables, b: Branch)
    ensures BuildRow(t, b).torch == b.wheel.torch && BuildRow(t, b).python == b.python
    ensures BuildRow(t, b).cudnn == b.wheel.cudnn
    ensures BuildRow(t, b).cuda == (if b.wheel.stabilityUndocumented then b.wheel.cuda + "†" else b.wheel.cuda)
    ensures BuildRow(t, b).stabilityUndocumented == b.wheel.stabilityUndocumented
    ensures BuildRow(t, b).windows == (if b.wheel.windows then "Yes" else "No (cuDNN)")
    ensures BuildRow(t, b).triton == TritonDisplay(b.profile)
    ensures BuildRow(t, b).torchvision
         == (if b.wheel.torch in t.torchEcosystem && "torchvision" in t.torchEcosystem[b.wheel.torch]
             then t.torchEcosystem[b.wheel.torch]["torchvision"] else "-")
    ensures BuildRow(t, b).torchaudio
         == (if b.wheel.torch in t.torchEcosystem && "torchaudio" in t.torchEcosystem[b.wheel.torch]
             then t.torchEcosystem[b.wheel.torch]["torchaudio"] else "-")
  {
  }

  // ---------------------------------------------------------------------
  // Order, monotonicity, counts

  /** One unfolding of `WheelTriples`: the last wheel row's branches come last. */
  lemma WheelTriplesLast(ws: seq<TorchCuda>, ps: seq<TorchProfile>)
    requires |ws| > 0
    ensures WheelTriples(ws, ps)
         == WheelTriples(ws[..|ws| - 1], ps) + ProfileTriples(ws[|ws| - 1], MatchingProfiles(ps, ws[|ws| - 1].torch))
  {
  }

  lemma {:induction false} WheelTriplesAppend(a: seq<TorchCuda>, c: seq<TorchCuda>, ps: seq<TorchProfile>)
    ensures WheelTriples(a + c, ps) == WheelTriples(a, ps) + WheelTriples(c, ps)
    decreases |c|
  {
    if |c| == 0 {
      assert a + c == a;
    } else {
      var n := |c| - 1;
      var ac := a + c;
      assert ac[..|ac| - 1] == a + c[..n];
      assert ac[|ac| - 1] == c[n];
      WheelTriplesLast(ac, ps);
      WheelTriplesLast(c, ps);
      WheelTriplesAppend(a, c[..n], ps);
      AppendAssoc(WheelTriples(a, ps), WheelTriples(c[..n], ps),
                  ProfileTriples(c[n], MatchingProfiles(ps, c[n].torch)));
    }
  }

  /** The records of earlier wheel rows come before those of later ones. */
  lemma ResolveInWheelOrder(t: Tables, f: Filters, a: seq<TorchCuda>, c: seq<TorchCuda>)
    requires t.torchCuda == a + c
    ensures Resolve(t, f) == Rows(t, f, WheelTriples(a, t.torchPythonTriton))
                           + Rows(t, f, WheelTriples(c, t.torchPythonTriton))
  {
    WheelTriplesAppend(a, c, t.torchPythonTriton);
    RowsAppend(t, f, WheelTriples(a, t.torchPythonTriton), WheelTriples(c, t.torchPythonTriton));
  }

  /** The kept branches are the loop nest's branches with some dropped, in order. */
  lemma KeptInLoopOrder(t: Tables, f: Filters)
    ensures IsSubseq(Kept(t, f), Triples(t))
  {
    FilterIsSubseq(KeepFn(t, f), Triples(t));
  }

  /** `f2` filters at least as much as `f1`: each selection active in `f1`
      is the same in `f2`, and "Windows Only" stays on. */
  ghost predicate Narrows(f2: Filters, f1: Filters)
  {
    (Active(f1.torch) ==> f2.torch == f1.torch)
    && (Active(f1.python) ==> f2.python == f1.python)
    && (Active(f1.cuda) ==> f2.cuda == f1.cuda)
    && (Active(f1.fa2) ==> f2.fa2 == f1.fa2)
    && (Active(f1.xformers) ==> f2.xformers == f1.xformers)
    && (Active(f1.triton) ==> f2.triton == f1.triton)
    && (Active(f1.bnb) ==> f2.bnb == f1.bnb)
    && (f1.windowsOnly ==> f2.windowsOnly)
  }

  /** Selecting more can only remove records, never add or reorder them. */
  lemma ResolveMonotone(t: Tables, f2: Filters, f1: Filters)
    requires Narrows(f2, f1)
    ensures IsSubseq(Resolve(t, f2), Resolve(t, f1))
  {
    forall b | b in Triples(t) ensures KeepFn(t, f2)(b) ==> KeepFn(t, f1)(b) {
      KeepExactly(t, f2, b);
      KeepExactly(t, f1, b);
    }
    FilterSubseq(KeepFn(t, f2), KeepFn(t, f1), Triples(t));
    MapSubseq(RowFn(t), Kept(t, f2), Kept(t, f1));
  }

  /** Any selection shows a subsequence of the unfiltered table. */
  lemma ResolveWithinUnfiltered(t: Tables, f: Filters)
    ensures IsSubseq(Resolve(t, f), Resolve(t, NoFilters))
  {
    ResolveMonotone(t, f, NoFilters);
  }

  function CudaCovered(): Branch -> bool
  {
    (b: Branch) => CudaShort(b.wheel.cuda) in b.profile.cudaVersions
  }

  /** With nothing selected, the only check left is the profile's CUDA list:
      one record per triple whose profile covers the wheel's CUDA major.minor. */
  lemma UnfilteredCount(t: Tables)
    ensures |Resolve(t, NoFilters)| == |Filter(CudaCovered(), Triples(t))|
  {
    forall b | b in Triples(t) ensures KeepFn(t, NoFilters)(b) == CudaCovered()(b) {
      BranchPassesParts(t, NoFilters, b.wheel, b.profile, b.python);
    }
    FilterCongruent(KeepFn(t, NoFilters), CudaCovered(), Triples(t));
  }

  /** A CUDA selection Python treats as false (unset or empty) filters nothing. */
  lemma InactiveCudaIgnored(t: Tables, f: Filters)
    requires !Active(f.cuda)
    ensures Resolve(t, f) == Resolve(t, f.(cuda := None))
  {
    var g := f.(cuda := None);
    forall b | b in Triples(t) ensures KeepFn(t, f)(b) == KeepFn(t, g)(b) {
      BranchPassesParts(t, f, b.wheel, b.profile, b.python);
      BranchPassesParts(t, g, b.wheel, b.profile, b.python);
    }
    FilterCongruent(KeepFn(t, f), KeepFn(t, g), Triples(t));
  }

  /** When every wheel row fails a wheel-level check, the table is empty. */
  lemma NoWheelPassesGivesNothing(t: Tables, f: Filters)
    requires forall w :: w in t.torchCuda ==> !WheelPasses(f, w)
    ensures Resolve(t, f) == []
  {
    RowsNone(t, f, Triples(t));
  }

  /** A torch selection that names no wheel row empties the table. */
  lemma UnknownTorchGivesNothing(t: Tables, f: Filters)
    requires Active(f.torch)
    requires forall w :: w in t.torchCuda ==> w.torch != f.torch.value
    ensures Resolve(t, f) == []
  {
    NoWheelPassesGivesNothing(t, f);
  }

  // ---------------------------------------------------------------------
  // Display strings

  /** The flash-attention column: `"-"` when no build matches, otherwise the
      distinct labels (an assumed build marked `*`), largest first, so the
      order a set hands them out in does not matter. */
  lemma Fa2ColumnExactly(entries: seq<FlashAttention>)
    ensures |entries| == 0 ==> Fa2Display(Fa2Shown(entries)) == "-"
    ensures |entries| > 0 ==>
      Fa2Display(Fa2Shown(entries)) == Join(SortedDistinctDescending(Map(Fa2Label, entries)), ", ")
      && StrictlyDescending(SortedDistinctDescending(Map(Fa2Label, entries)))
      && forall y :: y in SortedDistinctDescending(Map(Fa2Label, entries))
                     <==> exists e :: e in entries && Fa2Label(e) == y
  {
    if |entries| == 0 {
      assert ["-"][..0] == [];
    } else {
      forall y ensures y in Map(Fa2Label, entries) <==> exists e :: e in entries && Fa2Label(e) == y {
        MapMember(Fa2Label, entries, y);
      }
    }
  }

  /** Any strictly descending arrangement of the same labels is the one shown. */
  lemma Fa2OrderCanonical(entries: seq<FlashAttention>, r: seq<string>)
    requires StrictlyDescending(r)
    requires forall y :: y in r <==> y in Map(Fa2Label, entries)
    ensures |entries| > 0 ==> Fa2Display(Fa2Shown(entries)) == Join(r, ", ")
  {
    DescendingUnique(r, SortedDistinctDescending(Map(Fa2Label, entries)));
  }

  /** The bitsandbytes list: one label per row supporting both versions, in
      table order, starred exactly when the CUDA version is assumed for it. */
  lemma BnbLabelsExactly(table: seq<Bitsandbytes>, cuda: string, py: string)
    ensures forall v :: v in BnbLabels(table, cuda, py) <==>
      exists b :: b in table && py in b.python && cuda in b.cuda
                  && v == (if cuda in b.assumedCuda then b.bnb + "*" else b.bnb)
    ensures IsSubseq(Filter(BnbFor(cuda, py), table), table)
    ensures |BnbLabels(table, cuda, py)| <= |table|
  {
    forall v ensures v in BnbLabels(table, cuda, py) <==>
      exists b :: b in table && py in b.python && cuda in b.cuda
                  && v == (if cuda in b.assumedCuda then b.bnb + "*" else b.bnb)
    {
      MapMember(BnbLabel(cuda), Filter(BnbFor(cuda, py), table), v);
    }
    FilterIsSubseq(BnbFor(cuda, py), table);
  }

  /** The CUDA prefix keeps the major and minor parts of a dotted version,
      whatever follows the second dot. */
  lemma CudaShortMajorMinor(major: string, minor: string, rest: string)
    requires '.' !in major && '.' !in minor
    ensures CudaShort(major + "." + minor + "." + rest) == major + "." + minor
    ensures CudaShort(major + "." + minor) == major + "." + minor
    ensures CudaShort(major) == major
  {
    var dot := ['.'];
    assert major + "." + minor + "." + rest == major + dot + (minor + dot + rest);
    SplitPiece(major, '.', minor + dot + rest);
    SplitPiece(minor, '.', rest);
    var many := Split(major + "." + minor + "." + rest, '.');
    assert many == [major, minor] + Split(rest, '.');
    assert many[..2] == [major, minor];
    assert Join([major, minor], ".") == major + "." + Join([minor], ".");
    assert major + "." + minor == major + dot + minor;
    SplitPiece(major, '.', minor);
    SplitNone(minor, '.');
    var two := Split(major + "." + minor, '.');
    assert two == [major, minor];
    assert two[..2] == [major, minor];
    SplitNone(major, '.');
  }

  /** A four-part version keeps its first two parts. */
  lemma CudaShortFourParts()
    ensures CudaShort("12.8.1.2") == "12.8"
  {
    assert "12.8.1.2" == "12" + "." + "8" + "." + "1.2";
    CudaShortMajorMinor("12", "8", "1.2");
  }

  /** The triton column: the pinned version alone, or every compatible
      version followed by the pin when there are several. */
  lemma TritonColumn(p: TorchProfile)
    ensures |p.tritonCompat| == 1 ==> TritonDisplay(p) == p.triton
    ensures |p.tritonCompat| == 2 ==>
      TritonDisplay(p) == p.tritonCompat[0] + ", " + p.tritonCompat[1] + " (pin: " + p.triton + ")"
  {
    if |p.tritonCompat| == 2 {
      var xs := p.tritonCompat;
      assert xs[1..] == [xs[1]];
      assert Join(xs, ", ") == xs[0] + ", " + Join([xs[1]], ", ");
    }
  }

  /** The xformers and bitsandbytes columns show at most three entries and
      mark a longer list with `...`. */
  lemma AbbreviateColumn(xs: seq<string>)
    ensures |xs| <= 3 ==> Abbreviate(xs) == Join(xs, ", ")
    ensures |xs| > 3 ==> Abbreviate(xs) == Join(xs[..3], ", ") + "..."
    ensures |xs| == 0 ==> Abbreviate(xs) == ""
    ensures |xs| == 1 ==> Abbreviate(xs) == xs[0]
  {
    assert xs[..|xs|] == xs;
  }

  /** With every combo box on "Any" and the toggle off, nothing is filtered. */
  lemma AllAnyIsNoFilters()
    ensures ReadFilters("Any", "Any", "Any", "Any", "Any", "Any", "Any", false) == NoFilters
  {
  }
}
