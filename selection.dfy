/** Choosing the node's primary CNI network configuration file, as kubelet does: the candidate
    files in lexicographic order, the first one that parses to a non-empty plugin list. */
module Selection {
  import opened Wrappers
  import opened Paths

  // ---------------------------------------------------------------------------------------
  // `sort.Strings`: Go compares strings byte by byte; for valid text that is the code-point order.

  predicate LexLeq(a: string, b: string)
    decreases |a|
  {
    a == [] || (b != [] && (a[0] < b[0] || (a[0] == b[0] && LexLeq(a[1..], b[1..]))))
  }

  lemma {:induction false} LexLeqTotal(a: string, b: string)
    ensures LexLeq(a, b) || LexLeq(b, a)
    decreases |a|
  {
    if a != [] && b != [] && a[0] == b[0] {
      LexLeqTotal(a[1..], b[1..]);
    }
  }

  lemma {:induction false} LexLeqAntisymmetric(a: string, b: string)
    requires LexLeq(a, b) && LexLeq(b, a)
    ensures a == b
    decreases |a|
  {
    if a != [] {
      LexLeqAntisymmetric(a[1..], b[1..]);
      assert a == [a[0]] + a[1..] && b == [b[0]] + b[1..];
    }
  }

  lemma {:induction false} LexLeqTransitive(a: string, b: string, c: string)
    requires LexLeq(a, b) && LexLeq(b, c)
    ensures LexLeq(a, c)
    decreases |a|
  {
    if a != [] && a[0] == b[0] && b[0] == c[0] {
      LexLeqTransitive(a[1..], b[1..], c[1..]);
    }
  }

  ghost predicate Sorted(s: seq<string>)
  {
    forall i, j :: 0 <= i < j < |s| ==> LexLeq(s[i], s[j])
  }

  /** A sorted sequence stays sorted when an element no greater than its head is put in front. */
  lemma SortedCons(h: string, t: seq<string>)
    requires Sorted(t) && (t == [] || LexLeq(h, t[0]))
    ensures Sorted([h] + t)
  {
    forall j | 0 <= j < |t| ensures LexLeq(h, t[j]) {
      if j > 0 {
        LexLeqTransitive(h, t[0], t[j]);
      }
    }
  }

  function Insert(x: string, s: seq<string>): (r: seq<string>)
    requires Sorted(s)
    ensures Sorted(r)
    ensures multiset(r) == multiset(s) + multiset{x}
    ensures r != [] && (r[0] == x || (s != [] && r[0] == s[0]))
  {
    if s == [] then [x]
    else if LexLeq(x, s[0]) then
      SortedCons(x, s);
      [x] + s
    else
      var rest := Insert(x, s[1..]);
      assert s == [s[0]] + s[1..];
      LexLeqTotal(x, s[0]);
      assert LexLeq(s[0], rest[0]) by {
        if rest[0] != x {
          assert LexLeq(s[0], s[1]);
        }
      }
      SortedCons(s[0], rest);
      [s[0]] + rest
  }

  /** `sort.Strings`, written as an insertion sort; `SortedUnique` shows that every sort gives this result. */
  function SortStrings(s: seq<string>): (r: seq<string>)
    ensures Sorted(r)
    ensures multiset(r) == multiset(s)
  {
    if s == [] then []
    else
      assert s == [s[0]] + s[1..];
      Insert(s[0], SortStrings(s[1..]))
  }

  lemma HeadIsLeast(a: seq<string>, x: string)
    requires Sorted(a) && x in a
    ensures LexLeq(a[0], x)
  {
    var k :| 0 <= k < |a| && a[k] == x;
    if k == 0 {
      LexLeqTotal(x, x);
    }
  }

  lemma TailMultiset(a: seq<string>)
    requires a != []
    ensures multiset(a[1..]) == multiset(a) - multiset{a[0]}
  {
    assert a == [a[0]] + a[1..];
  }

  lemma SortedTail(a: seq<string>)
    requires a != [] && Sorted(a)
    ensures Sorted(a[1..])
  {
    forall i, j | 0 <= i < j < |a| - 1 ensures LexLeq(a[1..][i], a[1..][j]) {
      assert a[1..][i] == a[i + 1] && a[1..][j] == a[j + 1];
    }
  }

  /** The order is total and antisymmetric, so a sorted permutation is unique: the model's
      sort and Go's agree on every input. */
  lemma {:induction false} SortedUnique(a: seq<string>, b: seq<string>)
    requires Sorted(a) && Sorted(b) && multiset(a) == multiset(b)
    ensures a == b
    decreases |a|
  {
    assert |a| == |multiset(a)| == |multiset(b)| == |b|;
    if a != [] {
      assert a[0] in multiset(b) && b[0] in multiset(a);
      assert a[0] in b && b[0] in a;
      HeadIsLeast(b, a[0]);
      HeadIsLeast(a, b[0]);
      LexLeqAntisymmetric(a[0], b[0]);
      TailMultiset(a);
      TailMultiset(b);
      SortedTail(a);
      SortedTail(b);
      SortedUnique(a[1..], b[1..]);
      assert a == [a[0]] + a[1..] && b == [b[0]] + b[1..];
    }
  }

  // ---------------------------------------------------------------------------------------
  // libcni, taken as given: each parser's outcome for a path.

  /** A parsed single-plugin file (`libcni.NetworkConfig`): its network `type`. */
  datatype NetConf = NetConf(netType: string, raw: string)

  /** `ConfListFromFile` and `ConfListFromConf` are given by the plugin count of the list they
      return, `ConfFromFile` by the configuration it returns; `None` is a parse error. */
  datatype Libcni = Libcni(
    confListFromFile: string -> Option<nat>,
    confFromFile: string -> Option<NetConf>,
    confListFromConf: NetConf -> Option<nat>)

  const ConfListExtension := ".conflist"

  /** A candidate is usable: a `.conflist` parses as a list, any other file parses as a single
      configuration with a non-empty `type` and converts to a list; either way the list has a plugin. */
  predicate Qualifies(lib: Libcni, path: string)
  {
    if HasSuffix(path, ConfListExtension) then
      lib.confListFromFile(path).Some? && lib.confListFromFile(path).value > 0
    else
      && lib.confFromFile(path).Some?
      && lib.confFromFile(path).value.netType != ""
      && lib.confListFromConf(lib.confFromFile(path).value).Some?
      && lib.confListFromConf(lib.confFromFile(path).value).value > 0
  }

  /** The index of the first usable candidate. */
  function FirstQualifying(files: seq<string>, lib: Libcni): (r: Option<nat>)
    ensures r.None? <==> forall j :: 0 <= j < |files| ==> !Qualifies(lib, files[j])
    ensures r.Some? ==> r.value < |files| && Qualifies(lib, files[r.value])
    ensures r.Some? ==> forall j :: 0 <= j < r.value ==> !Qualifies(lib, files[j])
  {
    if files == [] then None
    else if Qualifies(lib, files[0]) then Some(0)
    else match FirstQualifying(files[1..], lib)
      case None => None
      case Some(i) => Some(i + 1)
  }

  /** `getDefaultCNINetwork` given the outcome of `libcni.ConfFiles` and its two error texts. */
  function SelectNetwork(listing: Result<seq<string>, string>, lib: Libcni, noNetworks: string, noValid: string): Result<string, string>
  {
    match listing
    case Failure(e) => Failure(e)
    case Success(files) =>
      if |files| == 0 then Failure(noNetworks)
      else
        var sorted := SortStrings(files);
        match FirstQualifying(sorted, lib)
        case None => Failure(noValid)
        case Some(i) => Success(Base(sorted[i]))
  }

  /** Sorting keeps exactly the candidates that were listed. */
  lemma SortKeepsMembers(files: seq<string>, f: string)
    ensures f in files <==> f in SortStrings(files)
  {
    assert f in files <==> f in multiset(files);
    assert f in SortStrings(files) <==> f in multiset(SortStrings(files));
  }

  /** In a sorted listing, the first usable candidate is no greater than any usable one. */
  lemma FirstQualifyingIsLeast(sorted: seq<string>, lib: Libcni, i: nat, g: string)
    requires Sorted(sorted) && FirstQualifying(sorted, lib) == Some(i)
    requires g in sorted && Qualifies(lib, g)
    ensures LexLeq(sorted[i], g)
  {
    var j :| 0 <= j < |sorted| && sorted[j] == g;
    if j < i {
      assert false;
    } else if j > i {
      assert LexLeq(sorted[i], sorted[j]);
    } else {
      LexLeqTotal(g, g);
    }
  }

  /** Selection of a non-empty listing either succeeds or fails with `noValid`, and it fails
      exactly when no candidate is usable; the selected name is that of a usable candidate that
      is lexicographically no greater than any other usable one. */
  lemma SelectNetworkChoosesFirstUsable(files: seq<string>, lib: Libcni, noNetworks: string, noValid: string)
    requires |files| > 0
    ensures var r := SelectNetwork(Success(files), lib, noNetworks, noValid);
      && (r.Success? || r == Failure(noValid))
      && (r == Failure(noValid) <==> forall f :: f in files ==> !Qualifies(lib, f))
      && (r.Success? ==>
            exists f :: f in files && Qualifies(lib, f) && r.value == Base(f)
              && (forall g :: g in files && Qualifies(lib, g) ==> LexLeq(f, g)))
  {
    var sorted := SortStrings(files);
    var r := SelectNetwork(Success(files), lib, noNetworks, noValid);
    match FirstQualifying(sorted, lib)
    case None =>
      assert r == Failure(noValid);
      forall f | f in files ensures !Qualifies(lib, f) {
        SortKeepsMembers(files, f);
        var j :| 0 <= j < |sorted| && sorted[j] == f;
      }
    case Some(i) =>
      assert r == Success(Base(sorted[i]));
      var f := sorted[i];
      forall g | g in files && Qualifies(lib, g) ensures LexLeq(f, g) {
        SortKeepsMembers(files, g);
        FirstQualifyingIsLeast(sorted, lib, i, g);
      }
      SortKeepsMembers(files, f);
      assert f in files && Qualifies(lib, f);
  }

  /** The order in which the directory lists its files does not matter, only which files it lists. */
  lemma SelectNetworkIgnoresListingOrder(a: seq<string>, b: seq<string>, lib: Libcni, noNetworks: string, noValid: string)
    requires multiset(a) == multiset(b)
    ensures SelectNetwork(Success(a), lib, noNetworks, noValid) == SelectNetwork(Success(b), lib, noNetworks, noValid)
  {
    assert |a| == |multiset(a)| == |multiset(b)| == |b|;
    SortedUnique(SortStrings(a), SortStrings(b));
  }

  /** A malformed `.conflist` sorted before a valid one is skipped: the valid one is selected. */
  lemma MalformedListIsSkipped(bad: string, good: string, lib: Libcni, noNetworks: string, noValid: string)
    requires HasSuffix(bad, ConfListExtension) && lib.confListFromFile(bad).None?
    requires Qualifies(lib, good) && LexLeq(bad, good)
    ensures SelectNetwork(Success([good, bad]), lib, noNetworks, noValid) == Success(Base(good))
  {
    SelectNetworkChoosesFirstUsable([good, bad], lib, noNetworks, noValid);
    var r := SelectNetwork(Success([good, bad]), lib, noNetworks, noValid);
    assert !Qualifies(lib, bad);
    assert r.Success?;
  }

  /** The loop of `getDefaultCNINetwork`, shared by both installer snapshots: the candidates are
      tried in sorted order and the name of the first usable one is returned. */
  method ChooseNetwork(listing: Result<seq<string>, string>, lib: Libcni, noNetworks: string, noValid: string) returns (r: Result<string, string>)
    ensures r == SelectNetwork(listing, lib, noNetworks, noValid)
  {
    if listing.Failure? {
      return Failure(listing.error);
    }
    if |listing.value| == 0 {
      return Failure(noNetworks);
    }
    var files := SortStrings(listing.value);
    for i := 0 to |files|
      invariant forall j :: 0 <= j < i ==> !Qualifies(lib, files[j])
    {
      var confFile := files[i];
      var plugins: nat;
      if HasSuffix(confFile, ConfListExtension) {
        var confList := lib.confListFromFile(confFile);
        if confList.None? {
          continue;
        }
        plugins := confList.value;
      } else {
        var conf := lib.confFromFile(confFile);
        if conf.None? {
          continue;
        }
        if conf.value.netType == "" {
          continue;
        }
        var confList := lib.confListFromConf(conf.value);
        if confList.None? {
          continue;
        }
        plugins := confList.value;
      }
      if plugins == 0 {
        continue;
      }
      FirstQualifyingIsFirst(files, lib, i);
      return Success(Base(confFile));
    }
    return Failure(noValid);
  }

  /** A usable candidate with no usable one before it is the first usable one. */
  lemma FirstQualifyingIsFirst(files: seq<string>, lib: Libcni, i: nat)
    requires i < |files| && Qualifies(lib, files[i])
    requires forall j :: 0 <= j < i ==> !Qualifies(lib, files[j])
    ensures FirstQualifying(files, lib) == Some(i)
  {
  }
}
