/**
 * Choosing the Windows version whose virtual-desktop interfaces to use.
 *
 * The build number of a version is read from the text after the first `_` in its module
 * name. At run time the version is the newest declared one whose build number is at most
 * the running system's build number; when the system's version cannot be read, or no
 * declared version is old enough, the newest declared version is used. The choice is made
 * once per process and remembered.
 */
module Versions {
  import opened Wrappers
  import opened Machine
  import Radix

  /** The version modules, oldest first, as the version list declares them. */
  function Declared(): (names: seq<string>)
    ensures |names| == VERSION_COUNT
  {
    seq(VERSION_COUNT, DeclaredAt)
  }

  function DeclaredAt(i: int): string
  {
    match i
    case 0 => "build_10240"
    case 1 => "build_16299"
    case 2 => "build_17134"
    case 3 => "build_19045"
    case 4 => "build_20348"
    case 5 => "build_22000"
    case 6 => "build_22621_2215"
    case 7 => "build_22621_3155"
    case 8 => "build_22631_2428"
    case _ => "build_22631_3155"
  }

  const VERSION_COUNT := 10

  /** A version is its position in the declared list. */
  type Version = v: nat | v < 10

  // ---------------------------------------------------------------------------
  // Reading a build number out of a module name

  /** `str::split_once(c)`: the text before and after the first `c`. */
  function SplitOnce(s: string, c: char): (r: Option<(string, string)>)
    ensures r.None? <==> c !in s
    ensures r.Some? ==> s == r.value.0 + [c] + r.value.1 && c !in r.value.0
  {
    if |s| == 0 then None
    else if s[0] == c then
      assert s == [] + [c] + s[1..];
      Some(([], s[1..]))
    else
      match SplitOnce(s[1..], c)
      case None =>
        assert s == [s[0]] + s[1..];
        None
      case Some(parts) =>
        assert s == [s[0]] + s[1..];
        Some(([s[0]] + parts.0, parts.1))
  }

  /** Splitting at the first `c` undoes joining a `c`-free prefix to anything with `c`. */
  lemma {:induction false} SplitOnceJoin(a: string, c: char, b: string)
    requires c !in a
    ensures SplitOnce(a + [c] + b, c) == Some((a, b))
    decreases |a|
  {
    var s := a + [c] + b;
    if |a| == 0 {
      assert s[0] == c && s[1..] == b;
    } else {
      assert s[0] == a[0] && s[1..] == a[1..] + [c] + b;
      SplitOnceJoin(a[1..], c, b);
      assert [a[0]] + a[1..] == a;
    }
  }

  /** In `a + [c] + b` with no `c` in `a`, the only `c` with none before it is the one after `a`. */
  lemma FirstOccurrence(s: string, c: char, a: string, b: string)
    requires s == a + [c] + b && c !in a
    ensures forall i :: 0 <= i < |s| && s[i] == c && c !in s[..i] ==> i == |a|
  {
    assert forall i :: |a| < i <= |s| ==> s[..i][|a|] == c;
    assert forall k :: 0 <= k < |a| ==> s[k] == a[k] && a[k] in a;
  }

  /** Why version selection can abort the process. */
  datatype Panic =
    | NoUnderscore      // "Module name didn't contain an underscore"
    | NotABuildNumber   // "Failed to parse module suffix as build version"
    | NoVersions        // "No Windows version is supported"

  /**
   * The build number of a version name as the code reads it: all of the text after the
   * first underscore must parse as a `u32`, so a name with a second underscore (a build
   * with a revision suffix) cannot be read.
   */
  function WindowsBuild(name: string): (r: Result<U32, Panic>)
    ensures r == Err(NoUnderscore) <==> '_' !in name
    ensures forall i :: 0 <= i < |name| && name[i] == '_' && '_' !in name[..i] ==>
      && (Radix.ParseU32(name[i + 1..], 10).Some? ==> r == Ok(Radix.ParseU32(name[i + 1..], 10).value))
      && (Radix.ParseU32(name[i + 1..], 10).None? ==> r == Err(NotABuildNumber))
  {
    match SplitOnce(name, '_')
    case None => Err(NoUnderscore)
    case Some((head, tail)) =>
      assert name[|head| + 1..] == tail;
      FirstOccurrence(name, '_', head, tail);
      match Radix.ParseU32(tail, 10)
      case Some(b) => Ok(b)
      case None => Err(NotABuildNumber)
  }

  /**
   * The build number as the version names evidently mean it: the digits after the first
   * underscore, up to the next underscore if there is one. A revision suffix such as
   * `_2215` in `build_22621_2215` does not take part in the comparison with the running
   * system's build number, which has no revision either.
   */
  function MajorBuild(name: string): (r: Result<U32, Panic>)
    ensures r == Err(NoUnderscore) <==> '_' !in name
  {
    match SplitOnce(name, '_')
    case None => Err(NoUnderscore)
    case Some((_, tail)) =>
      var digits := match SplitOnce(tail, '_') case Some((d, _)) => d case None => tail;
      match Radix.ParseU32(digits, 10)
      case Some(b) => Ok(b)
      case None => Err(NotABuildNumber)
  }

  /** A name `<prefix>_<decimal of n>` reads back as `n`, for every prefix without `_`. */
  lemma WindowsBuildPrinted(prefix: string, n: U32)
    requires '_' !in prefix
    ensures WindowsBuild(prefix + "_" + Radix.ToDigits(n, 10, false)) == Ok(n)
  {
    var digits := Radix.ToDigits(n, 10, false);
    SplitOnceJoin(prefix, '_', digits);
    Radix.ParseU32Printed(n, 10, false, 0);
  }

  /** A second underscore after the number makes the name unreadable for `WindowsBuild`. */
  lemma WindowsBuildRejectsRevision(prefix: string, number: string, revision: string)
    requires '_' !in prefix
    ensures WindowsBuild(prefix + "_" + (number + "_" + revision)) == Err(NotABuildNumber)
  {
    var tail := number + "_" + revision;
    SplitOnceJoin(prefix, '_', tail);
    var k := |number|;
    assert Radix.DigitValue('_', 10).None?;
    if tail[0] == '+' {
      assert tail[1..][k - 1] == '_';
    } else {
      assert tail[k] == '_';
    }
  }

  /**
   * `MajorBuild` reads `<prefix>_<decimal of n>` as `n` whatever revision follows, and
   * agrees with `WindowsBuild` on names without one.
   */
  lemma MajorBuildPrinted(prefix: string, n: U32, revision: string)
    requires '_' !in prefix
    ensures MajorBuild(prefix + "_" + (Radix.ToDigits(n, 10, false) + "_" + revision)) == Ok(n)
    ensures MajorBuild(prefix + "_" + Radix.ToDigits(n, 10, false)) == Ok(n)
    ensures WindowsBuild(prefix + "_" + Radix.ToDigits(n, 10, false)) == Ok(n)
  {
    var digits := Radix.ToDigits(n, 10, false);
    assert Radix.DigitValue('_', 10).None?;
    assert '_' !in digits;
    Radix.ParseU32Printed(n, 10, false, 0);
    var long := digits + "_" + revision;
    SplitOnceJoin(prefix, '_', long);
    SplitOnceJoin(digits, '_', revision);
    SplitOnceJoin(prefix, '_', digits);
    assert SplitOnce(digits, '_').None?;
    WindowsBuildPrinted(prefix, n);
  }

  /** The two ways of reading a build number. */
  datatype Reading = AsWritten | MajorOnly

  function BuildOf(reading: Reading, name: string): (r: Result<U32, Panic>)
    ensures reading == AsWritten ==> r == WindowsBuild(name)
    ensures reading == MajorOnly ==> r == MajorBuild(name)
  {
    match reading
    case AsWritten => WindowsBuild(name)
    case MajorOnly => MajorBuild(name)
  }

  // ---------------------------------------------------------------------------
  // Selecting a version

  /** The build number of every name, in order, each read on its own. */
  function Reads(reading: Reading, names: seq<string>): (rs: seq<Result<U32, Panic>>)
    ensures |rs| == |names|
    ensures forall i :: 0 <= i < |names| ==> rs[i] == BuildOf(reading, names[i])
  {
    seq(|names|, i requires 0 <= i < |names| => BuildOf(reading, names[i]))
  }

  /**
   * The build numbers of the names, read in order. The iterator pipeline reads every name
   * (the filter and `max_by_key` consume it to the end), so the first unreadable name
   * aborts the whole selection with its panic.
   */
  function Collect(rs: seq<Result<U32, Panic>>): (r: Result<seq<U32>, Panic>)
    ensures r.Ok? <==> forall i :: 0 <= i < |rs| ==> rs[i].Ok?
    ensures r.Ok? ==> |r.value| == |rs| && forall i :: 0 <= i < |rs| ==> rs[i] == Ok(r.value[i])
  {
    if |rs| == 0 then Ok([])
    else
      var last := |rs| - 1;
      var init := rs[..last];
      assert forall i :: 0 <= i < last ==> init[i] == rs[i];
      match Collect(init)
      case Err(e) => Err(e)
      case Ok(bs) =>
        match rs[last]
        case Err(e) => Err(e)
        case Ok(b) => Ok(bs + [b])
  }

  /** Reading succeeds with exactly the builds each name gives. */
  lemma CollectAllOk(rs: seq<Result<U32, Panic>>, bs: seq<U32>)
    requires |rs| == |bs| && forall i :: 0 <= i < |rs| ==> rs[i] == Ok(bs[i])
    ensures Collect(rs) == Ok(bs)
  {
    var r := Collect(rs);
    assert r.Ok? && |r.value| == |bs|;
    assert forall i :: 0 <= i < |bs| ==> r.value[i] == bs[i];
    assert r.value == bs;
  }

  /** Reading stops at the first name that cannot be read. */
  lemma {:induction false} CollectFirstErr(rs: seq<Result<U32, Panic>>, k: nat)
    requires k < |rs| && rs[k].Err? && forall j :: 0 <= j < k ==> rs[j].Ok?
    ensures Collect(rs) == Err(rs[k].error)
    decreases |rs|
  {
    var last := |rs| - 1;
    var init := rs[..last];
    if k < last {
      assert init[k] == rs[k];
      CollectFirstErr(init, k);
    } else {
      assert forall i :: 0 <= i < last ==> init[i].Ok?;
    }
  }

  /**
   * The position `max_by_key` picks among the builds not above `limit`: the greatest such
   * build, and the last one of them when several are equal (a later element replaces the
   * current maximum when its key is greater or equal). `None` when every build is above
   * `limit`.
   */
  function Newest(builds: seq<U32>, limit: U32): (r: Option<nat>)
    ensures r.None? <==> forall i :: 0 <= i < |builds| ==> builds[i] > limit
    ensures r.Some? ==> r.value < |builds| && builds[r.value] <= limit
    ensures r.Some? ==> forall i :: 0 <= i < |builds| && builds[i] <= limit ==> builds[i] <= builds[r.value]
    ensures r.Some? ==> forall i :: r.value < i < |builds| && builds[i] <= limit ==> builds[i] < builds[r.value]
  {
    if |builds| == 0 then None
    else
      var last := |builds| - 1;
      var init := builds[..last];
      assert forall i :: 0 <= i < last ==> init[i] == builds[i];
      var best := Newest(init, limit);
      if builds[last] <= limit && (best.None? || builds[best.value] <= builds[last]) then Some(last)
      else best
  }

  /** `Default::default()`: the newest declared version, or a panic when none is declared. */
  function Fallback(names: seq<string>): (r: Result<nat, Panic>)
    ensures |names| > 0 <==> r.Ok?
    ensures r.Ok? ==> r.value == |names| - 1
  {
    if |names| == 0 then Err(NoVersions) else Ok(|names| - 1)
  }

  /**
   * What the selection promises about a choice `r` among readable build numbers `bs`:
   * there is one exactly when something is declared; a build at most `limit` is the
   * newest such build and the last of its equals; otherwise every build is newer than
   * `limit` and the choice is the last version.
   */
  predicate SelectsNewest(bs: seq<U32>, limit: U32, r: Result<nat, Panic>)
  {
    && (r.Ok? <==> |bs| > 0)
    && (r.Ok? ==> r.value < |bs|)
    && (r.Ok? && r.value < |bs| && bs[r.value] <= limit ==>
         && (forall i :: 0 <= i < |bs| && bs[i] <= limit ==> bs[i] <= bs[r.value])
         && (forall i :: r.value < i < |bs| ==> bs[i] != bs[r.value]))
    && (r.Ok? && r.value < |bs| && bs[r.value] > limit ==>
         r.value == |bs| - 1 && forall i :: 0 <= i < |bs| ==> bs[i] > limit)
  }

  lemma NewestSelects(bs: seq<U32>, limit: U32)
    requires Newest(bs, limit).Some?
    ensures SelectsNewest(bs, limit, Ok(Newest(bs, limit).value))
  {
  }

  lemma FallbackSelects(bs: seq<U32>, limit: U32)
    requires Newest(bs, limit).None?
    ensures SelectsNewest(bs, limit, if |bs| == 0 then Err(NoVersions) else Ok(|bs| - 1))
  {
  }

  /**
   * The version chosen among `names` for a system whose build number is `detected`
   * (`None` when `RtlGetVersion` fails). The result is a position in `names`.
   */
  function Select(reading: Reading, names: seq<string>, detected: Option<U32>): (r: Result<nat, Panic>)
    ensures r.Ok? ==> r.value < |names|
    ensures detected.None? ==> r == Fallback(names)
    ensures detected.Some? && Collect(Reads(reading, names)).Err? ==> r == Err(Collect(Reads(reading, names)).error)
    ensures detected.Some? && Collect(Reads(reading, names)).Ok? ==>
      SelectsNewest(Collect(Reads(reading, names)).value, detected.value, r)
  {
    match detected
    case None => Fallback(names)
    case Some(limit) =>
      match Collect(Reads(reading, names))
      case Err(e) => Err(e)
      case Ok(bs) =>
        assert |bs| == |names|;
        match Newest(bs, limit)
        case Some(i) =>
          NewestSelects(bs, limit);
          Ok(i)
        case None =>
          FallbackSelects(bs, limit);
          Fallback(names)
  }

  /** `WindowsVersion::get` over the declared versions, before memoisation. */
  function Get(reading: Reading, detected: Option<U32>): (r: Result<Version, Panic>)
    ensures detected.None? ==> r == Ok(|Declared()| - 1)
    ensures r.Ok? ==> Select(reading, Declared(), detected) == Ok(r.value)
    ensures r.Err? ==> Select(reading, Declared(), detected) == Err(r.error)
  {
    match Select(reading, Declared(), detected)
    case Ok(v) => Ok(v)
    case Err(e) => Err(e)
  }

  // ---------------------------------------------------------------------------
  // Facts about the declared list

  lemma ReadPlain(prefix: string, number: string, n: U32)
    requires '_' !in prefix
    requires |number| > 0 && number[0] != '+' && Radix.PrefixValue(number, |number|, 10) == Some(n)
    ensures WindowsBuild(prefix + "_" + number) == Ok(n)
    ensures MajorBuild(prefix + "_" + number) == Ok(n)
  {
    Radix.ParseU32ByPrefix(number, 10);
    SplitOnceJoin(prefix, '_', number);
    assert number[..|number|] == number;
    assert Radix.DigitValue('_', 10).None?;
    assert '_' !in number;
  }

  lemma ReadRevision(prefix: string, number: string, n: U32, revision: string)
    requires '_' !in prefix
    requires |number| > 0 && number[0] != '+' && Radix.PrefixValue(number, |number|, 10) == Some(n)
    ensures WindowsBuild(prefix + "_" + (number + "_" + revision)) == Err(NotABuildNumber)
    ensures MajorBuild(prefix + "_" + (number + "_" + revision)) == Ok(n)
  {
    WindowsBuildRejectsRevision(prefix, number, revision);
    MajorBuildRevision(prefix, number, n, revision);
  }

  lemma MajorBuildRevision(prefix: string, number: string, n: U32, revision: string)
    requires '_' !in prefix
    requires |number| > 0 && number[0] != '+' && Radix.PrefixValue(number, |number|, 10) == Some(n)
    ensures MajorBuild(prefix + "_" + (number + "_" + revision)) == Ok(n)
  {
    var tail := number + "_" + revision;
    var name := prefix + "_" + tail;
    SplitOnceJoin(prefix, '_', tail);
    assert '_' !in number by {
      assert number[..|number|] == number;
      assert Radix.DigitValue('_', 10).None?;
    }
    SplitOnceJoin(number, '_', revision);
    Radix.ParseU32ByPrefix(number, 10);
    MajorBuildOfParts(name, prefix, tail, number, revision, n);
  }

  lemma MajorBuildOfParts(name: string, prefix: string, tail: string, number: string, revision: string, n: U32)
    requires SplitOnce(name, '_') == Some((prefix, tail))
    requires SplitOnce(tail, '_') == Some((number, revision))
    requires Radix.ParseU32(number, 10) == Some(n)
    ensures MajorBuild(name) == Ok(n)
  {
  }

  lemma DeclaredName0(names: seq<string>)
    requires names == Declared()
    ensures Reads(AsWritten, names)[0] == Ok(10240) && Reads(MajorOnly, names)[0] == Ok(10240)
  {
    assert names[0] == "build" + "_" + "10240";
    assert Radix.PrefixValue("10240", 1, 10) == Some(1);
    assert Radix.PrefixValue("10240", 2, 10) == Some(10);
    assert Radix.PrefixValue("10240", 3, 10) == Some(102);
    assert Radix.PrefixValue("10240", 4, 10) == Some(1024);
    assert Radix.PrefixValue("10240", 5, 10) == Some(10240);
    ReadPlain("build", "10240", 10240);
  }

  lemma DeclaredName1(names: seq<string>)
    requires names == Declared()
    ensures Reads(AsWritten, names)[1] == Ok(16299) && Reads(MajorOnly, names)[1] == Ok(16299)
  {
    assert names[1] == "build" + "_" + "16299";
    assert Radix.PrefixValue("16299", 1, 10) == Some(1);
    assert Radix.PrefixValue("16299", 2, 10) == Some(16);
    assert Radix.PrefixValue("16299", 3, 10) == Some(162);
    assert Radix.PrefixValue("16299", 4, 10) == Some(1629);
    assert Radix.PrefixValue("16299", 5, 10) == Some(16299);
    ReadPlain("build", "16299", 16299);
  }

  lemma DeclaredName2(names: seq<string>)
    requires names == Declared()
    ensures Reads(AsWritten, names)[2] == Ok(17134) && Reads(MajorOnly, names)[2] == Ok(17134)
  {
    assert names[2] == "build" + "_" + "17134";
    assert Radix.PrefixValue("17134", 1, 10) == Some(1);
    assert Radix.PrefixValue("17134", 2, 10) == Some(17);
    assert Radix.PrefixValue("17134", 3, 10) == Some(171);
    assert Radix.PrefixValue("17134", 4, 10) == Some(1713);
    assert Radix.PrefixValue("17134", 5, 10) == Some(17134);
    ReadPlain("build", "17134", 17134);
  }

  lemma DeclaredName3(names: seq<string>)
    requires names == Declared()
    ensures Reads(AsWritten, names)[3] == Ok(19045) && Reads(MajorOnly, names)[3] == Ok(19045)
  {
    assert names[3] == "build" + "_" + "19045";
    assert Radix.PrefixValue("19045", 1, 10) == Some(1);
    assert Radix.PrefixValue("19045", 2, 10) == Some(19);
    assert Radix.PrefixValue("19045", 3, 10) == Some(190);
    assert Radix.PrefixValue("19045", 4, 10) == Some(1904);
    assert Radix.PrefixValue("19045", 5, 10) == Some(19045);
    ReadPlain("build", "19045", 19045);
  }

  lemma DeclaredName4(names: seq<string>)
    requires names == Declared()
    ensures Reads(AsWritten, names)[4] == Ok(20348) && Reads(MajorOnly, names)[4] == Ok(20348)
  {
    assert names[4] == "build" + "_" + "20348";
    assert Radix.PrefixValue("20348", 1, 10) == Some(2);
    assert Radix.PrefixValue("20348", 2, 10) == Some(20);
    assert Radix.PrefixValue("20348", 3, 10) == Some(203);
    assert Radix.PrefixValue("20348", 4, 10) == Some(2034);
    assert Radix.PrefixValue("20348", 5, 10) == Some(20348);
    ReadPlain("build", "20348", 20348);
  }

  lemma DeclaredName5(names: seq<string>)
    requires names == Declared()
    ensures Reads(AsWritten, names)[5] == Ok(22000) && Reads(MajorOnly, names)[5] == Ok(22000)
  {
    assert names[5] == "build" + "_" + "22000";
    assert Radix.PrefixValue("22000", 1, 10) == Some(2);
    assert Radix.PrefixValue("22000", 2, 10) == Some(22);
    assert Radix.PrefixValue("22000", 3, 10) == Some(220);
    assert Radix.PrefixValue("22000", 4, 10) == Some(2200);
    assert Radix.PrefixValue("22000", 5, 10) == Some(22000);
    ReadPlain("build", "22000", 22000);
  }

  lemma DeclaredName6(names: seq<string>)
    requires names == Declared()
    ensures Reads(AsWritten, names)[6] == Err(NotABuildNumber) && Reads(MajorOnly, names)[6] == Ok(22621)
  {
    assert names[6] == "build" + "_" + ("22621" + "_" + "2215");
    assert Radix.PrefixValue("22621", 1, 10) == Some(2);
    assert Radix.PrefixValue("22621", 2, 10) == Some(22);
    assert Radix.PrefixValue("22621", 3, 10) == Some(226);
    assert Radix.PrefixValue("22621", 4, 10) == Some(2262);
    assert Radix.PrefixValue("22621", 5, 10) == Some(22621);
    ReadRevision("build", "22621", 22621, "2215");
  }

  lemma DeclaredName7(names: seq<string>)
    requires names == Declared()
    ensures Reads(AsWritten, names)[7] == Err(NotABuildNumber) && Reads(MajorOnly, names)[7] == Ok(22621)
  {
    assert names[7] == "build" + "_" + ("22621" + "_" + "3155");
    assert Radix.PrefixValue("22621", 1, 10) == Some(2);
    assert Radix.PrefixValue("22621", 2, 10) == Some(22);
    assert Radix.PrefixValue("22621", 3, 10) == Some(226);
    assert Radix.PrefixValue("22621", 4, 10) == Some(2262);
    assert Radix.PrefixValue("22621", 5, 10) == Some(22621);
    ReadRevision("build", "22621", 22621, "3155");
  }

  lemma DeclaredName8(names: seq<string>)
    requires names == Declared()
    ensures Reads(AsWritten, names)[8] == Err(NotABuildNumber) && Reads(MajorOnly, names)[8] == Ok(22631)
  {
    assert names[8] == "build" + "_" + ("22631" + "_" + "2428");
    assert Radix.PrefixValue("22631", 1, 10) == Some(2);
    assert Radix.PrefixValue("22631", 2, 10) == Some(22);
    assert Radix.PrefixValue("22631", 3, 10) == Some(226);
    assert Radix.PrefixValue("22631", 4, 10) == Some(2263);
    assert Radix.PrefixValue("22631", 5, 10) == Some(22631);
    ReadRevision("build", "22631", 22631, "2428");
  }

  lemma DeclaredName9(names: seq<string>)
    requires names == Declared()
    ensures Reads(AsWritten, names)[9] == Err(NotABuildNumber) && Reads(MajorOnly, names)[9] == Ok(22631)
  {
    assert names[9] == "build" + "_" + ("22631" + "_" + "3155");
    assert Radix.PrefixValue("22631", 1, 10) == Some(2);
    assert Radix.PrefixValue("22631", 2, 10) == Some(22);
    assert Radix.PrefixValue("22631", 3, 10) == Some(226);
    assert Radix.PrefixValue("22631", 4, 10) == Some(2263);
    assert Radix.PrefixValue("22631", 5, 10) == Some(22631);
    ReadRevision("build", "22631", 22631, "3155");
  }

  /** Read as written, the declared list aborts at `build_22621_2215`. */
  lemma DeclaredAsWritten(names: seq<string>)
    requires names == Declared()
    ensures Collect(Reads(AsWritten, names)) == Err(NotABuildNumber)
  {
    var rs := Reads(AsWritten, names);
    forall i | 0 <= i < 6 ensures rs[i].Ok? {
      if i == 0 {
        DeclaredName0(names);
      } else if i == 1 {
        DeclaredName1(names);
      } else if i == 2 {
        DeclaredName2(names);
      } else if i == 3 {
        DeclaredName3(names);
      } else if i == 4 {
        DeclaredName4(names);
      } else {
        DeclaredName5(names);
      }
    }
    DeclaredName6(names);
    CollectFirstErr(rs, 6);
  }

  /** The build numbers of the declared names, read up to the revision. */
  lemma DeclaredMajor(names: seq<string>)
    requires names == Declared()
    ensures Collect(Reads(MajorOnly, names)).Ok? && |Collect(Reads(MajorOnly, names)).value| == VERSION_COUNT
    ensures Collect(Reads(MajorOnly, names)).value[0] == 10240
    ensures Collect(Reads(MajorOnly, names)).value[1] == 16299
    ensures Collect(Reads(MajorOnly, names)).value[2] == 17134
    ensures Collect(Reads(MajorOnly, names)).value[3] == 19045
    ensures Collect(Reads(MajorOnly, names)).value[4] == 20348
    ensures Collect(Reads(MajorOnly, names)).value[5] == 22000
    ensures Collect(Reads(MajorOnly, names)).value[6] == 22621
    ensures Collect(Reads(MajorOnly, names)).value[7] == 22621
    ensures Collect(Reads(MajorOnly, names)).value[8] == 22631
    ensures Collect(Reads(MajorOnly, names)).value[9] == 22631
  {
    var rs := Reads(MajorOnly, names);
    DeclaredName0(names);
    DeclaredName1(names);
    DeclaredName2(names);
    DeclaredName3(names);
    DeclaredName4(names);
    DeclaredName5(names);
    DeclaredName6(names);
    DeclaredName7(names);
    DeclaredName8(names);
    DeclaredName9(names);
    MajorsCollect(rs);
  }

  /** Ten readable build numbers collect into the list of their values. */
  lemma MajorsCollect(rs: seq<Result<U32, Panic>>)
    requires |rs| == VERSION_COUNT
    requires rs[0] == Ok(10240)
    requires rs[1] == Ok(16299)
    requires rs[2] == Ok(17134)
    requires rs[3] == Ok(19045)
    requires rs[4] == Ok(20348)
    requires rs[5] == Ok(22000)
    requires rs[6] == Ok(22621)
    requires rs[7] == Ok(22621)
    requires rs[8] == Ok(22631)
    requires rs[9] == Ok(22631)
    ensures Collect(rs).Ok? && |Collect(rs).value| == VERSION_COUNT
    ensures Collect(rs).value[0] == 10240
    ensures Collect(rs).value[1] == 16299
    ensures Collect(rs).value[2] == 17134
    ensures Collect(rs).value[3] == 19045
    ensures Collect(rs).value[4] == 20348
    ensures Collect(rs).value[5] == 22000
    ensures Collect(rs).value[6] == 22621
    ensures Collect(rs).value[7] == 22621
    ensures Collect(rs).value[8] == 22631
    ensures Collect(rs).value[9] == 22631
  {
    assert forall i :: 0 <= i < |rs| ==> rs[i].Ok?;
  }

  /**
   * As written, whenever the running system's build number can be read, selection aborts
   * at `build_22621_2215`; only a failed `RtlGetVersion` reaches a version (the newest).
   */
  lemma GetPanicsWhenDetected(reading: Reading, detected: Option<U32>)
    requires reading == AsWritten
    ensures detected.Some? ==> Get(reading, detected) == Err(NotABuildNumber)
    ensures detected.None? ==> Get(reading, detected) == Ok(9)
  {
    DeclaredAsWritten(Declared());
  }

  /**
   * The version the corrected selection should give for build `b`, written as a table of
   * build ranges: the newest version whose build is at most `b`, the later revision on a
   * tie, and the newest version for a build older than all of them.
   */
  function MajorChoice(b: U32): (v: Version)
  {
    if b < 10240 then 9
    else if b < 16299 then 0
    else if b < 17134 then 1
    else if b < 19045 then 2
    else if b < 20348 then 3
    else if b < 22000 then 4
    else if b < 22621 then 5
    else if b < 22631 then 7
    else 9
  }

  /** `max_by_key` over the corrected build numbers picks what the range table says. */
  lemma NewestOfMajor(bs: seq<U32>, b: U32)
    requires |bs| == VERSION_COUNT
    requires bs[0] == 10240 && bs[1] == 16299 && bs[2] == 17134 && bs[3] == 19045 && bs[4] == 20348 && bs[5] == 22000 && bs[6] == 22621 && bs[7] == 22621 && bs[8] == 22631 && bs[9] == 22631
    ensures b < 10240 ==> Newest(bs, b).None?
    ensures b >= 10240 ==> Newest(bs, b) == Some(MajorChoice(b))
  {
    var r := Newest(bs, b);
    if b >= 10240 {
      assert bs[0] <= b;
    }
  }

  /**
   * With build numbers read up to the revision, the chosen version is the newest one whose
   * build number is at most the system's; ties between revisions of one build go to the
   * later revision; a system older than every declared version gets the newest one.
   */
  lemma CorrectedGetSelects(b: U32)
    ensures Get(MajorOnly, Some(b)) == Ok(MajorChoice(b))
  {
    var names := Declared();
    DeclaredMajor(names);
    NewestOfMajor(Collect(Reads(MajorOnly, names)).value, b);
  }

  /**
   * Even with the corrected reading, two declared versions are never chosen: each loses
   * the tie to the next revision of its build.
   */
  lemma CorrectedSkipsRevisions(detected: Option<U32>)
    ensures Get(MajorOnly, detected).Ok?
    ensures Get(MajorOnly, detected) != Ok(6) && Get(MajorOnly, detected) != Ok(8)
  {
    if detected.Some? {
      CorrectedGetSelects(detected.value);
    }
  }

  /**
   * The choice is not monotone in the system's build: one build below the oldest declared
   * version selects the newest one.
   */
  lemma CorrectedNotMonotone()
    ensures Get(MajorOnly, Some(10239)) == Ok(9) && Get(MajorOnly, Some(10240)) == Ok(0)
  {
    CorrectedGetSelects(10239);
    CorrectedGetSelects(10240);
  }

  // ---------------------------------------------------------------------------
  // Memoisation

  /**
   * The process-wide `OnceLock`: empty until a selection finishes. A selection that
   * panics leaves it empty, so the next call selects again.
   */
  datatype Cell = Cell(chosen: Option<Version>)

  function GetOnce(reading: Reading, cell: Cell, detected: Option<U32>): (r: (Result<Version, Panic>, Cell))
    ensures cell.chosen.Some? ==> r == (Ok(cell.chosen.value), cell)
    ensures cell.chosen.None? && r.0.Ok? ==> r.1 == Cell(Some(r.0.value)) && r.0 == Get(reading, detected)
    ensures cell.chosen.None? && r.0.Err? ==> r.1 == cell && r.0 == Get(reading, detected)
  {
    match cell.chosen
    case Some(v) => (Ok(v), cell)
    case None =>
      match Get(reading, detected)
      case Ok(v) => (Ok(v), Cell(Some(v)))
      case Err(e) => (Err(e), cell)
  }

  /** The results of successive calls, each seeing the build number `detections[k]`. */
  function GetMany(reading: Reading, cell: Cell, detections: seq<Option<U32>>): (rs: seq<Result<Version, Panic>>)
    ensures |rs| == |detections|
    decreases |detections|
  {
    if |detections| == 0 then []
    else
      var (r, next) := GetOnce(reading, cell, detections[0]);
      [r] + GetMany(reading, next, detections[1..])
  }

  /** Once one call has chosen a version, every later call returns that same version. */
  lemma {:induction false} GetManyStable(reading: Reading, cell: Cell, detections: seq<Option<U32>>, k: nat)
    requires k < |detections| && GetMany(reading, cell, detections)[k].Ok?
    ensures forall j :: k <= j < |detections| ==> GetMany(reading, cell, detections)[j] == GetMany(reading, cell, detections)[k]
    decreases |detections|
  {
    var (r, next) := GetOnce(reading, cell, detections[0]);
    var rs, rest := GetMany(reading, cell, detections), GetMany(reading, next, detections[1..]);
    assert rs == [r] + rest;
    if k == 0 {
      assert next.chosen == Some(r.value);
      forall j | 0 < j < |detections| ensures rs[j] == rs[0] {
        Remembered(reading, next, detections[1..], j - 1);
        assert rs[j] == rest[j - 1];
      }
    } else {
      GetManyStable(reading, next, detections[1..], k - 1);
      forall j | k <= j < |detections| ensures rs[j] == rs[k] {
        assert rs[j] == rest[j - 1];
      }
    }
  }

  lemma {:induction false} Remembered(reading: Reading, cell: Cell, detections: seq<Option<U32>>, j: nat)
    requires cell.chosen.Some? && j < |detections|
    ensures GetMany(reading, cell, detections)[j] == Ok(cell.chosen.value)
    decreases j
  {
    if j > 0 {
      Remembered(reading, cell, detections[1..], j - 1);
    }
  }
}
