/**
 * The command line and the symbol filters of the symbol dumper: which
 * arguments it accepts, which public symbols it reads as interface ids, how it
 * reads an id from the DLL image, and which symbols it dumps as vtables.
 */
module SymbolScan {
  import opened Wrappers
  import opened Machine
  import Guid
  import SymbolSizes

  // ---------------------------------------------------------------------------
  // Text helpers

  /** `str::eq_ignore_ascii_case`. */
  predicate EqIgnoreAsciiCase(a: string, b: string)
  {
    Guid.LowerText(a) == Guid.LowerText(b)
  }

  predicate StartsWith(s: string, prefix: string)
  {
    |prefix| <= |s| && s[..|prefix|] == prefix
  }

  /** The `n` characters of `s` from position `k`. */
  function Window(s: string, k: nat, n: nat): (w: string)
    requires k + n <= |s|
    ensures |w| == n
  {
    s[k..k + n]
  }

  /** `str::contains` for a text pattern. */
  predicate Contains(s: string, part: string)
  {
    exists k: nat :: k + |part| <= |s| && Window(s, k, |part|) == part
  }

  lemma ContainsItself(s: string)
    ensures Contains(s, s)
  {
    assert Window(s, 0, |s|) == s;
  }

  // ---------------------------------------------------------------------------
  // Arguments

  const ALL_FLAG: string := "--all"

  /**
   * The argument loop: every argument must be `--all` in any ASCII case, which
   * turns the filters off; the first other argument is reported.
   */
  function ParseArgs(args: seq<string>): (r: Result<bool, string>)
    ensures r.Ok? <==> forall i :: 0 <= i < |args| ==> EqIgnoreAsciiCase(args[i], ALL_FLAG)
    ensures r.Ok? ==> (r.value <==> |args| > 0)
    ensures r.Err? ==> exists i :: (0 <= i < |args| && args[i] == r.error && !EqIgnoreAsciiCase(args[i], ALL_FLAG) &&
      forall j :: 0 <= j < i ==> EqIgnoreAsciiCase(args[j], ALL_FLAG))
    decreases |args|
  {
    if args == [] then Ok(false)
    else if !EqIgnoreAsciiCase(args[0], ALL_FLAG) then Err(args[0])
    else
      var rest := ParseArgs(args[1..]);
      assert forall i :: 1 <= i < |args| ==> args[1..][i - 1] == args[i];
      if rest.Ok? then Ok(true) else Err(rest.error)
  }

  lemma LowerTwice(s: string)
    ensures Guid.LowerText(Guid.LowerText(s)) == Guid.LowerText(s)
  {
  }

  /** The arguments with every ASCII letter lowered. */
  function LowerArgs(args: seq<string>): (r: seq<string>)
    ensures |r| == |args| && forall i :: 0 <= i < |args| ==> r[i] == Guid.LowerText(args[i])
  {
    seq(|args|, i requires 0 <= i < |args| => Guid.LowerText(args[i]))
  }

  /** Case never matters: lowering every argument changes neither acceptance nor the flag. */
  lemma ArgsIgnoreCase(args: seq<string>)
    ensures ParseArgs(LowerArgs(args)).Ok? == ParseArgs(args).Ok?
    ensures ParseArgs(args).Ok? ==> ParseArgs(LowerArgs(args)) == ParseArgs(args)
  {
    forall i | 0 <= i < |args|
      ensures EqIgnoreAsciiCase(LowerArgs(args)[i], ALL_FLAG) == EqIgnoreAsciiCase(args[i], ALL_FLAG)
    {
      LowerTwice(args[i]);
    }
  }

  /** An upper-case flag is accepted. */
  lemma UpperFlagAccepted()
    ensures ParseArgs(["--ALL"]) == Ok(true)
  {
    var t := Guid.LowerText("--ALL");
    assert t[0] == '-' && t[1] == '-' && t[2] == 'a' && t[3] == 'l' && t[4] == 'l';
    assert t == ALL_FLAG;
    assert ALL_FLAG[0] == '-' && ALL_FLAG[1] == '-' && ALL_FLAG[2] == 'a' && ALL_FLAG[3] == 'l' && ALL_FLAG[4] == 'l';
    assert Guid.LowerText(ALL_FLAG) == ALL_FLAG;
    assert ["--ALL"][1..] == [];
  }

  // ---------------------------------------------------------------------------
  // Interface ids

  /**
   * The name filter for interface ids: an `IID_` prefix and, unless the
   * filters are off, a mention of virtual desktops or application views.
   */
  predicate IidCandidate(name: string, unfiltered: bool)
  {
    && StartsWith(name, "IID_")
    && (unfiltered || Contains(name, "VirtualDesktop") || Contains(name, "IApplicationView"))
  }

  /** Turning the filters off keeps every id that passed and leaves only the prefix test. */
  lemma UnfilteredWidens(name: string)
    ensures IidCandidate(name, false) ==> IidCandidate(name, true)
    ensures IidCandidate(name, true) <==> StartsWith(name, "IID_")
  {
  }

  /** Why reading an interface id fails. */
  datatype IidFailure =
    | TooSmall(size: U32)  // the estimated size is below 16: reported as an error
    | OutOfImage           // the 16 bytes run past the image: the slice panics

  /**
   * Reading one id: the estimated size (zero when missing) must be at least
   * 16, and the 16 bytes at the symbol's address (zero when missing) are the
   * GUID in its in-memory layout.
   */
  function ReadIid(e: SymbolSizes.Entry, image: seq<Byte>): (r: Result<Guid.Guid, IidFailure>)
    requires e.symbol.Public?
    ensures var size := e.info.UnwrapOr(SymbolSizes.AddressInfo(0, 0)).size;
      r == Err(TooSmall(size)) <==> size < 16
    ensures var at := e.symbol.rva.UnwrapOr(0);
      r == Err(OutOfImage) <==> e.info.Some? && e.info.value.size >= 16 && at + 16 > |image|
    ensures var at := e.symbol.rva.UnwrapOr(0);
      r.Ok? ==> at + 16 <= |image| && Guid.ToBytesLe(r.value) == image[at..at + 16]
  {
    var size := e.info.UnwrapOr(SymbolSizes.AddressInfo(0, 0)).size;
    var at := e.symbol.rva.UnwrapOr(0);
    if size < 16 then Err(TooSmall(size))
    else if at > |image| || |image| - at < 16 then Err(OutOfImage)
    else
      var bytes := image[at..][..16];
      assert bytes == image[at..at + 16];
      Guid.BytesLeRoundTripBack(bytes);
      Ok(Guid.FromBytesLe(bytes).value)
  }

  /** A symbol whose interface id is printed. */
  predicate Reported(e: SymbolSizes.Entry, unfiltered: bool)
  {
    e.symbol.Public? && IidCandidate(e.symbol.name, unfiltered)
  }

  datatype Found = Found(name: string, iid: Guid.Guid)

  /** How many of the first `n` symbols are reported. */
  function Rank(symbols: seq<SymbolSizes.Entry>, unfiltered: bool, n: nat): (k: nat)
    requires n <= |symbols|
    ensures k <= n
    decreases n
  {
    if n == 0 then 0
    else (if Reported(symbols[0], unfiltered) then 1 else 0) + Rank(symbols[1..], unfiltered, n - 1)
  }

  /**
   * `found` lists the reported symbols' ids one each, in symbol order: as many
   * entries as reported symbols, the k-th reported symbol's id at index k.
   */
  predicate InOrder(symbols: seq<SymbolSizes.Entry>, unfiltered: bool, image: seq<Byte>, found: seq<Found>)
  {
    && |found| == Rank(symbols, unfiltered, |symbols|)
    && forall i :: 0 <= i < |symbols| && Reported(symbols[i], unfiltered) ==>
         && ReadIid(symbols[i], image).Ok?
         && Rank(symbols, unfiltered, i) < |found|
         && found[Rank(symbols, unfiltered, i)] == Found(symbols[i].symbol.name, ReadIid(symbols[i], image).value)
  }

  /** A reported first symbol whose id reads goes in front of the rest's list. */
  lemma InOrderCons(symbols: seq<SymbolSizes.Entry>, unfiltered: bool, image: seq<Byte>, rest: seq<Found>)
    requires |symbols| > 0 && Reported(symbols[0], unfiltered) && ReadIid(symbols[0], image).Ok?
    requires InOrder(symbols[1..], unfiltered, image, rest)
    ensures InOrder(symbols, unfiltered, image, [Found(symbols[0].symbol.name, ReadIid(symbols[0], image).value)] + rest)
  {
    forall i | 1 <= i < |symbols| && Reported(symbols[i], unfiltered)
      ensures Rank(symbols, unfiltered, i) == 1 + Rank(symbols[1..], unfiltered, i - 1)
    {
      assert symbols[1..][i - 1] == symbols[i];
    }
  }

  /** A symbol that is not reported adds nothing to the list. */
  lemma InOrderSkip(symbols: seq<SymbolSizes.Entry>, unfiltered: bool, image: seq<Byte>, rest: seq<Found>)
    requires |symbols| > 0 && !Reported(symbols[0], unfiltered)
    requires InOrder(symbols[1..], unfiltered, image, rest)
    ensures InOrder(symbols, unfiltered, image, rest)
  {
    forall i | 1 <= i < |symbols| && Reported(symbols[i], unfiltered)
      ensures Rank(symbols, unfiltered, i) == Rank(symbols[1..], unfiltered, i - 1)
    {
      assert symbols[1..][i - 1] == symbols[i];
    }
  }

  /**
   * The id loop over one DLL's symbols, in order: every reported symbol's id,
   * or the first failure, which ends the program.
   */
  function ScanIids(symbols: seq<SymbolSizes.Entry>, unfiltered: bool, image: seq<Byte>): (r: Result<seq<Found>, IidFailure>)
    ensures r.Ok? <==> forall i :: 0 <= i < |symbols| && Reported(symbols[i], unfiltered) ==> ReadIid(symbols[i], image).Ok?
    ensures r.Ok? ==> forall f :: f in r.value <==> exists i :: (0 <= i < |symbols| && Reported(symbols[i], unfiltered) &&
      f == Found(symbols[i].symbol.name, ReadIid(symbols[i], image).value))
    ensures r.Ok? ==> InOrder(symbols, unfiltered, image, r.value)
    ensures r.Err? ==> exists i :: (0 <= i < |symbols| && Reported(symbols[i], unfiltered) &&
      ReadIid(symbols[i], image) == Err(r.error) &&
      forall j :: 0 <= j < i && Reported(symbols[j], unfiltered) ==> ReadIid(symbols[j], image).Ok?)
    decreases |symbols|
  {
    if symbols == [] then Ok([])
    else
      var rest := ScanIids(symbols[1..], unfiltered, image);
      assert forall i :: 1 <= i < |symbols| ==> symbols[1..][i - 1] == symbols[i];
      if !Reported(symbols[0], unfiltered) then
        if rest.Err? then rest
        else
          InOrderSkip(symbols, unfiltered, image, rest.value);
          rest
      else match ReadIid(symbols[0], image)
        case Err(e) => Err(e)
        case Ok(g) =>
          if rest.Err? then Err(rest.error)
          else
            var f := Found(symbols[0].symbol.name, g);
            assert forall x :: x in [f] + rest.value <==> x == f || x in rest.value;
            InOrderCons(symbols, unfiltered, image, rest.value);
            Ok([f] + rest.value)
  }

  // ---------------------------------------------------------------------------
  // Vtables

  /** Parts of the mangled names of the known virtual desktop vtables. */
  function VtableNameAt(i: int): string
  {
    match i
    case 0 => "??_7CVirtualDesktop@@6BIVirtualDesktop@@@"
    case 1 => "??_7CVirtualDesktopManager@@6B?$ImplementsHelper@U?$RuntimeClassFlags@$02@WRL@Microsoft@@$00UIVirtualDesktopManagerInternal@@UISuspendableVirtualDesktopManager@@VFtmBase@23@@Details@WRL@Microsoft@@@"
    case 2 => "??_7CVirtualDesktopNotificationsDerived@@6BIVirtualDesktopNotification@@@"
    case 3 => "??_7CVirtualDesktopNotificationsDerived@@6B@"
    case 4 => "??_7CVirtualDesktopHotkeyHandler@@6B@"
    case 5 => "??_7VirtualDesktopsApi@@6B@"
    case 6 => "??_7VirtualPinnedAppsHandler@@6B?$Chain"
    case _ => "??_7ApplicationViewCollectionBase@@6B@"
  }

  const VTABLE_NAME_COUNT: nat := 8

  predicate KnownVtable(name: string)
  {
    exists i :: 0 <= i < VTABLE_NAME_COUNT && Contains(name, VtableNameAt(i))
  }

  /** The application-view rule carried over from the original search script. */
  predicate ApplicationViewVtable(name: string)
  {
    && Contains(name, "_7CWin32ApplicationView")
    && Contains(name, "IApplicationView")
    && !Contains(name, "Microsoft")
    && !Contains(name, "IApplicationViewBase")
  }

  /**
   * Whether a public symbol's table is dumped: it passes the name filter (or
   * the filters are off) and its demangled name, when there is one, mentions
   * a `vftable`. Demangling is outside this model and comes as a parameter.
   */
  predicate Dumped(name: string, unfiltered: bool, demangled: Option<string>)
  {
    && (unfiltered || KnownVtable(name) || ApplicationViewVtable(name))
    && demangled.Some? && Contains(demangled.value, "vftable")
  }

  /**
   * Each listed vtable name passes the filter on its own, and nothing is
   * dumped without a demangled `vftable` name, filters or not.
   */
  lemma ListedNamesPass(i: nat, unfiltered: bool, demangled: string)
    requires i < VTABLE_NAME_COUNT && Contains(demangled, "vftable")
    ensures Dumped(VtableNameAt(i), unfiltered, Some(demangled))
    ensures forall name :: !Dumped(name, unfiltered, None)
  {
    ContainsItself(VtableNameAt(i));
  }
}
