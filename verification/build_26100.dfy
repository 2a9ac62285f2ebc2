/**
 * Windows 11 24H2, build 26100 (src/interfaces_multi/build_26100.rs). Six
 * interfaces are build 22631.3155's tables re-emitted; that build is not part of
 * this model and its tables come in as a parameter. The manager is declared
 * afresh with `switch_desktop_and_move_foreground_view` added after
 * `switch_desktop`, under an IID the source calls the same as the previous one.
 */
module Build26100 {
  import opened Wrappers
  import opened Interfaces
  import Guid
  import Build22621_2215

  const APP_VIEW_IID: Guid.Guid := 0x372E1D3B_38D3_42E4_A15B_8AB2B178F513
  const COLLECTION_IID: Guid.Guid := 0x1841C6D7_4F9D_42C0_AF41_8747538F10E5
  const DESKTOP_IID: Guid.Guid := 0x3F07F4BE_B107_441A_AF0F_39D82529072C
  const MANAGER_IID: Guid.Guid := 0x53F5CA0B_158F_4124_900C_057158060B27
  const NOTIFICATION_IID: Guid.Guid := 0xB9E5E94D_233E_49AB_AF5C_2B4541C3AADE
  const SERVICE_IID: Guid.Guid := 0x0CD45E71_D927_4F15_8B0A_8FEF525337BF
  const PINNED_IID: Guid.Guid := 0x4CE81583_1E4C_4632_A621_07A53543148F

  /** The seven declarations of this module, given build 22631.3155's tables. */
  function Build(b22631_3155: Tables): (t: Tables)
    ensures t.appView.iid == APP_VIEW_IID && t.collection.iid == COLLECTION_IID && t.desktop.iid == DESKTOP_IID
    ensures t.manager.iid == MANAGER_IID && t.notification.iid == NOTIFICATION_IID
    ensures t.service.iid == SERVICE_IID && t.pinned.iid == PINNED_IID
    ensures forall k :: k != ManagerInternal ==> SameShape(t.Of(k), b22631_3155.Of(k))
  {
    var prev := b22631_3155;
    Tables(
      Redeclare(prev.appView, APP_VIEW_IID),
      Redeclare(prev.collection, COLLECTION_IID),
      Redeclare(prev.desktop, DESKTOP_IID),
      Table(MANAGER_IID, ManagerMethods(), TraitOnly),
      Redeclare(prev.notification, NOTIFICATION_IID),
      Redeclare(prev.service, SERVICE_IID),
      Redeclare(prev.pinned, PINNED_IID))
  }

  /** IVirtualDesktopManagerInternal: the 22 methods at build_26100.rs:38-145, in vtable order. */
  function ManagerAt(i: int): Method
  {
    match i
    case 0 => Method(GetDesktopCount, [MutPtr(Plain(UINT))])
    case 1 => Method(MoveViewToDesktop, [ComIn(IApplicationView), ComIn(IVirtualDesktop)])
    case 2 => Method(CanMoveViewBetweenDesktops, [ComIn(IApplicationView), MutPtr(Plain(RustI32))])
    case 3 => Method(GetCurrentDesktop, [MutPtr(OptionOf(IVirtualDesktop))])
    case 4 => Method(GetDesktops, [MutPtr(OptionOf(IObjectArray))])
    case 5 => Method(GetAdjacentDesktop, [ComIn(IVirtualDesktop), Plain(UINT), MutPtr(OptionOf(IVirtualDesktop))])
    case 6 => Method(SwitchDesktop, [ComIn(IVirtualDesktop)])
    case 7 => Method(SwitchDesktopAndMoveForegroundView, [ComIn(IVirtualDesktop)])
    case 8 => Method(CreateDesktop, [MutPtr(OptionOf(IVirtualDesktop))])
    case 9 => Method(MoveDesktop, [ComIn(IVirtualDesktop), Plain(UINT)])
    case 10 => Method(RemoveDesktop, [ComIn(IVirtualDesktop), ComIn(IVirtualDesktop)])
    case 11 => Method(FindDesktop, [ConstPtr(Plain(GUID)), MutPtr(OptionOf(IVirtualDesktop))])
    case 12 => Method(GetDesktopSwitchIncludeExcludeViews, [ComIn(IVirtualDesktop), MutPtr(Plain(IObjectArray)), MutPtr(Plain(IObjectArray))])
    case 13 => Method(SetName, [ComIn(IVirtualDesktop), Plain(HSTRING)])
    case 14 => Method(SetWallpaper, [ComIn(IVirtualDesktop), Plain(HSTRING)])
    case 15 => Method(UpdateWallpaperForAll, [Plain(HSTRING)])
    case 16 => Method(CopyDesktopState, [ComIn(IApplicationView), ComIn(IApplicationView)])
    case 17 => Method(CreateRemoteDesktop, [Plain(HSTRING), MutPtr(OptionOf(IVirtualDesktop))])
    case 18 => Method(SwitchRemoteDesktop, [ComIn(IVirtualDesktop)])
    case 19 => Method(SwitchDesktopWithAnimation, [ComIn(IVirtualDesktop)])
    case 20 => Method(GetLastActiveDesktop, [MutPtr(OptionOf(IVirtualDesktop))])
    case _ => Method(WaitForAnimationToComplete, [])
  }

  function ManagerMethods(): (ms: seq<Method>)
    ensures |ms| == 22
  {
    seq(22, ManagerAt)
  }

  // ---------------------------------------------------------------------------
  // Facts about the tables

  /** The method this build adds. */
  const MOVE_FOREGROUND: Method := Method(SwitchDesktopAndMoveForegroundView, [ComIn(IVirtualDesktop)])

  /** The manager is build 22621.2215's with the new method inserted at position 7. */
  lemma ManagerInserted()
    ensures ManagerMethods() == InsertAt(Build22621_2215.ManagerMethods(), 7, MOVE_FOREGROUND)
  {
    var a, b := ManagerMethods(), InsertAt(Build22621_2215.ManagerMethods(), 7, MOVE_FOREGROUND);
    assert forall i :: 0 <= i < 22 ==> a[i] == b[i];
  }

  /**
   * Relative to build 22621.2215, every method up to `switch_desktop` (position 6,
   * slot 9) keeps its position and every later one moves one on, so
   * `create_desktop` goes from slot 10 to 11 and so on up to
   * `wait_for_animation_to_complete` at 24.
   */
  lemma ManagerShift(b22631_3155: Tables, n: MethodName)
    requires n != SwitchDesktopAndMoveForegroundView
    requires IndexOf(Build22621_2215.Build().manager.methods, n).Some?
    ensures var i := IndexOf(Build22621_2215.Build().manager.methods, n).value;
      IndexOf(Build(b22631_3155).manager.methods, n) == Some(if i < 7 then i else i + 1)
  {
    ManagerInserted();
    InsertShifts(Build22621_2215.ManagerMethods(), ManagerMethods(), n);
  }

  lemma {:induction false} InsertShifts(a: seq<Method>, b: seq<Method>, n: MethodName)
    requires |a| >= 7 && b == InsertAt(a, 7, MOVE_FOREGROUND)
    requires n != SwitchDesktopAndMoveForegroundView && IndexOf(a, n).Some?
    ensures var i := IndexOf(a, n).value; IndexOf(b, n) == Some(if i < 7 then i else i + 1)
  {
    if IndexOf(a, n).value < 7 {
      InsertLaterKeepsIndex(a, 7, MOVE_FOREGROUND, n);
    } else {
      InsertEarlierShiftsIndex(a, 7, MOVE_FOREGROUND, n);
    }
  }

  lemma NewMethodSlot(b22631_3155: Tables)
    ensures Slot(Build(b22631_3155).manager, SwitchDesktopAndMoveForegroundView) == Some(10)
  {
    FirstIndex(ManagerMethods(), SwitchDesktopAndMoveForegroundView, 7);
  }

  /**
   * If build 22631.3155's manager had this IID and build 22621.2215's methods, as
   * the source's comment on the IID suggests, the one IID would name two
   * different tables.
   */
  lemma SameIidGrownTable(b22631_3155: Tables)
    requires b22631_3155.manager.iid == MANAGER_IID
    requires b22631_3155.manager.methods == Build22621_2215.ManagerMethods()
    ensures Build(b22631_3155).manager.iid == b22631_3155.manager.iid
    ensures Build(b22631_3155).manager.methods != b22631_3155.manager.methods
  {
    assert |Build(b22631_3155).manager.methods| == 22;
  }

  /**
   * `switch_desktop` stays at slot 9, `create_desktop` moves from 10 to 11 and
   * `wait_for_animation_to_complete` from 23 to 24.
   */
  lemma ManagerSlotExamples(b22631_3155: Tables)
    ensures Slot(Build22621_2215.Build().manager, SwitchDesktop) == Some(9)
    ensures Slot(Build(b22631_3155).manager, SwitchDesktop) == Some(9)
    ensures Slot(Build22621_2215.Build().manager, CreateDesktop) == Some(10)
    ensures Slot(Build(b22631_3155).manager, CreateDesktop) == Some(11)
    ensures Slot(Build22621_2215.Build().manager, WaitForAnimationToComplete) == Some(23)
    ensures Slot(Build(b22631_3155).manager, WaitForAnimationToComplete) == Some(24)
  {
    OldSwitchDesktopSlot();
    NewSwitchDesktopSlot(b22631_3155);
    OldCreateDesktopSlot();
    NewCreateDesktopSlot(b22631_3155);
    OldWaitForAnimationToCompleteSlot();
    NewWaitForAnimationToCompleteSlot(b22631_3155);
  }

  lemma OldSwitchDesktopSlot()
    ensures Slot(Build22621_2215.Build().manager, SwitchDesktop) == Some(9)
  {
    var t := Build22621_2215.Build().manager;
    assert t.methods == Build22621_2215.ManagerMethods();
    assert forall j :: 0 <= j < 6 ==> Build22621_2215.ManagerAt(j).name != SwitchDesktop;
    SlotAt(t, SwitchDesktop, 6);
  }

  lemma NewSwitchDesktopSlot(b22631_3155: Tables)
    ensures Slot(Build(b22631_3155).manager, SwitchDesktop) == Some(9)
  {
    FirstIndex(ManagerMethods(), SwitchDesktop, 6);
  }

  lemma OldCreateDesktopSlot()
    ensures Slot(Build22621_2215.Build().manager, CreateDesktop) == Some(10)
  {
    var t := Build22621_2215.Build().manager;
    assert t.methods == Build22621_2215.ManagerMethods();
    assert forall j :: 0 <= j < 7 ==> Build22621_2215.ManagerAt(j).name != CreateDesktop;
    SlotAt(t, CreateDesktop, 7);
  }

  lemma NewCreateDesktopSlot(b22631_3155: Tables)
    ensures Slot(Build(b22631_3155).manager, CreateDesktop) == Some(11)
  {
    FirstIndex(ManagerMethods(), CreateDesktop, 8);
  }

  lemma OldWaitForAnimationToCompleteSlot()
    ensures Slot(Build22621_2215.Build().manager, WaitForAnimationToComplete) == Some(23)
  {
    var t := Build22621_2215.Build().manager;
    assert t.methods == Build22621_2215.ManagerMethods();
    assert forall j :: 0 <= j < 20 ==> Build22621_2215.ManagerAt(j).name != WaitForAnimationToComplete;
    SlotAt(t, WaitForAnimationToComplete, 20);
  }

  lemma NewWaitForAnimationToCompleteSlot(b22631_3155: Tables)
    ensures Slot(Build(b22631_3155).manager, WaitForAnimationToComplete) == Some(24)
  {
    FirstIndex(ManagerMethods(), WaitForAnimationToComplete, 21);
  }
}
