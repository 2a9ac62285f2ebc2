/**
 * Windows 10 build 17134 (src/interfaces_multi/build_17134.rs). Six interfaces
 * are build 16299's tables, which are not part of this model and come in as a
 * parameter, re-emitted under IIDs equal to build 10240's; IApplicationView is
 * declared afresh under a new IID with three methods fewer.
 */
module Build17134 {
  import opened Wrappers
  import opened Interfaces
  import Guid
  import Build10240

  const APP_VIEW_IID: Guid.Guid := 0x871F602A_2B58_42B4_8C4B_6C43D642C06F
  const COLLECTION_IID: Guid.Guid := 0x2C08ADF0_A386_4B35_9250_0FE183476FCC
  const DESKTOP_IID: Guid.Guid := 0xFF72FFDD_BE7E_43FC_9C03_AD81681E88E4
  const MANAGER_IID: Guid.Guid := 0xF31574D6_B682_4CDC_BD56_1827860ABEC6
  const NOTIFICATION_IID: Guid.Guid := 0xC179334C_4295_40D3_BEA1_C654D965605A
  const SERVICE_IID: Guid.Guid := 0x0CD45E71_D927_4F15_8B0A_8FEF525337BF
  const PINNED_IID: Guid.Guid := 0x4CE81583_1E4C_4632_A621_07A53543148F

  /** The seven declarations of this module, given build 16299's tables. */
  function Build(b16299: Tables): (t: Tables)
    ensures t.appView.iid == APP_VIEW_IID && t.collection.iid == COLLECTION_IID && t.desktop.iid == DESKTOP_IID
    ensures t.manager.iid == MANAGER_IID && t.notification.iid == NOTIFICATION_IID
    ensures t.service.iid == SERVICE_IID && t.pinned.iid == PINNED_IID
    ensures forall k :: k != AppView ==> SameShape(t.Of(k), b16299.Of(k))
  {
    Tables(
      Table(APP_VIEW_IID, AppViewMethods(), TraitOnly),
      Redeclare(b16299.collection, COLLECTION_IID),
      Redeclare(b16299.desktop, DESKTOP_IID),
      Redeclare(b16299.manager, MANAGER_IID),
      Redeclare(b16299.notification, NOTIFICATION_IID),
      Redeclare(b16299.service, SERVICE_IID),
      Redeclare(b16299.pinned, PINNED_IID))
  }

  /** IApplicationView: the 55 methods at build_17134.rs:39-160, in vtable order. */
  function AppViewAt(i: int): Method
  {
    match i
    case 0 => Method(GetIids, [MutPtr(Plain(ULONG)), MutPtr(MutPtr(Plain(GUID)))])
    case 1 => Method(GetRuntimeClassName, [MutPtr(Plain(HSTRING))])
    case 2 => Method(GetTrustLevel, [Plain(LPVOID)])
    case 3 => Method(SetFocus, [])
    case 4 => Method(SwitchTo, [])
    case 5 => Method(TryInvokeBack, [Plain(IAsyncCallback)])
    case 6 => Method(GetThumbnailWindow, [MutPtr(Plain(HWND))])
    case 7 => Method(GetMonitor, [MutPtr(MutPtr(Plain(IImmersiveMonitor)))])
    case 8 => Method(GetVisibility, [Plain(LPVOID)])
    case 9 => Method(SetCloak, [Plain(APPLICATION_VIEW_CLOAK_TYPE), Plain(INT)])
    case 10 => Method(GetPosition, [ConstPtr(Plain(GUID)), Plain(LPVOID)])
    case 11 => Method(SetPosition, [MutPtr(Plain(IApplicationViewPosition))])
    case 12 => Method(InsertAfterWindow, [Plain(HWND)])
    case 13 => Method(GetExtendedFramePosition, [MutPtr(Plain(RECT))])
    case 14 => Method(GetAppUserModelId, [MutPtr(Plain(PWSTR))])
    case 15 => Method(SetAppUserModelId, [Plain(PCWSTR)])
    case 16 => Method(IsEqualByAppUserModelId, [Plain(PCWSTR), MutPtr(Plain(INT))])
    case 17 => Method(GetViewState, [MutPtr(Plain(UINT))])
    case 18 => Method(SetViewState, [Plain(UINT)])
    case 19 => Method(GetNeediness, [MutPtr(Plain(INT))])
    case 20 => Method(GetLastActivationTimestamp, [MutPtr(Plain(ULONGLONG))])
    case 21 => Method(SetLastActivationTimestamp, [Plain(ULONGLONG)])
    case 22 => Method(GetVirtualDesktopId, [MutPtr(Plain(GUID))])
    case 23 => Method(SetVirtualDesktopId, [ConstPtr(Plain(GUID))])
    case 24 => Method(GetShowInSwitchers, [MutPtr(Plain(INT))])
    case 25 => Method(SetShowInSwitchers, [Plain(INT)])
    case 26 => Method(GetScaleFactor, [MutPtr(Plain(INT))])
    case 27 => Method(CanReceiveInput, [MutPtr(Plain(BOOL))])
    case 28 => Method(GetCompatibilityPolicyType, [MutPtr(Plain(APPLICATION_VIEW_COMPATIBILITY_POLICY))])
    case 29 => Method(SetCompatibilityPolicyType, [Plain(APPLICATION_VIEW_COMPATIBILITY_POLICY)])
    case 30 => Method(GetSizeConstraints, [MutPtr(Plain(IImmersiveMonitor)), MutPtr(Plain(SIZE)), MutPtr(Plain(SIZE))])
    case 31 => Method(GetSizeConstraintsForDpi, [Plain(UINT), MutPtr(Plain(SIZE)), MutPtr(Plain(SIZE))])
    case 32 => Method(SetSizeConstraintsForDpi, [ConstPtr(Plain(UINT)), ConstPtr(Plain(SIZE)), ConstPtr(Plain(SIZE))])
    case 33 => Method(OnMinSizePreferencesUpdated, [Plain(HWND)])
    case 34 => Method(ApplyOperation, [MutPtr(Plain(IApplicationViewOperation))])
    case 35 => Method(IsTray, [MutPtr(Plain(BOOL))])
    case 36 => Method(IsInHighZorderBand, [MutPtr(Plain(BOOL))])
    case 37 => Method(IsSplashScreenPresented, [MutPtr(Plain(BOOL))])
    case 38 => Method(Flash, [])
    case 39 => Method(GetRootSwitchableOwner, [MutPtr(Plain(IApplicationView))])
    case 40 => Method(EnumerateOwnershipTree, [MutPtr(Plain(IObjectArray))])
    case 41 => Method(GetEnterpriseId, [MutPtr(Plain(PWSTR))])
    case 42 => Method(IsMirrored, [MutPtr(Plain(BOOL))])
    case 43 => Method(Unknown1, [MutPtr(Plain(INT))])
    case 44 => Method(Unknown2, [MutPtr(Plain(INT))])
    case 45 => Method(Unknown3, [MutPtr(Plain(INT))])
    case 46 => Method(Unknown4, [Plain(INT)])
    case 47 => Method(Unknown5, [MutPtr(Plain(INT))])
    case 48 => Method(Unknown6, [Plain(INT)])
    case 49 => Method(Unknown7, [])
    case 50 => Method(Unknown8, [MutPtr(Plain(INT))])
    case 51 => Method(Unknown9, [Plain(INT)])
    case 52 => Method(Unknown10, [Plain(INT), Plain(INT)])
    case 53 => Method(Unknown11, [Plain(INT)])
    case _ => Method(Unknown12, [MutPtr(Plain(SIZE))])
  }

  function AppViewMethods(): (ms: seq<Method>)
    ensures |ms| == 55
  {
    seq(55, AppViewAt)
  }

  // ---------------------------------------------------------------------------
  // Facts about the tables

  /** The six re-emitted interfaces carry the IIDs build 10240 declared them with. */
  lemma RedeclaredIidsAsIn10240(b16299: Tables)
    ensures forall k :: k != AppView ==> Build(b16299).Of(k).iid == Build10240.Build().Of(k).iid
    ensures Build(b16299).appView.iid != Build10240.Build().appView.iid
  {
  }

  /**
   * The new IApplicationView is build 10240's without `get_position_priority`,
   * `set_position_priority` and `query_size_constraints_from_app` (positions 30,
   * 31 and 35 there); every remaining method keeps its parameters.
   */
  lemma AppViewTrimmed()
    ensures AppViewMethods() == Trim(Build10240.AppViewMethods())
  {
    var a, b := AppViewMethods(), Trim(Build10240.AppViewMethods());
    TrimmedPrefix();
    TrimmedMiddle();
    TrimmedTail();
    assert forall i :: 0 <= i < 55 ==> a[i] == b[i];
  }

  /** The edit from build 10240's IApplicationView to this one. */
  function Trim(ms: seq<Method>): (r: seq<Method>)
    requires |ms| == 58
    ensures |r| == 55
  {
    RemoveAt(RemoveAt(RemoveAt(ms, 35), 31), 30)
  }

  lemma TrimmedPrefix()
    ensures forall i :: 0 <= i < 30 ==> AppViewMethods()[i] == Trim(Build10240.AppViewMethods())[i]
  {
  }

  lemma TrimmedMiddle()
    ensures forall i :: 30 <= i < 33 ==> AppViewMethods()[i] == Trim(Build10240.AppViewMethods())[i]
  {
  }

  lemma TrimmedTail()
    ensures forall i :: 33 <= i < 55 ==> AppViewMethods()[i] == Trim(Build10240.AppViewMethods())[i]
  {
  }

  /** The three methods dropped from build 10240's IApplicationView are gone. */
  lemma RemovedMethodsAbsent(b16299: Tables)
    ensures !HasMethod(Build(b16299).appView, GetPositionPriority)
    ensures !HasMethod(Build(b16299).appView, SetPositionPriority)
    ensures !HasMethod(Build(b16299).appView, QuerySizeConstraintsFromApp)
  {
    NoGetPositionPriority();
    NoSetPositionPriority();
    NoQuerySizeConstraintsFromApp();
  }

  lemma NoGetPositionPriority()
    ensures forall i :: 0 <= i < 55 ==> AppViewAt(i).name != GetPositionPriority
  {
  }

  lemma NoSetPositionPriority()
    ensures forall i :: 0 <= i < 55 ==> AppViewAt(i).name != SetPositionPriority
  {
  }

  lemma NoQuerySizeConstraintsFromApp()
    ensures forall i :: 0 <= i < 55 ==> AppViewAt(i).name != QuerySizeConstraintsFromApp
  {
  }

  /** The declared IApplicationView is `Trim` of build 10240's, whatever build 16299's tables are. */
  lemma AppViewIsTrim(b16299: Tables)
    ensures |Build10240.Build().appView.methods| == 58
    ensures Build(b16299).appView.methods == Trim(Build10240.Build().appView.methods)
  {
    AppViewTrimmed();
  }

  /** On any 58-method table, a method before slot 33 keeps its slot through `Trim`. */
  lemma TrimKeepsSlot(before: Table, after: Table, n: MethodName)
    requires |before.methods| == 58 && after.methods == Trim(before.methods)
    requires Slot(before, n).Some? && Slot(before, n).value < 33
    ensures Slot(after, n) == Slot(before, n)
  {
    var i := IndexOf(before.methods, n).value;
    assert Slot(before, n) == Some(i + IUNKNOWN_SLOTS);
    TrimKeeps(before.methods, n);
    assert IndexOf(after.methods, n) == Some(i);
  }

  /** On any 58-method table, a method at slots 35..37 moves two slots earlier through `Trim`. */
  lemma TrimShiftsSlotByTwo(before: Table, after: Table, n: MethodName)
    requires |before.methods| == 58 && after.methods == Trim(before.methods)
    requires Slot(before, n).Some? && 35 <= Slot(before, n).value <= 37
    ensures Slot(after, n) == Some(Slot(before, n).value - 2)
  {
    var i := IndexOf(before.methods, n).value;
    assert Slot(before, n) == Some(i + IUNKNOWN_SLOTS);
    TrimShiftsByTwo(before.methods, n);
    assert IndexOf(after.methods, n) == Some(i - 2);
    assert Slot(after, n) == Some(i - 2 + IUNKNOWN_SLOTS);
  }

  /** On any 58-method table, a method at slot 39 or later moves three slots earlier through `Trim`. */
  lemma TrimShiftsSlotByThree(before: Table, after: Table, n: MethodName)
    requires |before.methods| == 58 && after.methods == Trim(before.methods)
    requires Slot(before, n).Some? && Slot(before, n).value >= 39
    ensures Slot(after, n) == Some(Slot(before, n).value - 3)
  {
    var i := IndexOf(before.methods, n).value;
    assert Slot(before, n) == Some(i + IUNKNOWN_SLOTS);
    TrimShiftsByThree(before.methods, n);
    assert IndexOf(after.methods, n) == Some(i - 3);
    assert Slot(after, n) == Some(i - 3 + IUNKNOWN_SLOTS);
  }

  lemma {:induction false} TrimKeeps(ms: seq<Method>, n: MethodName)
    requires |ms| == 58 && IndexOf(ms, n).Some? && IndexOf(ms, n).value < 30
    ensures IndexOf(Trim(ms), n) == IndexOf(ms, n)
  {
    var r1 := RemoveAt(ms, 35);
    RemoveLaterKeepsIndex(ms, 35, n);
    var r2 := RemoveAt(r1, 31);
    RemoveLaterKeepsIndex(r1, 31, n);
    RemoveLaterKeepsIndex(r2, 30, n);
  }

  lemma {:induction false} TrimShiftsByTwo(ms: seq<Method>, n: MethodName)
    requires |ms| == 58 && IndexOf(ms, n).Some? && 32 <= IndexOf(ms, n).value <= 34
    ensures IndexOf(Trim(ms), n) == Some(IndexOf(ms, n).value - 2)
  {
    var i := IndexOf(ms, n).value;
    var r1 := RemoveAt(ms, 35);
    RemoveLaterKeepsIndex(ms, 35, n);
    assert IndexOf(r1, n) == Some(i);
    var r2 := RemoveAt(r1, 31);
    RemoveEarlierShiftsIndex(r1, 31, n);
    assert IndexOf(r2, n) == Some(i - 1);
    RemoveEarlierShiftsIndex(r2, 30, n);
  }

  lemma {:induction false} TrimShiftsByThree(ms: seq<Method>, n: MethodName)
    requires |ms| == 58 && IndexOf(ms, n).Some? && IndexOf(ms, n).value >= 36
    ensures IndexOf(Trim(ms), n) == Some(IndexOf(ms, n).value - 3)
  {
    var i := IndexOf(ms, n).value;
    var r1 := RemoveAt(ms, 35);
    RemoveEarlierShiftsIndex(ms, 35, n);
    assert IndexOf(r1, n) == Some(i - 1);
    var r2 := RemoveAt(r1, 31);
    RemoveEarlierShiftsIndex(r1, 31, n);
    assert IndexOf(r2, n) == Some(i - 2);
    RemoveEarlierShiftsIndex(r2, 30, n);
  }

  /**
   * The slots the declaration's comments name: `set_compatibility_policy_type`
   * stays at 32, `get_size_constraints` moves from 35 to 33,
   * `on_min_size_preferences_updated` from 39 to 36, and the owner methods sit at
   * 42/43/44, not at the 45/46/47 the inherited comments say.
   */
  lemma CommentedSlots(b16299: Tables)
    ensures Slot(Build(b16299).appView, GetAppUserModelId) == Some(17)
    ensures Slot(Build(b16299).appView, SetCompatibilityPolicyType) == Some(32)
    ensures Slot(Build(b16299).appView, GetSizeConstraints) == Some(33)
    ensures Slot(Build(b16299).appView, OnMinSizePreferencesUpdated) == Some(36)
    ensures Slot(Build(b16299).appView, GetRootSwitchableOwner) == Some(42)
    ensures Slot(Build(b16299).appView, EnumerateOwnershipTree) == Some(43)
    ensures Slot(Build(b16299).appView, GetEnterpriseId) == Some(44)
  {
    var before, after := Build10240.Build().appView, Build(b16299).appView;
    Build10240.AppViewSlots();
    AppViewIsTrim(b16299);
    TrimKeepsSlot(before, after, GetAppUserModelId);
    TrimKeepsSlot(before, after, SetCompatibilityPolicyType);
    TrimShiftsSlotByTwo(before, after, GetSizeConstraints);
    TrimShiftsSlotByThree(before, after, OnMinSizePreferencesUpdated);
    TrimShiftsSlotByThree(before, after, GetRootSwitchableOwner);
    TrimShiftsSlotByThree(before, after, EnumerateOwnershipTree);
    TrimShiftsSlotByThree(before, after, GetEnterpriseId);
  }
}
