/**
 * Windows 10 build 17663 (src/interfaces_multi/build_17663.rs). Six interfaces
 * are re-emitted from build 17134 under the same IIDs; IApplicationViewCollection
 * is declared afresh under a new IID, with one method inserted and one removed.
 * This module is not in the version list; later modules reuse its tables.
 */
module Build17663 {
  import opened Wrappers
  import opened Interfaces
  import Guid
  import Build10240
  import Build17134

  const APP_VIEW_IID: Guid.Guid := 0x871F602A_2B58_42B4_8C4B_6C43D642C06F
  const COLLECTION_IID: Guid.Guid := 0x1841C6D7_4F9D_42C0_AF41_8747538F10E5
  const DESKTOP_IID: Guid.Guid := 0xFF72FFDD_BE7E_43FC_9C03_AD81681E88E4
  const MANAGER_IID: Guid.Guid := 0xF31574D6_B682_4CDC_BD56_1827860ABEC6
  const NOTIFICATION_IID: Guid.Guid := 0xC179334C_4295_40D3_BEA1_C654D965605A
  const SERVICE_IID: Guid.Guid := 0x0CD45E71_D927_4F15_8B0A_8FEF525337BF
  const PINNED_IID: Guid.Guid := 0x4CE81583_1E4C_4632_A621_07A53543148F

  /** The seven declarations of this module, given build 16299's (for build 17134's) tables. */
  function Build(b16299: Tables): (t: Tables)
    ensures t.appView.iid == APP_VIEW_IID && t.collection.iid == COLLECTION_IID && t.desktop.iid == DESKTOP_IID
    ensures t.manager.iid == MANAGER_IID && t.notification.iid == NOTIFICATION_IID
    ensures t.service.iid == SERVICE_IID && t.pinned.iid == PINNED_IID
    ensures forall k :: k != ViewCollection ==> SameShape(t.Of(k), Build17134.Build(b16299).Of(k))
  {
    var prev := Build17134.Build(b16299);
    Tables(
      Redeclare(prev.appView, APP_VIEW_IID),
      Table(COLLECTION_IID, CollectionMethods(), TraitOnly),
      Redeclare(prev.desktop, DESKTOP_IID),
      Redeclare(prev.manager, MANAGER_IID),
      Redeclare(prev.notification, NOTIFICATION_IID),
      Redeclare(prev.service, SERVICE_IID),
      Redeclare(prev.pinned, PINNED_IID))
  }

  /** IApplicationViewCollection: the 11 methods at build_17663.rs:47-94, in vtable order. */
  function CollectionAt(i: int): Method
  {
    match i
    case 0 => Method(GetViews, [MutPtr(Plain(IObjectArray))])
    case 1 => Method(GetViewsByZorder, [MutPtr(Plain(IObjectArray))])
    case 2 => Method(GetViewsByAppUserModelId, [Plain(PCWSTR), MutPtr(Plain(IObjectArray))])
    case 3 => Method(GetViewForHwnd, [Plain(HWND), MutPtr(OptionOf(IApplicationView))])
    case 4 => Method(GetViewForApplication, [Plain(IImmersiveApplication), MutPtr(Plain(IApplicationView))])
    case 5 => Method(GetViewForAppUserModelId, [Plain(PCWSTR), MutPtr(Plain(IApplicationView))])
    case 6 => Method(GetViewInFocus, [MutPtr(Plain(IApplicationView))])
    case 7 => Method(TryGetLastActiveVisibleView, [MutPtr(Plain(IApplicationView))])
    case 8 => Method(RefreshCollection, [])
    case 9 => Method(RegisterForApplicationViewChanges, [Plain(IApplicationViewChangeListener), MutPtr(Plain(DWORD))])
    case _ => Method(UnregisterForApplicationViewChanges, [Plain(DWORD)])
  }

  function CollectionMethods(): (ms: seq<Method>)
    ensures |ms| == 11
  {
    seq(11, CollectionAt)
  }

  // ---------------------------------------------------------------------------
  // Facts about the tables

  /** The six re-emitted interfaces are build 17134's, IIDs included. */
  lemma OthersAsIn17134(b16299: Tables)
    ensures forall k :: k != ViewCollection ==> Build(b16299).Of(k) == Build17134.Build(b16299).Of(k)
    ensures Build(b16299).appView.iid == Build17134.APP_VIEW_IID
  {
  }

  /** The method `try_get_last_active_visible_view` that this build adds. */
  const LAST_ACTIVE: Method := Method(TryGetLastActiveVisibleView, [MutPtr(Plain(IApplicationView))])

  /**
   * The edit from build 10240's collection: drop
   * `register_for_application_view_position_changes` (position 9) and insert
   * `try_get_last_active_visible_view` at position 7, after `get_view_in_focus`.
   */
  function Edit(ms: seq<Method>): (r: seq<Method>)
    requires |ms| == 11
    ensures |r| == 11 && r[7] == LAST_ACTIVE
  {
    InsertAt(RemoveAt(ms, 9), 7, LAST_ACTIVE)
  }

  /** The new collection is exactly build 10240's with that edit applied. */
  lemma CollectionEdited()
    ensures CollectionMethods() == Edit(Build10240.CollectionMethods())
  {
    var a, b := CollectionMethods(), Edit(Build10240.CollectionMethods());
    assert forall i :: 0 <= i < 11 ==> a[i] == b[i];
  }

  /**
   * Under the edit, methods before position 7 keep their slot, methods at 7 and 8
   * move one slot later, and methods after the removed one keep their slot.
   */
  lemma {:induction false} EditSlots(ms: seq<Method>, n: MethodName)
    requires |ms| == 11 && n != TryGetLastActiveVisibleView
    requires IndexOf(ms, n).Some? && IndexOf(ms, n).value != 9
    ensures IndexOf(ms, n).value < 7 ==> IndexOf(Edit(ms), n) == IndexOf(ms, n)
    ensures 7 <= IndexOf(ms, n).value < 9 ==> IndexOf(Edit(ms), n) == Some(IndexOf(ms, n).value + 1)
    ensures IndexOf(ms, n).value > 9 ==> IndexOf(Edit(ms), n) == IndexOf(ms, n)
  {
    var i := IndexOf(ms, n).value;
    var r1 := RemoveAt(ms, 9);
    if i < 9 {
      RemoveLaterKeepsIndex(ms, 9, n);
      assert IndexOf(r1, n) == Some(i);
    } else {
      RemoveEarlierShiftsIndex(ms, 9, n);
      assert IndexOf(r1, n) == Some(i - 1);
    }
    SlotAfterInsert(r1, 7, LAST_ACTIVE, n);
  }

  /**
   * Every method of build 10240's collection other than the removed one: before
   * position 7 it keeps its position, at 7 or 8 it moves one on, and after the
   * removed one it keeps its position again.
   */
  lemma CollectionShift(b16299: Tables, n: MethodName)
    requires n != TryGetLastActiveVisibleView
    requires IndexOf(Build10240.Build().collection.methods, n).Some?
    requires IndexOf(Build10240.Build().collection.methods, n).value != 9
    ensures var i := IndexOf(Build10240.Build().collection.methods, n).value;
      IndexOf(Build(b16299).collection.methods, n) == Some(if 7 <= i < 9 then i + 1 else i)
  {
    CollectionEdited();
    EditShifts(Build10240.CollectionMethods(), CollectionMethods(), n);
  }

  lemma {:induction false} EditShifts(a: seq<Method>, b: seq<Method>, n: MethodName)
    requires |a| == 11 && b == Edit(a) && n != TryGetLastActiveVisibleView
    requires IndexOf(a, n).Some? && IndexOf(a, n).value != 9
    ensures var i := IndexOf(a, n).value; IndexOf(b, n) == Some(if 7 <= i < 9 then i + 1 else i)
  {
    EditSlots(a, n);
  }

  /**
   * The new method sits at slot 10; `refresh_collection` and
   * `register_for_application_view_changes` move from 10 and 11 to 11 and 12;
   * `unregister_for_application_view_changes` keeps slot 13; and the
   * position-changes registration is gone while the count stays 11.
   */
  lemma CollectionSlots(b16299: Tables)
    ensures |Build(b16299).collection.methods| == 11
    ensures Slot(Build(b16299).collection, TryGetLastActiveVisibleView) == Some(10)
    ensures Slot(Build(b16299).collection, RefreshCollection) == Some(11)
    ensures Slot(Build(b16299).collection, RegisterForApplicationViewChanges) == Some(12)
    ensures Slot(Build(b16299).collection, UnregisterForApplicationViewChanges) == Some(13)
    ensures !HasMethod(Build(b16299).collection, RegisterForApplicationViewPositionChanges)
  {
    NewMethodSlot(b16299);
    RefreshMoved(b16299);
    RegisterMoved(b16299);
    UnregisterKept(b16299);
    NoPositionChanges(b16299);
  }

  /** `refresh_collection` moves from slot 10 to 11. */
  lemma RefreshMoved(b16299: Tables)
    ensures Slot(Build(b16299).collection, RefreshCollection) == Some(11)
  {
    FirstIndex(CollectionMethods(), RefreshCollection, 8);
  }

  /** `register_for_application_view_changes` moves from slot 11 to 12. */
  lemma RegisterMoved(b16299: Tables)
    ensures Slot(Build(b16299).collection, RegisterForApplicationViewChanges) == Some(12)
  {
    FirstIndex(CollectionMethods(), RegisterForApplicationViewChanges, 9);
  }

  /** `unregister_for_application_view_changes` keeps slot 13. */
  lemma UnregisterKept(b16299: Tables)
    ensures Slot(Build(b16299).collection, UnregisterForApplicationViewChanges) == Some(13)
  {
    FirstIndex(CollectionMethods(), UnregisterForApplicationViewChanges, 10);
  }

  lemma NewMethodSlot(b16299: Tables)
    ensures Slot(Build(b16299).collection, TryGetLastActiveVisibleView) == Some(10)
  {
    FirstIndex(CollectionMethods(), TryGetLastActiveVisibleView, 7);
  }

  lemma NoPositionChanges(b16299: Tables)
    ensures |Build(b16299).collection.methods| == 11
    ensures !HasMethod(Build(b16299).collection, RegisterForApplicationViewPositionChanges)
  {
  }
}
