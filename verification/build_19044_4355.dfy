/**
 * Windows 10 21H2 Enterprise LTSC, build 19044.4355
 * (src/interfaces_multi/build_19044_4355.rs): all seven interfaces are build
 * 17663's tables re-emitted; IApplicationView and IApplicationViewCollection get
 * the IIDs that Windows 10 22H2 (build 19045) uses. Not in the version list.
 */
module Build19044_4355 {
  import opened Wrappers
  import opened Interfaces
  import Guid
  import Build10240
  import Build17134
  import Build17663

  const APP_VIEW_IID: Guid.Guid := 0x372E1D3B_38D3_42E4_A15B_8AB2B178F513
  const COLLECTION_IID: Guid.Guid := 0x1841C6D7_4F9D_42C0_AF41_8747538F10E5
  const DESKTOP_IID: Guid.Guid := 0xFF72FFDD_BE7E_43FC_9C03_AD81681E88E4
  const MANAGER_IID: Guid.Guid := 0xF31574D6_B682_4CDC_BD56_1827860ABEC6
  const NOTIFICATION_IID: Guid.Guid := 0xC179334C_4295_40D3_BEA1_C654D965605A
  const SERVICE_IID: Guid.Guid := 0x0CD45E71_D927_4F15_8B0A_8FEF525337BF
  const PINNED_IID: Guid.Guid := 0x4CE81583_1E4C_4632_A621_07A53543148F

  /** The seven declarations of this module, given build 16299's tables. */
  function Build(b16299: Tables): (t: Tables)
    ensures t.appView.iid == APP_VIEW_IID && t.collection.iid == COLLECTION_IID && t.desktop.iid == DESKTOP_IID
    ensures t.manager.iid == MANAGER_IID && t.notification.iid == NOTIFICATION_IID
    ensures t.service.iid == SERVICE_IID && t.pinned.iid == PINNED_IID
    ensures forall k :: SameShape(t.Of(k), Build17663.Build(b16299).Of(k))
  {
    var prev := Build17663.Build(b16299);
    Tables(
      Redeclare(prev.appView, APP_VIEW_IID),
      Redeclare(prev.collection, COLLECTION_IID),
      Redeclare(prev.desktop, DESKTOP_IID),
      Redeclare(prev.manager, MANAGER_IID),
      Redeclare(prev.notification, NOTIFICATION_IID),
      Redeclare(prev.service, SERVICE_IID),
      Redeclare(prev.pinned, PINNED_IID))
  }

  /** Every table is build 17663's; only IApplicationView's IID differs from it. */
  lemma TablesAs17663(b16299: Tables)
    ensures forall k :: SameShape(Build(b16299).Of(k), Build17663.Build(b16299).Of(k))
    ensures forall k :: k != AppView ==> Build(b16299).Of(k) == Build17663.Build(b16299).Of(k)
    ensures Build(b16299).appView.iid != Build17663.Build(b16299).appView.iid
  {
  }

  /**
   * IApplicationView is build 17134's 55-method table, and the collection is
   * build 17663's edited one without the position-changes registration.
   */
  lemma EditedTables(b16299: Tables)
    ensures Build(b16299).appView.methods == Build17134.AppViewMethods()
    ensures |Build(b16299).appView.methods| == 55
    ensures Build(b16299).collection.methods == Build17663.CollectionMethods()
    ensures !HasMethod(Build(b16299).collection, RegisterForApplicationViewPositionChanges)
    ensures Slot(Build(b16299).collection, TryGetLastActiveVisibleView) == Some(10)
  {
    Build17663.CollectionSlots(b16299);
  }

  /** The last five IIDs are build 10240's. */
  lemma IidsAs10240(b16299: Tables)
    ensures forall k :: k !in {AppView, ViewCollection} ==> Build(b16299).Of(k).iid == Build10240.Build().Of(k).iid
  {
  }
}
