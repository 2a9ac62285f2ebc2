/**
 * Windows 10 22H2, build 19045 (src/interfaces_multi/build_19045.rs): all seven
 * interfaces are build 10240's tables re-emitted, IApplicationView and
 * IApplicationViewCollection under new IIDs.
 */
module Build19045 {
  import opened Wrappers
  import opened Interfaces
  import Guid
  import Build10240
  import Build19044_4355

  const APP_VIEW_IID: Guid.Guid := 0x372E1D3B_38D3_42E4_A15B_8AB2B178F513
  const COLLECTION_IID: Guid.Guid := 0x1841C6D7_4F9D_42C0_AF41_8747538F10E5
  const DESKTOP_IID: Guid.Guid := 0xFF72FFDD_BE7E_43FC_9C03_AD81681E88E4
  const MANAGER_IID: Guid.Guid := 0xF31574D6_B682_4CDC_BD56_1827860ABEC6
  const NOTIFICATION_IID: Guid.Guid := 0xC179334C_4295_40D3_BEA1_C654D965605A
  const SERVICE_IID: Guid.Guid := 0x0CD45E71_D927_4F15_8B0A_8FEF525337BF
  const PINNED_IID: Guid.Guid := 0x4CE81583_1E4C_4632_A621_07A53543148F

  /** The seven declarations of this module. */
  function Build(): (t: Tables)
    ensures t.appView.iid == APP_VIEW_IID && t.collection.iid == COLLECTION_IID && t.desktop.iid == DESKTOP_IID
    ensures t.manager.iid == MANAGER_IID && t.notification.iid == NOTIFICATION_IID
    ensures t.service.iid == SERVICE_IID && t.pinned.iid == PINNED_IID
    ensures forall k :: SameShape(t.Of(k), Build10240.Build().Of(k))
  {
    var prev := Build10240.Build();
    Tables(
      Redeclare(prev.appView, APP_VIEW_IID),
      Redeclare(prev.collection, COLLECTION_IID),
      Redeclare(prev.desktop, DESKTOP_IID),
      Redeclare(prev.manager, MANAGER_IID),
      Redeclare(prev.notification, NOTIFICATION_IID),
      Redeclare(prev.service, SERVICE_IID),
      Redeclare(prev.pinned, PINNED_IID))
  }

  /**
   * Every table, and the notification adaptor with it, is build 10240's; only the
   * first two IIDs differ from build 10240's.
   */
  lemma TablesAs10240()
    ensures forall k :: SameShape(Build().Of(k), Build10240.Build().Of(k))
    ensures forall k :: k !in {AppView, ViewCollection} ==> Build().Of(k) == Build10240.Build().Of(k)
    ensures Build().notification.items == WithAdaptor(SixCallbacks)
  {
  }

  /**
   * IApplicationView keeps the 58-method table, with `get_root_switchable_owner`
   * at slot 45, and the collection keeps the position-changes registration.
   */
  lemma KeptTables()
    ensures |Build().appView.methods| == 58
    ensures Slot(Build().appView, GetRootSwitchableOwner) == Some(45)
    ensures |Build().collection.methods| == 11
    ensures HasMethod(Build().collection, RegisterForApplicationViewPositionChanges)
  {
    Build10240.AppViewSlot45();
    PositionChangesKept();
  }

  lemma PositionChangesKept()
    ensures |Build().collection.methods| == 11
    ensures HasMethod(Build().collection, RegisterForApplicationViewPositionChanges)
  {
    assert Build().collection.methods[9].name == RegisterForApplicationViewPositionChanges;
  }

  /**
   * The same IID names different tables: 372E1D3B... is IApplicationView with 58
   * methods here and with 55 in build 19044.4355, and 1841C6D7... is a collection
   * with the position-changes registration here and without it there.
   */
  lemma SameIidDifferentTables(b16299: Tables)
    ensures Build().appView.iid == Build19044_4355.Build(b16299).appView.iid
    ensures Build().appView.methods != Build19044_4355.Build(b16299).appView.methods
    ensures Build().collection.iid == Build19044_4355.Build(b16299).collection.iid
    ensures Build().collection.methods != Build19044_4355.Build(b16299).collection.methods
  {
    KeptTables();
    Build19044_4355.EditedTables(b16299);
  }
}
