/**
 * Windows 11 23H2, build 22631.2428 (src/interfaces_multi/build_22631_2428.rs):
 * all seven interfaces are build 22621.3155's tables re-emitted. Build
 * 22621.3155 is not part of this model; its tables come in as a parameter.
 */
module Build22631_2428 {
  import opened Interfaces
  import Guid
  import Build22621_2215

  const APP_VIEW_IID: Guid.Guid := 0x372E1D3B_38D3_42E4_A15B_8AB2B178F513
  const COLLECTION_IID: Guid.Guid := 0x1841C6D7_4F9D_42C0_AF41_8747538F10E5
  const DESKTOP_IID: Guid.Guid := 0x3F07F4BE_B107_441A_AF0F_39D82529072C
  /** Marked as changed in the source, yet the value build 22621.2215 declares. */
  const MANAGER_IID: Guid.Guid := 0xA3175F2D_239C_4BD2_8AA0_EEBA8B0B138E
  /** Marked as changed in the source, yet the value build 22621.2215 declares. */
  const NOTIFICATION_IID: Guid.Guid := 0xB287FA1C_7771_471A_A2DF_9B6B21F0D675
  const SERVICE_IID: Guid.Guid := 0x0CD45E71_D927_4F15_8B0A_8FEF525337BF
  const PINNED_IID: Guid.Guid := 0x4CE81583_1E4C_4632_A621_07A53543148F

  /** The seven declarations of this module, given build 22621.3155's tables. */
  function Build(b22621_3155: Tables): (t: Tables)
    ensures t.appView.iid == APP_VIEW_IID && t.collection.iid == COLLECTION_IID && t.desktop.iid == DESKTOP_IID
    ensures t.manager.iid == MANAGER_IID && t.notification.iid == NOTIFICATION_IID
    ensures t.service.iid == SERVICE_IID && t.pinned.iid == PINNED_IID
    ensures forall k :: SameShape(t.Of(k), b22621_3155.Of(k))
  {
    var prev := b22621_3155;
    Tables(
      Redeclare(prev.appView, APP_VIEW_IID),
      Redeclare(prev.collection, COLLECTION_IID),
      Redeclare(prev.desktop, DESKTOP_IID),
      Redeclare(prev.manager, MANAGER_IID),
      Redeclare(prev.notification, NOTIFICATION_IID),
      Redeclare(prev.service, SERVICE_IID),
      Redeclare(prev.pinned, PINNED_IID))
  }

  /**
   * Whatever build 22621.3155's tables are, each interface here has that build's
   * table, and every IID, the two marked as changed included, is the one build
   * 22621.2215 declares.
   */
  lemma IidsAs22621_2215(b22621_3155: Tables)
    ensures forall k :: Build(b22621_3155).Of(k).iid == Build22621_2215.Build().Of(k).iid
    ensures forall k :: SameShape(Build(b22621_3155).Of(k), b22621_3155.Of(k))
  {
  }
}
