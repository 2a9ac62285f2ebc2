/**
 * Obtaining the shell's interfaces from its service provider.
 *
 * Four abstract interfaces have a `query_service` constructor: it asks the
 * immersive shell's `IServiceProvider` for a service id and the running
 * version's IID, turns a failing HRESULT into an error, and aborts when the
 * provider reports success but hands back a null pointer.
 */
module Services {
  import opened Wrappers
  import opened Machine
  import opened Interfaces
  import Guid
  import Versions
  import Dispatch

  /** The immersive shell, whose instance is the service provider; creating it is outside this model. */
  const CLSID_IMMERSIVE_SHELL: Guid.Guid := 0xC2F03A33_21F5_47FA_B4BB_156362A2F239
  const CLSID_NOTIFICATION_SERVICE: Guid.Guid := 0xA501FDEC_4A09_464C_AE4E_1B9C21B84918
  const CLSID_MANAGER_INTERNAL: Guid.Guid := 0xC5E0CDCA_7B6E_41B2_9FC4_D93975CC467B
  const CLSID_PINNED_APPS: Guid.Guid := 0xB5A399E7_1C87_46B8_88E9_FC5747B171BD

  /** The interfaces that are obtained through the service provider. */
  predicate Provided(k: Kind)
  {
    k == ViewCollection || k == NotificationService || k == ManagerInternal || k == PinnedApps
  }

  /**
   * The service id each constructor asks for: the view collection is its own
   * service, the others are named by a fixed class id.
   */
  function ServiceId(k: Kind, active: Versions.Version): (sid: Guid.Guid)
    requires Provided(k)
    ensures k != ViewCollection ==> sid != Guid.ZERO
  {
    match k
    case ViewCollection => Dispatch.Iid(Dispatch.Versioned(k), active)
    case NotificationService => CLSID_NOTIFICATION_SERVICE
    case ManagerInternal => CLSID_MANAGER_INTERNAL
    case PinnedApps => CLSID_PINNED_APPS
  }

  /** What `IServiceProvider::query_service` hands back: a status and the out-pointer. */
  datatype Reply = Reply(hr: HResult, obj: RawPtr)

  /** Why a constructor gives no interface. */
  datatype Failure =
    | Failed(hr: HResult)  // the provider's failing status, returned as an error
    | NullObject           // success with a null pointer: `assert_eq!(obj.is_null(), false)` aborts

  /** A failing HRESULT has its sign bit set. */
  predicate Succeeded(hr: HResult)
  {
    hr >= 0
  }

  /**
   * `query_service` of interface `k`, with the provider's answer to a
   * (service id, IID) request given as `ask`.
   */
  function QueryService(k: Kind, active: Versions.Version, ask: (Guid.Guid, Guid.Guid) -> Reply): (r: Result<RawPtr, Failure>)
    requires Provided(k)
    ensures var reply := ask(ServiceId(k, active), Dispatch.Iid(Dispatch.Versioned(k), active));
      && (r.Ok? <==> Succeeded(reply.hr) && reply.obj != 0)
      && (r.Ok? ==> r.value == reply.obj)
      && (r == Err(NullObject) <==> Succeeded(reply.hr) && reply.obj == 0)
      && (!Succeeded(reply.hr) ==> r == Err(Failed(reply.hr)))
  {
    var reply := ask(ServiceId(k, active), Dispatch.Iid(Dispatch.Versioned(k), active));
    if !Succeeded(reply.hr) then Err(Failed(reply.hr))
    else if reply.obj == 0 then Err(NullObject)
    else Ok(reply.obj)
  }

  /**
   * Only the view collection's request changes with the version: the other
   * three ask for the same service id on every version, and every request
   * names the version's IID, which is zero on an unlisted version.
   */
  lemma RequestOnVersions(k: Kind, v: Versions.Version, w: Versions.Version)
    requires Provided(k)
    ensures k != ViewCollection ==> ServiceId(k, v) == ServiceId(k, w)
    ensures k == ViewCollection ==> ServiceId(k, v) == Dispatch.Iid(Dispatch.Versioned(k), v)
    ensures !Dispatch.Wired(v) ==> Dispatch.Iid(Dispatch.Versioned(k), v) == Guid.ZERO
  {
  }

  /**
   * A provider that answers only for the running version's IID gives every
   * provided interface on a listed version, and none on an unlisted one.
   */
  lemma ProviderKeyedByIid(k: Kind, active: Versions.Version, p: RawPtr)
    requires Provided(k) && p != 0
    ensures var ask := (sid: Guid.Guid, iid: Guid.Guid) =>
        if iid != Guid.ZERO then Reply(S_OK, p) else Reply(E_NOTIMPL, 0);
      QueryService(k, active, ask).Ok? <==> Dispatch.Wired(active)
  {
  }
}
