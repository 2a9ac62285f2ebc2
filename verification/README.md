# VirtualDesktopAccessor: the version-independent core, modelled in Dafny

VirtualDesktopAccessor talks to the undocumented virtual-desktop COM interfaces of the
Windows shell. Their IIDs and their vtable layouts change from one Windows build to the
next. This project models the sequential core underneath the COM plumbing and proves
properties of it:

- **Version registry and selection** (`Versions`):
  - the ten version modules in declaration order;
  - `windows_build`, which reads a build number from a module name;
  - `WindowsVersion::get`, which picks the newest declared version that is not newer than
    the running system, falls back to the last declared version, and remembers its choice.
- **Per-build interface tables as data** (`Interfaces`, `Build10240` … `Build26100`):
  - a table is an IID, an ordered method list and the items the declaration carries;
  - redeclaring a table under a new IID keeps everything else;
  - a method's vtable slot is its position plus the three `IUnknown` methods;
  - each build module either declares a table afresh, edits an earlier one, or re-emits an
    earlier one under a given IID;
  - the unseen modules build_16299, build_22621_3155 and build_22631_3155 are arbitrary
    tables passed as parameters, so every fact about a build that reuses them holds for
    every possible content.
- **The dispatch layer** (`Abstract`, `Dispatch`, `Services`):
  - the version-independent interface types;
  - the three outcomes of a call: forward to the running version's vtable, `E_NOTIMPL`,
    or `unreachable!`;
  - the monitor-0 wrappers of build 22000;
  - `IID()`, `with_versioned_type`, the pointer-preserving conversions, `IObjectArrayGetAt`
    and the `query_service` constructors.
- **Notification translation** (`Notifications`, `Listener`):
  - the per-build adaptors from a build's callbacks to the stable callback trait;
  - the listener that turns stable callbacks into `DesktopEvent`s and always answers `S_OK`;
  - the listener thread's registration cookies.
- **The `ComIn` borrow wrapper** (`ComInModel`), checked against a reference-count map and
  the three COM ownership rules the crate documents.
- **Pure helpers of the symbol dumper** (`PeCodeIds`, `Radix`, `SymbolSizes`, `Vtables`,
  `SymbolScan`, `Guid`, `Bytes`):
  - the PE code-id text codec;
  - `calculate_size_for_symbols`;
  - vtable word decoding and the address lookup;
  - the argument and symbol-name filters;
  - reading an IID out of the DLL image.

COM objects are opaque raw pointers, and foreign calls are function parameters. These
foreign calls include `RtlGetVersion`, the notification service, the `IObjectArray`,
desktop conversion and demangling. Integers are `nat` bounded to their Rust width: `U32`,
`U64` and `I64` are subset types, and saturation is written out explicitly.

Two readings of the code shape the model:

- `get()` keeps the declared builds at most the system's build and takes the latest of
  them. When none qualifies, `unwrap_or_default()` gives `ALL.last()`, which is the
  *newest* declared version. `Versions.Select` and `Versions.CorrectedNotMonotone` state
  this: one build below the oldest declared version selects the newest one, so the
  selection is not monotone there.
- `build_dyn.rs` lists exactly `build_10240` and `build_22000` for every interface, and
  its notification `From` impl (lines 753-762) matches on exactly those two. Dispatch is
  modelled over that pair. The conversion `from_raw` (lines 219-225) and `IID()` (lines
  244-249) have wildcard arms for the other versions: `unreachable!` and a zero GUID. The
  `From` impl has no wildcard, and the `all` keyword hides the wildcard of the guard match
  at lines 187-202. With ten versions declared, those two matches are not exhaustive. The
  source therefore gives no behaviour for the adaptor on the other eight versions, and the
  model's `None` there is its own choice (see "Left out").

## Model

| member | source | states |
|---|---|---|
| Versions.Declared | src/interfaces_multi.rs:58-69 | the version list has ten names |
| Versions.SplitOnce | src/interfaces_multi/build_dyn.rs:83-86 | no split exactly when there is no `_`; otherwise the text is head + `_` + tail with no `_` in the head |
| Versions.SplitOnceJoin | src/interfaces_multi/build_dyn.rs:83-86 | splitting a `_`-free prefix joined to any tail by `_` gives back the prefix and the tail |
| Versions.WindowsBuild | src/interfaces_multi/build_dyn.rs:82-89 | the "no underscore" panic happens exactly when the name has no `_`; otherwise the whole text after the first `_` decides: its u32 value when it parses, and "Failed to parse module suffix" when it does not |
| Versions.FirstOccurrence | src/interfaces_multi/build_dyn.rs:83-86 | in `a + [c] + b` with no `c` in `a`, the first `c` is the one right after `a` |
| Versions.WindowsBuildPrinted | src/interfaces_multi/build_dyn.rs:82-89 | `<prefix>_<decimal n>` reads back as `n` for every `_`-free prefix |
| Versions.WindowsBuildRejectsRevision | src/interfaces_multi/build_dyn.rs:82-89 | a second `_` after the number makes the name unreadable ("Failed to parse module suffix") |
| Versions.MajorBuild | src/interfaces_multi/build_dyn.rs:82-89 | the corrected reading fails with "no underscore" exactly when the name has no `_` |
| Versions.MajorBuildPrinted | src/interfaces_multi/build_dyn.rs:82-89 | the corrected reading gives `n` for `<prefix>_<n>` with or without a revision, and agrees with `windows_build` on names without one |
| Versions.ReadRevision | src/interfaces_multi.rs:65-68 | a name with a revision suffix fails the as-written reading and gives its major build under the corrected one |
| Versions.Collect | src/interfaces_multi/build_dyn.rs:132-135 | the build numbers of all names are read: success exactly when every name reads, with each value in order |
| Versions.CollectFirstErr | src/interfaces_multi/build_dyn.rs:132-135 | the first unreadable name decides the panic of the whole selection |
| Versions.Newest | src/interfaces_multi/build_dyn.rs:136-140 | `max_by_key` over the builds at most the limit: none exactly when every build is newer; otherwise a maximal qualifying build, and no later qualifying build equals it (ties go to the later entry) |
| Versions.Fallback | src/interfaces_multi/build_dyn.rs:37-41 | the default is the last declared version, and a panic when nothing is declared |
| Versions.Select | src/interfaces_multi/build_dyn.rs:122-143 | a failed `RtlGetVersion` gives the default; an unreadable name gives its panic; otherwise the newest qualifying version (the later of equals), or the newest declared version when none qualifies |
| Versions.Get | src/interfaces_multi/build_dyn.rs:122-143 | `get()` over the declared list is `Select` over it, and the newest version when `RtlGetVersion` fails |
| Versions.DeclaredAsWritten | src/interfaces_multi/build_dyn.rs:82-89 | read as written, the declared list aborts with "Failed to parse module suffix" (at `build_22621_2215`) |
| Versions.GetPanicsWhenDetected | src/interfaces_multi/build_dyn.rs:122-143 | as written, `get()` panics whenever the system's build is known, and gives the newest version otherwise |
| Versions.DeclaredMajor | src/interfaces_multi.rs:58-69 | under the corrected reading, the ten declared names read as 10240, 16299, 17134, 19045, 20348, 22000, 22621, 22621, 22631, 22631 |
| Versions.NewestOfMajor | src/interfaces_multi/build_dyn.rs:136-141 | over those builds, `max_by_key` picks what an explicit table of build ranges says, and nothing below 10240 |
| Versions.CorrectedGetSelects | src/interfaces_multi/build_dyn.rs:122-143 | the corrected `get()` gives, for every build, the version that range table names |
| Versions.CorrectedSkipsRevisions | src/interfaces_multi/build_dyn.rs:139 | even corrected, `build_22621_2215` and `build_22631_2428` are never chosen: each loses the tie to the next revision of its build |
| Versions.CorrectedNotMonotone | src/interfaces_multi/build_dyn.rs:141 | build 10239 selects the newest version while build 10240 selects the oldest |
| Versions.GetOnce | src/interfaces_multi/build_dyn.rs:123-124 | a filled cell answers from memory without selecting; an empty cell selects, stores a success and stays empty after a panic |
| Versions.GetManyStable | src/interfaces_multi/build_dyn.rs:123-124 | once one call has chosen a version, every later call returns that version, whatever build it would detect |
| Versions.Remembered | src/interfaces_multi/build_dyn.rs:123-124 | a filled cell answers every later call with its version |
| Interfaces.Redeclare | src/interfaces_multi.rs:81-109 | the redeclared table has the new IID and the same methods and items |
| Interfaces.RedeclareTwice | src/interfaces_multi.rs:90-102 | redeclaring a redeclared table is redeclaring the original: only the last IID counts |
| Interfaces.RedeclareSameIid | src/interfaces_multi.rs:90-102 | redeclaring under the table's own IID changes nothing |
| Interfaces.RedeclareSameShape | src/interfaces_multi.rs:90-102 | a redeclared table has the original's shape, and equals it exactly when the IID is the same |
| Interfaces.IndexOf | src/interfaces_multi/build_10240.rs:50-125 | the position of the first method with a name, or none when no method has it |
| Interfaces.Slot | src/interfaces_multi/build_10240.rs:50-125 | a slot is the first position of the name plus the three `IUnknown` slots, and none when the table lacks the name |
| Interfaces.SlotAt | src/interfaces_multi/build_10240.rs:50-125 | the first method named `n`, at position `i`, sits in slot `i + 3` |
| Interfaces.InsertAt | src/interfaces_multi/build_26100.rs:71-79 | inserting keeps the methods before the point, puts the new one at it and moves the rest one later |
| Interfaces.RemoveAt | src/interfaces_multi/build_17663.rs:91-94 | removing keeps the methods before the point and moves the rest one earlier |
| Interfaces.SlotAfterInsert | src/interfaces_multi/build_26100.rs:71-145 | after an insertion an absent name stays absent, an earlier method keeps its position and a later one moves one on |
| Interfaces.SlotAfterRemove | src/interfaces_multi/build_17663.rs:91-94 | after a removal an absent name stays absent, an earlier method keeps its position and a later one moves one back |
| Build10240.Build | src/interfaces_multi/build_10240.rs:10-426 | the seven tables carry the IIDs the module declares, and the notification interface carries the six-callback adaptor |
| Build10240.AppViewSlots | src/interfaces_multi/build_10240.rs:50-139 | IApplicationView has 58 methods; the slot comments 17, 20, 21, 22, 45, 46 and 47 hold, with the compatibility policy at 32, the size constraints at 35 and the min-size update at 39, and the last twelve methods are opaque |
| Build10240.AppViewOpaqueTail | src/interfaces_multi/build_10240.rs:126-139 | the table ends with the twelve opaque methods `unknown1` … `unknown12` |
| Build10240.CollectionShape | src/interfaces_multi/build_10240.rs:147-196 | IApplicationViewCollection has 11 methods, with the position-changes registration between the two change registrations; refresh at slot 10, register at 11, unregister at 13 |
| Build10240.CollectionNoLastActive | src/interfaces_multi/build_10240.rs:147-196 | build 10240's collection has no `try_get_last_active_visible_view` |
| Build10240.DesktopShape | src/interfaces_multi/build_10240.rs:203-213 | IVirtualDesktop is exactly `is_view_visible`, `get_id`, with no monitor, name or wallpaper method |
| Build10240.ManagerShape | src/interfaces_multi/build_10240.rs:220-275 | IVirtualDesktopManagerInternal has 10 methods, none taking a monitor, without `move_desktop`, `set_name` or the wallpaper methods |
| Build10240.NotificationShape | src/interfaces_multi/build_10240.rs:282-384 | the notification interface has the six callbacks in order, none with a monitor argument, and carries the six-callback adaptor |
| Build17134.Build | src/interfaces_multi/build_17134.rs:22-161 | the seven tables carry the module's IIDs, and every interface but IApplicationView has the shape of the unseen build_16299 table |
| Build17134.RedeclaredIidsAsIn10240 | src/interfaces_multi/build_17134.rs:22-34 | the six interfaces redeclared from the unseen build_16299 get build 10240's IIDs; IApplicationView gets a different one |
| Build17134.AppViewTrimmed | src/interfaces_multi/build_17134.rs:37-161 | build 17134's IApplicationView is build 10240's with the two position-priority methods and `query_size_constraints_from_app` removed |
| Build17134.Trim | src/interfaces_multi/build_17134.rs:101-131 | removing the three methods from a 58-method table leaves 55 |
| Build17134.RemovedMethodsAbsent | src/interfaces_multi/build_17134.rs:101-131 | none of the three removed methods remains in the table |
| Build17134.AppViewIsTrim | src/interfaces_multi/build_17134.rs:31-161 | the table build 17134 declares is the trim of build 10240's 58-method table |
| Build17134.TrimKeepsSlot | src/interfaces_multi/build_17134.rs:74-101 | a method among the first 30 keeps its slot after the trim |
| Build17134.TrimShiftsSlotByTwo | src/interfaces_multi/build_17134.rs:109-121 | a method at positions 32–34 moves two slots earlier |
| Build17134.TrimShiftsSlotByThree | src/interfaces_multi/build_17134.rs:131-160 | a method from position 36 on moves three slots earlier |
| Build17134.CommentedSlots | src/interfaces_multi/build_17134.rs:74-146 | slots through 32 match build 10240; `get_size_constraints` is at 33, `on_min_size_preferences_updated` at 36, and `get_root_switchable_owner`/`enumerate_ownership_tree`/`get_enterprise_id` at 42/43/44, not at the inherited comments' 45/46/47 |
| Build17663.Build | src/interfaces_multi/build_17663.rs:28-97 | the seven tables carry the module's IIDs, and every interface but the collection has build 17134's shape |
| Build17663.OthersAsIn17134 | src/interfaces_multi/build_17663.rs:28-36 | the six other interfaces keep build 17134's tables and IIDs, including IApplicationView 871F602A… |
| Build17663.Edit | src/interfaces_multi/build_17663.rs:40-94 | the edited collection keeps 11 methods, with `try_get_last_active_visible_view` at index 7 |
| Build17663.CollectionEdited | src/interfaces_multi/build_17663.rs:40-97 | build 17663's collection is exactly the edit of build 10240's |
| Build17663.EditShifts | src/interfaces_multi/build_17663.rs:78-94 | after the edit, methods at indices 7 and 8 move one later and every other kept method keeps its index |
| Build17663.CollectionShift | src/interfaces_multi/build_17663.rs:78-94 | the same shift, stated for the declared tables |
| Build17663.NewMethodSlot | src/interfaces_multi/build_17663.rs:78-82 | the inserted method sits in slot 10 |
| Build17663.RefreshMoved | src/interfaces_multi/build_17663.rs:83 | `refresh_collection` moves from slot 10 to 11 |
| Build17663.RegisterMoved | src/interfaces_multi/build_17663.rs:85-89 | `register_for_application_view_changes` moves from slot 11 to 12 |
| Build17663.UnregisterKept | src/interfaces_multi/build_17663.rs:91-94 | `unregister_for_application_view_changes` keeps slot 13 |
| Build17663.NoPositionChanges | src/interfaces_multi/build_17663.rs:91 | the table keeps 11 methods and has no position-changes registration |
| Build19044_4355.Build | src/interfaces_multi/build_19044_4355.rs:19-28 | the seven tables carry the module's IIDs, and every interface has build 17663's shape |
| Build19044_4355.TablesAs17663 | src/interfaces_multi/build_19044_4355.rs:19-28 | every interface has build 17663's table shape; all but IApplicationView are build 17663's tables exactly |
| Build19044_4355.EditedTables | src/interfaces_multi/build_19044_4355.rs:22 | IApplicationView is build 17134's 55-method table |
| Build19044_4355.IidsAs10240 | src/interfaces_multi/build_19044_4355.rs:24-28 | the five remaining IIDs equal build 10240's |
| Build19045.Build | src/interfaces_multi/build_19045.rs:9-17 | the seven tables carry the module's IIDs, and every interface has build 10240's shape |
| Build19045.TablesAs10240 | src/interfaces_multi/build_19045.rs:9-17 | every interface has build 10240's table shape; the five with build 10240's IID are build 10240's tables exactly |
| Build19045.KeptTables | src/interfaces_multi/build_19045.rs:11 | IApplicationView keeps the 58-method table with `get_root_switchable_owner` at slot 45 |
| Build19045.PositionChangesKept | src/interfaces_multi/build_19045.rs:12 | the collection keeps 11 methods including the position-changes registration |
| Build19045.SameIidDifferentTables | src/interfaces_multi/build_19045.rs:11-12 | 372E1D3B… and 1841C6D7… are each paired with two different tables, here and in build_19044_4355 |
| Build22000.Build | src/interfaces_multi/build_22000.rs:9-277 | the seven tables carry the module's IIDs; IApplicationView, the collection, the notification service and pinned apps have build 10240's shape; the manager carries the monitor-0 wrappers and the notification interface the per-monitor adaptor |
| Build22000.ReusedAs10240 | src/interfaces_multi/build_22000.rs:9-12 | IApplicationView, the collection, the notification service and pinned apps have build 10240's table shapes; the last two are build 10240's tables exactly |
| Build22000.DesktopSlots | src/interfaces_multi/build_22000.rs:19-33 | IVirtualDesktop is `is_view_visible`, `get_id`, `get_monitor`, `get_name`, `get_wallpaper`, with the name at slot 6 and the wallpaper at 7 |
| Build22000.MonitorMethods | src/interfaces_multi/build_22000.rs:40-150 | the manager has 19 methods, and a method takes a monitor exactly when it is one of the six `_m` methods |
| Build22000.Expand | src/interfaces_multi/build_22000.rs:151-190 | an unwrapped call is unchanged; a wrapped call goes to its `_m` method with monitor 0 inserted at the wrapper's position and the other arguments in order |
| Build22000.MonitorPosition | src/interfaces_multi/build_22000.rs:183-189 | the monitor goes first, except for `move_desktop`, where it goes second |
| Build22000.WrappersMatchTable | src/interfaces_multi/build_22000.rs:151-190 | every wrapper's expanded call names a declared manager method with exactly as many parameters as arguments |
| Build22000.TargetIndex | src/interfaces_multi/build_22000.rs:44-108 | each wrapper's target is a declared manager method with one parameter more than the wrapper |
| Build22000.OnlyOneOfEach | src/interfaces_multi/build_22000.rs:44-108 | each target name occurs once, with its monitor parameter where the wrapper puts monitor 0 |
| Build22000.NotificationShape | src/interfaces_multi/build_22000.rs:197-277 | the notification interface has 12 callbacks, with `virtual_desktop_is_per_monitor_changed` at index 4 (slot 7) |
| Build22621_2215.Build | src/interfaces_multi/build_22621_2215.rs:12-225 | the seven tables carry the module's IIDs; the four reused interfaces have build 10240's shape; the notification interface carries the identity adaptor |
| Build22621_2215.ReusedAs22000 | src/interfaces_multi/build_22621_2215.rs:12-15 | the four unchanged interfaces have build 22000's tables and IIDs |
| Build22621_2215.DesktopEdited | src/interfaces_multi/build_22621_2215.rs:22-37 | IVirtualDesktop is build 22000's without `get_monitor` and with `is_remote` appended |
| Build22621_2215.DesktopSlots | src/interfaces_multi/build_22621_2215.rs:33-36 | `get_name` at slot 5, `get_wallpaper` at 6, `is_remote` at 7 |
| Build22621_2215.DesktopNoMonitor | src/interfaces_multi/build_22621_2215.rs:22-37 | IVirtualDesktop has no `get_monitor` |
| Build22621_2215.ManagerShape | src/interfaces_multi/build_22621_2215.rs:44-152 | the manager has 21 methods, none taking a monitor, ending with `copy_desktop_state` and the five new methods |
| Build22621_2215.ManagerNoGetPerMonitor | src/interfaces_multi/build_22621_2215.rs:125-151 | build 22000's `get_desktop_is_per_monitor` is absent |
| Build22621_2215.ManagerNoSetPerMonitor | src/interfaces_multi/build_22621_2215.rs:125-151 | build 22000's `set_desktop_is_per_monitor` is absent |
| Build22631_2428.Build | src/interfaces_multi/build_22631_2428.rs:10-18 | the seven tables carry the module's IIDs, and every interface has the shape of the unseen build_22621_3155 table |
| Build22631_2428.IidsAs22621_2215 | src/interfaces_multi/build_22631_2428.rs:10-18 | all seven IIDs, including the two marked "Changed", equal build 22621_2215's, over the unseen build_22621_3155 tables |
| Build26100.Build | src/interfaces_multi/build_26100.rs:22-148 | the seven tables carry the module's IIDs, and every interface but the manager has the shape of the unseen build_22631_3155 table |
| Build26100.ManagerInserted | src/interfaces_multi/build_26100.rs:37-148 | the manager is build 22621_2215's with `switch_desktop_and_move_foreground_view` inserted right after `switch_desktop` |
| Build26100.InsertShifts | src/interfaces_multi/build_26100.rs:71-145 | after the insertion, methods up to `switch_desktop` keep their position and every later one moves one on |
| Build26100.ManagerShift | src/interfaces_multi/build_26100.rs:71-145 | the same shift, stated for the declared tables |
| Build26100.NewMethodSlot | src/interfaces_multi/build_26100.rs:74-78 | the inserted method sits at slot 10 |
| Build26100.SameIidGrownTable | src/interfaces_multi/build_26100.rs:34 | if the unseen previous manager table has 53F5CA0B… and build 22621_2215's methods, as the comment on the IID suggests, then one IID names two different tables |
| Build26100.ManagerSlotExamples | src/interfaces_multi/build_26100.rs:71-145 | `switch_desktop` stays at 9; `create_desktop` moves 10→11; `wait_for_animation_to_complete` moves 23→24 |
| Abstract.ManagerMethods | src/interfaces_multi/build_dyn.rs:851-964 | the version-independent manager interface has 15 methods |
| Dispatch.Wired | src/interfaces_multi/build_dyn.rs:497 | the versions the interfaces list: build 10240 and build 22000 |
| Dispatch.Optional | src/interfaces_multi/build_dyn.rs:646-657 | the methods build 10240 answers with `E_NOTIMPL`: the desktop's name and wallpaper, and five manager methods |
| Dispatch.Place | src/interfaces_multi/build_dyn.rs:851-964 | an abstract method has no vtable position exactly when it is optional and the running version is build 10240; a position is always inside that version's vtable |
| Dispatch.VtableMethodsAsDeclared | src/interfaces_multi/build_dyn.rs:219-225 | the vtables dispatch reaches are the tables build_10240 and build_22000 declare |
| Dispatch.Invoke | src/interfaces_multi/build_dyn.rs:219-225 | an unlisted running version is unreachable; `E_NOTIMPL` exactly for the optional methods on build 10240; otherwise the running version's vtable |
| Dispatch.InvokeReachesVtable | src/interfaces_multi/build_dyn.rs:851-964 | every forwarded call of an abstract method meets a method of the running vtable that declares as many parameters as the call passes |
| Dispatch.AllResolve | src/interfaces_multi/build_dyn.rs:497-1021 | every abstract method of every interface is optional on build 10240 or reaches its place in both listed vtables |
| Dispatch.NoStubOnOldest | src/interfaces_multi/build_dyn.rs:646-657 | no method of build 10240's vtables is one of the stubbed ones |
| Dispatch.NotImplementedIffMissing | src/interfaces_multi/build_dyn.rs:897-964 | on build 10240 an abstract method answers `E_NOTIMPL` exactly when the old vtable lacks it |
| Dispatch.ManagerPlacesWin11 | src/interfaces_multi/build_dyn.rs:851-964 | every abstract manager method maps to its build 22000 method, directly or through a monitor-0 wrapper |
| Dispatch.VersionIidAsDeclared | src/interfaces_multi/build_dyn.rs:244-249 | the IID of a listed version is the one its module declares |
| Dispatch.Iid | src/interfaces_multi/build_dyn.rs:244-249 | `IID()` is zero exactly for a versioned interface on an unlisted version; otherwise it is a declared IID |
| Dispatch.StableIidsFixed | src/interfaces_multi.rs:275-310 | IServiceProvider and IVirtualDesktopManager have one nonzero IID each on every version, unequal to any versioned IID |
| Dispatch.IidChangesForWin11 | src/interfaces_multi/build_22000.rs:9-40 | between builds 10240 and 22000 every versioned IID changes except the notification service's and pinned apps' |
| Dispatch.WithVersionedType | src/interfaces_multi/build_dyn.rs:264-270 | the callback runs exactly on a listed version, with that version's type |
| Dispatch.ToAbstract | src/interfaces_multi/build_dyn.rs:276-300 | versioned to abstract keeps the pointer; only a debug build checks the version |
| Dispatch.ToVersioned | src/interfaces_multi/build_dyn.rs:307-314 | abstract to versioned succeeds exactly for the running version and keeps the pointer |
| Dispatch.BorrowVersioned | src/interfaces_multi/build_dyn.rs:315-325 | `ComIn` abstract to versioned succeeds exactly for the running version and keeps the pointer |
| Dispatch.AbstractRoundTrip | src/interfaces_multi/build_dyn.rs:276-325 | to the abstract type and back to the running version's type returns the same pointer |
| Dispatch.VersionedRoundTrip | src/interfaces_multi/build_dyn.rs:276-314 | to a versioned type and back returns the same pointer |
| Dispatch.BorrowAgreesWithOwned | src/interfaces_multi/build_dyn.rs:307-325 | the owned and borrowed conversions accept the same versions |
| Dispatch.GetAt | src/interfaces_multi/build_dyn.rs:1029-1056 | `E_NOTIMPL` on an unlisted version; on a listed version the array's error is passed on and its fetched pointer comes back as `Ok` unchanged; every success is the fetched pointer |
| Dispatch.GetAtAgreesWithConversion | src/interfaces_multi/build_dyn.rs:1037-1056 | a success happens exactly on a listed version whose array fetch succeeds, and converts back to the running version's type as the fetched object |
| Dispatch.NotificationAdaptor | src/interfaces_multi/build_dyn.rs:748-764 | an adaptor exists exactly on a listed version, with that version's notification IID and table |
| Services.ServiceId | src/interfaces_multi/build_dyn.rs:726-740 | every provided interface except the collection asks for a nonzero service id |
| Services.QueryService | src/interfaces_multi/build_dyn.rs:966-980 | the provider is asked for (service id, running IID); a failing status is an error and a null pointer a panic, otherwise the pointer is returned |
| Services.RequestOnVersions | src/interfaces_multi/build_dyn.rs:834-848 | only the collection's request changes with the version; the IID asked for is zero on an unlisted version |
| Services.ProviderKeyedByIid | src/interfaces_multi/build_dyn.rs:1007-1021 | a provider that answers only for the running IID gives every interface on a listed version and none elsewhere |
| Notifications.ImplementedByVersions | src/interfaces_multi/build_dyn.rs:748-764 | the tables the adaptors implement are build 10240's and build 22000's notification tables |
| Notifications.Adapt | src/interfaces_multi/build_22000.rs:288-396 | a forwarded call keeps the callback's name; an answer without forwarding happens exactly for `virtual_desktop_is_per_monitor_changed` on build 22000 |
| Notifications.AdaptMatchesSignatures | src/interfaces_multi/build_dyn.rs:766-817 | every adaptor call forwards to a stable callback of the same name, whose parameters are the build's without `monitors`, with the arguments kept in order; the one callback the trait lacks answers S_OK |
| Notifications.SixNeverRaises | src/interfaces_multi/build_10240.rs:330-384 | the build 10240 adaptor always forwards, and never to `moved`, `name_changed`, `wallpaper_changed`, `switched` or `remote_virtual_desktop_connected` |
| Notifications.EveryCallbackReached | src/interfaces_multi/build_dyn.rs:766-817 | every stable callback name is declared by the build 22000 and build 22621_2215 tables |
| Notifications.IdentityIsStable | src/interfaces_multi/build_22621_2215.rs:159-225 | build 22621_2215's notification table is the stable trait, callback for callback |
| Notifications.PerMonitorArity | src/interfaces_multi/build_22000.rs:292-333 | a call of a monitor-bearing build 22000 callback has at least its `monitors` argument |
| Notifications.MonitorsFirst | src/interfaces_multi/build_22000.rs:197-277 | every build 22000 callback that carries monitors declares at least one parameter to hold them |
| Notifications.NoStableSwitch | src/interfaces_multi/build_dyn.rs:766-817 | the stable trait has no per-monitor-changed callback |
| Listener.AsCallDecodes | src/interfaces_multi/build_dyn.rs:766-817 | a stable callback encoded as a call decodes back to itself, with the trait's name and arity |
| Listener.DecodeAsCall | src/interfaces_multi/build_dyn.rs:766-817 | a call that decodes is the encoding of what it decodes to |
| Listener.EatError | src/listener.rs:174-183 | `Some` exactly for `Ok`, with its value; an error never propagates |
| Listener.DesktopArgs | src/listener.rs:187-300 | a callback converts at most two desktops |
| Listener.Handle | src/listener.rs:187-300 | every callback answers S_OK; an event is sent exactly when the callback is not one of the silent four and all its desktop conversions succeed; `view_virtual_desktop_changed` always sends one |
| Listener.ArgumentsPassedOn | src/listener.rs:256-284 | `moved` passes both indices unchanged, and name and wallpaper changes pass the text unchanged |
| Listener.ShellAlwaysSeesOk | src/listener.rs:187-300 | through every adaptor, the shell's callback call returns S_OK |
| Listener.Register | src/listener.rs:131-154 | a successful registration stores the returned cookie and makes it live; a failure stores nothing |
| Listener.Unregister | src/listener.rs:156-167 | dropping a registration asks to unregister exactly its cookie and ignores the answer: the cookie stops being live only when the service accepts; an `Err` has nothing to unregister |
| Listener.Start | src/listener.rs:34-57 | the thread starts running, and the live registrations are exactly the first registration's cookie, or none when it failed |
| Listener.Step | src/listener.rs:59-86 | the thread stops exactly on `Quit`, which leaves no listener; a timeout while connected with a listener changes nothing; otherwise the listener is replaced, and a new one exists exactly when registration succeeds |
| Listener.StepKeepsConsistent | src/listener.rs:59-86 | each tick keeps the listener's cookie live and adds no cookie but the one it was issued; when the service accepts the unregistration, the live set stays exactly the listener's cookie, at most one, and is empty after `Quit` |
| Listener.RefusedUnregisterLeaks | src/listener.rs:156-167 | when the service refuses the unregistration, a reconnect leaves the old and the new cookie live and `Quit` leaves the old one live |
| Listener.RegisterFirstOverlaps | src/listener.rs:73-76 | registering before dropping the old listener would leave two registrations live |
| Listener.Run | src/listener.rs:59-86 | the loop stops at the first `Quit` and runs through every tick otherwise; the listener's cookie stays live; every live cookie was handed out by a registration; when every unregistration is accepted, at most one cookie is live and none after `Quit` |
| ComInModel.New | src/interfaces_multi.rs:196-204 | `ComIn::new` stores exactly the value's pointer representation |
| ComInModel.DerefNew | src/interfaces_multi.rs:205-216 | dereferencing `ComIn::new(t)` gives t's raw pointer, for interface types and the abstract types alike |
| ComInModel.Apply | src/interfaces.rs:15-30 | borrows change no count; out-parameters add one; a clone adds one and fails at zero; a release takes one and fails at zero; other objects are untouched |
| ComInModel.BorrowsLeaveCounts | src/interfaces_multi.rs:191-216 | any number of `ComIn` creations, derefs and drops leaves every count as it was |
| ComInModel.BorrowedStaysAlive | src/interfaces.rs:17-20 | while the caller holds a reference, a borrowing callee cannot free the object |
| ComInModel.OutParamBalanced | src/interfaces.rs:22-26 | an out-parameter's reference, released once by the caller, leaves the count as before |
| ComInModel.CopyOrderMatters | src/interfaces.rs:28-30 | AddRef before Release keeps a singly-referenced object alive; Release first frees it, and the AddRef after it is a use after free |
| ComInModel.OutThenBorrowThenDrop | src/interfaces_multi.rs:157-190 | receive, pass by `ComIn` any number of times, then drop ends with the starting count |
| PeCodeIds.FromStr | print-com-interfaces/src/main.rs:96-106 | byte lengths outside 9..16 are rejected; a split inside a character panics; a success reads the first 8 bytes and the rest as hex u32s |
| PeCodeIds.ToString | print-com-interfaces/src/main.rs:108-111 | the text is ASCII of length 9..16, and starts with the timestamp in exactly 8 digits |
| PeCodeIds.ParsePrinted | print-com-interfaces/src/main.rs:96-111 | every code id reads back from its printed form |
| PeCodeIds.PanicsIffNotBoundary | print-com-interfaces/src/main.rs:97-100 | the parse panics exactly when the byte length is 9..16 and no prefix of the text is 8 bytes long, which is when `&s[..8]` panics |
| PeCodeIds.FromStrAscii | print-com-interfaces/src/main.rs:96-106 | on ASCII text of 9..16 characters the split falls after the eighth character: both halves parse as hex u32s, or the text is rejected |
| PeCodeIds.PlusBeforeSize | print-com-interfaces/src/main.rs:101 | a `+` before the image size is accepted |
| PeCodeIds.PlusBeforeTimestamp | print-com-interfaces/src/main.rs:100 | a `+` before a seven-digit timestamp is accepted |
| PeCodeIds.AsciiNeverPanics | print-com-interfaces/src/main.rs:97-100 | on ASCII text the split never panics |
| Radix.ParseU32 | print-com-interfaces/src/main.rs:100-101 | empty text is rejected; a success has only digits after an optional leading `+` |
| Radix.PrefixValue | print-com-interfaces/src/main.rs:100-101 | the left-to-right reading of a prefix succeeds exactly when each of its characters is a digit of the radix, and then gives the digits' positional value |
| Radix.ParseU32ByPrefix | print-com-interfaces/src/main.rs:100-101 | text without a leading `+` parses to the left-to-right reading when that succeeds below 2^32, and is rejected otherwise, overflow included |
| Radix.ParseU32Printed | print-com-interfaces/src/main.rs:108-111 | the digits of a u32, zero-padded or not, in either case, parse back to it |
| Radix.ParseU32PlusSign | print-com-interfaces/src/main.rs:100-101 | one leading `+` does not change what parses |
| Radix.ToDigits | print-com-interfaces/src/main.rs:110 | the digits of a number are valid digits whose value is the number |
| Radix.CharsBefore | print-com-interfaces/src/main.rs:100 | a found character count is one whose UTF-8 length is the byte index; index 0 is always found |
| Radix.CharsBeforeNone | print-com-interfaces/src/main.rs:100 | no count is found exactly when no prefix of the text is that many bytes long, so the byte index is not a character boundary |
| Radix.PrefixByteLen | print-com-interfaces/src/main.rs:97 | a prefix takes no more bytes than the whole text, and a proper prefix fewer |
| SymbolSizes.Collect | print-com-interfaces/src/main.rs:213-226 | public symbols with an address take part, in order; any other kind panics at `todo!` |
| SymbolSizes.InsertStable | print-com-interfaces/src/main.rs:227 | insertion keeps the multiset and the stable order by address |
| SymbolSizes.SortByRva | print-com-interfaces/src/main.rs:227 | the stable sort is a permutation ordered by address, with equal addresses in input order |
| SymbolSizes.NextAbove | print-com-interfaces/src/main.rs:231-236 | the least taking-part address strictly above a given one, if any |
| SymbolSizes.SizedMeaning | print-com-interfaces/src/main.rs:231-241 | a non-taking symbol is untouched; the last address group gets no size; any other gets the positive distance to the next larger address |
| SymbolSizes.FindOther | print-com-interfaces/src/main.rs:234 | the first later entry with a different address, or the end |
| SymbolSizes.WriteSizes | print-com-interfaces/src/main.rs:231-241 | the loop writes every symbol's size as `SizedMeaning` describes |
| SymbolSizes.CalculateSizes | print-com-interfaces/src/main.rs:209-242 | `None` exactly when an unexpected symbol kind is present; otherwise every entry sized as described |
| Vtables.Words | print-com-interfaces/src/main.rs:402-406 | one little-endian u64 per whole 8 bytes; trailing bytes are ignored |
| Vtables.WordsOfEncode | print-com-interfaces/src/main.rs:402-406 | reading stored addresses gives them back, whatever partial word follows |
| Vtables.Lookup | print-com-interfaces/src/main.rs:305-308 | an address maps to the last sized symbol starting there |
| Vtables.Resolve | print-com-interfaces/src/main.rs:407-421 | a slot names a symbol exactly when the address less the image base, saturated at zero, fits in u32 and is looked up; it names that symbol; otherwise it keeps that address |
| Vtables.ResolveMeaning | print-com-interfaces/src/main.rs:407-421 | a slot names a symbol exactly when the saturated address fits in u32 and a sized symbol starts there |
| Vtables.Decode | print-com-interfaces/src/main.rs:401-421 | the slice panics exactly when the range runs past the image; otherwise one slot per whole word |
| Vtables.SymbolTable | print-com-interfaces/src/main.rs:401 | a missing address or size counts as zero |
| SymbolScan.ParseArgs | print-com-interfaces/src/main.rs:246-253 | accepted exactly when every argument is `--all` in any case, which turns the filters off; otherwise the first other argument is reported |
| SymbolScan.ArgsIgnoreCase | print-com-interfaces/src/main.rs:248 | lowering the arguments changes neither acceptance nor the flag |
| SymbolScan.UpperFlagAccepted | print-com-interfaces/src/main.rs:248 | `--ALL` is accepted |
| SymbolScan.UnfilteredWidens | print-com-interfaces/src/main.rs:325-336 | without filters only the `IID_` prefix matters, and every filtered id still passes |
| SymbolScan.ReadIid | print-com-interfaces/src/main.rs:337-345 | a size below 16 is an error; bytes past the image panic; a success is the GUID whose little-endian bytes are the 16 at the address |
| SymbolScan.IidCandidate | print-com-interfaces/src/main.rs:325-336 | an id is considered when its name starts with `IID_` and, unless the filters are off, mentions `VirtualDesktop` or `IApplicationView` |
| SymbolScan.Rank | print-com-interfaces/src/main.rs:321-351 | the number of reported symbols among the first `n` is at most `n` |
| SymbolScan.InOrderCons | print-com-interfaces/src/main.rs:321-351 | a reported first symbol followed by the in-order ids of the rest gives the in-order ids of all |
| SymbolScan.InOrderSkip | print-com-interfaces/src/main.rs:321-351 | a skipped first symbol leaves the in-order ids of the rest as those of all |
| SymbolScan.ScanIids | print-com-interfaces/src/main.rs:318-352 | success exactly when every reported symbol's id reads; a success has one entry per reported symbol, in order, the k-th reported symbol's name and GUID at index k; otherwise the first failure |
| SymbolScan.Dumped | print-com-interfaces/src/main.rs:365-385 | a table is dumped when its name passes the vtable filter (or the filters are off) and its demangled name mentions `vftable` |
| SymbolScan.ListedNamesPass | print-com-interfaces/src/main.rs:365-389 | every listed vtable name passes the filter; nothing without a demangled `vftable` name is dumped |
| Guid.Parse | src/interfaces_multi/build_10240.rs:10 | a parsed IID text has 36 characters with dashes at 8, 13, 18, 23 |
| Guid.ParseFormat | src/interfaces_multi/build_10240.rs:10 | formatting an IID in either case parses back to it |
| Guid.ParseIgnoresCase | src/interfaces_multi/build_22000.rs:11 | upper- and lower-case IID texts denote the same GUID |
| Guid.Format | print-com-interfaces/src/main.rs:349 | the printed IID has 36 characters; `Guid.ParseFormat` reads it back |
| Guid.FromBytesLe | print-com-interfaces/src/main.rs:344-345 | bytes read as a GUID exactly when there are 16 of them |
| Guid.ToBytesLe | print-com-interfaces/src/main.rs:344-345 | a GUID is stored as 16 bytes; `Guid.BytesLeRoundTrip` reads them back |
| Guid.BytesLeRoundTrip | print-com-interfaces/src/main.rs:344-345 | a GUID read from its little-endian bytes is itself |
| Guid.BytesLeRoundTripBack | print-com-interfaces/src/main.rs:344-345 | 16 bytes read as a GUID write back to the same bytes |
| Machine.SaturatingSub | print-com-interfaces/src/main.rs:407 | the difference when it is not negative, zero otherwise |

## Findings

| source | as written | input that shows it | evidently intended | confidence | as-written member | corrected member |
|---|---|---|---|---|---|---|
| src/interfaces_multi/build_dyn.rs:82-89 | `windows_build` parses all of the text after the first `_` as a u32, and `get()` reads every declared name before filtering | the declared name `build_22621_2215` (text `22621_2215`), reached whenever `RtlGetVersion` succeeds | read the build up to a revision suffix (22621), so that selection picks the newest version not newer than the system | not executed | Versions.GetPanicsWhenDetected | Versions.CorrectedGetSelects |

`Versions.DeclaredAsWritten` shows where the as-written reading stops. The corrected
reading is `Versions.MajorBuild`, and `Versions.Select` takes the reading as a parameter.

## Left out

- Real vtable calls, `transmute` and pointer casts, and the `windows` crate internals. COM
  objects are opaque raw pointers, and the model treats argument forwarding as passing values on unchanged.
- The `macro_rules!` machinery (`declare_versions!`, `reusable_com_interface!`,
  `support_interface!`, `forward_call`). The model covers what these expand to: tables,
  redeclarations, match arms and forwarders.
- `RtlGetVersion` and the `OnceLock` synchronisation. The detected build is an `Option`
  input, and the memo is a `Cell` value threaded through calls.
- Threads, the `mpsc` channel, `recv_timeout` timing, `SetThreadPriority` and joining. The
  listener loop sees a sequence of ticks instead. The answers of `ComObjects`
  (registration, unregistration and `is_connected`) are inputs.
- HSTRING and PWSTR contents, the sender closure, and logging. Names are plain text; the
  sender is the `sent` field of a response.
- The meaning of the `unknown1` … `unknown12` slots. Only their positions are modelled.
- The commented-out sortedness check in build_dyn.rs (lines 46-80), which is dead code.
- The modules build_16299, build_20348, build_22621_3155 and build_22631_3155 are not part of
  this model. The builds that reuse them take their tables as parameters; build_20348 appears
  only as a name in the version list.
- build_17663, build_19044_4355 and build_26100 are not in the version list. They are
  modelled as tables only, and no selection reaches them.
- `debug_assert_eq!` in the versioned→abstract conversions is a flag (`debug`) rather than a
  build mode.
- Symbol-tool I/O: file reads, the symbol-server download, tokio, PE/PDB parsing, printing.
  Demangling is an input, and the two-DLL loop is one `ScanIids` call per DLL.
- The `unreachable!` after the symbol lookup at main.rs:423-425. Every looked-up entry is
  public by construction, so the model has no such branch.
- `uuid::Uuid::from_slice_le` failing: given exactly 16 bytes it cannot fail, so it is not modelled.
- Dispatch.NotificationAdaptor: for the eight versions the interfaces do not list, the
  source's `From` impl (build_dyn.rs:753-762) has no match arm, so the crate gives no
  behaviour there; the model returns `None`, which is its own choice.
- Listener: `ComObjects` is not part of this model. Whether it accepts an unregistration
  is an input of each tick, because `Drop` (listener.rs:165) discards that answer.
- Dispatch.Iid: the contract says the IID is one of the two declared ones.
  `Dispatch.VersionIidAsDeclared` pins down which one.
- Listener.Run: the loop is bounded by the ticks given. A thread that never receives
  `Quit` is modelled by a finite prefix of its ticks.
- The parameter conventions of interfaces.rs (lines 7-13) are reflected only in the
  parameter types of the tables (`ComIn` inputs, `*mut Option<T>` outputs). No separate
  property is stated about them.
