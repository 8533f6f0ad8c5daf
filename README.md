# GNS3 GUI: QEMU VM wizard and VirtualBox VM preferences

This project models two pieces of the GNS3 graphical client in Dafny and
proves properties about them.

- The **QEMU VM wizard** (`QemuWizard`, `qemu_wizard.dfy`). It covers:
  - the page flow chosen by `nextId`;
  - the `validateCurrentPage` gate: server connection, name already in use, empty binary list;
  - how the remote-server and QEMU-binary combo boxes are filled;
  - the default-binary choice by host platform and word size;
  - the settings dictionary `getSettings` hands to the QEMU module.

  The wizard is a class. Its fields hold what the widgets hold:
  - the form (server radio button, VM type, name, RAM, image paths);
  - the current page;
  - the two combo boxes, as entries plus a current index;
  - the resolved server.

  Page flow, binary matching and the settings are pure functions, with lemmas about them.
- The **VirtualBox VM preferences page** (`VBoxPreferences`, `vbox_preferences.dfy`).
  - It keeps a working table of VM settings records, keyed by `"server:vmname"`.
  - Its slots add, edit or rename, delete, re-symbol, load and save records.
  - The page and the VirtualBox module are classes whose `vms` tables the slots reassign.
- Two support modules:
  - `Values` (`values.dfy`): Python values, `dict`s as maps, `KeyError` as a result.
  - `PyFormat` (`py_format.dfy`): `str.format` over a template's literal text and named fields. It raises `KeyError` for a field without a keyword argument.

The central invariant of the preferences page is `KeysMatch`. It says every record is stored under the key that its own "server" and "vmname" give. New, delete, symbol change and the intended rename all preserve it. The rename as written breaks it (see Findings).

Page ids come from the wizard's form description, which is not part of this model. The model infers them from `setStartId(1)` and the `+ 1` skips in `nextId`:
- 0: server
- 1: name and type
- 2: binary and memory
- 3: hda disk
- 4: ASA
- 5: hdb disk

The node categories are gns3's `Node.end_devices` (2) and `Node.security_devices` (3).

The "server" setting for a remote server is the combo box text `host:port` (line 293), with no prefix.

## Model

| member | source | states |
|---|---|---|
| QemuWizard.NextPageId | gns3/modules/qemu/dialogs/qemu_vm_wizard.py:329-354 | the next page is -1 (finish) or a later page; pages only move forward |
| QemuWizard.AsaPath | gns3/modules/qemu/dialogs/qemu_vm_wizard.py:340-352 | an ASA VM passes the binary page, then the ASA page, where the wizard ends; it never sees either disk page |
| QemuWizard.IdsPath | gns3/modules/qemu/dialogs/qemu_vm_wizard.py:345-349 | an IDS VM passes the binary page and both disk pages, ends on the hdb page and never sees the ASA page |
| QemuWizard.DefaultPath | gns3/modules/qemu/dialogs/qemu_vm_wizard.py:345-349 | a default VM ends on the hda disk page and never sees the ASA or hdb page |
| QemuWizard.StartPath | gns3/modules/qemu/dialogs/qemu_vm_wizard.py:72-74 | every path from the start passes the name page; the server page is on it exactly when the local server is not forced |
| QemuWizard.FindEndsWith | gns3/modules/qemu/dialogs/qemu_vm_wizard.py:279-281 | `findData` with MatchEndsWith: the first entry whose data ends with the suffix (case-insensitively), or -1 exactly when none does |
| QemuWizard.DefaultSuffix | gns3/modules/qemu/dialogs/qemu_vm_wizard.py:264-277 | the default binary suffix is a Windows `w.exe` build exactly on a "win" platform, and x86_64 exactly when maxsize exceeds 2**32 (i386 otherwise) |
| QemuWizard.IsNameUsed | gns3/modules/qemu/dialogs/qemu_vm_wizard.py:203-208 | the name check answers true exactly when some existing QEMU VM has that name |
| QemuWizard.ServerSettingNamesResolvedServer | gns3/modules/qemu/dialogs/qemu_vm_wizard.py:290-295 | the "server" setting names the server the server page resolved: "local", the remote entry's `host:port`, or "cloud" (a forced local server wins over the cloud button) |
| QemuWizard.TypeKeysAddToBase | gns3/modules/qemu/dialogs/qemu_vm_wizard.py:299-325 | no VM type overrides one of the four common settings |
| QemuWizard.Settings | gns3/modules/qemu/dialogs/qemu_vm_wizard.py:283-327 | the settings hold exactly the four common keys plus the VM type's keys, with the entered name and RAM, the binary path and the server text |
| QemuWizard.AsaSettingsHold | gns3/modules/qemu/dialogs/qemu_vm_wizard.py:306-314 | an ASA VM gets 6 adapters, its initrd and kernel, the fixed ASA kernel command line and options, the security-devices category, and no disk image |
| QemuWizard.IdsSettingsHold | gns3/modules/qemu/dialogs/qemu_vm_wizard.py:315-322 | an IDS VM gets 3 adapters, both disk images, the IDS options and the security-devices category |
| QemuWizard.DefaultSettingsHold | gns3/modules/qemu/dialogs/qemu_vm_wizard.py:323-325 | a default VM gets its hda image and the end-devices category, with no adapter count and no hdb image |
| QemuWizard.QemuVmWizard.constructor | gns3/modules/qemu/dialogs/qemu_vm_wizard.py:46-77 | a new wizard starts on the name page when the local server is forced (the server page otherwise), with the local server, empty combo boxes and the "Default" type |
| QemuWizard.QemuVmWizard.NextId | gns3/modules/qemu/dialogs/qemu_vm_wizard.py:329-354 | returns `NextPageId` for the current page and type; leaving the name page with a non-default type sets the RAM to 1024, and nothing else changes |
| QemuWizard.QemuVmWizard.ValidateCurrentPage | gns3/modules/qemu/dialogs/qemu_vm_wizard.py:188-215 | the server page accepts the cloud or a connected (or connectable) resolved server and stores the latter; the name page refuses a used name; the binary page refuses an empty list; other pages accept |
| QemuWizard.QemuVmWizard.InitializeServerPage | gns3/modules/qemu/dialogs/qemu_vm_wizard.py:219-222 | the remote combo box lists exactly the known remote servers in order, the first one current |
| QemuWizard.QemuVmWizard.InitializeBinaryPage | gns3/modules/qemu/dialogs/qemu_vm_wizard.py:223-237 | with the cloud chosen, the cloud binaries are appended after the existing entries and the first x86_64 entry is selected; otherwise the list is untouched until the server answers |
| QemuWizard.QemuVmWizard.FillBinaries | gns3/modules/qemu/dialogs/qemu_vm_wizard.py:257-262 | the list is replaced by one entry per reported binary, labelled "path (vversion)" or the bare path, with the path as data |
| QemuWizard.QemuVmWizard.BinariesCallback | gns3/modules/qemu/dialogs/qemu_vm_wizard.py:242-281 | a cancelled or failed request leaves the list alone; a response refills it and selects the first binary with the host's default suffix, or the first binary |
| QemuWizard.QemuVmWizard.GetSettings | gns3/modules/qemu/dialogs/qemu_vm_wizard.py:283-327 | the wizard's settings have the type's keys, the entered name and RAM, the server text `ServerSetting` gives for the form's radio button and the remote combo's current entry, and "qemu_path" is the selected entry's data, None when the list is empty |
| PyFormat.Format | gns3/modules/virtualbox/pages/virtualbox_vm_preferences_page.py:114 | `str.format` succeeds exactly when every field of the template has a keyword argument; otherwise it raises `KeyError` naming a missing field |
| PyFormat.FormatServerVmName | gns3/modules/virtualbox/pages/virtualbox_vm_preferences_page.py:114 | `"{server}:{vmname}"` with both keywords gives the server text, a colon and the VM name |
| PyFormat.FormatWithoutVmNameFails | gns3/modules/virtualbox/pages/virtualbox_vm_preferences_page.py:138 | `"{server}:{vmname}"` with keywords `server` and `name` raises `KeyError('vmname')` |
| VBoxPreferences.VmKey | gns3/modules/virtualbox/pages/virtualbox_vm_preferences_page.py:114 | a record's key exists exactly when it has a server and a VM name, and is "server:vmname"; otherwise `KeyError` names a missing field |
| VBoxPreferences.Merge | gns3/modules/virtualbox/pages/virtualbox_vm_preferences_page.py:115-116 | the defaults updated with the wizard's settings: every setting overrides, every other default is kept |
| VBoxPreferences.ListRows | gns3/modules/virtualbox/pages/virtualbox_vm_preferences_page.py:212-217 | the load loop finishes exactly when every record has a VM name and a symbol, and then lists every record once, showing its VM name |
| VBoxPreferences.Move | gns3/modules/virtualbox/pages/virtualbox_vm_preferences_page.py:144-145 | moving a record to a free key keeps the table's size and every other record, and drops the old key |
| VBoxPreferences.AsWrittenRenameRaises | gns3/modules/virtualbox/pages/virtualbox_vm_preferences_page.py:137-138 | as written, an accepted change of VM name raises `KeyError` ('vmname', or 'server' when that is missing), and the record stays under its old key with the new name |
| VBoxPreferences.AsWrittenRenameBreaksKeys | gns3/modules/virtualbox/pages/virtualbox_vm_preferences_page.py:133-138 | as written, renaming a correctly keyed record leaves the table with a record under a key that its server and name no longer give |
| VBoxPreferences.MissingStoredNameRaises | gns3/modules/virtualbox/pages/virtualbox_vm_preferences_page.py:132-134 | editing a row whose stored record has no VM name raises `KeyError('vmname')` before the dialog opens and leaves the table untouched |
| VBoxPreferences.UnchangedNameKeepsKeys | gns3/modules/virtualbox/pages/virtualbox_vm_preferences_page.py:136-137 | an edit that keeps the VM name shown on the row succeeds and keeps the table's keys and the row |
| VBoxPreferences.RenameOntoTakenKey | gns3/modules/virtualbox/pages/virtualbox_vm_preferences_page.py:139-143 | a rename onto a taken key is refused: the VM name is reverted to the row's text, and no key or other record changes |
| VBoxPreferences.RenameOntoFreeKey | gns3/modules/virtualbox/pages/virtualbox_vm_preferences_page.py:144-147 | a rename onto a free key moves the edited record to "server:newname", drops the old key, keeps the size and the other records, and points the row at the new key |
| VBoxPreferences.RenameKeepsKeysMatch | gns3/modules/virtualbox/pages/virtualbox_vm_preferences_page.py:137-147 | the intended rename keeps every record under the key its server and name give, when the dialog keeps the server |
| VBoxPreferences.WithSymbol | gns3/modules/virtualbox/pages/virtualbox_vm_preferences_page.py:199-201 | a symbol change sets the two symbols and the category, keeps every other field, and keeps the record's key |
| VBoxPreferences.PreferencesPage.constructor | gns3/modules/virtualbox/pages/virtualbox_vm_preferences_page.py:42-48 | a new page has an empty table and no rows |
| VBoxPreferences.PreferencesPage.NewVm | gns3/modules/virtualbox/pages/virtualbox_vm_preferences_page.py:104-123 | an accepted wizard stores the merged record under its "server:vmname" key and adds a row showing its name; a missing server, name or symbol raises `KeyError`; `KeysMatch` is preserved |
| VBoxPreferences.PreferencesPage.EditWithKeyword | gns3/modules/virtualbox/pages/virtualbox_vm_preferences_page.py:125-148 | the edit slot, with the keyword it passes for `{vmname}` as a parameter, changes the table as `EditStep` says: an unknown key or a stored record without a VM name raises `KeyError` before the dialog, otherwise the dialog's record is stored and a changed name is moved, refused or raises |
| VBoxPreferences.PreferencesPage.EditVm | gns3/modules/virtualbox/pages/virtualbox_vm_preferences_page.py:125-148 | the edit slot as written, with `name=` on line 138 |
| VBoxPreferences.PreferencesPage.RenameVm | gns3/modules/virtualbox/pages/virtualbox_vm_preferences_page.py:137-147 | the edit slot as intended, with `vmname=` |
| VBoxPreferences.PreferencesPage.DeleteVm | gns3/modules/virtualbox/pages/virtualbox_vm_preferences_page.py:150-159 | deleting removes exactly the current row's record, or raises `KeyError` for an unknown key; `KeysMatch` is preserved |
| VBoxPreferences.PreferencesPage.ChangeSymbol | gns3/modules/virtualbox/pages/virtualbox_vm_preferences_page.py:184-201 | an accepted symbol dialog replaces the current record by `WithSymbol` of it and changes nothing else; `KeysMatch` is preserved |
| VBoxPreferences.PreferencesPage.LoadPreferences | gns3/modules/virtualbox/pages/virtualbox_vm_preferences_page.py:203-221 | loading copies the module's table and lists all of it exactly when every record has a VM name and a symbol |
| VBoxPreferences.PreferencesPage.SavePreferences | gns3/modules/virtualbox/pages/virtualbox_vm_preferences_page.py:223-229 | saving hands the page's table to the module |

## Left out

- `gns3/news_dock_widget.py` is not part of this model. It is a web view of a news page, with no state logic.
- `_getDiskImage` and the four browse slots are left out. They are file dialogs, symlinks and copies on the file system.
- The network and server calls become parameters:
  - whether the resolved server is connected, and whether `ConnectToServer` succeeds, are inputs to `ValidateCurrentPage`;
  - the `getQemuBinariesFromServer` request is left out, and its response (cancelled, error, binary list) is the input of `BinariesCallback`.
- Process state becomes parameters:
  - `sys.platform` and `sys.maxsize` are inputs;
  - the QEMU module's `use_local_server` setting and the remote server registry are inputs;
  - `QEMU_BINARIES_FOR_CLOUD` and `VBOX_VM_SETTINGS` are inputs.
- Dialogs and widgets become inputs:
  - the VirtualBox wizard's settings, the configuration dialog's edited record and the symbol dialog's choice are arbitrary inputs;
  - each dialog's acceptance is a boolean;
  - the tree's current row is passed in.
- The UI is left out: message boxes, pixmaps and icons, the progress dialog, the info panel (`_refreshInfo`, `_vboxVMChangedSlot`), the context menu, enabling widgets, and the tree's sorting and current-item selection.
- Spin box clamping of the RAM value is not modelled.
- Radio buttons are assumed exclusive, with exactly one checked. The cloud button's visibility (`ENABLE_CLOUD`) is not modelled.
- The existing QEMU VMs are given by their names only.
- `QemuWizard.FindEndsWith`: case folding covers ASCII letters only.
- `PyFormat.Format`: templates are taken already parsed into text and named fields. Format specs, conversions and positional fields are not modelled.
- `VBoxPreferences.PreferencesPage.EditWithKeyword`: the source's row object is shared with `_items` and renamed in place. The model returns the new row instead and leaves `items` as it was. Aliasing between the page and the module's table after a save is not modelled either; the copy made by `loadPreferences` is.
- `VBoxPreferences.PreferencesPage.LoadPreferences`: the record order is Python's dict order, which the model leaves unspecified; any order is allowed.

## Findings

| source | as written | input that shows it | evidently intended | confidence | as-written member | corrected member |
|---|---|---|---|---|---|---|
| gns3/modules/virtualbox/pages/virtualbox_vm_preferences_page.py:138 | the new key is built as `"{server}:{vmname}".format(server=..., name=...)` | an accepted edit of the record "local:vm1" whose dialog changes "vmname" to "vm2" | `vmname=...`: the record moves to "local:vm2" (or is refused if that key is taken) | high; not executed | VBoxPreferences.PreferencesPage.EditVm | VBoxPreferences.PreferencesPage.RenameVm |

`VBoxPreferences.AsWrittenRenameRaises` and `VBoxPreferences.AsWrittenRenameBreaksKeys` state the as-written consequences:
- the slot raises `KeyError('vmname')`;
- the record keeps its old key while its name has changed.

`VBoxPreferences.RenameOntoTakenKey`, `VBoxPreferences.RenameOntoFreeKey` and `VBoxPreferences.RenameKeepsKeysMatch` prove that the corrected rename behaves as intended.
