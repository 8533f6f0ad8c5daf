/**
 * The QEMU VM creation wizard of the GNS3 GUI: its page flow, its validation
 * gate, the population of the QEMU binary list and the settings it hands to
 * the QEMU module.  Widgets are replaced by the values they hold.
 */
module QemuWizard {
  import opened Values

  // Page ids of the wizard form, in the order of the form's pages.
  const ServerPageId := 0
  const NameTypePageId := 1
  const BinaryMemoryPageId := 2
  const DiskPageId := 3
  const AsaPageId := 4
  const HdbPageId := 5

  // Node categories, as defined on gns3's Node class.
  const EndDevices := 2
  const SecurityDevices := 3

  const AsaKernelCommandLine := "ide_generic.probe_mask=0x01 ide_core.chs=0.0:980,16,32 auto nousb console=ttyS0,9600 bigphysarea=65536 ide1=noprobe no-hlt"
  const AsaOptions := "-nographic -cpu coreduo -icount auto -hdachs 980,16,32"
  const IdsOptions := "-smbios type=1,product=IDS-4215"

  /** The three entries of the type combo box: "Default", "ASA 8.4(2)" and "IDS". */
  datatype VmType = Default | Asa | Ids

  /** The three exclusive radio buttons of the server page. */
  datatype ServerChoice = LocalButton | RemoteButton | CloudButton

  /** What the user entered on the wizard's pages. */
  datatype Form = Form(
    serverChoice: ServerChoice,
    vmType: VmType,
    name: string,
    ram: int,
    hdaDiskImage: string,
    hdbDiskImage: string,
    initrd: string,
    kernelImage: string)

  datatype RemoteServer = RemoteServer(host: string, port: int)

  /** A server the wizard can run the VM on. */
  datatype ServerRef = LocalServer | Remote(remote: RemoteServer)

  /** One entry of the QEMU binary combo box: the text shown and the item data. */
  datatype ComboEntry = ComboEntry(text: string, data: string)

  /** One binary reported by a server; an empty version stands for a missing one. */
  datatype QemuBinary = QemuBinary(path: string, version: string)

  /** What the server choice on the server page resolves to. */
  datatype Resolution = Resolved(ref: ServerRef) | CloudTarget | NoRemoteServer

  /** The answer of the validation gate. */
  datatype Verdict =
    | Accepted
    | NotConnected      // the server is not connected and connecting to it failed
    | NoRemoteSelected  // remote chosen with an empty server list: the wizard raises AttributeError (`None.connected()`)
    | NameInUse
    | NoBinaries

  /* ---------------------------------------------------------------- page flow */

  /** The first page: the server page is skipped when the local server is forced. */
  function StartId(useLocalServer: bool): int
  {
    if useLocalServer then NameTypePageId else ServerPageId
  }

  /** QWizard's static order: the page with the next id, or -1 after the last page. */
  function StaticNextId(id: int): int
  {
    if ServerPageId <= id < HdbPageId then id + 1 else -1
  }

  /** The page chosen by `nextId` when leaving page `current`. */
  function NextPageId(current: int, t: VmType): (r: int)
    ensures r == -1 || current < r <= HdbPageId
  {
    if current == BinaryMemoryPageId && t == Asa then StaticNextId(current) + 1
    else if current == DiskPageId then (if t == Ids then StaticNextId(current) + 1 else -1)
    else if current == AsaPageId then -1
    else StaticNextId(current)
  }

  /** The pages visited from page `id` on, the last one finishing the wizard. */
  function Path(id: int, t: VmType): seq<int>
    decreases HdbPageId + 1 - id
  {
    if id < ServerPageId || id > HdbPageId then []
    else
      var next := NextPageId(id, t);
      if next == -1 then [id] else [id] + Path(next, t)
  }

  /** An ASA VM goes from the binary page straight to the ASA page, which ends the wizard. */
  lemma {:induction false} AsaPath(id: int)
    requires ServerPageId <= id <= BinaryMemoryPageId
    ensures BinaryMemoryPageId in Path(id, Asa) && AsaPageId in Path(id, Asa)
    ensures DiskPageId !in Path(id, Asa) && HdbPageId !in Path(id, Asa)
    ensures Path(id, Asa)[|Path(id, Asa)| - 1] == AsaPageId
    decreases BinaryMemoryPageId - id
  {
    if id < BinaryMemoryPageId {
      AsaPath(id + 1);
      assert Path(id, Asa) == [id] + Path(id + 1, Asa);
    } else {
      assert Path(AsaPageId, Asa) == [AsaPageId];
      assert Path(id, Asa) == [id, AsaPageId];
    }
  }

  /** An IDS VM goes through both disk pages and finishes on the second. */
  lemma {:induction false} IdsPath(id: int)
    requires ServerPageId <= id <= DiskPageId
    ensures id <= BinaryMemoryPageId ==> BinaryMemoryPageId in Path(id, Ids)
    ensures DiskPageId in Path(id, Ids) && HdbPageId in Path(id, Ids)
    ensures AsaPageId !in Path(id, Ids)
    ensures Path(id, Ids)[|Path(id, Ids)| - 1] == HdbPageId
    decreases DiskPageId - id
  {
    if id < DiskPageId {
      IdsPath(id + 1);
      assert Path(id, Ids) == [id] + Path(id + 1, Ids);
    } else {
      assert Path(HdbPageId, Ids) == [HdbPageId];
      assert Path(id, Ids) == [id, HdbPageId];
    }
  }

  /** A default VM finishes on the first disk page and never sees the ASA or second disk page. */
  lemma {:induction false} DefaultPath(id: int)
    requires ServerPageId <= id <= DiskPageId
    ensures id <= BinaryMemoryPageId ==> BinaryMemoryPageId in Path(id, Default)
    ensures DiskPageId in Path(id, Default)
    ensures AsaPageId !in Path(id, Default) && HdbPageId !in Path(id, Default)
    ensures Path(id, Default)[|Path(id, Default)| - 1] == DiskPageId
    decreases DiskPageId - id
  {
    if id < DiskPageId {
      DefaultPath(id + 1);
      assert Path(id, Default) == [id] + Path(id + 1, Default);
    } else {
      assert Path(id, Default) == [id];
    }
  }

  /** From the start page every VM type passes the name page; the server page only without the forced local server. */
  lemma StartPath(useLocalServer: bool, t: VmType)
    ensures NameTypePageId in Path(StartId(useLocalServer), t)
    ensures ServerPageId in Path(StartId(useLocalServer), t) <==> !useLocalServer
  {
    var p := Path(NameTypePageId, t);
    assert p == [NameTypePageId] + Path(BinaryMemoryPageId, t);
    assert Path(ServerPageId, t) == [ServerPageId] + p;
    assert ServerPageId !in p by {
      match t
      case Asa => AsaPath(NameTypePageId);
      case Ids => IdsPath(NameTypePageId);
      case Default => DefaultPath(NameTypePageId);
      if ServerPageId in p {
        var k :| 0 <= k < |p| && p[k] == ServerPageId;
        PathAbove(NameTypePageId, t, k);
      }
    }
  }

  /** Every page on a path from `id` comes at or after `id`. */
  lemma {:induction false} PathAbove(id: int, t: VmType, k: int)
    requires 0 <= k < |Path(id, t)|
    ensures Path(id, t)[k] >= id
    decreases HdbPageId + 1 - id
  {
    var next := NextPageId(id, t);
    if k > 0 {
      PathAbove(next, t, k - 1);
    }
  }

  /* ------------------------------------------------------- binary selection */

  predicate StartsWith(s: string, prefix: string)
  {
    |prefix| <= |s| && s[..|prefix|] == prefix
  }

  function LowerAscii(c: char): char
  {
    if 'A' <= c <= 'Z' then (c as int + 32) as char else c
  }

  /**
   * Qt's MatchEndsWith without MatchCaseSensitive: `s` ends with `suffix`,
   * letters compared without case.
   */
  predicate EndsWithIgnoringCase(s: string, suffix: string)
  {
    && |suffix| <= |s|
    && forall k :: 0 <= k < |suffix| ==> LowerAscii(s[|s| - |suffix| + k]) == LowerAscii(suffix[k])
  }

  /** `findData(suffix, flags=MatchEndsWith)`: the first entry whose data ends with `suffix`, or -1. */
  function FindEndsWith(entries: seq<ComboEntry>, suffix: string): (r: int)
    ensures -1 <= r < |entries|
    ensures r >= 0 ==> EndsWithIgnoringCase(entries[r].data, suffix)
    ensures r >= 0 ==> forall k :: 0 <= k < r ==> !EndsWithIgnoringCase(entries[k].data, suffix)
    ensures r == -1 ==> forall k :: 0 <= k < |entries| ==> !EndsWithIgnoringCase(entries[k].data, suffix)
  {
    if entries == [] then -1
    else if EndsWithIgnoringCase(entries[0].data, suffix) then 0
    else
      var r := FindEndsWith(entries[1..], suffix);
      if r == -1 then -1 else r + 1
  }

  /**
   * The suffix of the default binary: Windows hosts (`sys.platform` starting
   * with "win") get the windowless ".exe" build, 64-bit hosts (`sys.maxsize`
   * above 2**32) the x86_64 build.
   */
  function DefaultSuffix(platform: string, maxsize: int): (r: string)
    ensures StartsWith(platform, "win") <==> EndsWithIgnoringCase(r, "w.exe")
    ensures maxsize > 0x1_0000_0000 <==> StartsWith(r, "x86_64")
    ensures !StartsWith(r, "x86_64") ==> StartsWith(r, "i386")
  {
    var is64 := maxsize > 0x1_0000_0000;
    if StartsWith(platform, "win") then
      if is64 then "x86_64w.exe"
      else
        var r := "i386w.exe";
        assert r[0] != 'x';
        r
    else if is64 then
      var r := "x86_64";
      assert LowerAscii(r[|r| - |"w.exe"| + 0]) != LowerAscii("w.exe"[0]);
      r
    else "i386"
  }

  /** The text of a binary entry: `"path (vversion)"`, or the bare path without a version. */
  function BinaryLabel(b: QemuBinary): string
  {
    if b.version != "" then b.path + " (v" + b.version + ")" else b.path
  }

  /** A combo box index: -1 exactly when the box is empty. */
  predicate ComboIndexValid(count: int, index: int)
  {
    -1 <= index < count && (count == 0 <==> index == -1)
  }

  /* ---------------------------------------------------------- server choice */

  /** The text "host:port" of a remote server entry. */
  function RemoteLabel(r: RemoteServer): string
  {
    r.host + ":" + Decimal(r.port)
  }

  /** The server that leaving the server page resolves to. */
  function ResolveServer(useLocalServer: bool, choice: ServerChoice,
                         remotes: seq<RemoteServer>, index: int): Resolution
  {
    if choice == CloudButton then CloudTarget
    else if useLocalServer || choice == LocalButton then Resolved(LocalServer)
    else if 0 <= index < |remotes| then Resolved(Remote(remotes[index]))
    else NoRemoteServer
  }

  /** The "server" setting: "local", the remote combo text, or "cloud". */
  function ServerSetting(useLocalServer: bool, choice: ServerChoice,
                         remotes: seq<RemoteServer>, index: int): string
  {
    if useLocalServer || choice == LocalButton then "local"
    else if choice == RemoteButton then
      (if 0 <= index < |remotes| then RemoteLabel(remotes[index]) else "")
    else "cloud"
  }

  /** The "server" setting names the server the server page resolved, except that a forced local server wins over the cloud button. */
  lemma ServerSettingNamesResolvedServer(useLocalServer: bool, choice: ServerChoice,
                                         remotes: seq<RemoteServer>, index: int)
    ensures var res := ResolveServer(useLocalServer, choice, remotes, index);
            var s := ServerSetting(useLocalServer, choice, remotes, index);
            && (res == Resolved(LocalServer) ==> s == "local")
            && (res.Resolved? && res.ref.Remote? ==> s == RemoteLabel(res.ref.remote))
            && (res == CloudTarget ==> s == (if useLocalServer then "local" else "cloud"))
            && (res == NoRemoteServer ==> s == "")
  {
  }

  /** The name check of the name page: is `name` the name of an existing VM (exact, case-sensitive)? */
  method IsNameUsed(name: string, names: seq<string>) returns (used: bool)
    ensures used <==> name in names
  {
    var i := 0;
    while i < |names|
      invariant 0 <= i <= |names|
      invariant forall k :: 0 <= k < i ==> names[k] != name
    {
      if names[i] == name {
        return true;
      }
      i := i + 1;
    }
    return false;
  }

  /* ------------------------------------------------------------ settings */

  const BaseKeys: set<string> := {"name", "ram", "qemu_path", "server"}
  const AsaKeys: set<string> := {"adapters", "initrd", "kernel_image", "kernel_command_line", "options",
                                 "default_symbol", "hover_symbol", "category"}
  const IdsKeys: set<string> := {"adapters", "hda_disk_image", "hdb_disk_image", "options",
                                 "default_symbol", "hover_symbol", "category"}
  const DefaultKeys: set<string> := {"hda_disk_image", "category"}

  /** The settings every VM type gets. */
  function BaseSettings(name: string, ram: int, qemuPath: Value, server: string): (s: Dict)
    ensures s.Keys == BaseKeys
  {
    map["name" := Str(name), "ram" := Int(ram), "qemu_path" := qemuPath, "server" := Str(server)]
  }

  /** The settings an ASA 8.4(2) VM adds: six adapters, a kernel and initrd, and the security-devices category. */
  function AsaSettings(initrd: string, kernelImage: string): (s: Dict)
    ensures s.Keys == AsaKeys
  {
    map["adapters" := Int(6), "initrd" := Str(initrd), "kernel_image" := Str(kernelImage),
        "kernel_command_line" := Str(AsaKernelCommandLine), "options" := Str(AsaOptions),
        "default_symbol" := Str(":/symbols/asa.normal.svg"),
        "hover_symbol" := Str(":/symbols/asa.selected.svg"),
        "category" := Int(SecurityDevices)]
  }

  /** The settings an IDS VM adds: three adapters, two disks, and the security-devices category. */
  function IdsSettings(hda: string, hdb: string): (s: Dict)
    ensures s.Keys == IdsKeys
  {
    map["adapters" := Int(3), "hda_disk_image" := Str(hda), "hdb_disk_image" := Str(hdb),
        "options" := Str(IdsOptions),
        "default_symbol" := Str(":/symbols/ids.normal.svg"),
        "hover_symbol" := Str(":/symbols/ids.selected.svg"),
        "category" := Int(SecurityDevices)]
  }

  /** The settings a default VM adds: its disk and the end-devices category. */
  function DefaultSettings(hda: string): (s: Dict)
    ensures s.Keys == DefaultKeys
  {
    map["hda_disk_image" := Str(hda), "category" := Int(EndDevices)]
  }

  /** The "qemu_path" setting: the data of the selected binary entry, None without one. */
  function QemuPath(binaries: seq<ComboEntry>, index: int): Value
  {
    if 0 <= index < |binaries| then Str(binaries[index].data) else Null
  }

  /** The keys the VM type adds to the four common settings. */
  function TypeKeys(t: VmType): set<string>
  {
    match t
    case Asa => AsaKeys
    case Ids => IdsKeys
    case Default => DefaultKeys
  }

  /** No VM type overrides one of the four common settings. */
  lemma TypeKeysAddToBase(t: VmType)
    ensures BaseKeys !! TypeKeys(t)
  {
  }

  /** The settings the VM type adds. */
  function TypeSettings(f: Form): (s: Dict)
    ensures s.Keys == TypeKeys(f.vmType)
  {
    match f.vmType
    case Asa => AsaSettings(f.initrd, f.kernelImage)
    case Ids => IdsSettings(f.hdaDiskImage, f.hdbDiskImage)
    case Default => DefaultSettings(f.hdaDiskImage)
  }

  /**
   * `getSettings` for a filled-in form, the resolved "server" text and the
   * selected binary: the four common settings plus those of the VM type.
   */
  function Settings(f: Form, server: string, qemuPath: Value): (s: Dict)
    ensures s.Keys == BaseKeys + TypeKeys(f.vmType)
    ensures s["name"] == Str(f.name) && s["ram"] == Int(f.ram)
    ensures s["qemu_path"] == qemuPath && s["server"] == Str(server)
  {
    var base := BaseSettings(f.name, f.ram, qemuPath, server);
    var extra := TypeSettings(f);
    TypeKeysAddToBase(f.vmType);
    base + extra
  }

  /** An ASA VM gets six adapters, its kernel and initrd and the fixed ASA command line and options, as a security device, and no disk image. */
  lemma AsaSettingsHold(f: Form, server: string, qemuPath: Value)
    requires f.vmType == Asa
    ensures var s := Settings(f, server, qemuPath);
      && s["adapters"] == Int(6) && s["category"] == Int(SecurityDevices)
      && s["initrd"] == Str(f.initrd) && s["kernel_image"] == Str(f.kernelImage)
      && s["kernel_command_line"] == Str(AsaKernelCommandLine) && s["options"] == Str(AsaOptions)
      && "hda_disk_image" !in s
  {
    var extra := AsaSettings(f.initrd, f.kernelImage);
    assert Settings(f, server, qemuPath) == BaseSettings(f.name, f.ram, qemuPath, server) + extra;
    assert "hda_disk_image" !in BaseKeys + AsaKeys;
  }

  /** An IDS VM gets three adapters, both disk images and the IDS options, as a security device. */
  lemma IdsSettingsHold(f: Form, server: string, qemuPath: Value)
    requires f.vmType == Ids
    ensures var s := Settings(f, server, qemuPath);
      && s["adapters"] == Int(3) && s["category"] == Int(SecurityDevices)
      && s["hda_disk_image"] == Str(f.hdaDiskImage) && s["hdb_disk_image"] == Str(f.hdbDiskImage)
      && s["options"] == Str(IdsOptions)
  {
    var extra := IdsSettings(f.hdaDiskImage, f.hdbDiskImage);
    assert Settings(f, server, qemuPath) == BaseSettings(f.name, f.ram, qemuPath, server) + extra;
  }

  /** A default VM gets only its disk image, as an end device, and no adapter count. */
  lemma DefaultSettingsHold(f: Form, server: string, qemuPath: Value)
    requires f.vmType == Default
    ensures var s := Settings(f, server, qemuPath);
      && s["hda_disk_image"] == Str(f.hdaDiskImage) && s["category"] == Int(EndDevices)
      && "adapters" !in s && "hdb_disk_image" !in s
  {
    var extra := DefaultSettings(f.hdaDiskImage);
    assert Settings(f, server, qemuPath) == BaseSettings(f.name, f.ram, qemuPath, server) + extra;
    assert "adapters" !in BaseKeys + DefaultKeys;
    assert "hdb_disk_image" !in BaseKeys + DefaultKeys;
  }

  /* ------------------------------------------------------------- the wizard */

  class QemuVmWizard {
    /** The `name` field of every VM the QEMU module already has. */
    const qemuVmNames: seq<string>
    /** The QEMU module's `use_local_server` setting. */
    const useLocalServer: bool
    const startId: int

    var currentId: int
    var form: Form
    // the remote server combo box
    var remoteServers: seq<RemoteServer>
    var remoteIndex: int
    /** The server the binaries are requested from. */
    var server: ServerRef
    // the QEMU binary combo box
    var binaries: seq<ComboEntry>
    var binaryIndex: int

    ghost predicate Valid()
      reads this
    {
      && ComboIndexValid(|remoteServers|, remoteIndex)
      && ComboIndexValid(|binaries|, binaryIndex)
    }

    /** A new wizard; `ram` and `choice` are the form's initial spin box value and checked radio button. */
    constructor (qemuVmNames: seq<string>, useLocalServer: bool, ram: int, choice: ServerChoice)
      ensures Valid()
      ensures this.qemuVmNames == qemuVmNames && this.useLocalServer == useLocalServer
      ensures startId == StartId(useLocalServer) && currentId == startId
      ensures form == Form(choice, Default, "", ram, "", "", "", "")
      ensures server == LocalServer && binaries == [] && remoteServers == []
    {
      this.qemuVmNames := qemuVmNames;
      this.useLocalServer := useLocalServer;
      startId := if useLocalServer then NameTypePageId else ServerPageId;
      currentId := if useLocalServer then NameTypePageId else ServerPageId;
      // "Default" is the first entry of the type combo box, so it starts selected
      form := Form(choice, Default, "", ram, "", "", "", "");
      remoteServers, remoteIndex := [], -1;
      server := LocalServer;
      binaries, binaryIndex := [], -1;
    }

    /** `nextId`: the page after the current one; leaving the name page with a non-default type sets the RAM to 1024. */
    method NextId() returns (r: int)
      modifies this`form
      ensures r == NextPageId(currentId, form.vmType)
      ensures form == if currentId == NameTypePageId && form.vmType != Default
                      then old(form).(ram := 1024) else old(form)
    {
      if currentId == NameTypePageId {
        if form.vmType != Default {
          form := form.(ram := 1024);
        }
      } else if currentId == BinaryMemoryPageId {
        if form.vmType == Asa {
          return StaticNextId(BinaryMemoryPageId) + 1;
        }
      } else if currentId == DiskPageId {
        if form.vmType == Ids {
          return StaticNextId(DiskPageId) + 1;
        }
        return -1;
      } else if currentId == AsaPageId {
        return -1;
      }
      return StaticNextId(currentId);
    }

    /**
     * `validateCurrentPage`, given whether the resolved server is connected
     * and whether an interactive connection to it would succeed.
     */
    method ValidateCurrentPage(serverConnected: bool, connectSucceeds: bool) returns (v: Verdict)
      modifies this`server
      ensures currentId == ServerPageId ==>
        var res := ResolveServer(useLocalServer, form.serverChoice, remoteServers, remoteIndex);
        if res.CloudTarget? then v == Accepted && server == old(server)
        else if res.NoRemoteServer? then v == NoRemoteSelected && server == old(server)
        else if !serverConnected && !connectSucceeds then v == NotConnected && server == old(server)
        else v == Accepted && server == res.ref
      ensures currentId != ServerPageId ==> server == old(server)
      ensures currentId == NameTypePageId ==> v == (if form.name in qemuVmNames then NameInUse else Accepted)
      ensures currentId == BinaryMemoryPageId ==> v == (if binaries == [] then NoBinaries else Accepted)
      ensures currentId !in {ServerPageId, NameTypePageId, BinaryMemoryPageId} ==> v == Accepted
    {
      if currentId == ServerPageId {
        if form.serverChoice != CloudButton {
          var candidate: ServerRef;
          if useLocalServer || form.serverChoice == LocalButton {
            candidate := LocalServer;
          } else if 0 <= remoteIndex < |remoteServers| {
            candidate := Remote(remoteServers[remoteIndex]);
          } else {
            return NoRemoteSelected;
          }
          if !serverConnected && !connectSucceeds {
            return NotConnected;
          }
          server := candidate;
        }
      }
      if currentId == NameTypePageId {
        var used := IsNameUsed(form.name, qemuVmNames);
        if used {
          return NameInUse;
        }
      }
      if currentId == BinaryMemoryPageId {
        if |binaries| == 0 {
          return NoBinaries;
        }
      }
      return Accepted;
    }

    /** `initializePage` of the server page: the remote combo box lists the known remote servers. */
    method InitializeServerPage(registry: seq<RemoteServer>)
      requires Valid()
      modifies this`remoteServers, this`remoteIndex
      ensures Valid()
      ensures remoteServers == registry
      ensures remoteIndex == (if registry == [] then -1 else 0)
    {
      remoteServers, remoteIndex := [], -1;
      for i := 0 to |registry|
        invariant remoteServers == registry[..i]
        invariant remoteIndex == (if i == 0 then -1 else 0)
      {
        remoteServers := remoteServers + [registry[i]];
        // a combo box selects the first item inserted into it while empty
        if remoteIndex == -1 {
          remoteIndex := 0;
        }
      }
    }

    /**
     * `initializePage` of the binary page.  With the cloud chosen, every cloud
     * binary is appended (the list is not cleared) and the first x86_64 one
     * selected.  Otherwise the binaries are requested from `server`, which
     * answers through `BinariesCallback`; the list is left as it is.
     */
    method InitializeBinaryPage(cloudBinaries: seq<string>)
      requires Valid()
      modifies this`binaries, this`binaryIndex
      ensures Valid()
      ensures form.serverChoice != CloudButton ==> binaries == old(binaries) && binaryIndex == old(binaryIndex)
      ensures form.serverChoice == CloudButton ==>
        && |binaries| == |old(binaries)| + |cloudBinaries|
        && binaries[..|old(binaries)|] == old(binaries)
        && (forall k :: 0 <= k < |cloudBinaries| ==>
              binaries[|old(binaries)| + k] == ComboEntry(cloudBinaries[k], cloudBinaries[k]))
      ensures form.serverChoice == CloudButton ==>
        var found := FindEndsWith(binaries, "x86_64");
        binaryIndex == (if found != -1 then found
                        else if old(binaries) == [] && cloudBinaries != [] then 0
                        else old(binaryIndex))
    {
      if form.serverChoice == CloudButton {
        for i := 0 to |cloudBinaries|
          invariant |binaries| == |old(binaries)| + i
          invariant binaries[..|old(binaries)|] == old(binaries)
          invariant forall k :: 0 <= k < i ==>
            binaries[|old(binaries)| + k] == ComboEntry(cloudBinaries[k], cloudBinaries[k])
          invariant binaryIndex == (if old(binaries) == [] && i > 0 then 0 else old(binaryIndex))
        {
          binaries := binaries + [ComboEntry(cloudBinaries[i], cloudBinaries[i])];
          if binaryIndex == -1 {
            binaryIndex := 0;
          }
        }
        var index := FindEndsWith(binaries, "x86_64");
        if index != -1 {
          binaryIndex := index;
        }
      }
    }

    /** Clears the binary combo box and adds one entry per reported binary, in order. */
    method FillBinaries(qemus: seq<QemuBinary>)
      requires Valid()
      modifies this`binaries, this`binaryIndex
      ensures Valid()
      ensures |binaries| == |qemus|
      ensures forall k :: 0 <= k < |qemus| ==> binaries[k] == ComboEntry(BinaryLabel(qemus[k]), qemus[k].path)
      ensures binaryIndex == (if qemus == [] then -1 else 0)
    {
      binaries, binaryIndex := [], -1;
      for i := 0 to |qemus|
        invariant |binaries| == i
        invariant forall k :: 0 <= k < i ==> binaries[k] == ComboEntry(BinaryLabel(qemus[k]), qemus[k].path)
        invariant binaryIndex == (if i == 0 then -1 else 0)
      {
        binaries := binaries + [ComboEntry(BinaryLabel(qemus[i]), qemus[i].path)];
        // a combo box selects the first item inserted into it while empty
        if binaryIndex == -1 {
          binaryIndex := 0;
        }
      }
    }

    /**
     * `_getQemuBinariesFromServerCallback`: a response arriving after the
     * progress dialog was cancelled is ignored, an error leaves the list as
     * it is, and a successful response replaces the list and selects the
     * first binary with the host's default suffix.
     */
    method BinariesCallback(canceled: bool, error: bool, qemus: seq<QemuBinary>,
                            platform: string, maxsize: int)
      requires Valid()
      modifies this`binaries, this`binaryIndex
      ensures Valid()
      ensures canceled || error ==> binaries == old(binaries) && binaryIndex == old(binaryIndex)
      ensures !canceled && !error ==>
        && |binaries| == |qemus|
        && forall k :: 0 <= k < |qemus| ==> binaries[k] == ComboEntry(BinaryLabel(qemus[k]), qemus[k].path)
      ensures !canceled && !error ==>
        var found := FindEndsWith(binaries, DefaultSuffix(platform, maxsize));
        binaryIndex == (if found != -1 then found else if qemus == [] then -1 else 0)
    {
      if canceled || error {
        return;
      }
      FillBinaries(qemus);
      var suffix := DefaultSuffix(platform, maxsize);
      var index := FindEndsWith(binaries, suffix);
      if index != -1 {
        binaryIndex := index;
      }
    }

    /**
     * `getSettings`: the settings of the new VM.  "qemu_path" is the data of
     * the selected binary entry, None while the binary list is empty.
     */
    function GetSettings(): (s: Dict)
      reads this
      ensures s.Keys == BaseKeys + TypeKeys(form.vmType)
      ensures s["name"] == Str(form.name) && s["ram"] == Int(form.ram)
      ensures s["server"] == Str(ServerSetting(useLocalServer, form.serverChoice, remoteServers, remoteIndex))
      ensures Valid() ==> s["qemu_path"] == (if binaries == [] then Null else Str(binaries[binaryIndex].data))
    {
      Settings(form, ServerSetting(useLocalServer, form.serverChoice, remoteServers, remoteIndex),
               QemuPath(binaries, binaryIndex))
    }
  }
}
