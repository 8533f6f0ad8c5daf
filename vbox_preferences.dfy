/**
 * The VirtualBox VM preferences page of the GNS3 GUI: its table of VM
 * settings records, keyed by "server:vmname", and the slots that add,
 * edit, rename, delete, re-symbol, load and save them.
 */
module VBoxPreferences {
  import opened Values
  import opened PyFormat

  /** A row of the VM tree: the text shown and the table key stored as its data. */
  datatype TreeItem = TreeItem(text: string, key: string)

  /** The key of a VM's record: `"{server}:{vmname}".format(server=..., vmname=...)`. */
  function VmKey(settings: Dict): (r: Result<string>)
    ensures r.Ok? <==> "server" in settings && "vmname" in settings
    ensures r.Ok? ==> r.value == Render(settings["server"]) + ":" + Render(settings["vmname"])
    ensures r.KeyError? ==> r.key in {"server", "vmname"} && r.key !in settings
  {
    if "server" !in settings then KeyError("server")
    else if "vmname" !in settings then KeyError("vmname")
    else
      var args := map["server" := settings["server"], "vmname" := settings["vmname"]];
      FormatServerVmName(settings["server"], settings["vmname"], args);
      Format(ServerVmNameTemplate, args)
  }

  /** `VBOX_VM_SETTINGS.copy()` updated with `settings`: every field of `settings` overrides the default. */
  function Merge(defaults: Dict, settings: Dict): (r: Dict)
    ensures r.Keys == defaults.Keys + settings.Keys
    ensures forall k :: k in settings ==> r[k] == settings[k]
    ensures forall k :: k in defaults && k !in settings ==> r[k] == defaults[k]
  {
    defaults + settings
  }

  /** Every record is stored under the key its own server and VM name give. */
  predicate KeysMatch(vms: map<string, Dict>)
  {
    forall k :: k in vms ==> VmKey(vms[k]) == Ok(k)
  }

  /** The configuration dialog left the record's server as it was and its VM name present. */
  predicate KeepsServer(before: Dict, after: Dict)
  {
    "server" in before && "server" in after && after["server"] == before["server"] && "vmname" in after
  }

  /** The records the tree can list: those with a VM name and a symbol. */
  predicate Listable(vm: Dict)
  {
    "vmname" in vm && "default_symbol" in vm
  }

  /** Two keys built from the same server and different VM names differ. */
  lemma {:induction false} DistinctNamesDistinctKeys(server: string, a: string, b: string)
    requires a != b
    ensures server + ":" + a != server + ":" + b
  {
    var p := server + ":";
    assert server + ":" + a == p + a && server + ":" + b == p + b;
    if |a| == |b| {
      var k :| 0 <= k < |a| && a[k] != b[k];
      assert (p + a)[|p| + k] == a[k] && (p + b)[|p| + k] == b[k];
    } else {
      assert |p + a| != |p + b|;
    }
  }

  /** A tree row showing the VM name of the record stored under its key. */
  predicate ShowsRecord(row: TreeItem, table: map<string, Dict>)
  {
    row.key in table && Listable(table[row.key]) && row.text == Render(table[row.key]["vmname"])
  }

  /** The table keys the rows refer to. */
  function RowKeys(rows: seq<TreeItem>): set<string>
  {
    set i | 0 <= i < |rows| :: rows[i].key
  }

  lemma RowKeysAppend(rows: seq<TreeItem>, row: TreeItem)
    ensures RowKeys(rows + [row]) == RowKeys(rows) + {row.key}
  {
    var extended := rows + [row];
    assert forall i :: 0 <= i < |rows| ==> extended[i] == rows[i];
    assert extended[|rows|] == row;
  }

  /** The rows list every record of the table exactly once, each showing its VM name. */
  predicate RowsList(rows: seq<TreeItem>, table: map<string, Dict>)
  {
    && |rows| == |table|
    && RowKeys(rows) == table.Keys
    && forall i :: 0 <= i < |rows| ==> ShowsRecord(rows[i], table)
  }

  /** The rows so far list each record of the table not in `remaining` once. */
  predicate ListedSoFar(rows: seq<TreeItem>, table: map<string, Dict>, remaining: set<string>)
  {
    && remaining <= table.Keys
    && RowKeys(rows) == table.Keys - remaining
    && |rows| + |remaining| == |table|
    && forall i :: 0 <= i < |rows| ==> ShowsRecord(rows[i], table)
  }

  /** Listing one more listable record keeps `ListedSoFar`. */
  lemma ListOne(rows: seq<TreeItem>, table: map<string, Dict>, remaining: set<string>, key: string)
    requires ListedSoFar(rows, table, remaining) && key in remaining && Listable(table[key])
    ensures ListedSoFar(rows + [TreeItem(Render(table[key]["vmname"]), key)], table, remaining - {key})
  {
    var row := TreeItem(Render(table[key]["vmname"]), key);
    RowKeysAppend(rows, row);
    var extended := rows + [row];
    forall i | 0 <= i < |extended|
      ensures ShowsRecord(extended[i], table)
    {
      if i < |rows| {
        assert extended[i] == rows[i];
      }
    }
  }

  /** Once nothing remains, the rows list the whole table, and every record is listable. */
  lemma ListedAll(rows: seq<TreeItem>, table: map<string, Dict>)
    requires ListedSoFar(rows, table, {})
    ensures RowsList(rows, table)
    ensures forall k :: k in table ==> Listable(table[k])
  {
    forall k | k in table
      ensures Listable(table[k])
    {
      assert k in RowKeys(rows);
      var i :| 0 <= i < |rows| && rows[i].key == k;
      assert ShowsRecord(rows[i], table);
    }
  }

  /**
   * The loop of `loadPreferences`: one row per record, in the table's
   * iteration order, stopping with `KeyError` at a record without a VM name
   * or symbol.
   */
  method ListRows(table: map<string, Dict>) returns (outcome: Outcome, rows: seq<TreeItem>)
    ensures outcome == Done <==> forall k :: k in table ==> Listable(table[k])
    ensures outcome == Done ==> RowsList(rows, table)
  {
    rows := [];
    var remaining := table.Keys;
    while remaining != {}
      invariant ListedSoFar(rows, table, remaining)
      decreases remaining
    {
      var key :| key in remaining;
      if !Listable(table[key]) {
        return Raised(if "vmname" !in table[key] then "vmname" else "default_symbol"), rows;
      }
      ListOne(rows, table, remaining, key);
      rows := rows + [TreeItem(Render(table[key]["vmname"]), key)];
      remaining := remaining - {key};
    }
    ListedAll(rows, table);
    return Done, rows;
  }

  /**
   * Re-keys a record: stores it under `to`, then deletes `from`.  The table
   * keeps its size and every other record.
   */
  function Move(vms: map<string, Dict>, from: string, to: string): (r: map<string, Dict>)
    requires from in vms && to !in vms
    ensures r.Keys == vms.Keys - {from} + {to} && from !in r
    ensures |r| == |vms|
    ensures r[to] == vms[from]
    ensures forall k :: k in r && k != to ==> r[k] == vms[k]
  {
    var r := vms[to := vms[from]] - {from};
    assert r.Keys == vms.Keys - {from} + {to};
    r
  }

  /** The table, outcome and current row after an edit. */
  datatype EditResult = EditResult(vms: map<string, Dict>, outcome: Outcome, item: Option<TreeItem>)

  /**
   * The effect of `_vboxVMEditSlot` on the table when the new key is built
   * as `"{server}:{vmname}".format(server=..., <keyword>=...)`.
   */
  function EditStep(vms: map<string, Dict>, item: Option<TreeItem>, accepted: bool, edited: Dict,
                    keyword: string): EditResult
  {
    if item.None? then EditResult(vms, Done, item)
    else
      var key := item.value.key;
      if key !in vms then EditResult(vms, Raised(key), item)
      // the dialog is opened with the stored VM name as its title
      else if "vmname" !in vms[key] then EditResult(vms, Raised("vmname"), item)
      else
        var edits := vms[key := edited];
        if !accepted then EditResult(edits, Done, item)
        else if "vmname" !in edited then EditResult(edits, Raised("vmname"), item)
        else if edited["vmname"] == Str(item.value.text) then EditResult(edits, Done, item)
        else if "server" !in edited then EditResult(edits, Raised("server"), item)
        else
          var newKey := Format(ServerVmNameTemplate, map["server" := edited["server"], keyword := edited["vmname"]]);
          if newKey.KeyError? then EditResult(edits, Raised(newKey.key), item)
          else if newKey.value in edits then
            EditResult(edits[key := edited["vmname" := Str(item.value.text)]], Refused, item)
          else
            EditResult(Move(edits, key, newKey.value), Done,
                       Some(TreeItem(Render(edited["vmname"]), newKey.value)))
  }

  /**
   * A stored record without a VM name raises `KeyError('vmname')` before the
   * configuration dialog opens, and the table is left untouched.
   */
  lemma MissingStoredNameRaises(vms: map<string, Dict>, item: Option<TreeItem>, accepted: bool, edited: Dict,
                                keyword: string)
    requires item.Some? && item.value.key in vms && "vmname" !in vms[item.value.key]
    ensures EditStep(vms, item, accepted, edited, keyword) == EditResult(vms, Raised("vmname"), item)
  {
  }

  /** The row names an existing record, and the configuration dialog was accepted with a changed VM name. */
  predicate RenameRequested(vms: map<string, Dict>, item: Option<TreeItem>, accepted: bool, edited: Dict)
  {
    && item.Some? && item.value.key in vms && "vmname" in vms[item.value.key] && accepted
    && "vmname" in edited && edited["vmname"] != Str(item.value.text)
  }

  /**
   * As written, a rename never happens: it raises `KeyError`, the keys stay
   * as they are and the row is left alone.
   */
  lemma AsWrittenRenameRaises(vms: map<string, Dict>, item: Option<TreeItem>, accepted: bool, edited: Dict)
    requires RenameRequested(vms, item, accepted, edited)
    ensures var r := EditStep(vms, item, accepted, edited, "name");
      && r.outcome == Raised(if "server" in edited then "vmname" else "server")
      && r.vms.Keys == vms.Keys && r.vms[item.value.key] == edited && r.item == item
  {
    if "server" in edited {
      FormatWithoutVmNameFails(edited["server"], edited["vmname"]);
    }
  }

  /**
   * As written, renaming a correctly keyed record to another string name
   * leaves it under a key its server and new name no longer give.
   */
  lemma AsWrittenRenameBreaksKeys(vms: map<string, Dict>, item: Option<TreeItem>, accepted: bool, edited: Dict)
    requires RenameRequested(vms, item, accepted, edited) && KeysMatch(vms)
    requires KeepsServer(vms[item.value.key], edited) && edited["vmname"].Str?
    requires "vmname" in vms[item.value.key] && vms[item.value.key]["vmname"] == Str(item.value.text)
    ensures !KeysMatch(EditStep(vms, item, accepted, edited, "name").vms)
  {
    var key := item.value.key;
    AsWrittenRenameRaises(vms, item, accepted, edited);
    var after := EditStep(vms, item, accepted, edited, "name").vms;
    assert VmKey(vms[key]) == Ok(key);
    DistinctNamesDistinctKeys(Render(edited["server"]), edited["vmname"].s, item.value.text);
    assert VmKey(after[key]) != Ok(key);
  }

  /** An edit that leaves the VM name as the row shows it keeps the table's keys. */
  lemma UnchangedNameKeepsKeys(vms: map<string, Dict>, item: Option<TreeItem>, accepted: bool, edited: Dict,
                               keyword: string)
    requires item.Some? && item.value.key in vms && "vmname" in vms[item.value.key]
    requires "vmname" in edited && edited["vmname"] == Str(item.value.text)
    ensures var r := EditStep(vms, item, accepted, edited, keyword);
      r.outcome == Done && r.vms.Keys == vms.Keys && r.item == item
  {
  }

  /**
   * Intended rename onto a key already in the table: refused, the VM name
   * reverted to the row's text, no key moved and no other record touched.
   */
  lemma RenameOntoTakenKey(vms: map<string, Dict>, item: Option<TreeItem>, accepted: bool, edited: Dict)
    requires RenameRequested(vms, item, accepted, edited) && "server" in edited
    requires VmKey(edited).value in vms
    ensures var r := EditStep(vms, item, accepted, edited, "vmname");
      && r.outcome == Refused && r.item == item
      && r.vms.Keys == vms.Keys
      && r.vms[item.value.key] == edited["vmname" := Str(item.value.text)]
      && forall k :: k in vms && k != item.value.key ==> r.vms[k] == vms[k]
  {
  }

  /**
   * Intended rename onto a free key: the edited record moves from the old
   * key to the new one, the old key is gone and the size is unchanged.
   */
  lemma RenameOntoFreeKey(vms: map<string, Dict>, item: Option<TreeItem>, accepted: bool, edited: Dict)
    requires RenameRequested(vms, item, accepted, edited) && "server" in edited
    requires VmKey(edited).value !in vms
    ensures var r := EditStep(vms, item, accepted, edited, "vmname");
      var newKey := VmKey(edited).value;
      && r.outcome == Done && r.item == Some(TreeItem(Render(edited["vmname"]), newKey))
      && r.vms.Keys == vms.Keys - {item.value.key} + {newKey}
      && item.value.key !in r.vms && |r.vms| == |vms|
      && r.vms[newKey] == edited
      && forall k :: k in vms && k != item.value.key ==> r.vms[k] == vms[k]
  {
    var key := item.value.key;
    var edits := vms[key := edited];
    assert edits.Keys == vms.Keys;
    assert |edits| == |vms|;
  }

  /**
   * The intended rename keeps every record under the key its server and
   * VM name give, provided the dialog leaves the server as it was.
   */
  lemma RenameKeepsKeysMatch(vms: map<string, Dict>, item: Option<TreeItem>, accepted: bool, edited: Dict)
    requires item.Some? && item.value.key in vms && KeysMatch(vms) && accepted
    requires KeepsServer(vms[item.value.key], edited)
    requires "vmname" in vms[item.value.key] && vms[item.value.key]["vmname"] == Str(item.value.text)
    ensures KeysMatch(EditStep(vms, item, accepted, edited, "vmname").vms)
  {
    var key := item.value.key;
    var before := vms[key];
    assert VmKey(before) == Ok(key);
    if edited["vmname"] == Str(item.value.text) {
      KeysMatchStore(vms, key, edited);
    } else {
      var newKey := VmKey(edited).value;
      if newKey in vms {
        KeysMatchStore(vms[key := edited], key, edited["vmname" := Str(item.value.text)]);
      } else {
        KeysMatchMove(vms, key, newKey, edited);
      }
    }
  }

  /**
   * A record after the symbol selection dialog: its two symbols and its
   * category set, every other field and its key as they were.
   */
  function WithSymbol(vm: Dict, normalSymbol: string, selectedSymbol: string, category: Value): (r: Dict)
    ensures r.Keys == vm.Keys + {"default_symbol", "hover_symbol", "category"}
    ensures r["default_symbol"] == Str(normalSymbol) && r["hover_symbol"] == Str(selectedSymbol)
    ensures r["category"] == category
    ensures forall f :: f in vm && f !in {"default_symbol", "hover_symbol", "category"} ==> r[f] == vm[f]
    ensures VmKey(r) == VmKey(vm)
  {
    var r := vm["default_symbol" := Str(normalSymbol)]["hover_symbol" := Str(selectedSymbol)]["category" := category];
    assert "server" != "default_symbol" && "server" != "hover_symbol" && "server" != "category";
    assert "vmname" != "default_symbol" && "vmname" != "hover_symbol" && "vmname" != "category";
    r
  }

  /** Storing a record under the key it gives keeps `KeysMatch`, whatever was stored there before. */
  lemma KeysMatchStore(vms: map<string, Dict>, key: string, record: Dict)
    requires forall k :: k in vms && k != key ==> VmKey(vms[k]) == Ok(k)
    requires VmKey(record) == Ok(key)
    ensures KeysMatch(vms[key := record])
  {
  }

  /** Moving a record to the key it gives keeps `KeysMatch`. */
  lemma KeysMatchMove(vms: map<string, Dict>, from: string, to: string, record: Dict)
    requires KeysMatch(vms) && from in vms && to !in vms
    requires VmKey(record) == Ok(to)
    ensures KeysMatch(Move(vms[from := record], from, to))
  {
    var moved := Move(vms[from := record], from, to);
    forall k | k in moved
      ensures VmKey(moved[k]) == Ok(k)
    {
      if k != to {
        assert moved[k] == vms[k];
      }
    }
  }


  /** The VirtualBox module's own table of VM settings. */
  class VirtualBoxModule {
    var vms: map<string, Dict>

    constructor (vms: map<string, Dict>)
      ensures this.vms == vms
    {
      this.vms := vms;
    }
  }

  class PreferencesPage {
    /** `_virtualbox_vms`: the page's working copy of the table. */
    var vms: map<string, Dict>
    /** `_items`: the tree rows created by loading or adding VMs. */
    var items: seq<TreeItem>

    constructor ()
      ensures vms == map[] && items == []
    {
      vms, items := map[], [];
    }

    /**
     * `_vboxVMNewSlot`: when the wizard is accepted, stores the defaults
     * overlaid with its settings under "server:vmname" and adds a tree row.
     */
    method NewVm(accepted: bool, settings: Dict, defaults: Dict) returns (outcome: Outcome)
      modifies this
      ensures !accepted || VmKey(settings).KeyError? ==> vms == old(vms) && items == old(items)
      ensures !accepted ==> outcome == Done
      ensures accepted && VmKey(settings).KeyError? ==> outcome == Raised(VmKey(settings).key)
      ensures accepted && VmKey(settings).Ok? ==>
        var key := VmKey(settings).value;
        && vms == old(vms)[key := Merge(defaults, settings)]
        && (if "default_symbol" in Merge(defaults, settings)
            then outcome == Done && items == old(items) + [TreeItem(Render(settings["vmname"]), key)]
            else outcome == Raised("default_symbol") && items == old(items))
      ensures old(KeysMatch(vms)) ==> KeysMatch(vms)
    {
      if !accepted {
        return Done;
      }
      var key := VmKey(settings);
      if key.KeyError? {
        return Raised(key.key);
      }
      var vm := Merge(defaults, settings);
      if KeysMatch(vms) {
        KeysMatchStore(vms, key.value, vm);
      }
      vms := vms[key.value := vm];
      // the row's icon is the record's default symbol
      if "default_symbol" !in vm {
        return Raised("default_symbol");
      }
      items := items + [TreeItem(Render(vm["vmname"]), key.value)];
      return Done;
    }

    /**
     * `_vboxVMEditSlot`, building the new key with `keyword=` for the VM
     * name: the configuration dialog edits the current record in place
     * (`edited` is the record it leaves), then a changed VM name moves the
     * record to its new key, or is reverted when that key is taken.
     */
    method EditWithKeyword(item: Option<TreeItem>, accepted: bool, edited: Dict, keyword: string)
      returns (outcome: Outcome, newItem: Option<TreeItem>)
      modifies this`vms
      ensures EditResult(vms, outcome, newItem) == EditStep(old(vms), item, accepted, edited, keyword)
    {
      newItem := item;
      if item.None? {
        return Done, newItem;
      }
      var key := item.value.key;
      if key !in vms {
        return Raised(key), newItem;
      }
      if "vmname" !in vms[key] {
        return Raised("vmname"), newItem;
      }
      vms := vms[key := edited];
      if !accepted {
        return Done, newItem;
      }
      if "vmname" !in edited {
        return Raised("vmname"), newItem;
      }
      if edited["vmname"] != Str(item.value.text) {
        if "server" !in edited {
          return Raised("server"), newItem;
        }
        var newKey := Format(ServerVmNameTemplate, map["server" := edited["server"], keyword := edited["vmname"]]);
        if newKey.KeyError? {
          return Raised(newKey.key), newItem;
        }
        if newKey.value in vms {
          // the name is already used on this server: revert it
          vms := vms[key := edited["vmname" := Str(item.value.text)]];
          return Refused, newItem;
        }
        vms := Move(vms, key, newKey.value);
        newItem := Some(TreeItem(Render(edited["vmname"]), newKey.value));
      }
      return Done, newItem;
    }

    /**
     * `_vboxVMEditSlot` as written: the new key is built with `name=` for
     * the `{vmname}` field, so every rename raises `KeyError('vmname')`.
     */
    method EditVm(item: Option<TreeItem>, accepted: bool, edited: Dict)
      returns (outcome: Outcome, newItem: Option<TreeItem>)
      modifies this`vms
      ensures EditResult(vms, outcome, newItem) == EditStep(old(vms), item, accepted, edited, "name")
    {
      outcome, newItem := EditWithKeyword(item, accepted, edited, "name");
    }

    /** The rename `_vboxVMEditSlot` intends, with `vmname=` supplied for the `{vmname}` field. */
    method RenameVm(item: Option<TreeItem>, accepted: bool, edited: Dict)
      returns (outcome: Outcome, newItem: Option<TreeItem>)
      modifies this`vms
      ensures EditResult(vms, outcome, newItem) == EditStep(old(vms), item, accepted, edited, "vmname")
    {
      outcome, newItem := EditWithKeyword(item, accepted, edited, "vmname");
    }

    /** `_vboxVMDeleteSlot`: removes the current row's record and nothing else. */
    method DeleteVm(item: Option<TreeItem>) returns (outcome: Outcome)
      modifies this
      ensures items == old(items)
      ensures item.None? ==> outcome == Done && vms == old(vms)
      ensures item.Some? && item.value.key !in old(vms) ==> outcome == Raised(item.value.key) && vms == old(vms)
      ensures item.Some? && item.value.key in old(vms) ==>
        && outcome == Done
        && vms.Keys == old(vms).Keys - {item.value.key}
        && forall k :: k in vms ==> vms[k] == old(vms)[k]
      ensures old(KeysMatch(vms)) ==> KeysMatch(vms)
    {
      if item.None? {
        return Done;
      }
      var key := item.value.key;
      if key !in vms {
        return Raised(key);
      }
      vms := vms - {key};
      return Done;
    }

    /**
     * `_changeSymbolSlot`: sets the normal and hover symbols and the category
     * of the current row's record; every other field and record is unchanged.
     */
    method ChangeSymbol(accepted: bool, normalSymbol: string, selectedSymbol: string, category: Value,
                        item: Option<TreeItem>)
      returns (outcome: Outcome)
      modifies this
      ensures items == old(items)
      ensures !accepted || item.None? ==> outcome == Done && vms == old(vms)
      ensures accepted && item.Some? && item.value.key !in old(vms) ==>
        outcome == Raised(item.value.key) && vms == old(vms)
      ensures accepted && item.Some? && item.value.key in old(vms) ==>
        && outcome == Done
        && vms == old(vms)[item.value.key := WithSymbol(old(vms)[item.value.key], normalSymbol, selectedSymbol, category)]
      ensures old(KeysMatch(vms)) ==> KeysMatch(vms)
    {
      if !accepted || item.None? {
        return Done;
      }
      var key := item.value.key;
      if key !in vms {
        return Raised(key);
      }
      var vm := WithSymbol(vms[key], normalSymbol, selectedSymbol, category);
      if KeysMatch(vms) {
        KeysMatchStore(vms, key, vm);
      }
      vms := vms[key := vm];
      return Done;
    }

    /**
     * `loadPreferences`: takes a copy of the module's table and lists one row
     * per record; a record without a VM name or symbol raises `KeyError`.
     */
    method LoadPreferences(vbox: VirtualBoxModule) returns (outcome: Outcome)
      modifies this
      ensures vms == vbox.vms
      ensures outcome == Done <==> forall k :: k in vms ==> Listable(vms[k])
      ensures outcome == Done ==> RowsList(items, vms)
    {
      vms := vbox.vms;
      outcome, items := ListRows(vms);
    }

    /** `savePreferences`: hands the page's table to the module. */
    method SavePreferences(vbox: VirtualBoxModule)
      modifies vbox
      ensures vbox.vms == vms
    {
      vbox.vms := vms;
    }
  }

}
