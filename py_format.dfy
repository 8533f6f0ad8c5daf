/**
 * Python's `str.format` with named replacement fields, over a template that
 * is already split into literal text and `{name}` fields.  A field whose name
 * is not among the keyword arguments raises `KeyError(name)`.
 */
module PyFormat {
  import opened Values

  datatype Piece = Lit(text: string) | Field(name: string)

  /** The names of the replacement fields of a template. */
  predicate FieldsSupplied(t: seq<Piece>, args: map<string, Value>)
  {
    forall k :: 0 <= k < |t| && t[k].Field? ==> t[k].name in args
  }

  /** `template.format(**args)`. */
  function Format(t: seq<Piece>, args: map<string, Value>): (r: Result<string>)
    ensures r.Ok? <==> FieldsSupplied(t, args)
    ensures r.KeyError? ==>
      r.key !in args && exists k :: 0 <= k < |t| && t[k] == Field(r.key)
    decreases |t|
  {
    if t == [] then Ok("")
    else
      var head: Result<string> :=
        match t[0]
        case Lit(s) => Ok(s)
        case Field(n) => if n in args then Ok(Render(args[n])) else KeyError(n);
      if head.KeyError? then KeyError(head.key)
      else
        var tail := Format(t[1..], args);
        if tail.KeyError? then
          assert t[1..][0] == t[1];
          KeyError(tail.key)
        else Ok(head.value + tail.value)
  }

  /** The key template `"{server}:{vmname}"` of the VirtualBox VM table. */
  const ServerVmNameTemplate: seq<Piece> := [Field("server"), Lit(":"), Field("vmname")]

  /** With both fields supplied, the key is the two rendered values joined by a colon. */
  lemma FormatServerVmName(server: Value, vmname: Value, args: map<string, Value>)
    requires "server" in args && "vmname" in args
    requires args["server"] == server && args["vmname"] == vmname
    ensures Format(ServerVmNameTemplate, args) == Ok(Render(server) + ":" + Render(vmname))
  {
    var t := ServerVmNameTemplate;
    assert t[1..][1..][1..] == [];
    assert Format(t[1..][1..][1..], args) == Ok("");
    assert t[1..][1..][0] == Field("vmname");
    assert Format(t[1..][1..], args) == Ok(Render(vmname) + "");
    assert t[1..][0] == Lit(":");
    assert Format(t[1..], args) == Ok(":" + (Render(vmname) + ""));
    assert t[0] == Field("server");
    assert Format(t, args) == Ok(Render(server) + (":" + (Render(vmname) + "")));
    assert Render(server) + (":" + (Render(vmname) + "")) == Render(server) + ":" + Render(vmname);
  }

  /** Supplying `name=` instead of `vmname=` always raises `KeyError('vmname')`. */
  lemma FormatWithoutVmNameFails(server: Value, name: Value)
    ensures Format(ServerVmNameTemplate, map["server" := server, "name" := name]) == KeyError("vmname")
  {
    var t := ServerVmNameTemplate;
    var args := map["server" := server, "name" := name];
    assert t[2] == Field("vmname") && "vmname" !in args;
    assert !FieldsSupplied(t, args);
  }
}
