/**
 * The edge function alias resource (limelight_edgefunction_alias): its
 * three-part ID and its create, read, update and delete reconciliations.
 */
module EdgeFunctionAlias {
  import opened Common
  import opened Sdk
  import opened Ids

  const IdFormat: string := "<shortname>:<function name>:<alias name>"
  const ReadContext: string := "error reading EdgeFunction Alias"

  function CreateContext(name: string): string {
    "error creating EdgeFunction Alias " + name
  }

  function UpdateContext(aliasName: string): string {
    "error updating Edge Function Alias " + aliasName
  }

  function DeleteContext(aliasName: string): string {
    "failed to delete Edge Function Alias " + aliasName + " due to"
  }

  /** The resource's attributes. */
  datatype AliasAttrs = AliasAttrs(
    shortname: string, name: string, functionName: string, functionVersion: string,
    description: string, revisionId: int)

  /**
   * edgefunctions.EdgeFunctionAlias, both as request and as response; a
   * field a request leaves unset holds Go's zero value.
   */
  datatype Alias = Alias(name: string, fnName: string, description: string, functionVersion: string, revisionId: int)

  /** The alias API calls the resource makes. */
  datatype Call =
    | CreateEdgeFunctionAlias(fnName: string, shortname: string, alias: Alias)
    | GetEdgeFunctionAlias(fnName: string, shortname: string, aliasName: string)
    | UpdateEdgeFunctionAlias(fnName: string, shortname: string, aliasName: string, alias: Alias)
    | DeleteEdgeFunctionAlias(fnName: string, shortname: string, aliasName: string)

  // ---------------------------------------------------------------------
  // ID
  // ---------------------------------------------------------------------

  /** The ID create stores: shortname, function name and alias name joined by colons. */
  function AliasId(shortname: string, fnName: string, aliasName: string): string {
    JoinTriple(shortname, fnName, aliasName, Colon)
  }

  /** resourceLimelightEdgeFunctionAliasSplitID */
  function SplitId(id: string): (r: (string, string, string, Option<Error>))
    ensures r.3.Some? <==> SplitSeparatedTriple(id, Colon).3.Some?
    ensures r.3.Some? ==> r.0 == "" && r.1 == "" && r.2 == "" && r.3 == Some(FormatError(IdFormat, id))
    ensures r.3.None? ==>
      r.0 != "" && r.1 != "" && r.2 != "" && ':' !in r.0 && ':' !in r.1 && id == AliasId(r.0, r.1, r.2)
  {
    var (shortname, fnName, aliasName, err) := SplitSeparatedTriple(id, Colon);
    SingleCharSepFree(shortname, ':');
    SingleCharSepFree(fnName, ':');
    if err.Some? then ("", "", "", Some(FormatError(IdFormat, id))) else (shortname, fnName, aliasName, None)
  }

  /**
   * The ID create stores decodes to its parts when shortname and function
   * name have no colon; the alias name may contain colons.
   */
  lemma IdRoundTrip(shortname: string, fnName: string, aliasName: string)
    requires shortname != "" && fnName != "" && aliasName != "" && ':' !in shortname && ':' !in fnName
    ensures SplitId(AliasId(shortname, fnName, aliasName)) == (shortname, fnName, aliasName, None)
  {
    SingleCharSepFree(shortname, ':');
    SingleCharSepFree(fnName, ':');
    TripleRoundTrip(shortname, fnName, aliasName, Colon);
  }

  /** A two-part ID, such as an edge function's, is not an alias ID. */
  lemma PairIdIsMalformed()
    ensures SplitId("acct1:fn1").3 == Some(FormatError(IdFormat, "acct1:fn1"))
  {
    var s := "acct1:fn1";
    SingleCharSepFree("acct1", ':');
    IndexAfterSepFree("acct1", Colon, "fn1");
    assert s == "acct1" + Colon + "fn1";
    IndexOfAbsentChar("fn1", ':');
    assert s[|"acct1"| + |Colon|..] == "fn1";
    SplitNStep(s, Colon, 3);
  }

  // ---------------------------------------------------------------------
  // Read and delete
  // ---------------------------------------------------------------------

  /** What a read stores: shortname from the ID, everything else from the response. */
  function ObservedAttrs(a: AliasAttrs, shortname: string, alias: Alias): AliasAttrs {
    a.(shortname := shortname, name := alias.name, description := alias.description,
       functionName := alias.fnName, functionVersion := alias.functionVersion, revisionId := alias.revisionId)
  }

  function ReadEffect(id: string, a: AliasAttrs, reply: Reply<Alias>): Effect<AliasAttrs, Call> {
    var (shortname, fnName, aliasName, splitErr) := SplitId(id);
    if splitErr.Some? then Effect([], id, a, splitErr)
    else
      var calls := [GetEdgeFunctionAlias(fnName, shortname, aliasName)];
      match reply
      case Ok(alias) => Effect(calls, id, ObservedAttrs(a, shortname, alias), None)
      case Fail(f) =>
        if IsNotFound(f) then Effect(calls, "", a, None)
        else Effect(calls, id, a, Some(RemoteError(ReadContext, f.cause)))
  }

  function DeleteEffect(id: string, a: AliasAttrs, reply: Reply<()>): Effect<AliasAttrs, Call> {
    var (shortname, fnName, aliasName, splitErr) := SplitId(id);
    if splitErr.Some? then Effect([], id, a, splitErr)
    else
      var calls := [DeleteEdgeFunctionAlias(fnName, shortname, aliasName)];
      match reply
      case Ok(_) => Effect(calls, id, a, None)
      case Fail(f) => Effect(calls, id, a, Some(RemoteError(DeleteContext(aliasName), f.cause)))
  }

  /** resourceLimelightEdgeFunctionAliasRead */
  method Read(d: ResourceData<AliasAttrs>, c: Client<Call>, reply: Reply<Alias>) returns (err: Option<Error>)
    modifies d`id, d`attrs, c`calls
    ensures Produced(d, c, ReadEffect(old(d.id), old(d.attrs), reply), err)
  {
    var (shortname, fnName, aliasName, splitErr) := SplitId(d.id);
    if splitErr.Some? {
      return splitErr;
    }
    c.Record(GetEdgeFunctionAlias(fnName, shortname, aliasName));
    match reply
    case Fail(f) =>
      if IsNotFound(f) {
        d.id := "";
        err := None;
      } else {
        err := Some(RemoteError(ReadContext, f.cause));
      }
    case Ok(alias) =>
      d.attrs := d.attrs.(shortname := shortname, name := alias.name, description := alias.description,
                          functionName := alias.fnName, functionVersion := alias.functionVersion,
                          revisionId := alias.revisionId);
      err := None;
  }

  /** resourceLimelightEdgeFunctionAliasDelete */
  method Delete(d: ResourceData<AliasAttrs>, c: Client<Call>, reply: Reply<()>) returns (err: Option<Error>)
    modifies c`calls
    ensures Produced(d, c, DeleteEffect(old(d.id), old(d.attrs), reply), err)
  {
    var (shortname, fnName, aliasName, splitErr) := SplitId(d.id);
    if splitErr.Some? {
      return splitErr;
    }
    c.Record(DeleteEdgeFunctionAlias(fnName, shortname, aliasName));
    match reply
    case Ok(_) =>
      err := None;
    case Fail(f) =>
      err := Some(RemoteError(DeleteContext(aliasName), f.cause));
  }

  /**
   * A malformed ID fails before any call; otherwise not-found clears the ID
   * without an error, other failures are errors, and a successful read
   * takes shortname from the ID and the rest from the response.
   */
  lemma ReadOutcomes(id: string, a: AliasAttrs, reply: Reply<Alias>)
    ensures var e := ReadEffect(id, a, reply);
      (SplitId(id).3.Some? ==> e.calls == [] && e.err == Some(FormatError(IdFormat, id)) && e.id == id && e.attrs == a) &&
      (SplitId(id).3.None? ==>
        e.calls == [GetEdgeFunctionAlias(SplitId(id).1, SplitId(id).0, SplitId(id).2)] &&
        (e.err.None? <==> reply.Ok? || IsNotFound(reply.failure)) &&
        (e.id == "" <==> reply.Fail? && IsNotFound(reply.failure)) &&
        (reply.Fail? ==> e.attrs == a) &&
        (reply.Ok? ==> e.id == id && e.attrs.shortname == SplitId(id).0 &&
                       e.attrs.name == reply.value.name && e.attrs.functionName == reply.value.fnName &&
                       e.attrs.functionVersion == reply.value.functionVersion &&
                       e.attrs.description == reply.value.description &&
                       e.attrs.revisionId == reply.value.revisionId))
  {
  }

  /** Delete issues one call unless the ID is malformed, and reports every failure, not-found included. */
  lemma DeleteOutcomes(id: string, a: AliasAttrs, reply: Reply<()>)
    ensures var e := DeleteEffect(id, a, reply);
      e.id == id && e.attrs == a &&
      (e.calls == [] <==> SplitId(id).3.Some?) &&
      (e.err.None? <==> SplitId(id).3.None? && reply.Ok?) &&
      (SplitId(id).3.None? && reply.Fail? && IsNotFound(reply.failure) ==>
        e.err == Some(RemoteError(DeleteContext(SplitId(id).2), reply.failure.cause)))
  {
  }

  // ---------------------------------------------------------------------
  // Create and update
  // ---------------------------------------------------------------------

  /** The alias create sends: name, description and version; no function, no revision. */
  function NewAliasOf(a: AliasAttrs): Alias {
    Alias(a.name, "", a.description, a.functionVersion, 0)
  }

  /** The alias an update sends: description, version and the stored revision; no name. */
  function AliasUpdateOf(a: AliasAttrs): Alias {
    Alias("", "", a.description, a.functionVersion, a.revisionId)
  }

  function CreateEffect(id: string, a: AliasAttrs, createReply: Reply<()>, readReply: Reply<Alias>): Effect<AliasAttrs, Call> {
    var call := CreateEdgeFunctionAlias(a.functionName, a.shortname, NewAliasOf(a));
    match createReply
    case Fail(f) => Effect([call], id, a, Some(RemoteError(CreateContext(a.name), f.cause)))
    case Ok(_) =>
      var r := ReadEffect(AliasId(a.shortname, a.functionName, a.name), a, readReply);
      Effect([call] + r.calls, r.id, r.attrs, r.err)
  }

  function UpdateEffect(id: string, a: AliasAttrs, updateReply: Reply<()>, readReply: Reply<Alias>): Effect<AliasAttrs, Call> {
    var call := UpdateEdgeFunctionAlias(a.functionName, a.shortname, a.name, AliasUpdateOf(a));
    match updateReply
    case Fail(f) => Effect([call], id, a, Some(RemoteError(UpdateContext(a.name), f.cause)))
    case Ok(_) =>
      var r := ReadEffect(id, a, readReply);
      Effect([call] + r.calls, r.id, r.attrs, r.err)
  }

  /** resourceLimelightEdgeFunctionAliasCreate */
  method Create(d: ResourceData<AliasAttrs>, c: Client<Call>, createReply: Reply<()>, readReply: Reply<Alias>)
    returns (err: Option<Error>)
    modifies d`id, d`attrs, c`calls
    ensures Produced(d, c, CreateEffect(old(d.id), old(d.attrs), createReply, readReply), err)
  {
    var a := d.attrs;
    c.Record(CreateEdgeFunctionAlias(a.functionName, a.shortname, Alias(a.name, "", a.description, a.functionVersion, 0)));
    if createReply.Fail? {
      return Some(RemoteError(CreateContext(a.name), createReply.failure.cause));
    }
    d.id := AliasId(a.shortname, a.functionName, a.name);
    err := Read(d, c, readReply);
  }

  /** resourceLimelightEdgeFunctionAliasUpdate */
  method Update(d: ResourceData<AliasAttrs>, c: Client<Call>, updateReply: Reply<()>, readReply: Reply<Alias>)
    returns (err: Option<Error>)
    modifies d`id, d`attrs, c`calls
    ensures Produced(d, c, UpdateEffect(old(d.id), old(d.attrs), updateReply, readReply), err)
  {
    var a := d.attrs;
    c.Record(UpdateEdgeFunctionAlias(a.functionName, a.shortname, a.name,
                                     Alias("", "", a.description, a.functionVersion, a.revisionId)));
    if updateReply.Fail? {
      return Some(RemoteError(UpdateContext(a.name), updateReply.failure.cause));
    }
    err := Read(d, c, readReply);
  }

  /**
   * A failed create leaves the ID alone; a successful one stores the
   * three-part ID, which the read that follows decodes back into the
   * declared parts when shortname and function name have no colon.
   */
  lemma CreateOutcomes(id: string, a: AliasAttrs, createReply: Reply<()>, readReply: Reply<Alias>)
    requires a.shortname != "" && a.functionName != "" && a.name != "" && ':' !in a.shortname && ':' !in a.functionName
    ensures var e := CreateEffect(id, a, createReply, readReply);
      e.calls[0] == CreateEdgeFunctionAlias(a.functionName, a.shortname, NewAliasOf(a)) &&
      (createReply.Fail? ==> e.calls == e.calls[..1] && e.id == id && e.attrs == a && e.err.Some?) &&
      (createReply.Ok? ==>
        e.calls == [e.calls[0], GetEdgeFunctionAlias(a.functionName, a.shortname, a.name)] &&
        (readReply.Ok? ==> e.id == AliasId(a.shortname, a.functionName, a.name) && e.err.None? &&
                           e.attrs == ObservedAttrs(a, a.shortname, readReply.value)))
  {
    IdRoundTrip(a.shortname, a.functionName, a.name);
  }

  /**
   * An update sends what state holds, never what the ID says, so two
   * resources whose attributes agree send the same request whatever their
   * IDs; a failed update makes no read.
   */
  lemma UpdateRequestFromAttrs(id1: string, id2: string, a: AliasAttrs, updateReply: Reply<()>, r1: Reply<Alias>, r2: Reply<Alias>)
    ensures var e1, e2 := UpdateEffect(id1, a, updateReply, r1), UpdateEffect(id2, a, updateReply, r2);
      e1.calls[0] == e2.calls[0] &&
      e1.calls[0] == UpdateEdgeFunctionAlias(a.functionName, a.shortname, a.name, AliasUpdateOf(a)) &&
      e1.calls[0].alias.revisionId == a.revisionId &&
      (updateReply.Fail? ==> |e1.calls| == 1 && e1.id == id1 && e1.attrs == a &&
                             e1.err == Some(RemoteError(UpdateContext(a.name), updateReply.failure.cause)))
  {
  }

  /** With a malformed ID the update is still sent; only the read after it fails. */
  lemma UpdateSendsBeforeCheckingId(id: string, a: AliasAttrs, readReply: Reply<Alias>)
    requires SplitId(id).3.Some?
    ensures UpdateEffect(id, a, Ok(()), readReply) ==
      Effect([UpdateEdgeFunctionAlias(a.functionName, a.shortname, a.name, AliasUpdateOf(a))], id, a,
             Some(FormatError(IdFormat, id)))
  {
  }
}
