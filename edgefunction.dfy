/**
 * The edge function resource (limelight_edgefunction): its composite ID,
 * the environment variable transcoders, create with its concurrency
 * rollback, the three-step update and read and delete.
 */
module EdgeFunction {
  import opened Common
  import opened Sdk
  import opened Ids

  /** Schema defaults. */
  const DefaultMemory: int := 256
  const DefaultTimeout: int := 5000
  const DefaultConcurrency: int := 0

  /** The shape an ID must have, as the format error names it. */
  const IdFormat: string := "<shortname>:<function name>"

  const CreateContext: string := "error creating EdgeFunction"
  const ReadContext: string := "error reading EdgeFunction"
  const CodeContext: string := "error updating EdgeFunction code"
  const ConfigContext: string := "error updating EdgeFunction configuration"
  const ConcurrencyContext: string := "error updating EdgeFunction concurrency due to"
  const DeleteContext: string := "error deleting EdgeFunction"

  /** The error text of a create whose concurrency step failed. */
  function RollbackContext(name: string): string {
    "failed to set EdgeFunction currency for " + name + " due to"
  }

  /** Attribute keys the update consults. */
  const ArchiveKey: string := "function_archive"
  const CodeKey: string := "function_sha256"
  const ConcurrencyKey: string := "reserved_concurrency"
  const ConfigKeys: set<string> :=
    {"description", "handler", "runtime", "memory", "timeout", "can_debug", "environment_variable"}

  // ---------------------------------------------------------------------
  // Data
  // ---------------------------------------------------------------------

  /** A declared environment_variable block. */
  datatype EnvVarBlock = EnvVarBlock(name: string, value: string)

  /** edgefunctions.EnvironmentVariable. */
  datatype EnvironmentVariable = EnvironmentVariable(name: string, value: string)

  /**
   * The resource's attributes in state. The environment variable set is
   * held as the list its elements are visited in.
   */
  datatype FunctionAttrs = FunctionAttrs(
    shortname: string, name: string, description: string, functionArchive: string,
    handler: string, runtime: string, memory: int, timeout: int, canDebug: bool,
    environmentVariables: seq<EnvVarBlock>, functionSha256: string, revisionId: int,
    reservedConcurrency: int)

  /** The function sent on create. */
  datatype NewFunction = NewFunction(
    name: string, description: string, functionArchive: seq<byte>, handler: string, runtime: string,
    memory: int, timeout: int, canDebug: bool, environmentVariables: seq<EnvironmentVariable>)

  /** The function sent on a configuration update: name and archive are left unset. */
  datatype FunctionConfig = FunctionConfig(
    description: string, handler: string, runtime: string, memory: int, timeout: int, canDebug: bool,
    environmentVariables: seq<EnvironmentVariable>)

  /** A stored function as GetEdgeFunction returns it. */
  datatype FunctionInfo = FunctionInfo(
    description: string, handler: string, runtime: string, memory: int, timeout: int, canDebug: bool,
    sha256: string, environmentVariables: seq<EnvironmentVariable>, revisionId: int, reservedConcurrency: int)

  /** The outcome of loadZipFile on the declared archive path. */
  datatype ArchiveRead = Archive(bytes: seq<byte>) | ArchiveError(cause: string)

  /** The edge functions API calls the resource makes. */
  datatype Call =
    | CreateEdgeFunction(shortname: string, edgeFunction: NewFunction)
    | GetEdgeFunction(name: string, shortname: string)
    | UpdateEdgeFunctionCode(name: string, shortname: string, archive: seq<byte>)
    | UpdateEdgeFunctionConfiguration(name: string, shortname: string, config: FunctionConfig)
    | SetEdgeFunctionConcurrency(name: string, shortname: string, concurrency: int)
    | DeleteEdgeFunction(name: string, shortname: string)

  // ---------------------------------------------------------------------
  // ID
  // ---------------------------------------------------------------------

  /** The ID create stores: shortname and function name joined by a colon. */
  function FunctionId(shortname: string, name: string): string {
    JoinPair(shortname, name, Colon)
  }

  /** resourceLimelightEdgeFunctionSplitID */
  function SplitId(id: string): (r: (string, string, Option<Error>))
    ensures r.2.Some? <==> SplitSeparatedPair(id, Colon).2.Some?
    ensures r.2.Some? ==> r.0 == "" && r.1 == "" && r.2 == Some(FormatError(IdFormat, id))
    ensures r.2.None? ==> r.0 != "" && r.1 != "" && ':' !in r.0 && id == FunctionId(r.0, r.1)
  {
    var (shortname, name, err) := SplitSeparatedPair(id, Colon);
    SingleCharSepFree(shortname, ':');
    if err.Some? then ("", "", Some(FormatError(IdFormat, id))) else (shortname, name, None)
  }

  /** The ID create stores decodes to its parts when the shortname has no colon. */
  lemma IdRoundTrip(shortname: string, name: string)
    requires shortname != "" && name != "" && ':' !in shortname
    ensures SplitId(FunctionId(shortname, name)) == (shortname, name, None)
  {
    SingleCharSepFree(shortname, ':');
    PairRoundTrip(shortname, name, Colon);
  }

  // ---------------------------------------------------------------------
  // Environment variable transcoders
  // ---------------------------------------------------------------------

  function ExpandedEnvVars(bs: seq<EnvVarBlock>): seq<EnvironmentVariable> {
    seq(|bs|, i requires 0 <= i < |bs| => EnvironmentVariable(bs[i].name, bs[i].value))
  }

  function FlattenedEnvVars(vs: seq<EnvironmentVariable>): seq<EnvVarBlock> {
    seq(|vs|, i requires 0 <= i < |vs| => EnvVarBlock(vs[i].name, vs[i].value))
  }

  /** expandEnvVars */
  method ExpandEnvVars(flattened: seq<EnvVarBlock>) returns (expanded: seq<EnvironmentVariable>)
    ensures |expanded| == |flattened|
    ensures forall i :: 0 <= i < |expanded| ==>
      expanded[i].name == flattened[i].name && expanded[i].value == flattened[i].value
    ensures expanded == ExpandedEnvVars(flattened)
  {
    var a := new EnvironmentVariable[|flattened|];
    for i := 0 to |flattened|
      invariant forall k :: 0 <= k < i ==> a[k] == EnvironmentVariable(flattened[k].name, flattened[k].value)
    {
      var rawEnvVar := flattened[i];
      a[i] := EnvironmentVariable(rawEnvVar.name, rawEnvVar.value);
    }
    expanded := a[..];
  }

  /** flattenEnvVars */
  method FlattenEnvVars(expanded: seq<EnvironmentVariable>) returns (flattened: seq<EnvVarBlock>)
    ensures |flattened| == |expanded|
    ensures forall i :: 0 <= i < |flattened| ==>
      flattened[i].name == expanded[i].name && flattened[i].value == expanded[i].value
    ensures flattened == FlattenedEnvVars(expanded)
  {
    var a := new EnvVarBlock[|expanded|];
    for i := 0 to |expanded|
      invariant forall k :: 0 <= k < i ==> a[k] == EnvVarBlock(expanded[k].name, expanded[k].value)
    {
      var v := expanded[i];
      a[i] := EnvVarBlock(v.name, v.value);
    }
    flattened := a[..];
  }

  /** The two transcoders are inverse to each other, so the same pairs come back. */
  lemma EnvVarsRoundTrip(bs: seq<EnvVarBlock>, vs: seq<EnvironmentVariable>)
    ensures FlattenedEnvVars(ExpandedEnvVars(bs)) == bs
    ensures ExpandedEnvVars(FlattenedEnvVars(vs)) == vs
    ensures multiset(FlattenedEnvVars(ExpandedEnvVars(bs))) == multiset(bs)
  {
    assert FlattenedEnvVars(ExpandedEnvVars(bs)) == bs;
  }

  // ---------------------------------------------------------------------
  // Read and delete
  // ---------------------------------------------------------------------

  /** What a read stores: the parts of the ID and the response's fields; the archive path is kept. */
  function ObservedAttrs(a: FunctionAttrs, shortname: string, name: string, info: FunctionInfo): FunctionAttrs {
    a.(shortname := shortname, name := name, description := info.description, handler := info.handler,
       runtime := info.runtime, memory := info.memory, timeout := info.timeout, canDebug := info.canDebug,
       functionSha256 := info.sha256, environmentVariables := FlattenedEnvVars(info.environmentVariables),
       revisionId := info.revisionId, reservedConcurrency := info.reservedConcurrency)
  }

  function ReadEffect(id: string, a: FunctionAttrs, reply: Reply<FunctionInfo>): Effect<FunctionAttrs, Call> {
    var (shortname, name, splitErr) := SplitId(id);
    if splitErr.Some? then Effect([], id, a, splitErr)
    else
      var calls := [GetEdgeFunction(name, shortname)];
      match reply
      case Ok(info) => Effect(calls, id, ObservedAttrs(a, shortname, name, info), None)
      case Fail(f) =>
        if IsNotFound(f) then Effect(calls, "", a, None)
        else Effect(calls, id, a, Some(RemoteError(ReadContext, f.cause)))
  }

  function DeleteEffect(id: string, a: FunctionAttrs, reply: Reply<()>): Effect<FunctionAttrs, Call> {
    var (shortname, name, splitErr) := SplitId(id);
    if splitErr.Some? then Effect([], id, a, splitErr)
    else
      var calls := [DeleteEdgeFunction(name, shortname)];
      match reply
      case Ok(_) => Effect(calls, id, a, None)
      case Fail(f) => Effect(calls, id, a, Some(RemoteError(DeleteContext, f.cause)))
  }

  /** resourceLimelightEdgeFunctionRead */
  method Read(d: ResourceData<FunctionAttrs>, c: Client<Call>, reply: Reply<FunctionInfo>) returns (err: Option<Error>)
    modifies d`id, d`attrs, c`calls
    ensures Produced(d, c, ReadEffect(old(d.id), old(d.attrs), reply), err)
  {
    var (shortname, name, splitErr) := SplitId(d.id);
    if splitErr.Some? {
      return splitErr;
    }
    c.Record(GetEdgeFunction(name, shortname));
    match reply
    case Fail(f) =>
      if IsNotFound(f) {
        d.id := "";
        err := None;
      } else {
        err := Some(RemoteError(ReadContext, f.cause));
      }
    case Ok(info) =>
      var env := FlattenEnvVars(info.environmentVariables);
      d.attrs := d.attrs.(shortname := shortname, name := name, description := info.description,
                          handler := info.handler, runtime := info.runtime, memory := info.memory,
                          timeout := info.timeout, canDebug := info.canDebug, functionSha256 := info.sha256,
                          environmentVariables := env, revisionId := info.revisionId,
                          reservedConcurrency := info.reservedConcurrency);
      err := None;
  }

  /** resourceLimelightEdgeFunctionDelete */
  method Delete(d: ResourceData<FunctionAttrs>, c: Client<Call>, reply: Reply<()>) returns (err: Option<Error>)
    modifies c`calls
    ensures Produced(d, c, DeleteEffect(old(d.id), old(d.attrs), reply), err)
  {
    var (shortname, name, splitErr) := SplitId(d.id);
    if splitErr.Some? {
      return splitErr;
    }
    c.Record(DeleteEdgeFunction(name, shortname));
    match reply
    case Ok(_) =>
      err := None;
    case Fail(f) =>
      err := Some(RemoteError(DeleteContext, f.cause));
  }

  /**
   * A malformed ID fails before any call; otherwise a not-found read clears
   * the ID without an error, other failures are errors, and a successful
   * read takes shortname and name from the ID and never touches the
   * archive path.
   */
  lemma ReadOutcomes(id: string, a: FunctionAttrs, reply: Reply<FunctionInfo>)
    ensures var e := ReadEffect(id, a, reply);
      (SplitId(id).2.Some? ==> e.calls == [] && e.err == Some(FormatError(IdFormat, id)) && e.id == id) &&
      (SplitId(id).2.None? ==>
        e.calls == [GetEdgeFunction(SplitId(id).1, SplitId(id).0)] &&
        (e.err.None? <==> reply.Ok? || IsNotFound(reply.failure)) &&
        (e.id == "" <==> reply.Fail? && IsNotFound(reply.failure)) &&
        (reply.Ok? ==> id == FunctionId(e.attrs.shortname, e.attrs.name) &&
                       e.attrs.revisionId == reply.value.revisionId)) &&
      e.attrs.functionArchive == a.functionArchive
  {
  }

  /** Delete issues one call and reports every failure, not-found included. */
  lemma DeleteOutcomes(id: string, a: FunctionAttrs, reply: Reply<()>)
    ensures var e := DeleteEffect(id, a, reply);
      e.id == id && e.attrs == a && |e.calls| <= 1 &&
      (e.err.None? <==> SplitId(id).2.None? && reply.Ok?)
  {
  }

  // ---------------------------------------------------------------------
  // Create with rollback
  // ---------------------------------------------------------------------

  function NewFunctionOf(a: FunctionAttrs, zipFile: seq<byte>): NewFunction {
    NewFunction(a.name, a.description, zipFile, a.handler, a.runtime, a.memory, a.timeout, a.canDebug,
                ExpandedEnvVars(a.environmentVariables))
  }

  /** The calls of create up to and including its concurrency step, and the error that ends it early. */
  datatype CreateSteps = CreateSteps(calls: seq<Call>, err: Option<Error>)

  function CreateStepsOf(a: FunctionAttrs, archive: ArchiveRead, createReply: Reply<string>,
                         concurrencyReply: Reply<()>): CreateSteps
  {
    match archive
    case ArchiveError(cause) => CreateSteps([], Some(IoError(cause)))
    case Archive(zipFile) =>
      var create := CreateEdgeFunction(a.shortname, NewFunctionOf(a, zipFile));
      match createReply
      case Fail(f) => CreateSteps([create], Some(RemoteError(CreateContext, f.cause)))
      case Ok(_) =>
        if a.reservedConcurrency > 0 then
          var setConcurrency := SetEdgeFunctionConcurrency(a.name, a.shortname, a.reservedConcurrency);
          match concurrencyReply
          case Fail(f) =>
            CreateSteps([create, setConcurrency, DeleteEdgeFunction(a.name, a.shortname)],
                        Some(RemoteError(RollbackContext(a.name), f.cause)))
          case Ok(_) => CreateSteps([create, setConcurrency], None)
        else CreateSteps([create], None)
  }

  /**
   * Create: the steps above; if they went through, the ID built from the
   * response's name and the read of it. The outcome of the compensating
   * delete plays no part.
   */
  function CreateEffect(id: string, a: FunctionAttrs, archive: ArchiveRead, createReply: Reply<string>,
                        concurrencyReply: Reply<()>, deleteReply: Reply<()>, readReply: Reply<FunctionInfo>): Effect<FunctionAttrs, Call>
  {
    var steps := CreateStepsOf(a, archive, createReply, concurrencyReply);
    if steps.err.Some? || createReply.Fail? then Effect(steps.calls, id, a, steps.err)
    else
      var r := ReadEffect(FunctionId(a.shortname, createReply.value), a, readReply);
      r.(calls := steps.calls + r.calls)
  }

  /**
   * The part of create before the ID is set: load the archive, create the
   * function and, for a positive concurrency, set it, deleting the function
   * again if that fails.
   */
  method CreateAndConfigure(c: Client<Call>, a: FunctionAttrs, archive: ArchiveRead, createReply: Reply<string>,
                            concurrencyReply: Reply<()>) returns (err: Option<Error>)
    modifies c`calls
    ensures var steps := CreateStepsOf(a, archive, createReply, concurrencyReply);
      c.calls == old(c.calls) + steps.calls && err == steps.err
  {
    var env := ExpandEnvVars(a.environmentVariables);
    match archive
    case ArchiveError(cause) =>
      return Some(IoError(cause));
    case Archive(zipFile) =>
      var edgeFunction := NewFunction(a.name, a.description, zipFile, a.handler, a.runtime, a.memory,
                                      a.timeout, a.canDebug, env);
      c.Record(CreateEdgeFunction(a.shortname, edgeFunction));
      if createReply.Fail? {
        return Some(RemoteError(CreateContext, createReply.failure.cause));
      }
      if a.reservedConcurrency > 0 {
        c.Record(SetEdgeFunctionConcurrency(a.name, a.shortname, a.reservedConcurrency));
        if concurrencyReply.Fail? {
          // The outcome of the compensating delete is only logged.
          c.Record(DeleteEdgeFunction(a.name, a.shortname));
          return Some(RemoteError(RollbackContext(a.name), concurrencyReply.failure.cause));
        }
      }
      err := None;
  }

  /** resourceLimelightEdgeFunctionCreate */
  method Create(d: ResourceData<FunctionAttrs>, c: Client<Call>, archive: ArchiveRead, createReply: Reply<string>,
                concurrencyReply: Reply<()>, deleteReply: Reply<()>, readReply: Reply<FunctionInfo>)
    returns (err: Option<Error>)
    modifies d`id, d`attrs, c`calls
    ensures Produced(d, c, CreateEffect(old(d.id), old(d.attrs), archive, createReply, concurrencyReply, deleteReply, readReply), err)
  {
    err := CreateAndConfigure(c, d.attrs, archive, createReply, concurrencyReply);
    if err.Some? {
      return;
    }
    ghost var steps := CreateStepsOf(d.attrs, archive, createReply, concurrencyReply);
    d.id := FunctionId(d.attrs.shortname, createReply.value);
    err := Read(d, c, readReply);
    AppendAssoc(old(c.calls), steps.calls, ReadEffect(d.id, old(d.attrs), readReply).calls);
  }

  /**
   * A failed concurrency step is rolled back by exactly one delete of the
   * function just created; the concurrency error is returned whatever the
   * delete did, and the ID is never set.
   */
  lemma CreateRollback(id: string, a: FunctionAttrs, zipFile: seq<byte>, createdName: string,
                       f: Failure, deleteReply: Reply<()>, readReply: Reply<FunctionInfo>)
    requires a.reservedConcurrency > 0
    ensures var e := CreateEffect(id, a, Archive(zipFile), Ok(createdName), Fail(f), deleteReply, readReply);
      e.calls == [CreateEdgeFunction(a.shortname, NewFunctionOf(a, zipFile)),
                  SetEdgeFunctionConcurrency(a.name, a.shortname, a.reservedConcurrency),
                  DeleteEdgeFunction(a.name, a.shortname)] &&
      multiset(e.calls)[DeleteEdgeFunction(a.name, a.shortname)] == 1 &&
      e.err == Some(RemoteError(RollbackContext(a.name), f.cause)) &&
      e.id == id && e.attrs == a
    ensures forall other: Reply<()> ::
      CreateEffect(id, a, Archive(zipFile), Ok(createdName), Fail(f), other, readReply) ==
      CreateEffect(id, a, Archive(zipFile), Ok(createdName), Fail(f), deleteReply, readReply)
  {
    var e := CreateEffect(id, a, Archive(zipFile), Ok(createdName), Fail(f), deleteReply, readReply);
    var create := CreateEdgeFunction(a.shortname, NewFunctionOf(a, zipFile));
    var setConcurrency := SetEdgeFunctionConcurrency(a.name, a.shortname, a.reservedConcurrency);
    var del := DeleteEdgeFunction(a.name, a.shortname);
    assert e.calls == [create] + [setConcurrency] + [del];
    assert multiset(e.calls) == multiset{create, setConcurrency, del};
  }

  /**
   * The concurrency call is made exactly when the archive was read, the
   * create succeeded and the declared concurrency is positive; a delete is
   * made exactly when that call then failed.
   */
  lemma CreateCallsConcurrencyOnlyWhenPositive(id: string, a: FunctionAttrs, archive: ArchiveRead, createReply: Reply<string>,
                                               concurrencyReply: Reply<()>, deleteReply: Reply<()>, readReply: Reply<FunctionInfo>)
    ensures var e := CreateEffect(id, a, archive, createReply, concurrencyReply, deleteReply, readReply);
      (SetEdgeFunctionConcurrency(a.name, a.shortname, a.reservedConcurrency) in e.calls <==>
        archive.Archive? && createReply.Ok? && a.reservedConcurrency > 0) &&
      (DeleteEdgeFunction(a.name, a.shortname) in e.calls <==>
        archive.Archive? && createReply.Ok? && a.reservedConcurrency > 0 && concurrencyReply.Fail?)
  {
  }

  /**
   * A create that goes through stores `shortname:name-of-the-response` as
   * the ID, and that ID decodes back when the shortname has no colon.
   */
  lemma CreateSetsId(id: string, a: FunctionAttrs, zipFile: seq<byte>, createdName: string,
                     concurrencyReply: Reply<()>, deleteReply: Reply<()>, info: FunctionInfo)
    requires a.reservedConcurrency <= 0 || concurrencyReply.Ok?
    requires a.shortname != "" && createdName != "" && ':' !in a.shortname
    ensures var e := CreateEffect(id, a, Archive(zipFile), Ok(createdName), concurrencyReply, deleteReply, Ok(info));
      e.err.None? && e.id == FunctionId(a.shortname, createdName) &&
      e.attrs.shortname == a.shortname && e.attrs.name == createdName &&
      e.calls[|e.calls| - 1] == GetEdgeFunction(createdName, a.shortname)
  {
    IdRoundTrip(a.shortname, createdName);
  }

  // ---------------------------------------------------------------------
  // Update
  // ---------------------------------------------------------------------

  /** The three remote steps an update can take, in the order it takes them. */
  datatype Facet = Code | Config | Concurrency

  function Rank(f: Facet): nat {
    match f
    case Code => 0
    case Config => 1
    case Concurrency => 2
  }

  /** The configuration test of the update, key by key. */
  predicate ConfigChanged(changed: set<string>) {
    "description" in changed || "handler" in changed || "runtime" in changed || "memory" in changed ||
    "timeout" in changed || "can_debug" in changed || "environment_variable" in changed
  }

  /** The key-by-key test is the test for a changed configuration key. */
  lemma ConfigChangedIff(changed: set<string>)
    ensures ConfigChanged(changed) <==> ConfigKeys * changed != {}
  {
    if ConfigChanged(changed) {
      var k :=
        if "description" in changed then "description" else if "handler" in changed then "handler"
        else if "runtime" in changed then "runtime" else if "memory" in changed then "memory"
        else if "timeout" in changed then "timeout" else if "can_debug" in changed then "can_debug"
        else "environment_variable";
      assert k in ConfigKeys * changed;
    } else {
      forall k | k in ConfigKeys
        ensures k !in changed
      {
      }
      assert ConfigKeys * changed == {};
    }
  }

  function OptionalStep(b: bool, f: Facet): seq<Facet> {
    if b then [f] else []
  }

  /** The steps an update takes for the given changed keys, before any failure. */
  function UpdatePlan(changed: set<string>): (plan: seq<Facet>)
    ensures Code in plan <==> CodeKey in changed
    ensures Config in plan <==> ConfigKeys * changed != {}
    ensures Concurrency in plan <==> ConcurrencyKey in changed
    ensures forall i, j :: 0 <= i < j < |plan| ==> Rank(plan[i]) < Rank(plan[j])
  {
    ConfigChangedIff(changed);
    OptionalStep(CodeKey in changed, Code) +
      (OptionalStep(ConfigChanged(changed), Config) + OptionalStep(ConcurrencyKey in changed, Concurrency))
  }

  /** Only the function_sha256 key triggers a code update: a changed archive path alone does nothing. */
  lemma ArchiveChangeAloneIssuesNothing()
    ensures UpdatePlan({ArchiveKey}) == []
    ensures UpdatePlan({ArchiveKey, CodeKey}) == [Code]
  {
    assert UpdatePlan({ArchiveKey}) == [] + ([] + []);
    assert UpdatePlan({ArchiveKey, CodeKey}) == [Code] + ([] + []);
  }

  /** The remote outcomes the steps of one update meet. */
  datatype StepReplies = StepReplies(archive: ArchiveRead, code: Reply<()>, config: Reply<()>, concurrency: Reply<()>)

  /** The calls a step issued, the keys it committed to partial state and its error. */
  datatype StepOutcome = StepOutcome(calls: seq<Call>, committed: set<string>, err: Option<Error>)

  function ConfigOf(a: FunctionAttrs): FunctionConfig {
    FunctionConfig(a.description, a.handler, a.runtime, a.memory, a.timeout, a.canDebug,
                   ExpandedEnvVars(a.environmentVariables))
  }

  /** One step of the update against the function `name` of `shortname`. */
  function RunStep(f: Facet, name: string, shortname: string, a: FunctionAttrs, replies: StepReplies): StepOutcome {
    match f
    case Code =>
      (match replies.archive
       case ArchiveError(cause) => StepOutcome([], {}, Some(IoError(cause)))
       case Archive(zipFile) =>
         var call := UpdateEdgeFunctionCode(name, shortname, zipFile);
         if replies.code.Fail? then StepOutcome([call], {}, Some(RemoteError(CodeContext, replies.code.failure.cause)))
         else StepOutcome([call], {ArchiveKey, CodeKey}, None))
    case Config =>
      var call := UpdateEdgeFunctionConfiguration(name, shortname, ConfigOf(a));
      if replies.config.Fail? then StepOutcome([call], {}, Some(RemoteError(ConfigContext, replies.config.failure.cause)))
      else StepOutcome([call], {}, None)
    case Concurrency =>
      var call := SetEdgeFunctionConcurrency(name, shortname, a.reservedConcurrency);
      if replies.concurrency.Fail? then StepOutcome([call], {}, Some(RemoteError(ConcurrencyContext, replies.concurrency.failure.cause)))
      else StepOutcome([call], {}, None)
  }

  /** A step followed by the rest, unless the step failed. */
  function Then(s: StepOutcome, rest: StepOutcome): StepOutcome {
    if s.err.Some? then s else StepOutcome(s.calls + rest.calls, s.committed + rest.committed, rest.err)
  }

  /** The steps of a plan taken in order, stopping at the first failure. */
  function RunPlan(plan: seq<Facet>, name: string, shortname: string, a: FunctionAttrs, replies: StepReplies): StepOutcome
    decreases |plan|
  {
    if plan == [] then StepOutcome([], {}, None)
    else Then(RunStep(plan[0], name, shortname, a, replies), RunPlan(plan[1..], name, shortname, a, replies))
  }

  /** Every call the steps of a plan issue when none of them fails. */
  function AllCalls(plan: seq<Facet>, name: string, shortname: string, a: FunctionAttrs, replies: StepReplies): seq<Call>
    decreases |plan|
  {
    if plan == [] then [] else RunStep(plan[0], name, shortname, a, replies).calls + AllCalls(plan[1..], name, shortname, a, replies)
  }

  /** What an update leaves: its effect and the partial-state bookkeeping. */
  datatype UpdateOutcome = UpdateOutcome(effect: Effect<FunctionAttrs, Call>, partial: bool, committed: set<string>)

  /** A step taken only when its keys changed; a step not taken does nothing. */
  function Gate(b: bool, f: Facet, name: string, shortname: string, a: FunctionAttrs, replies: StepReplies): StepOutcome {
    if b then RunStep(f, name, shortname, a, replies) else StepOutcome([], {}, None)
  }

  /** The three steps of an update, each behind its change test. */
  function GatedRun(changed: set<string>, name: string, shortname: string, a: FunctionAttrs, replies: StepReplies): StepOutcome {
    Then(Gate(CodeKey in changed, Code, name, shortname, a, replies),
         Then(Gate(ConfigChanged(changed), Config, name, shortname, a, replies),
              Gate(ConcurrencyKey in changed, Concurrency, name, shortname, a, replies)))
  }

  function UpdateEffect(id: string, a: FunctionAttrs, changed: set<string>, partial: bool, committed: set<string>,
                        replies: StepReplies, readReply: Reply<FunctionInfo>): UpdateOutcome
  {
    var (shortname, name, splitErr) := SplitId(id);
    if splitErr.Some? then UpdateOutcome(Effect([], id, a, splitErr), partial, committed)
    else
      var run := GatedRun(changed, name, shortname, a, replies);
      if run.err.Some? then UpdateOutcome(Effect(run.calls, id, a, run.err), true, committed + run.committed)
      else
        var r := ReadEffect(id, a, readReply);
        UpdateOutcome(r.(calls := run.calls + r.calls), false, {})
  }

  lemma RunOptionalStep(b: bool, f: Facet, rest: seq<Facet>, name: string, shortname: string, a: FunctionAttrs, replies: StepReplies)
    ensures RunPlan(OptionalStep(b, f) + rest, name, shortname, a, replies) ==
      if b then Then(RunStep(f, name, shortname, a, replies), RunPlan(rest, name, shortname, a, replies))
      else RunPlan(rest, name, shortname, a, replies)
  {
    if b {
      assert (OptionalStep(b, f) + rest)[1..] == rest;
    } else {
      assert OptionalStep(b, f) + rest == rest;
    }
  }

  /** The gated steps are the planned steps run in order, stopping at the first failure. */
  lemma GatedRunIsPlanRun(changed: set<string>, name: string, shortname: string, a: FunctionAttrs, replies: StepReplies)
    ensures GatedRun(changed, name, shortname, a, replies) == RunPlan(UpdatePlan(changed), name, shortname, a, replies)
  {
    var concurrencyPlan := OptionalStep(ConcurrencyKey in changed, Concurrency);
    var configPlan := OptionalStep(ConfigChanged(changed), Config) + concurrencyPlan;
    RunOptionalStep(CodeKey in changed, Code, configPlan, name, shortname, a, replies);
    RunOptionalStep(ConfigChanged(changed), Config, concurrencyPlan, name, shortname, a, replies);
    RunOptionalStep(ConcurrencyKey in changed, Concurrency, [], name, shortname, a, replies);
    var g2 := Gate(ConfigChanged(changed), Config, name, shortname, a, replies);
    var g3 := Gate(ConcurrencyKey in changed, Concurrency, name, shortname, a, replies);
    var done := StepOutcome([], {}, None);
    assert Then(g3, done) == g3 by {
      assert g3.calls + [] == g3.calls;
      assert g3.committed + {} == g3.committed;
    }
    assert Then(done, Then(g2, g3)) == Then(g2, g3);
    assert Then(done, g3) == g3;
  }

  /**
   * One guarded block of the update: the code block loads the archive,
   * sends it and marks archive and hash as kept; the configuration and
   * concurrency blocks send their one request.
   */
  method TakeStep(d: ResourceData<FunctionAttrs>, c: Client<Call>, f: Facet, name: string, shortname: string,
                  replies: StepReplies) returns (err: Option<Error>)
    modifies d`committed, c`calls
    ensures var s := RunStep(f, name, shortname, d.attrs, replies);
      c.calls == old(c.calls) + s.calls && err == s.err &&
      d.committed == (if d.partial then old(d.committed) + s.committed else old(d.committed))
  {
    match f
    case Code =>
      match replies.archive {
        case ArchiveError(cause) =>
          err := Some(IoError(cause));
        case Archive(zipFile) =>
          c.Record(UpdateEdgeFunctionCode(name, shortname, zipFile));
          if replies.code.Fail? {
            err := Some(RemoteError(CodeContext, replies.code.failure.cause));
          } else {
            d.SetPartial(ArchiveKey);
            d.SetPartial(CodeKey);
            err := None;
          }
      }
    case Config =>
      var env := ExpandEnvVars(d.attrs.environmentVariables);
      var edgeFunction := FunctionConfig(d.attrs.description, d.attrs.handler, d.attrs.runtime, d.attrs.memory,
                                         d.attrs.timeout, d.attrs.canDebug, env);
      c.Record(UpdateEdgeFunctionConfiguration(name, shortname, edgeFunction));
      err := if replies.config.Fail? then Some(RemoteError(ConfigContext, replies.config.failure.cause)) else None;
    case Concurrency =>
      c.Record(SetEdgeFunctionConcurrency(name, shortname, d.attrs.reservedConcurrency));
      err := if replies.concurrency.Fail? then Some(RemoteError(ConcurrencyContext, replies.concurrency.failure.cause)) else None;
  }

  /**
   * The three guarded blocks of the update, in order, each returning on
   * failure; in partial mode the keys they commit accumulate.
   */
  method TakeSteps(d: ResourceData<FunctionAttrs>, c: Client<Call>, name: string, shortname: string,
                   replies: StepReplies) returns (err: Option<Error>)
    requires d.partial
    modifies d`committed, c`calls
    ensures var run := GatedRun(d.changed, name, shortname, d.attrs, replies);
      c.calls == old(c.calls) + run.calls && d.committed == old(d.committed) + run.committed && err == run.err
  {
    ghost var g1 := Gate(CodeKey in d.changed, Code, name, shortname, d.attrs, replies);
    ghost var g2 := Gate(ConfigChanged(d.changed), Config, name, shortname, d.attrs, replies);
    ghost var g3 := Gate(ConcurrencyKey in d.changed, Concurrency, name, shortname, d.attrs, replies);
    err := None;
    if CodeKey in d.changed {
      err := TakeStep(d, c, Code, name, shortname, replies);
      if err.Some? {
        return;
      }
    }
    assert c.calls == old(c.calls) + g1.calls && d.committed == old(d.committed) + g1.committed;
    if ConfigChanged(d.changed) {
      err := TakeStep(d, c, Config, name, shortname, replies);
      AppendAssoc(old(c.calls), g1.calls, g2.calls);
      UnionAssoc(old(d.committed), g1.committed, g2.committed);
      if err.Some? {
        return;
      }
    }
    assert c.calls == old(c.calls) + (g1.calls + g2.calls);
    assert d.committed == old(d.committed) + (g1.committed + g2.committed);
    if ConcurrencyKey in d.changed {
      err := TakeStep(d, c, Concurrency, name, shortname, replies);
      AppendAssoc(old(c.calls), g1.calls + g2.calls, g3.calls);
      AppendAssoc(g1.calls, g2.calls, g3.calls);
      UnionAssoc(old(d.committed), g1.committed + g2.committed, g3.committed);
      UnionAssoc(g1.committed, g2.committed, g3.committed);
      if err.Some? {
        return;
      }
    }
    assert c.calls == old(c.calls) + (g1.calls + (g2.calls + g3.calls));
    assert d.committed == old(d.committed) + (g1.committed + (g2.committed + g3.committed));
  }

  /** resourceLimelightEdgeFunctionUpdate */
  method Update(d: ResourceData<FunctionAttrs>, c: Client<Call>, replies: StepReplies, readReply: Reply<FunctionInfo>)
    returns (err: Option<Error>)
    modifies d`id, d`attrs, d`partial, d`committed, c`calls
    ensures var u := UpdateEffect(old(d.id), old(d.attrs), d.changed, old(d.partial), old(d.committed), replies, readReply);
      Produced(d, c, u.effect, err) && d.partial == u.partial && d.committed == u.committed
  {
    var (shortname, name, splitErr) := SplitId(d.id);
    if splitErr.Some? {
      return splitErr;
    }
    d.Partial(true);
    err := TakeSteps(d, c, name, shortname, replies);
    if err.Some? {
      return;
    }
    ghost var run := GatedRun(d.changed, name, shortname, d.attrs, replies);
    d.Partial(false);
    err := Read(d, c, readReply);
    AppendAssoc(old(c.calls), run.calls, ReadEffect(old(d.id), old(d.attrs), readReply).calls);
  }

  /** A plan whose steps all succeed issues all their calls and returns no error. */
  lemma {:induction false} RunPlanAllSucceed(plan: seq<Facet>, name: string, shortname: string, a: FunctionAttrs, replies: StepReplies)
    requires forall i :: 0 <= i < |plan| ==> RunStep(plan[i], name, shortname, a, replies).err.None?
    ensures RunPlan(plan, name, shortname, a, replies).err.None?
    ensures RunPlan(plan, name, shortname, a, replies).calls == AllCalls(plan, name, shortname, a, replies)
    decreases |plan|
  {
    if plan != [] {
      RunPlanAllSucceed(plan[1..], name, shortname, a, replies);
    }
  }

  /**
   * The first failing step ends the run with its own error; the calls are
   * those of the steps before it and its own, and no later step runs.
   */
  lemma {:induction false} RunPlanStopsAtFirstFailure(plan: seq<Facet>, k: nat, name: string, shortname: string,
                                                      a: FunctionAttrs, replies: StepReplies)
    requires k < |plan| && RunStep(plan[k], name, shortname, a, replies).err.Some?
    requires forall i :: 0 <= i < k ==> RunStep(plan[i], name, shortname, a, replies).err.None?
    ensures RunPlan(plan, name, shortname, a, replies).err == RunStep(plan[k], name, shortname, a, replies).err
    ensures RunPlan(plan, name, shortname, a, replies).calls == AllCalls(plan[..k + 1], name, shortname, a, replies)
    decreases k
  {
    if k > 0 {
      RunPlanStopsAtFirstFailure(plan[1..], k - 1, name, shortname, a, replies);
      assert plan[..k + 1][1..] == plan[1..][..k];
    } else {
      assert plan[..1][1..] == [];
    }
  }

  /** A step issues at most one call, and only calls of its own kind. */
  function FacetOf(call: Call): Option<Facet> {
    match call
    case UpdateEdgeFunctionCode(_, _, _) => Some(Code)
    case UpdateEdgeFunctionConfiguration(_, _, _) => Some(Config)
    case SetEdgeFunctionConcurrency(_, _, _) => Some(Concurrency)
    case _ => None
  }

  /**
   * The calls of a plan ordered code, config, concurrency follow that
   * order, with at most one call of each kind.
   */
  lemma {:induction false} AllCallsFollowPlan(plan: seq<Facet>, name: string, shortname: string, a: FunctionAttrs, replies: StepReplies)
    requires forall i, j :: 0 <= i < j < |plan| ==> Rank(plan[i]) < Rank(plan[j])
    ensures var calls := AllCalls(plan, name, shortname, a, replies);
      |calls| <= |plan| &&
      (forall i :: 0 <= i < |calls| ==> FacetOf(calls[i]).Some? && FacetOf(calls[i]).value in plan) &&
      (forall i, j :: 0 <= i < j < |calls| ==> Rank(FacetOf(calls[i]).value) < Rank(FacetOf(calls[j]).value))
    decreases |plan|
  {
    if plan != [] {
      var rest := plan[1..];
      AllCallsFollowPlan(rest, name, shortname, a, replies);
      var first := RunStep(plan[0], name, shortname, a, replies).calls;
      var later := AllCalls(rest, name, shortname, a, replies);
      assert forall i :: 0 <= i < |later| ==> FacetOf(later[i]).value in rest;
      assert forall f :: f in rest ==> Rank(plan[0]) < Rank(f);
      assert |first| <= 1 && forall i :: 0 <= i < |first| ==> FacetOf(first[i]) == Some(plan[0]);
      assert AllCalls(plan, name, shortname, a, replies) == first + later;
    }
  }

  /** The position of the first failing step of a plan, or its length. */
  function FirstFailure(plan: seq<Facet>, name: string, shortname: string, a: FunctionAttrs, replies: StepReplies): (k: nat)
    ensures k <= |plan|
    ensures forall i :: 0 <= i < k ==> RunStep(plan[i], name, shortname, a, replies).err.None?
    ensures k < |plan| ==> RunStep(plan[k], name, shortname, a, replies).err.Some?
    decreases |plan|
  {
    if plan == [] then 0
    else if RunStep(plan[0], name, shortname, a, replies).err.Some? then 0
    else 1 + FirstFailure(plan[1..], name, shortname, a, replies)
  }

  /**
   * Whatever fails, the calls of a run of a plan ordered code, config,
   * concurrency follow that order, at most one of each kind, each of a
   * step in the plan.
   */
  lemma RunPlanCallOrder(plan: seq<Facet>, name: string, shortname: string, a: FunctionAttrs, replies: StepReplies)
    requires forall i, j :: 0 <= i < j < |plan| ==> Rank(plan[i]) < Rank(plan[j])
    ensures var calls := RunPlan(plan, name, shortname, a, replies).calls;
      |calls| <= |plan| &&
      (forall i :: 0 <= i < |calls| ==> FacetOf(calls[i]).Some? && FacetOf(calls[i]).value in plan) &&
      (forall i, j :: 0 <= i < j < |calls| ==> Rank(FacetOf(calls[i]).value) < Rank(FacetOf(calls[j]).value))
  {
    var m := FirstFailure(plan, name, shortname, a, replies);
    if m < |plan| {
      RunPlanStopsAtFirstFailure(plan, m, name, shortname, a, replies);
      AllCallsFollowPlan(plan[..m + 1], name, shortname, a, replies);
      assert forall f :: f in plan[..m + 1] ==> f in plan;
    } else {
      RunPlanAllSucceed(plan, name, shortname, a, replies);
      AllCallsFollowPlan(plan, name, shortname, a, replies);
    }
  }

  /**
   * An update with a well-formed ID makes the planned calls (code, config,
   * concurrency, in that order, each only if its keys changed) and, if none
   * failed, then the read; a failure is returned as is.
   */
  lemma UpdateCalls(id: string, a: FunctionAttrs, changed: set<string>, partial: bool, committed: set<string>,
                    replies: StepReplies, readReply: Reply<FunctionInfo>)
    requires SplitId(id).2.None?
    ensures var run := RunPlan(UpdatePlan(changed), SplitId(id).1, SplitId(id).0, a, replies);
      var e := UpdateEffect(id, a, changed, partial, committed, replies, readReply).effect;
      (forall i :: 0 <= i < |run.calls| && FacetOf(run.calls[i]) == Some(Code) ==> CodeKey in changed) &&
      (forall i :: 0 <= i < |run.calls| && FacetOf(run.calls[i]) == Some(Config) ==> ConfigKeys * changed != {}) &&
      (forall i :: 0 <= i < |run.calls| && FacetOf(run.calls[i]) == Some(Concurrency) ==> ConcurrencyKey in changed) &&
      (forall i :: 0 <= i < |run.calls| ==> FacetOf(run.calls[i]).Some?) &&
      (forall i, j :: 0 <= i < j < |run.calls| ==> Rank(FacetOf(run.calls[i]).value) < Rank(FacetOf(run.calls[j]).value)) &&
      (run.err.Some? ==> e.calls == run.calls && e.err == run.err && e.id == id && e.attrs == a) &&
      (run.err.None? ==> e.calls == run.calls + [GetEdgeFunction(SplitId(id).1, SplitId(id).0)])
  {
    var (shortname, name, _) := SplitId(id);
    GatedRunIsPlanRun(changed, name, shortname, a, replies);
    RunPlanCallOrder(UpdatePlan(changed), name, shortname, a, replies);
  }

  /**
   * A failed step leaves the ID and attributes alone with partial mode on,
   * the archive and hash committed only if the code step got through; an
   * update that goes through ends with partial mode off and the read.
   */
  lemma UpdatePartialState(id: string, a: FunctionAttrs, changed: set<string>, replies: StepReplies, readReply: Reply<FunctionInfo>)
    requires SplitId(id).2.None?
    ensures var u := UpdateEffect(id, a, changed, false, {}, replies, readReply);
      var codeDone := CodeKey in changed && replies.archive.Archive? && replies.code.Ok?;
      (u.partial ==> u.effect.err.Some? && u.effect.id == id && u.effect.attrs == a &&
                     (u.committed == {ArchiveKey, CodeKey} <==> codeDone) &&
                     (u.committed == {} <==> !codeDone)) &&
      (!u.partial ==> u.committed == {}) &&
      (u.partial <==> GatedRun(changed, SplitId(id).1, SplitId(id).0, a, replies).err.Some?) &&
      (u.effect.err.None? ==> !u.partial)
  {
  }
}
