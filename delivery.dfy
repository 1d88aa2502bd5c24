/**
 * The delivery configuration resource (limelight_delivery): the translation
 * between its declared protocol sets and the configuration API's protocol
 * sets, and its create, read, update and delete operations.
 */
module Delivery {
  import opened Common
  import opened Decimal
  import opened Sdk

  /** The service profile used when none is declared. */
  const DefaultServiceProfile: string := "LLNW-Generic"
  /** The service key every delivery body names. */
  const DeliveryServiceKey: string := "delivery"

  const CreateContext: string := "error creating delivery configuration"
  const ReadContext: string := "error reading delivery configuration"
  const UpdateContext: string := "error updating delivery configuration"
  const DeleteContext: string := "error deleting delivery configuration"

  // ---------------------------------------------------------------------
  // Declared (Terraform) and API shapes of a protocol set
  // ---------------------------------------------------------------------

  /** A declared `option` block: a name and its parameters, all strings. */
  datatype OptionBlock = OptionBlock(name: string, parameters: seq<string>)

  /** A declared `protocol_set` block; an unset source_port reads as 0. */
  datatype ProtocolSetBlock = ProtocolSetBlock(
    publishedProtocol: string, sourceProtocol: string, sourcePort: int, options: seq<OptionBlock>)

  /** An option parameter as the API carries it: an integer or a string. */
  datatype Param = IntP(n: int) | StrP(s: string)

  datatype ApiOption = ApiOption(name: string, parameters: seq<Param>)

  /** The API's protocol set; None stands for a nil source port pointer. */
  datatype ProtocolSet = ProtocolSet(
    publishedProtocol: string, sourceProtocol: string, sourcePort: Option<int>, options: seq<ApiOption>)

  /** The answer of IsOptionArgumentInteger: the flag and whether it failed. */
  datatype ArgTypeReply = ArgTypeReply(isInteger: bool, failed: bool)

  /**
   * IsOptionArgumentInteger(shortname, serviceProfile, optionName, position),
   * a remote query whose answers the model takes as given.
   */
  type ArgTypeOracle = (string, string, string, nat) -> ArgTypeReply

  // ---------------------------------------------------------------------
  // Specification of the transcoders
  // ---------------------------------------------------------------------

  /** fmt.Sprintf("%v", p) for the two kinds of parameter value. */
  function FormatParam(p: Param): string {
    match p
    case IntP(n) => FormatInt(n)
    case StrP(s) => s
  }

  /** A declared parameter becomes an integer only if the API types it so and it parses. */
  function ExpandedParam(raw: string, integerTyped: bool): Param {
    if integerTyped && Atoi(raw).Some? then IntP(Atoi(raw).value) else StrP(raw)
  }

  function ExpandedParams(raws: seq<string>, optionName: string, oracle: ArgTypeOracle,
                          shortname: string, serviceProfile: string): seq<Param>
  {
    seq(|raws|, i requires 0 <= i < |raws| =>
      ExpandedParam(raws[i], oracle(shortname, serviceProfile, optionName, i).isInteger))
  }

  function ExpandedOption(o: OptionBlock, oracle: ArgTypeOracle, shortname: string, serviceProfile: string): ApiOption {
    ApiOption(o.name, ExpandedParams(o.parameters, o.name, oracle, shortname, serviceProfile))
  }

  function ExpandedOptions(os: seq<OptionBlock>, oracle: ArgTypeOracle, shortname: string, serviceProfile: string): seq<ApiOption> {
    seq(|os|, i requires 0 <= i < |os| => ExpandedOption(os[i], oracle, shortname, serviceProfile))
  }

  /** A declared port of 0 (the unset value) is sent as no port at all. */
  function ExpandedPort(port: int): Option<int> {
    if port != 0 then Some(port) else None
  }

  function ExpandedProtocolSet(b: ProtocolSetBlock, oracle: ArgTypeOracle, shortname: string, serviceProfile: string): ProtocolSet {
    ProtocolSet(b.publishedProtocol, b.sourceProtocol, ExpandedPort(b.sourcePort),
                ExpandedOptions(b.options, oracle, shortname, serviceProfile))
  }

  function ExpandedProtocolSets(bs: seq<ProtocolSetBlock>, oracle: ArgTypeOracle, shortname: string, serviceProfile: string): seq<ProtocolSet> {
    seq(|bs|, i requires 0 <= i < |bs| => ExpandedProtocolSet(bs[i], oracle, shortname, serviceProfile))
  }

  function FlattenedParams(ps: seq<Param>): seq<string> {
    seq(|ps|, i requires 0 <= i < |ps| => FormatParam(ps[i]))
  }

  function FlattenedOption(o: ApiOption): OptionBlock {
    OptionBlock(o.name, FlattenedParams(o.parameters))
  }

  function FlattenedOptions(os: seq<ApiOption>): seq<OptionBlock> {
    seq(|os|, i requires 0 <= i < |os| => FlattenedOption(os[i]))
  }

  /** A missing port reaches the schema as its zero value. */
  function PortField(port: Option<int>): int {
    if port.Some? then port.value else 0
  }

  function FlattenedProtocolSet(s: ProtocolSet): ProtocolSetBlock {
    ProtocolSetBlock(s.publishedProtocol, s.sourceProtocol, PortField(s.sourcePort), FlattenedOptions(s.options))
  }

  function FlattenedProtocolSets(ss: seq<ProtocolSet>): seq<ProtocolSetBlock> {
    seq(|ss|, i requires 0 <= i < |ss| => FlattenedProtocolSet(ss[i]))
  }

  // ---------------------------------------------------------------------
  // The transcoders
  // ---------------------------------------------------------------------

  /** expandOptionParameters: each parameter typed by the API's answer for its position. */
  method ExpandOptionParameters(flattened: seq<string>, optionName: string, oracle: ArgTypeOracle,
                                shortname: string, serviceProfile: string) returns (expanded: seq<Param>)
    ensures |expanded| == |flattened|
    ensures forall i :: 0 <= i < |expanded| && expanded[i].StrP? ==> expanded[i].s == flattened[i]
    ensures forall i :: 0 <= i < |expanded| && expanded[i].IntP? ==> Atoi(flattened[i]) == Some(expanded[i].n)
    ensures expanded == ExpandedParams(flattened, optionName, oracle, shortname, serviceProfile)
  {
    var a := new Param[|flattened|];
    for i := 0 to |flattened|
      invariant forall k :: 0 <= k < i ==>
        a[k] == ExpandedParam(flattened[k], oracle(shortname, serviceProfile, optionName, k).isInteger)
    {
      var stringVal := flattened[i];
      var argInt := oracle(shortname, serviceProfile, optionName, i).isInteger;
      if argInt {
        var intVal := Atoi(stringVal);
        if intVal.Some? {
          a[i] := IntP(intVal.value);
        } else {
          a[i] := StrP(stringVal);
        }
      } else {
        a[i] := StrP(stringVal);
      }
    }
    expanded := a[..];
  }

  /** expandOptions: names are kept, parameters expanded under each option's own name. */
  method ExpandOptions(flattened: seq<OptionBlock>, oracle: ArgTypeOracle, shortname: string, serviceProfile: string)
    returns (expanded: seq<ApiOption>)
    ensures |expanded| == |flattened|
    ensures forall i :: 0 <= i < |expanded| ==> expanded[i].name == flattened[i].name
    ensures expanded == ExpandedOptions(flattened, oracle, shortname, serviceProfile)
  {
    var a := new ApiOption[|flattened|];
    for i := 0 to |flattened|
      invariant forall k :: 0 <= k < i ==> a[k] == ExpandedOption(flattened[k], oracle, shortname, serviceProfile)
    {
      var rawOption := flattened[i];
      var params := ExpandOptionParameters(rawOption.parameters, rawOption.name, oracle, shortname, serviceProfile);
      a[i] := ApiOption(rawOption.name, params);
    }
    expanded := a[..];
  }

  /** expandProtocolSets: port 0 is left unset, everything else is carried over. */
  method ExpandProtocolSets(flattened: seq<ProtocolSetBlock>, oracle: ArgTypeOracle, shortname: string, serviceProfile: string)
    returns (expanded: seq<ProtocolSet>)
    ensures |expanded| == |flattened|
    ensures forall i :: 0 <= i < |expanded| ==>
      expanded[i].publishedProtocol == flattened[i].publishedProtocol &&
      expanded[i].sourceProtocol == flattened[i].sourceProtocol &&
      (expanded[i].sourcePort.None? <==> flattened[i].sourcePort == 0)
    ensures expanded == ExpandedProtocolSets(flattened, oracle, shortname, serviceProfile)
  {
    var a := new ProtocolSet[|flattened|];
    for i := 0 to |flattened|
      invariant forall k :: 0 <= k < i ==> a[k] == ExpandedProtocolSet(flattened[k], oracle, shortname, serviceProfile)
    {
      var raw := flattened[i];
      var options := ExpandOptions(raw.options, oracle, shortname, serviceProfile);
      var protocolSet := ProtocolSet(raw.publishedProtocol, raw.sourceProtocol, None, options);
      var sourcePort := raw.sourcePort;
      if sourcePort != 0 {
        protocolSet := protocolSet.(sourcePort := Some(sourcePort));
      }
      a[i] := protocolSet;
    }
    expanded := a[..];
  }

  /** flattenOptions: every parameter printed with %v. */
  method FlattenOptions(expanded: seq<ApiOption>) returns (flattened: seq<OptionBlock>)
    ensures |flattened| == |expanded|
    ensures forall i :: 0 <= i < |flattened| ==>
      flattened[i].name == expanded[i].name && |flattened[i].parameters| == |expanded[i].parameters|
    ensures flattened == FlattenedOptions(expanded)
  {
    var a := new OptionBlock[|expanded|];
    for i := 0 to |expanded|
      invariant forall k :: 0 <= k < i ==> a[k] == FlattenedOption(expanded[k])
    {
      var v := expanded[i];
      var params := new string[|v.parameters|];
      for j := 0 to |v.parameters|
        modifies params
        invariant forall k :: 0 <= k < j ==> params[k] == FormatParam(v.parameters[k])
      {
        params[j] := FormatParam(v.parameters[j]);
      }
      a[i] := OptionBlock(v.name, params[..]);
    }
    flattened := a[..];
  }

  /** flattenProtocolSets: the API's protocol sets as the schema stores them. */
  method FlattenProtocolSets(expanded: seq<ProtocolSet>) returns (flattened: seq<ProtocolSetBlock>)
    ensures |flattened| == |expanded|
    ensures forall i :: 0 <= i < |flattened| ==>
      flattened[i].publishedProtocol == expanded[i].publishedProtocol &&
      flattened[i].sourceProtocol == expanded[i].sourceProtocol &&
      (expanded[i].sourcePort.Some? ==> flattened[i].sourcePort == expanded[i].sourcePort.value)
    ensures flattened == FlattenedProtocolSets(expanded)
  {
    var a := new ProtocolSetBlock[|expanded|];
    for i := 0 to |expanded|
      invariant forall k :: 0 <= k < i ==> a[k] == FlattenedProtocolSet(expanded[k])
    {
      var v := expanded[i];
      var options := FlattenOptions(v.options);
      a[i] := ProtocolSetBlock(v.publishedProtocol, v.sourceProtocol, PortField(v.sourcePort), options);
    }
    flattened := a[..];
  }

  // ---------------------------------------------------------------------
  // Properties of the transcoders
  // ---------------------------------------------------------------------

  /** Every parameter the API types as an integer and that parses is written canonically. */
  predicate CanonicalWhereInteger(raws: seq<string>, optionName: string, oracle: ArgTypeOracle,
                                  shortname: string, serviceProfile: string)
  {
    forall i :: 0 <= i < |raws| && oracle(shortname, serviceProfile, optionName, i).isInteger && Atoi(raws[i]).Some?
      ==> Canonical(raws[i])
  }

  /** One parameter comes back unchanged exactly when it is not a non-canonical integer. */
  lemma ParamRoundTripIff(raw: string, integerTyped: bool)
    ensures FormatParam(ExpandedParam(raw, integerTyped)) == raw <==>
      (integerTyped && Atoi(raw).Some? ==> Canonical(raw))
  {
    if integerTyped && Atoi(raw).Some? {
      RoundTripIffCanonical(raw);
    }
  }

  /**
   * Expanding declared parameters and flattening the result gives them back
   * exactly when every integer-typed one that parses is in canonical form.
   */
  lemma ParamsRoundTripIff(raws: seq<string>, optionName: string, oracle: ArgTypeOracle,
                           shortname: string, serviceProfile: string)
    ensures FlattenedParams(ExpandedParams(raws, optionName, oracle, shortname, serviceProfile)) == raws
      <==> CanonicalWhereInteger(raws, optionName, oracle, shortname, serviceProfile)
  {
    var back := FlattenedParams(ExpandedParams(raws, optionName, oracle, shortname, serviceProfile));
    forall i | 0 <= i < |raws|
      ensures back[i] == raws[i] <==>
        (oracle(shortname, serviceProfile, optionName, i).isInteger && Atoi(raws[i]).Some? ==> Canonical(raws[i]))
    {
      ParamRoundTripIff(raws[i], oracle(shortname, serviceProfile, optionName, i).isInteger);
    }
    if back == raws {
      forall i | 0 <= i < |raws| && oracle(shortname, serviceProfile, optionName, i).isInteger && Atoi(raws[i]).Some?
        ensures Canonical(raws[i])
      {
        assert back[i] == raws[i];
      }
    }
  }

  /** The declared protocol sets whose integer-typed parameters are all canonical. */
  predicate CanonicalBlocks(bs: seq<ProtocolSetBlock>, oracle: ArgTypeOracle, shortname: string, serviceProfile: string) {
    forall i, j :: 0 <= i < |bs| && 0 <= j < |bs[i].options| ==>
      CanonicalWhereInteger(bs[i].options[j].parameters, bs[i].options[j].name, oracle, shortname, serviceProfile)
  }

  /**
   * Read after write: protocol sets the server stores as sent are read back
   * as declared, provided their integer-typed parameters are canonical.
   */
  lemma ProtocolSetsRoundTrip(bs: seq<ProtocolSetBlock>, oracle: ArgTypeOracle, shortname: string, serviceProfile: string)
    requires CanonicalBlocks(bs, oracle, shortname, serviceProfile)
    ensures FlattenedProtocolSets(ExpandedProtocolSets(bs, oracle, shortname, serviceProfile)) == bs
  {
    var back := FlattenedProtocolSets(ExpandedProtocolSets(bs, oracle, shortname, serviceProfile));
    forall i | 0 <= i < |bs|
      ensures back[i] == bs[i]
    {
      var os := bs[i].options;
      var backOptions := FlattenedOptions(ExpandedOptions(os, oracle, shortname, serviceProfile));
      forall j | 0 <= j < |os|
        ensures backOptions[j] == os[j]
      {
        ParamsRoundTripIff(os[j].parameters, os[j].name, oracle, shortname, serviceProfile);
      }
      assert backOptions == os;
    }
  }

  /** Parameters whose kind agrees with what the API's typing would produce from their text. */
  predicate WellTyped(ps: seq<Param>, optionName: string, oracle: ArgTypeOracle, shortname: string, serviceProfile: string) {
    forall i :: 0 <= i < |ps| ==>
      var integerTyped := oracle(shortname, serviceProfile, optionName, i).isInteger;
      (ps[i].IntP? ==> integerTyped) && (ps[i].StrP? && integerTyped ==> Atoi(ps[i].s).None?)
  }

  /** API protocol sets with no explicit port 0 and well-typed parameters. */
  predicate Representable(ss: seq<ProtocolSet>, oracle: ArgTypeOracle, shortname: string, serviceProfile: string) {
    forall i :: 0 <= i < |ss| ==>
      ss[i].sourcePort != Some(0) &&
      forall j :: 0 <= j < |ss[i].options| ==>
        WellTyped(ss[i].options[j].parameters, ss[i].options[j].name, oracle, shortname, serviceProfile)
  }

  /**
   * Write after read: sending back what was read reproduces the API's
   * protocol sets, provided none has an explicit port 0 and every parameter
   * has the kind the API's typing gives its text.
   */
  lemma {:induction false} ApiProtocolSetsRoundTrip(ss: seq<ProtocolSet>, oracle: ArgTypeOracle, shortname: string, serviceProfile: string)
    requires Representable(ss, oracle, shortname, serviceProfile)
    ensures ExpandedProtocolSets(FlattenedProtocolSets(ss), oracle, shortname, serviceProfile) == ss
  {
    var back := ExpandedProtocolSets(FlattenedProtocolSets(ss), oracle, shortname, serviceProfile);
    forall i | 0 <= i < |ss|
      ensures back[i] == ss[i]
    {
      var os := ss[i].options;
      var backOptions := ExpandedOptions(FlattenedOptions(os), oracle, shortname, serviceProfile);
      forall j | 0 <= j < |os|
        ensures backOptions[j] == os[j]
      {
        var ps := os[j].parameters;
        var backParams := ExpandedParams(FlattenedParams(ps), os[j].name, oracle, shortname, serviceProfile);
        forall k | 0 <= k < |ps|
          ensures backParams[k] == ps[k]
        {
          if ps[k].IntP? {
            AtoiFormatInt(ps[k].n);
          }
        }
        assert backParams == ps;
      }
      assert backOptions == os;
    }
  }

  /** An explicit port 0 does not survive: it is read as 0 and sent as no port. */
  lemma ZeroPortIsDropped(s: ProtocolSet, oracle: ArgTypeOracle, shortname: string, serviceProfile: string)
    requires s.sourcePort == Some(0)
    ensures ExpandedProtocolSet(FlattenedProtocolSet(s), oracle, shortname, serviceProfile).sourcePort == None
  {
  }

  /** The failure flag of the typing query is never looked at. */
  lemma TypingFailureIgnored(bs: seq<ProtocolSetBlock>, o1: ArgTypeOracle, o2: ArgTypeOracle, shortname: string, serviceProfile: string)
    requires forall name: string, i: nat :: o1(shortname, serviceProfile, name, i).isInteger == o2(shortname, serviceProfile, name, i).isInteger
    ensures ExpandedProtocolSets(bs, o1, shortname, serviceProfile) == ExpandedProtocolSets(bs, o2, shortname, serviceProfile)
  {
    forall i | 0 <= i < |bs|
      ensures ExpandedProtocolSet(bs[i], o1, shortname, serviceProfile) == ExpandedProtocolSet(bs[i], o2, shortname, serviceProfile)
    {
      var os := bs[i].options;
      forall j | 0 <= j < |os|
        ensures ExpandedOption(os[j], o1, shortname, serviceProfile) == ExpandedOption(os[j], o2, shortname, serviceProfile)
      {
        var ps := os[j].parameters;
        assert ExpandedParams(ps, os[j].name, o1, shortname, serviceProfile) == ExpandedParams(ps, os[j].name, o2, shortname, serviceProfile);
      }
    }
  }

  /**
   * A declared integer-typed "007" is sent as 7 and read back as "7", a
   * permanent difference from the declaration; "200" survives, and a
   * parameter the API types as a string stays a string even when numeric.
   */
  lemma ParameterExamples(oracle: ArgTypeOracle, shortname: string, serviceProfile: string)
    requires oracle(shortname, serviceProfile, "genreply", 0).isInteger
    requires !oracle(shortname, serviceProfile, "reply_send_header", 1).isInteger
    ensures ExpandedParams(["200"], "genreply", oracle, shortname, serviceProfile) == [IntP(200)]
    ensures FlattenedParams(ExpandedParams(["200"], "genreply", oracle, shortname, serviceProfile)) == ["200"]
    ensures ExpandedParams(["007"], "genreply", oracle, shortname, serviceProfile) == [IntP(7)]
    ensures FlattenedParams(ExpandedParams(["007"], "genreply", oracle, shortname, serviceProfile)) == ["7"]
    ensures ExpandedParams(["abc"], "genreply", oracle, shortname, serviceProfile) == [StrP("abc")]
    ensures ExpandedParams(["X-Id", "42"], "reply_send_header", oracle, shortname, serviceProfile)[1] == StrP("42")
  {
    NonCanonicalExamples();
    assert Atoi("abc") == None by {
      assert !IsDigit("abc"[0]);
    }
    assert FormatInt(200) == "200";
  }

  // ---------------------------------------------------------------------
  // The resource
  // ---------------------------------------------------------------------

  /** The resource's attributes in Terraform state. */
  datatype DeliveryAttrs = DeliveryAttrs(
    shortname: string, serviceProfile: string, protocolSets: seq<ProtocolSetBlock>,
    publishedHostname: string, publishedPath: string, sourceHostname: string, sourcePath: string,
    versionNumber: int)

  /** DeliveryServiceInstanceBody as sent on create and update. */
  datatype DeliveryBody = DeliveryBody(
    serviceProfileName: string, protocolSets: seq<ProtocolSet>,
    publishedHostname: string, publishedUrlPath: string, sourceHostname: string, sourceUrlPath: string,
    serviceKeyName: string)

  /** A stored delivery service instance as the API returns it. */
  datatype DeliveryInstance = DeliveryInstance(uuid: string, shortname: string, body: DeliveryBody, versionNumber: int)

  /** The configuration API calls the resource makes. */
  datatype Call =
    | CreateDeliveryServiceInstance(body: DeliveryBody, shortname: string)
    | GetDeliveryServiceInstance(uuid: string)
    | UpdateDeliveryServiceInstance(uuid: string, body: DeliveryBody, shortname: string)
    | DeleteDeliveryServiceInstance(uuid: string)

  /** The body built from the declared attributes on create and update. */
  function RequestBody(a: DeliveryAttrs, oracle: ArgTypeOracle): DeliveryBody {
    DeliveryBody(a.serviceProfile, ExpandedProtocolSets(a.protocolSets, oracle, a.shortname, a.serviceProfile),
                 a.publishedHostname, a.publishedPath, a.sourceHostname, a.sourcePath, DeliveryServiceKey)
  }

  /** The attributes a read stores from an instance; the read sets every one of them. */
  function ObservedAttrs(inst: DeliveryInstance): DeliveryAttrs {
    DeliveryAttrs(inst.shortname, inst.body.serviceProfileName, FlattenedProtocolSets(inst.body.protocolSets),
                  inst.body.publishedHostname, inst.body.publishedUrlPath, inst.body.sourceHostname,
                  inst.body.sourceUrlPath, inst.versionNumber)
  }

  function ReadEffect(id: string, a: DeliveryAttrs, reply: Reply<DeliveryInstance>): Effect<DeliveryAttrs, Call> {
    var calls := [GetDeliveryServiceInstance(id)];
    match reply
    case Ok(inst) => Effect(calls, id, ObservedAttrs(inst), None)
    case Fail(f) =>
      if IsNotFound(f) then Effect(calls, "", a, None)
      else Effect(calls, id, a, Some(RemoteError(ReadContext, f.cause)))
  }

  function CreateEffect(id: string, a: DeliveryAttrs, oracle: ArgTypeOracle, createReply: Reply<string>,
                        readReply: Reply<DeliveryInstance>): Effect<DeliveryAttrs, Call>
  {
    var create := CreateDeliveryServiceInstance(RequestBody(a, oracle), a.shortname);
    match createReply
    case Fail(f) => Effect([create], id, a, Some(RemoteError(CreateContext, f.cause)))
    case Ok(uuid) =>
      var r := ReadEffect(uuid, a, readReply);
      r.(calls := [create] + r.calls)
  }

  function UpdateEffect(id: string, a: DeliveryAttrs, oracle: ArgTypeOracle, updateReply: Reply<()>,
                        readReply: Reply<DeliveryInstance>): Effect<DeliveryAttrs, Call>
  {
    var update := UpdateDeliveryServiceInstance(id, RequestBody(a, oracle), a.shortname);
    match updateReply
    case Fail(f) => Effect([update], id, a, Some(RemoteError(UpdateContext, f.cause)))
    case Ok(_) =>
      var r := ReadEffect(id, a, readReply);
      r.(calls := [update] + r.calls)
  }

  function DeleteEffect(id: string, a: DeliveryAttrs, deleteReply: Reply<()>): Effect<DeliveryAttrs, Call> {
    var calls := [DeleteDeliveryServiceInstance(id)];
    match deleteReply
    case Ok(_) => Effect(calls, id, a, None)
    case Fail(f) => Effect(calls, id, a, Some(RemoteError(DeleteContext, f.cause)))
  }

  /** resourceLimelightDeliveryRead */
  method Read(d: ResourceData<DeliveryAttrs>, c: Client<Call>, reply: Reply<DeliveryInstance>) returns (err: Option<Error>)
    modifies d`id, d`attrs, c`calls
    ensures Produced(d, c, ReadEffect(old(d.id), old(d.attrs), reply), err)
  {
    c.Record(GetDeliveryServiceInstance(d.id));
    match reply
    case Fail(f) =>
      if IsNotFound(f) {
        d.id := "";
        err := None;
      } else {
        err := Some(RemoteError(ReadContext, f.cause));
      }
    case Ok(inst) =>
      var protocolSets := FlattenProtocolSets(inst.body.protocolSets);
      d.attrs := DeliveryAttrs(inst.shortname, inst.body.serviceProfileName, protocolSets,
                               inst.body.publishedHostname, inst.body.publishedUrlPath, inst.body.sourceHostname,
                               inst.body.sourceUrlPath, inst.versionNumber);
      err := None;
  }

  /** The body of create and update, built with the expanding transcoder. */
  method BuildBody(a: DeliveryAttrs, oracle: ArgTypeOracle) returns (body: DeliveryBody)
    ensures body.serviceKeyName == DeliveryServiceKey && body.serviceProfileName == a.serviceProfile
    ensures body == RequestBody(a, oracle)
  {
    var protocolSets := ExpandProtocolSets(a.protocolSets, oracle, a.shortname, a.serviceProfile);
    body := DeliveryBody(a.serviceProfile, protocolSets, a.publishedHostname, a.publishedPath,
                         a.sourceHostname, a.sourcePath, DeliveryServiceKey);
  }

  /** resourceLimelightDeliveryCreate */
  method Create(d: ResourceData<DeliveryAttrs>, c: Client<Call>, oracle: ArgTypeOracle,
                createReply: Reply<string>, readReply: Reply<DeliveryInstance>) returns (err: Option<Error>)
    modifies d`id, d`attrs, c`calls
    ensures Produced(d, c, CreateEffect(old(d.id), old(d.attrs), oracle, createReply, readReply), err)
  {
    var body := BuildBody(d.attrs, oracle);
    c.Record(CreateDeliveryServiceInstance(body, d.attrs.shortname));
    match createReply
    case Fail(f) =>
      err := Some(RemoteError(CreateContext, f.cause));
    case Ok(uuid) =>
      d.id := uuid;
      err := Read(d, c, readReply);
  }

  /** resourceLimelightDeliveryUpdate */
  method Update(d: ResourceData<DeliveryAttrs>, c: Client<Call>, oracle: ArgTypeOracle,
                updateReply: Reply<()>, readReply: Reply<DeliveryInstance>) returns (err: Option<Error>)
    modifies d`id, d`attrs, c`calls
    ensures Produced(d, c, UpdateEffect(old(d.id), old(d.attrs), oracle, updateReply, readReply), err)
  {
    var body := BuildBody(d.attrs, oracle);
    c.Record(UpdateDeliveryServiceInstance(d.id, body, d.attrs.shortname));
    match updateReply
    case Fail(f) =>
      err := Some(RemoteError(UpdateContext, f.cause));
    case Ok(_) =>
      err := Read(d, c, readReply);
  }

  /** resourceLimelightDeliveryDelete */
  method Delete(d: ResourceData<DeliveryAttrs>, c: Client<Call>, deleteReply: Reply<()>) returns (err: Option<Error>)
    modifies c`calls
    ensures Produced(d, c, DeleteEffect(old(d.id), old(d.attrs), deleteReply), err)
  {
    c.Record(DeleteDeliveryServiceInstance(d.id));
    match deleteReply
    case Ok(_) =>
      err := None;
    case Fail(f) =>
      err := Some(RemoteError(DeleteContext, f.cause));
  }

  // ---------------------------------------------------------------------
  // Properties of the operations
  // ---------------------------------------------------------------------

  /**
   * A read that finds nothing removes the resource from state without an
   * error; any other failure keeps it and reports the read error; a
   * successful read keeps the ID.
   */
  lemma ReadOutcomes(id: string, a: DeliveryAttrs, reply: Reply<DeliveryInstance>)
    ensures var e := ReadEffect(id, a, reply);
      e.calls == [GetDeliveryServiceInstance(id)] &&
      (e.err.None? <==> reply.Ok? || IsNotFound(reply.failure)) &&
      (e.id == "" <==> (reply.Fail? && IsNotFound(reply.failure)) || id == "") &&
      (e.err.Some? ==> e.attrs == a && e.err.value.context == ReadContext)
  {
  }

  /**
   * Create issues the create call with the body built from the declared
   * attributes; on failure it leaves the ID alone, otherwise it adopts the
   * returned UUID and reads it.
   */
  lemma CreateOutcomes(id: string, a: DeliveryAttrs, oracle: ArgTypeOracle, createReply: Reply<string>,
                       readReply: Reply<DeliveryInstance>)
    ensures var e := CreateEffect(id, a, oracle, createReply, readReply);
      |e.calls| >= 1 && e.calls[0] == CreateDeliveryServiceInstance(RequestBody(a, oracle), a.shortname) &&
      e.calls[0].body.serviceKeyName == DeliveryServiceKey &&
      (createReply.Fail? ==> e.calls == e.calls[..1] && e.id == id && e.err == Some(RemoteError(CreateContext, createReply.failure.cause))) &&
      (createReply.Ok? ==> e.calls == e.calls[..1] + [GetDeliveryServiceInstance(createReply.value)] &&
                           (readReply.Ok? ==> e.id == createReply.value && e.err.None?))
  {
  }

  /**
   * When the server stores what it was sent, the state after create holds
   * the declared attributes again (with the server's version number),
   * provided every integer-typed parameter is written canonically.
   */
  lemma CreateThenReadRestoresDeclaration(id: string, a: DeliveryAttrs, oracle: ArgTypeOracle, uuid: string, version: int)
    requires CanonicalBlocks(a.protocolSets, oracle, a.shortname, a.serviceProfile)
    ensures var stored := DeliveryInstance(uuid, a.shortname, RequestBody(a, oracle), version);
      var e := CreateEffect(id, a, oracle, Ok(uuid), Ok(stored));
      e.err.None? && e.id == uuid && e.attrs == a.(versionNumber := version)
  {
    ProtocolSetsRoundTrip(a.protocolSets, oracle, a.shortname, a.serviceProfile);
  }

  /** A failed update changes nothing in state and skips the read. */
  lemma UpdateOutcomes(id: string, a: DeliveryAttrs, oracle: ArgTypeOracle, updateReply: Reply<()>,
                       readReply: Reply<DeliveryInstance>)
    ensures var e := UpdateEffect(id, a, oracle, updateReply, readReply);
      |e.calls| >= 1 && e.calls[0] == UpdateDeliveryServiceInstance(id, RequestBody(a, oracle), a.shortname) &&
      (updateReply.Fail? ==> |e.calls| == 1 && e.id == id && e.attrs == a && e.err.Some?) &&
      (updateReply.Ok? ==> e == ReadEffect(id, a, readReply).(calls := e.calls[..1] + ReadEffect(id, a, readReply).calls))
  {
  }

  /**
   * Delete never touches state, and unlike read it treats "not found" as
   * an error.
   */
  lemma DeleteOutcomes(id: string, a: DeliveryAttrs, deleteReply: Reply<()>)
    ensures var e := DeleteEffect(id, a, deleteReply);
      e.calls == [DeleteDeliveryServiceInstance(id)] && e.id == id && e.attrs == a &&
      (e.err.None? <==> deleteReply.Ok?)
    ensures deleteReply.Fail? && IsNotFound(deleteReply.failure) ==>
      ReadEffect(id, a, Fail(deleteReply.failure)).err.None? && DeleteEffect(id, a, deleteReply).err.Some?
  {
  }
}
