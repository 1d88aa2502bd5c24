/**
 * The realtime streaming slot resource (limelight_realtime_streaming_slot):
 * its ID, the profile transcoders, create with the optional wait for
 * provisioning, read and delete.
 */
module StreamingSlot {
  import opened Common
  import opened Sdk
  import opened Ids

  const IdFormat: string := "<shortname>:<slot ID>"
  const CreateContext: string := "error creating Realtime Streaming Slot"
  const ReadContext: string := "error reading Realtime Streaming Slot"
  const DeleteContext: string := "error deleting Realtime Streaming slot"

  /** The state Refresh reports and records when the slot is not found. */
  const NotFoundState: string := "NOT_FOUND"

  /**
   * A slot's state. The client library's SlotStatePending, SlotStateReady
   * and SlotStateFailed are constructors of their own; any other text,
   * "NOT_FOUND" and the empty string included, is Other.
   */
  datatype SlotState = Pending | Ready | Failed | Other(text: string)

  /** One element of the `profile` set. */
  datatype ProfileBlock = ProfileBlock(videoBitrate: int, audioBitrate: int)

  /** configuration.RealtimeStreamingProfile */
  datatype Profile = Profile(videoBitrate: int, audioBitrate: int)

  /** The resource's attributes; `profiles` lists the `profile` set in List() order. */
  datatype SlotAttrs = SlotAttrs(
    shortname: string, name: string, region: string, state: SlotState, profiles: seq<ProfileBlock>,
    password: string, ipGeoMatch: string, mediaVaultEnabled: bool, mediaVaultSecretKey: string,
    waitForProvisioning: bool)

  /**
   * configuration.RealtimeStreamingSlot, both as request and as response; a
   * field a request leaves unset holds Go's zero value.
   */
  datatype Slot = Slot(
    id: string, name: string, region: string, profiles: seq<Profile>, password: string, ipGeoMatch: string,
    mediaVaultEnabled: bool, mediaVaultSecretKey: string, state: SlotState)

  /** The configuration API calls the resource makes. */
  datatype Call =
    | CreateRealtimeStreamingSlot(shortname: string, slot: Slot)
    | GetRealtimeStreamingSlot(slotId: string, shortname: string)
    | DeleteRealtimeStreamingSlot(slotId: string, shortname: string)

  // ---------------------------------------------------------------------
  // ID
  // ---------------------------------------------------------------------

  /** The ID create stores: shortname and the returned slot ID joined by a colon. */
  function SlotId(shortname: string, slotId: string): string {
    JoinPair(shortname, slotId, Colon)
  }

  /** resourceLimelightRealtimeStreamingSlotSplitID */
  function SplitId(id: string): (r: (string, string, Option<Error>))
    ensures r.2.Some? <==> SplitSeparatedPair(id, Colon).2.Some?
    ensures r.2.Some? ==> r.0 == "" && r.1 == "" && r.2 == Some(FormatError(IdFormat, id))
    ensures r.2.None? ==> r.0 != "" && r.1 != "" && ':' !in r.0 && id == SlotId(r.0, r.1)
  {
    var (shortname, slotId, err) := SplitSeparatedPair(id, Colon);
    SingleCharSepFree(shortname, ':');
    if err.Some? then ("", "", Some(FormatError(IdFormat, id))) else (shortname, slotId, None)
  }

  /** The ID create stores decodes to its parts when the shortname has no colon. */
  lemma IdRoundTrip(shortname: string, slotId: string)
    requires shortname != "" && slotId != "" && ':' !in shortname
    ensures SplitId(SlotId(shortname, slotId)) == (shortname, slotId, None)
  {
    SingleCharSepFree(shortname, ':');
    PairRoundTrip(shortname, slotId, Colon);
  }

  // ---------------------------------------------------------------------
  // Profile transcoders
  // ---------------------------------------------------------------------

  function ExpandedProfiles(bs: seq<ProfileBlock>): seq<Profile> {
    seq(|bs|, i requires 0 <= i < |bs| => Profile(bs[i].videoBitrate, bs[i].audioBitrate))
  }

  function FlattenedProfiles(ps: seq<Profile>): seq<ProfileBlock> {
    seq(|ps|, i requires 0 <= i < |ps| => ProfileBlock(ps[i].videoBitrate, ps[i].audioBitrate))
  }

  /** expandProfiles */
  method ExpandProfiles(flattened: seq<ProfileBlock>) returns (expanded: seq<Profile>)
    ensures |expanded| == |flattened|
    ensures forall i :: 0 <= i < |expanded| ==>
      expanded[i].videoBitrate == flattened[i].videoBitrate && expanded[i].audioBitrate == flattened[i].audioBitrate
    ensures expanded == ExpandedProfiles(flattened)
  {
    var a := new Profile[|flattened|];
    for i := 0 to |flattened|
      invariant forall k :: 0 <= k < i ==> a[k] == Profile(flattened[k].videoBitrate, flattened[k].audioBitrate)
    {
      var rawProfile := flattened[i];
      a[i] := Profile(rawProfile.videoBitrate, rawProfile.audioBitrate);
    }
    expanded := a[..];
  }

  /** flattenProfiles */
  method FlattenProfiles(expanded: seq<Profile>) returns (flattened: seq<ProfileBlock>)
    ensures |flattened| == |expanded|
    ensures forall i :: 0 <= i < |flattened| ==>
      flattened[i].videoBitrate == expanded[i].videoBitrate && flattened[i].audioBitrate == expanded[i].audioBitrate
    ensures flattened == FlattenedProfiles(expanded)
  {
    var a := new ProfileBlock[|expanded|];
    for i := 0 to |expanded|
      invariant forall k :: 0 <= k < i ==> a[k] == ProfileBlock(expanded[k].videoBitrate, expanded[k].audioBitrate)
    {
      var v := expanded[i];
      a[i] := ProfileBlock(v.videoBitrate, v.audioBitrate);
    }
    flattened := a[..];
  }

  /** The two transcoders are inverse to each other, so the same set of bitrate pairs comes back. */
  lemma ProfilesRoundTrip(bs: seq<ProfileBlock>, ps: seq<Profile>)
    ensures FlattenedProfiles(ExpandedProfiles(bs)) == bs
    ensures ExpandedProfiles(FlattenedProfiles(ps)) == ps
    ensures multiset(FlattenedProfiles(ExpandedProfiles(bs))) == multiset(bs)
  {
    assert FlattenedProfiles(ExpandedProfiles(bs)) == bs;
  }

  // ---------------------------------------------------------------------
  // Read and delete
  // ---------------------------------------------------------------------

  /** What a read stores: shortname from the ID, the rest from the response; never the password. */
  function ObservedAttrs(a: SlotAttrs, shortname: string, slot: Slot): SlotAttrs {
    a.(name := slot.name, shortname := shortname, region := slot.region, profiles := FlattenedProfiles(slot.profiles),
       ipGeoMatch := slot.ipGeoMatch, mediaVaultEnabled := slot.mediaVaultEnabled,
       mediaVaultSecretKey := slot.mediaVaultSecretKey, state := slot.state)
  }

  function ReadEffect(id: string, a: SlotAttrs, reply: Reply<Slot>): Effect<SlotAttrs, Call> {
    var (shortname, slotId, splitErr) := SplitId(id);
    if splitErr.Some? then Effect([], id, a, splitErr)
    else
      var calls := [GetRealtimeStreamingSlot(slotId, shortname)];
      match reply
      case Ok(slot) => Effect(calls, id, ObservedAttrs(a, shortname, slot), None)
      case Fail(f) =>
        if IsNotFound(f) then Effect(calls, "", a, None)
        else Effect(calls, id, a, Some(RemoteError(ReadContext, f.cause)))
  }

  function DeleteEffect(id: string, a: SlotAttrs, reply: Reply<()>): Effect<SlotAttrs, Call> {
    var (shortname, slotId, splitErr) := SplitId(id);
    if splitErr.Some? then Effect([], id, a, splitErr)
    else
      var calls := [DeleteRealtimeStreamingSlot(slotId, shortname)];
      match reply
      case Ok(_) => Effect(calls, id, a, None)
      case Fail(f) => Effect(calls, id, a, Some(RemoteError(DeleteContext, f.cause)))
  }

  /** resourceLimelightRealtimeStreamingSlotRead */
  method Read(d: ResourceData<SlotAttrs>, c: Client<Call>, reply: Reply<Slot>) returns (err: Option<Error>)
    modifies d`id, d`attrs, c`calls
    ensures Produced(d, c, ReadEffect(old(d.id), old(d.attrs), reply), err)
  {
    var (shortname, slotId, splitErr) := SplitId(d.id);
    if splitErr.Some? {
      return splitErr;
    }
    c.Record(GetRealtimeStreamingSlot(slotId, shortname));
    match reply
    case Fail(f) =>
      if IsNotFound(f) {
        d.id := "";
        err := None;
      } else {
        err := Some(RemoteError(ReadContext, f.cause));
      }
    case Ok(slot) =>
      var profiles := FlattenProfiles(slot.profiles);
      d.attrs := d.attrs.(name := slot.name, shortname := shortname, region := slot.region, profiles := profiles,
                          ipGeoMatch := slot.ipGeoMatch, mediaVaultEnabled := slot.mediaVaultEnabled,
                          mediaVaultSecretKey := slot.mediaVaultSecretKey, state := slot.state);
      err := None;
  }

  /** resourceLimelightRealtimeStreamingSlotDelete */
  method Delete(d: ResourceData<SlotAttrs>, c: Client<Call>, reply: Reply<()>) returns (err: Option<Error>)
    modifies c`calls
    ensures Produced(d, c, DeleteEffect(old(d.id), old(d.attrs), reply), err)
  {
    var (shortname, slotId, splitErr) := SplitId(d.id);
    if splitErr.Some? {
      return splitErr;
    }
    c.Record(DeleteRealtimeStreamingSlot(slotId, shortname));
    match reply
    case Ok(_) =>
      err := None;
    case Fail(f) =>
      err := Some(RemoteError(DeleteContext, f.cause));
  }

  /**
   * A malformed ID fails before any call; otherwise not-found clears the ID
   * without an error and other failures are errors; a successful read takes
   * the state and the profiles from the response, and no read ever changes
   * the password, even when the response carries one.
   */
  lemma ReadOutcomes(id: string, a: SlotAttrs, reply: Reply<Slot>)
    ensures var e := ReadEffect(id, a, reply);
      (SplitId(id).2.Some? ==> e.calls == [] && e.err == Some(FormatError(IdFormat, id)) && e.id == id && e.attrs == a) &&
      (SplitId(id).2.None? ==>
        e.calls == [GetRealtimeStreamingSlot(SplitId(id).1, SplitId(id).0)] &&
        (e.err.None? <==> reply.Ok? || IsNotFound(reply.failure)) &&
        (e.id == "" <==> reply.Fail? && IsNotFound(reply.failure)) &&
        (reply.Fail? ==> e.attrs == a) &&
        (reply.Ok? ==> e.id == id && e.attrs.shortname == SplitId(id).0 && e.attrs.state == reply.value.state &&
                       ExpandedProfiles(e.attrs.profiles) == reply.value.profiles)) &&
      e.attrs.password == a.password && e.attrs.waitForProvisioning == a.waitForProvisioning
  {
    if SplitId(id).2.None? && reply.Ok? {
      ProfilesRoundTrip([], reply.value.profiles);
    }
  }

  /** Delete issues one call unless the ID is malformed, and reports every failure, not-found included. */
  lemma DeleteOutcomes(id: string, a: SlotAttrs, reply: Reply<()>)
    ensures var e := DeleteEffect(id, a, reply);
      e.id == id && e.attrs == a &&
      (e.calls == [] <==> SplitId(id).2.Some?) &&
      (e.err.None? <==> SplitId(id).2.None? && reply.Ok?)
  {
  }

  // ---------------------------------------------------------------------
  // Refresh and the wait for provisioning
  // ---------------------------------------------------------------------

  /**
   * What one Refresh reports to the wait (a state and an error) and the
   * value it records in the `state` attribute, if any.
   */
  datatype Refreshed = Refreshed(recorded: Option<SlotState>, state: SlotState, err: Option<string>)

  /**
   * The Refresh closure as written: the 404 test has no nil check, and any
   * other failure goes on to read the state of the slot the failed call
   * returned, which is nil. None stands for the resulting panic.
   */
  function RefreshAsWritten(reply: Reply<Slot>): Option<Refreshed> {
    match reply
    case Ok(slot) => Some(Refreshed(Some(slot.state), slot.state, None))
    case Fail(f) =>
      match NotFoundUnguarded(f)
      case None => None
      case Some(notFound) =>
        if notFound then Some(Refreshed(Some(Other(NotFoundState)), Other(NotFoundState), Some(f.cause)))
        else None
  }

  /**
   * The Refresh closure as the model runs it: a 404 reports and records
   * "NOT_FOUND" with the error, any other failure reports its error and
   * records nothing, and a successful read reports and records the slot's state.
   */
  function RefreshOf(reply: Reply<Slot>): Refreshed {
    match reply
    case Ok(slot) => Refreshed(Some(slot.state), slot.state, None)
    case Fail(f) =>
      if IsNotFound(f) then Refreshed(Some(Other(NotFoundState)), Other(NotFoundState), Some(f.cause))
      else Refreshed(None, Other(""), Some(f.cause))
  }

  /** Both kinds of failure other than a 404 make the closure as written panic. */
  lemma RefreshAsWrittenPanics()
    ensures RefreshAsWritten(Fail(Failure("dial tcp: connection refused", None))) == None
    ensures RefreshAsWritten(Fail(Failure("500 Internal Server Error", Some(500)))) == None
    ensures RefreshOf(Fail(Failure("500 Internal Server Error", Some(500)))).err.Some?
  {
  }

  /**
   * The model's Refresh agrees with the one as written wherever that one
   * does not panic, and it reports an error exactly for a failed read;
   * "NOT_FOUND" is recorded exactly for a 404.
   */
  lemma RefreshAgreesWhereDefined(reply: Reply<Slot>)
    ensures RefreshAsWritten(reply).Some? ==> RefreshAsWritten(reply).value == RefreshOf(reply)
    ensures RefreshAsWritten(reply).None? <==> reply.Fail? && !IsNotFound(reply.failure)
    ensures RefreshOf(reply).err.Some? <==> reply.Fail?
    ensures RefreshOf(reply).recorded == Some(Other(NotFoundState)) <==>
      (reply.Fail? && IsNotFound(reply.failure)) || (reply.Ok? && reply.value.state == Other(NotFoundState))
  {
  }

  /** The Refresh closure: one read of the slot, the state recorded in `state`. */
  method Refresh(d: ResourceData<SlotAttrs>, c: Client<Call>, slotId: string, shortname: string, reply: Reply<Slot>)
    returns (r: Refreshed)
    modifies d`attrs, c`calls
    ensures r == RefreshOf(reply)
    ensures c.calls == old(c.calls) + [GetRealtimeStreamingSlot(slotId, shortname)]
    ensures d.attrs == if r.recorded.Some? then old(d.attrs).(state := r.recorded.value) else old(d.attrs)
  {
    c.Record(GetRealtimeStreamingSlot(slotId, shortname));
    match reply
    case Fail(f) =>
      if IsNotFound(f) {
        d.attrs := d.attrs.(state := Other(NotFoundState));
        return Refreshed(Some(Other(NotFoundState)), Other(NotFoundState), Some(f.cause));
      }
      return Refreshed(None, Other(""), Some(f.cause));
    case Ok(slot) =>
      d.attrs := d.attrs.(state := slot.state);
      return Refreshed(Some(slot.state), slot.state, None);
  }

  /** The wait's only pending state. */
  predicate IsPending(s: SlotState) {
    s == Pending
  }

  /** The wait's target states: a failed provisioning ends the wait as well. */
  predicate IsTarget(s: SlotState) {
    s == Ready || s == Failed
  }

  /** How a wait ends. */
  datatype WaitOutcome =
    | /** a target state was read */
      Reached(state: SlotState)
    | /** Refresh returned an error */
      RefreshFailed(cause: string)
    | /** a state neither pending nor a target was read */
      UnexpectedState(state: SlotState)
    | /** the polls ran out while the slot was pending */
      TimedOut
    | /** the ID did not split */
      BadId(err: Error)

  /** WaitForState's judgement of one Refresh: None keeps it waiting. */
  function Classify(r: Refreshed): Option<WaitOutcome> {
    if r.err.Some? then Some(RefreshFailed(r.err.value))
    else if IsTarget(r.state) then Some(Reached(r.state))
    else if IsPending(r.state) then None
    else Some(UnexpectedState(r.state))
  }

  /**
   * Only a pending state read without error keeps the wait going; the wait
   * is reached exactly on Ready or Failed, and it stops with an error on
   * any Refresh error, a 404 included.
   */
  lemma ClassifyIff(r: Refreshed)
    ensures Classify(r).None? <==> r.err.None? && r.state == Pending
    ensures Classify(r).Some? && Classify(r).value.Reached? <==> r.err.None? && (r.state == Ready || r.state == Failed)
    ensures Classify(r).Some? && Classify(r).value.Reached? ==> Classify(r).value.state == r.state
    ensures r.err.Some? ==> Classify(r) == Some(RefreshFailed(r.err.value))
    ensures Classify(RefreshOf(Fail(Failure("404 Not Found", Some(StatusNotFound))))) == Some(RefreshFailed("404 Not Found"))
  {
  }

  /** A wait as a value: the reads it issues, the `state` attribute it leaves and how it ends. */
  datatype WaitRun = WaitRun(calls: seq<Call>, state: SlotState, outcome: WaitOutcome)

  /** The recorded state after a Refresh, starting from `state`. */
  function AfterRefresh(state: SlotState, r: Refreshed): SlotState {
    if r.recorded.Some? then r.recorded.value else state
  }

  /**
   * WaitForState over the replies of successive polls, starting with the
   * `state` attribute at `state`; the polls running out is the timeout.
   */
  function Polling(slotId: string, shortname: string, state: SlotState, polls: seq<Reply<Slot>>): WaitRun
    decreases |polls|
  {
    if polls == [] then WaitRun([], state, TimedOut)
    else
      var call := GetRealtimeStreamingSlot(slotId, shortname);
      var r := RefreshOf(polls[0]);
      var recorded := AfterRefresh(state, r);
      match Classify(r)
      case Some(outcome) => WaitRun([call], recorded, outcome)
      case None =>
        var rest := Polling(slotId, shortname, recorded, polls[1..]);
        WaitRun([call] + rest.calls, rest.state, rest.outcome)
  }

  /** waitForLimelightRealtimeStreamingSlotProvision, as a value. */
  function WaitEffect(id: string, state: SlotState, polls: seq<Reply<Slot>>): WaitRun {
    var (shortname, slotId, splitErr) := SplitId(id);
    if splitErr.Some? then WaitRun([], state, BadId(splitErr.value)) else Polling(slotId, shortname, state, polls)
  }

  /** StateChangeConf.WaitForState with the Refresh closure, over the polls' replies. */
  method WaitForState(d: ResourceData<SlotAttrs>, c: Client<Call>, slotId: string, shortname: string,
                      polls: seq<Reply<Slot>>) returns (outcome: WaitOutcome)
    modifies d`attrs, c`calls
    ensures var w := Polling(slotId, shortname, old(d.attrs.state), polls);
      c.calls == old(c.calls) + w.calls && d.attrs == old(d.attrs).(state := w.state) && outcome == w.outcome
  {
    ghost var w := Polling(slotId, shortname, d.attrs.state, polls);
    var i := 0;
    while i < |polls|
      invariant 0 <= i <= |polls|
      invariant var rest := Polling(slotId, shortname, d.attrs.state, polls[i..]);
        old(c.calls) + w.calls == c.calls + rest.calls && w.state == rest.state && w.outcome == rest.outcome
      invariant d.attrs == old(d.attrs).(state := d.attrs.state)
    {
      ghost var before := c.calls;
      ghost var state := d.attrs.state;
      var r := Refresh(d, c, slotId, shortname, polls[i]);
      assert d.attrs.state == AfterRefresh(state, r);
      var judged := Classify(r);
      if judged.Some? {
        return judged.value;
      }
      assert polls[i..][1..] == polls[i + 1..];
      AppendAssoc(before, [GetRealtimeStreamingSlot(slotId, shortname)],
                  Polling(slotId, shortname, d.attrs.state, polls[i + 1..]).calls);
      i := i + 1;
    }
    return TimedOut;
  }

  /** waitForLimelightRealtimeStreamingSlotProvision */
  method WaitForProvision(d: ResourceData<SlotAttrs>, c: Client<Call>, polls: seq<Reply<Slot>>)
    returns (outcome: WaitOutcome)
    modifies d`attrs, c`calls
    ensures var w := WaitEffect(old(d.id), old(d.attrs.state), polls);
      c.calls == old(c.calls) + w.calls && d.attrs == old(d.attrs).(state := w.state) && outcome == w.outcome
  {
    var (shortname, slotId, splitErr) := SplitId(d.id);
    if splitErr.Some? {
      return BadId(splitErr.value);
    }
    outcome := WaitForState(d, c, slotId, shortname, polls);
  }

  /** A poll whose reply keeps the wait going: the slot read back as pending. */
  predicate KeepsWaiting(reply: Reply<Slot>) {
    Classify(RefreshOf(reply)).None?
  }

  /**
   * The wait reads once per poll until the first poll that does not keep it
   * waiting, and ends as that poll's Refresh is judged; no other call is made.
   */
  lemma {:induction false} PollingStopsAtFirstDecisivePoll(slotId: string, shortname: string, state: SlotState,
                                                         polls: seq<Reply<Slot>>, k: nat)
    requires k < |polls| && !KeepsWaiting(polls[k])
    requires forall j :: 0 <= j < k ==> KeepsWaiting(polls[j])
    ensures var w := Polling(slotId, shortname, state, polls);
      w.calls == seq(k + 1, _ => GetRealtimeStreamingSlot(slotId, shortname)) &&
      Some(w.outcome) == Classify(RefreshOf(polls[k])) &&
      (RefreshOf(polls[k]).recorded.Some? ==> w.state == RefreshOf(polls[k]).recorded.value)
    decreases k
  {
    if k > 0 {
      var r := RefreshOf(polls[0]);
      PollingStopsAtFirstDecisivePoll(slotId, shortname, AfterRefresh(state, r), polls[1..], k - 1);
      assert seq(k + 1, _ => GetRealtimeStreamingSlot(slotId, shortname)) ==
        [GetRealtimeStreamingSlot(slotId, shortname)] + seq(k, _ => GetRealtimeStreamingSlot(slotId, shortname));
    }
  }

  /** When every poll reads the slot as pending, the wait reads once per poll and times out. */
  lemma {:induction false} AllPendingTimesOut(slotId: string, shortname: string, state: SlotState, polls: seq<Reply<Slot>>)
    requires forall j :: 0 <= j < |polls| ==> KeepsWaiting(polls[j])
    ensures var w := Polling(slotId, shortname, state, polls);
      w.outcome == TimedOut && |w.calls| == |polls| && (polls != [] ==> w.state == Pending)
    decreases |polls|
  {
    if polls != [] {
      var r := RefreshOf(polls[0]);
      AllPendingTimesOut(slotId, shortname, AfterRefresh(state, r), polls[1..]);
    }
  }

  /** Whatever the polls, the wait never makes more reads than there are polls, and a reached state is a target. */
  lemma {:induction false} PollingBounds(slotId: string, shortname: string, state: SlotState, polls: seq<Reply<Slot>>)
    ensures var w := Polling(slotId, shortname, state, polls);
      |w.calls| <= |polls| && (polls != [] ==> |w.calls| >= 1) &&
      (w.outcome.Reached? ==> IsTarget(w.outcome.state) && w.state == w.outcome.state) &&
      (w.outcome.TimedOut? ==> |w.calls| == |polls|) &&
      !w.outcome.BadId?
    decreases |polls|
  {
    if polls != [] {
      var r := RefreshOf(polls[0]);
      PollingBounds(slotId, shortname, AfterRefresh(state, r), polls[1..]);
    }
  }

  /** Two pending reads and then a ready one: three reads, and the slot is ready. */
  lemma PendingPendingReady(slotId: string, shortname: string, state: SlotState, pending: Slot, ready: Slot)
    requires pending.state == Pending && ready.state == Ready
    ensures Polling(slotId, shortname, state, [Ok(pending), Ok(pending), Ok(ready)]) ==
      WaitRun(seq(3, _ => GetRealtimeStreamingSlot(slotId, shortname)), Ready, Reached(Ready))
  {
    var polls := [Ok(pending), Ok(pending), Ok(ready)];
    PollingStopsAtFirstDecisivePoll(slotId, shortname, state, polls, 2);
  }

  // ---------------------------------------------------------------------
  // Create
  // ---------------------------------------------------------------------

  /** The slot create sends; MediaVault is enabled exactly when a secret key is given. */
  function NewSlotOf(a: SlotAttrs): Slot {
    Slot("", a.name, a.region, ExpandedProfiles(a.profiles), a.password, a.ipGeoMatch,
         a.mediaVaultSecretKey != "", a.mediaVaultSecretKey, Other(""))
  }

  /**
   * MediaVault is enabled in the request exactly when a non-empty secret key
   * is given; the `mediavault_enabled` attribute itself is never consulted.
   */
  lemma MediaVaultFlag(a: SlotAttrs, enabled: bool)
    ensures NewSlotOf(a).mediaVaultEnabled <==> a.mediaVaultSecretKey != ""
    ensures NewSlotOf(a.(mediaVaultEnabled := enabled)) == NewSlotOf(a)
    ensures FlattenedProfiles(NewSlotOf(a).profiles) == a.profiles
  {
    ProfilesRoundTrip(a.profiles, []);
  }

  /** What follows a successful create: the optional wait, then the read of the new ID. */
  function ProvisionEffect(id: string, a: SlotAttrs, polls: seq<Reply<Slot>>, readReply: Reply<Slot>): Effect<SlotAttrs, Call> {
    var w := WaitEffect(id, a.state, polls);
    var waitCalls := if a.waitForProvisioning then w.calls else [];
    var waited := if a.waitForProvisioning then a.(state := w.state) else a;
    var r := ReadEffect(id, waited, readReply);
    Effect(waitCalls + r.calls, r.id, r.attrs, r.err)
  }

  function CreateEffect(id: string, a: SlotAttrs, createReply: Reply<string>, polls: seq<Reply<Slot>>,
                        readReply: Reply<Slot>): Effect<SlotAttrs, Call> {
    var call := CreateRealtimeStreamingSlot(a.shortname, NewSlotOf(a));
    match createReply
    case Fail(f) => Effect([call], id, a, Some(RemoteError(CreateContext, f.cause)))
    case Ok(slotId) =>
      var p := ProvisionEffect(SlotId(a.shortname, slotId), a, polls, readReply);
      Effect([call] + p.calls, p.id, p.attrs, p.err)
  }

  /** The create call itself: the request from state, and the ID once the slot exists. */
  method CreateSlot(d: ResourceData<SlotAttrs>, c: Client<Call>, createReply: Reply<string>) returns (err: Option<Error>)
    modifies d`id, c`calls
    ensures c.calls == old(c.calls) + [CreateRealtimeStreamingSlot(d.attrs.shortname, NewSlotOf(d.attrs))]
    ensures createReply.Fail? ==> d.id == old(d.id) && err == Some(RemoteError(CreateContext, createReply.failure.cause))
    ensures createReply.Ok? ==> d.id == SlotId(d.attrs.shortname, createReply.value) && err.None?
  {
    var a := d.attrs;
    var profiles := ExpandProfiles(a.profiles);
    var mediaVaultEnabled := a.mediaVaultSecretKey != "";
    var slot := Slot("", a.name, a.region, profiles, a.password, a.ipGeoMatch, mediaVaultEnabled,
                     a.mediaVaultSecretKey, Other(""));
    c.Record(CreateRealtimeStreamingSlot(a.shortname, slot));
    match createReply
    case Fail(f) =>
      err := Some(RemoteError(CreateContext, f.cause));
    case Ok(slotId) =>
      d.id := SlotId(a.shortname, slotId);
      err := None;
  }

  /** The tail of create: wait for provisioning when asked to, ignore how the wait ends, then read. */
  method Provision(d: ResourceData<SlotAttrs>, c: Client<Call>, polls: seq<Reply<Slot>>, readReply: Reply<Slot>)
    returns (err: Option<Error>)
    modifies d`id, d`attrs, c`calls
    ensures Produced(d, c, ProvisionEffect(old(d.id), old(d.attrs), polls, readReply), err)
  {
    ghost var waitCalls := if d.attrs.waitForProvisioning then WaitEffect(d.id, d.attrs.state, polls).calls else [];
    if d.attrs.waitForProvisioning {
      var outcome := WaitForProvision(d, c, polls);
    }
    ghost var readCalls := ReadEffect(d.id, d.attrs, readReply).calls;
    err := Read(d, c, readReply);
    AppendAssoc(old(c.calls), waitCalls, readCalls);
  }

  /** resourceLimelightRealtimeStreamingSlotCreate */
  method Create(d: ResourceData<SlotAttrs>, c: Client<Call>, createReply: Reply<string>, polls: seq<Reply<Slot>>,
                readReply: Reply<Slot>) returns (err: Option<Error>)
    modifies d`id, d`attrs, c`calls
    ensures Produced(d, c, CreateEffect(old(d.id), old(d.attrs), createReply, polls, readReply), err)
  {
    ghost var a := d.attrs;
    err := CreateSlot(d, c, createReply);
    if err.Some? {
      return;
    }
    err := Provision(d, c, polls, readReply);
    ghost var p := ProvisionEffect(SlotId(a.shortname, createReply.value), a, polls, readReply);
    AppendAssoc(old(c.calls), [CreateRealtimeStreamingSlot(a.shortname, NewSlotOf(a))], p.calls);
  }

  /**
   * A failed create makes one call and leaves the ID alone. A successful
   * one stores `shortname:slot ID`; the polls are read only when waiting is
   * asked for, and however the wait ends, Create returns what the read
   * returns: with a successful read, no error and the new ID.
   */
  lemma CreateOutcomes(id: string, a: SlotAttrs, createReply: Reply<string>, polls: seq<Reply<Slot>>,
                       readReply: Reply<Slot>)
    requires a.shortname != "" && ':' !in a.shortname
    requires createReply.Ok? ==> createReply.value != ""
    ensures var e := CreateEffect(id, a, createReply, polls, readReply);
      e.calls[0] == CreateRealtimeStreamingSlot(a.shortname, NewSlotOf(a)) &&
      (createReply.Fail? ==> |e.calls| == 1 && e.id == id && e.attrs == a && e.err.Some?) &&
      (createReply.Ok? ==>
        var slotId := createReply.value;
        var get := GetRealtimeStreamingSlot(slotId, a.shortname);
        (!a.waitForProvisioning ==> e.calls == [e.calls[0], get]) &&
        (a.waitForProvisioning ==> |polls| + 2 >= |e.calls| >= 2 && (polls != [] ==> e.calls[1] == get)) &&
        e.calls[|e.calls| - 1] == get &&
        (readReply.Ok? ==> e.err.None? && e.id == SlotId(a.shortname, slotId) && e.attrs.state == readReply.value.state))
  {
    if createReply.Ok? {
      var slotId := createReply.value;
      IdRoundTrip(a.shortname, slotId);
      PollingBounds(slotId, a.shortname, a.state, polls);
      var w := Polling(slotId, a.shortname, a.state, polls);
      if polls != [] {
        assert w.calls[0] == GetRealtimeStreamingSlot(slotId, a.shortname);
      }
    }
  }

  /** A wait that fails does not make Create fail: the result is the read's, whatever the polls. */
  lemma CreateIgnoresWaitFailure(id: string, a: SlotAttrs, slotId: string, polls1: seq<Reply<Slot>>,
                                 polls2: seq<Reply<Slot>>, readReply: Reply<Slot>)
    requires readReply.Ok?
    ensures CreateEffect(id, a, Ok(slotId), polls1, readReply).err == CreateEffect(id, a, Ok(slotId), polls2, readReply).err
    ensures CreateEffect(id, a, Ok(slotId), polls1, readReply).attrs == CreateEffect(id, a, Ok(slotId), polls2, readReply).attrs
  {
  }
}
