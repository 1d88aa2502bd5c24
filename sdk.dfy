/**
 * The surroundings every resource file relies on: the outcome of a call to
 * the Limelight API client, the provider's error values, Terraform's
 * per-resource state object (schema.ResourceData) and a log of the remote
 * calls a reconciliation issues.
 */
module Sdk {
  import opened Common

  /** net/http's StatusNotFound. */
  const StatusNotFound := 404

  /**
   * What a failed client call hands back: its error text and, when an HTTP
   * exchange took place, the status of the response (None: `resp == nil`).
   */
  datatype Failure = Failure(cause: string, status: Option<int>)

  /** The outcome of one remote call: its decoded payload or its failure. */
  datatype Reply<T> = Ok(value: T) | Fail(failure: Failure)

  /**
   * The not-found test `resp != nil && resp.StatusCode == http.StatusNotFound`
   * of the delivery and alias reads; the model uses it at every read site.
   */
  predicate IsNotFound(f: Failure) {
    f.status == Some(StatusNotFound)
  }

  /**
   * The not-found test as written in the edge function and streaming slot
   * reads: `resp.StatusCode == http.StatusNotFound` with no nil check. None
   * stands for the nil dereference (a panic) when no response came back.
   */
  function NotFoundUnguarded(f: Failure): (r: Option<bool>)
  {
    match f.status
    case None => None
    case Some(code) => Some(code == StatusNotFound)
  }

  /** A transport error (no HTTP response) crashes the unguarded test. */
  lemma UnguardedTestPanicsWithoutResponse()
    ensures NotFoundUnguarded(Failure("dial tcp: connection refused", None)) == None
    ensures !IsNotFound(Failure("dial tcp: connection refused", None))
  {
  }

  /**
   * The guarded test never crashes, and it agrees with the unguarded one
   * whenever a response is present.
   */
  lemma GuardedTestAgreesWithUnguarded(f: Failure)
    ensures NotFoundUnguarded(f).None? <==> f.status.None?
    ensures NotFoundUnguarded(f).Some? ==> NotFoundUnguarded(f).value == IsNotFound(f)
    ensures f.status.None? ==> !IsNotFound(f)
  {
  }

  /** The errors a resource operation returns to Terraform. */
  datatype Error =
    | /** a composite ID that does not have the expected shape */
      FormatError(expected: string, id: string)
    | /** a failed remote call, wrapped with the operation's message */
      RemoteError(context: string, cause: string)
    | /** a file that could not be read */
      IoError(cause: string)

  /**
   * schema.ResourceData for one resource instance: its ID (the empty string
   * means "gone from state"), its attribute values, the keys HasChange
   * reports, and the partial-state bookkeeping of Partial/SetPartial.
   */
  class ResourceData<A> {
    var id: string
    var attrs: A
    var changed: set<string>
    var partial: bool
    var committed: set<string>

    constructor (id: string, attrs: A, changed: set<string>)
      ensures this.id == id && this.attrs == attrs && this.changed == changed
      ensures !partial && committed == {}
    {
      this.id := id;
      this.attrs := attrs;
      this.changed := changed;
      partial := false;
      committed := {};
    }

    /** Partial(on): enter or leave partial mode; leaving it drops the committed keys. */
    method Partial(on: bool)
      modifies `partial, `committed
      ensures partial == on && committed == (if on then old(committed) else {})
    {
      partial := on;
      if !on {
        committed := {};
      }
    }

    /** SetPartial(key): in partial mode, key's new value survives a later failure. */
    method SetPartial(key: string)
      modifies `committed
      ensures committed == (if partial then old(committed) + {key} else old(committed))
    {
      if partial {
        committed := committed + {key};
      }
    }
  }

  /** An API client, seen through the calls it is asked to make, in order. */
  class Client<C> {
    var calls: seq<C>

    constructor ()
      ensures calls == []
    {
      calls := [];
    }

    method Record(call: C)
      modifies `calls
      ensures calls == old(calls) + [call]
    {
      calls := calls + [call];
    }
  }

  /**
   * What one resource operation does, as a value: the remote calls it issues
   * in order, the ID and attributes it leaves in state, and the error it
   * returns (None: success).
   */
  datatype Effect<A, C> = Effect(calls: seq<C>, id: string, attrs: A, err: Option<Error>)

  /** Regrouping a log made of three pieces. */
  lemma AppendAssoc<T>(a: seq<T>, b: seq<T>, c: seq<T>)
    ensures (a + b) + c == a + (b + c)
  {
  }

  /** Regrouping a union of three sets. */
  lemma UnionAssoc<T>(a: set<T>, b: set<T>, c: set<T>)
    ensures (a + b) + c == a + (b + c)
  {
  }

  /** The step from the old to the new state of `d` and `c` is the one `e` describes. */
  twostate predicate Produced<A, C>(d: ResourceData<A>, c: Client<C>, e: Effect<A, C>, new err: Option<Error>)
    reads d, c
  {
    c.calls == old(c.calls) + e.calls && d.id == e.id && d.attrs == e.attrs && err == e.err
  }
}
