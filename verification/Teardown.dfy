/** `CloudProvider.Delete`, `CloudProvider.List` and the provider ID they exchange. */
module Teardown {
  import opened Prelude
  import Tags

  /** How a request to Vultr fails: an HTTP status outside 2xx, or no HTTP answer at all. */
  datatype ApiError = Status(code: int) | Transport

  predicate NotFound(e: ApiError) {
    e == Status(404)
  }

  datatype Instance = Instance(id: string, tags: seq<string>, dateCreated: Option<Time>)

  const SCHEME := "vultr://"

  function ProviderID(id: string): string {
    SCHEME + id
  }

  function ParseProviderID(providerID: string): (id: Option<string>)
    ensures id.Some? <==> exists x :: x != "" && providerID == ProviderID(x)
    ensures id.Some? ==> providerID == ProviderID(id.value)
  {
    if SCHEME <= providerID && providerID[|SCHEME|..] != "" then
      assert providerID == ProviderID(providerID[|SCHEME|..]);
      Some(providerID[|SCHEME|..])
    else None
  }

  datatype Verdict = Accepted | Released | Refused(cause: ApiError) | Malformed

  /** Where one `Delete` call stands between two requests to Vultr. */
  datatype Call =
    | Deleting(id: string)
    | Confirming(id: string, cause: ApiError)
    | Finished(verdict: Verdict)

  function Begin(providerID: string): Call {
    match ParseProviderID(providerID)
    case None => Finished(Malformed)
    case Some(id) => Deleting(id)
  }

  function AfterDelete(c: Call, answer: Option<ApiError>): Call
    requires c.Deleting?
  {
    match answer
    case None => Finished(Accepted)
    case Some(e) => if NotFound(e) then Finished(Released) else Confirming(c.id, e)
  }

  function AfterGet(c: Call, answer: Option<ApiError>): Call
    requires c.Confirming?
  {
    if answer.Some? && NotFound(answer.value) then Finished(Released) else Finished(Refused(c.cause))
  }

  /**
   * Vultr as seen by one `Delete` call. It answers as it likes, and lets through only the request the call's
   * position asks for, so a caller that ends at `Finished(v)` has sent exactly the requests that lead there.
   */
  class Session {
    ghost var call: Call

    method DeleteInstance(id: string) returns (answer: Option<ApiError>)
      requires call == Deleting(id)
      modifies this
      ensures call == AfterDelete(old(call), answer)
    {
      answer := *;
      call := AfterDelete(call, answer);
    }

    method GetInstance(id: string) returns (answer: Option<ApiError>)
      requires call.Confirming? && call.id == id
      modifies this
      ensures call == AfterGet(old(call), answer)
    {
      answer := *;
      call := AfterGet(call, answer);
    }
  }

  method Delete(vultr: Session, providerID: string) returns (verdict: Verdict)
    requires vultr.call == Begin(providerID)
    modifies vultr
    ensures vultr.call == Finished(verdict)
  {
    var id := ParseProviderID(providerID);
    if id == None {
      return Malformed;
    }
    var deleteErr := vultr.DeleteInstance(id.value);
    if deleteErr == None {
      return Accepted;
    }
    if NotFound(deleteErr.value) {
      return Released;
    }
    var getErr := vultr.GetInstance(id.value);
    if getErr.Some? && NotFound(getErr.value) {
      return Released;
    }
    return Refused(deleteErr.value);
  }

  /** The outcome of a whole call, from the two answers Vultr would give. */
  function Outcome(providerID: string, onDelete: Option<ApiError>, onGet: Option<ApiError>): Call {
    var c := Begin(providerID);
    if c.Finished? then c
    else
      var d := AfterDelete(c, onDelete);
      if d.Confirming? then AfterGet(d, onGet) else d
  }

  /**
   * Whatever status code Vultr keeps answering a delete with, a lookup that answers 404 releases the claim; and a
   * claim is released on nothing but a 404. Any other failure is reported as that of the delete.
   */
  lemma ReleasedExactlyOn404(providerID: string, onDelete: Option<ApiError>, onGet: Option<ApiError>)
    ensures Outcome(providerID, onDelete, onGet) ==
            Finished(
              if !(exists id :: id != "" && providerID == "vultr://" + id) then Malformed
              else if onDelete == None then Accepted
              else if onDelete == Some(Status(404)) || onGet == Some(Status(404)) then Released
              else Refused(onDelete.value))
  {
  }

  /** `List`: the provider IDs of the instances tagged for this installation, in listing order. */
  function OwnProviderIDs(instances: seq<Instance>, cluster: string): (ids: seq<string>)
    ensures forall p :: p in ids <==>
              exists i :: i in instances && Tags.NodeClaimName(i.tags, cluster).Some? && p == ProviderID(i.id)
  {
    if instances == [] then []
    else
      var rest := OwnProviderIDs(instances[1..], cluster);
      assert instances == [instances[0]] + instances[1..];
      if Tags.NodeClaimName(instances[0].tags, cluster).Some? then [ProviderID(instances[0].id)] + rest
      else rest
  }

  /** Instance by instance, in listing order: an own one adds its provider ID, any other nothing. */
  lemma {:induction false} OwnProviderIDsAppend(a: seq<Instance>, i: Instance, cluster: string)
    ensures OwnProviderIDs([], cluster) == []
    ensures OwnProviderIDs(a + [i], cluster) ==
            OwnProviderIDs(a, cluster) + if Tags.NodeClaimName(i.tags, cluster).Some? then ["vultr://" + i.id] else []
  {
    if a != [] {
      OwnProviderIDsAppend(a[1..], i, cluster);
      assert (a + [i])[1..] == a[1..] + [i];
    } else {
      assert a + [i] == [i];
    }
  }

  method List(instances: seq<Instance>, cluster: string) returns (out: seq<string>)
    ensures out == OwnProviderIDs(instances, cluster)
  {
    out := [];
    for k := 0 to |instances|
      invariant out == OwnProviderIDs(instances[..k], cluster)
    {
      OwnProviderIDsAppend(instances[..k], instances[k], cluster);
      assert instances[..k + 1] == instances[..k] + [instances[k]];
      if Tags.NodeClaimName(instances[k].tags, cluster) == None {
        continue;
      }
      out := out + [ProviderID(instances[k].id)];
    }
    assert instances[..|instances|] == instances;
  }
}
