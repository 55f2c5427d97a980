/** The single-slot client cache of app/lib/zeebe-api/zeebe-api.js
    (`_getZeebeClient`, `_getCachedZeebeClient`,
    `_shutdownZeebeClientInstance`): one client at a time, reused while
    requests name the same endpoint, closed and replaced when they do not. */
module ClientCache {
  import opened Wrappers
  import opened JsObjects
  import opened Endpoints
  import opened ClientOptions

  /** A constructed client. Clients are numbered in construction order, which
      gives each its own identity; it remembers the address and options it
      was built with. */
  datatype Client = Client(id: nat, address: Option<string>, options: Options)

  /** The cache slot (`_zeebeClient`, `_cachedEndpoint`) together with the
      history of the clients it has dealt with: how many were constructed,
      and which were closed, in order. */
  datatype CacheState = CacheState(client: Option<Client>, endpoint: Option<Endpoint>, created: nat, closed: seq<nat>)

  /** A fresh `ZeebeAPI`: no client, no endpoint. */
  const Initial := CacheState(None, None, 0, [])

  /** How constructing a client for a recognised endpoint turns out. Reading
      the operating system's certificates and the client constructor can
      each throw, and then `_getZeebeClient` rejects with that error. */
  datatype Construction = Constructed | ConstructionFailed(error: ErrorObject)

  /** The state after a request, and what `_getZeebeClient` settles with:
      the client (none for an unrecognised type) or the error it rejects
      with. */
  datatype Acquisition = Acquisition(state: CacheState, client: Result<Option<Client>, ErrorObject>)

  /** The cached client serves the request: it was built for an equal
      endpoint and exists (an absent client is falsy and never reused). */
  predicate IsHit(s: CacheState, e: Endpoint)
  {
    s.endpoint == Some(e) && s.client.Some?
  }

  /** A miss for `e` gets as far as constructing a client, and that fails;
      an unrecognised type returns before any construction. */
  predicate ConstructionFails(e: Endpoint, build: Construction)
  {
    !e.Unrecognised? && build.ConstructionFailed?
  }

  /** `_shutdownZeebeClientInstance`: the cached client, if any, is closed;
      the slot itself is left as it is. */
  function Shutdown(s: CacheState): (r: CacheState)
    ensures r.client == s.client && r.endpoint == s.endpoint && r.created == s.created
    ensures r.closed == s.closed + (if s.client.Some? then [s.client.value.id] else [])
  {
    if s.client.Some? then s.(closed := s.closed + [s.client.value.id]) else s
  }

  /** `_getZeebeClient` as written: on a miss the cached client is closed
      first, and only then is the new one constructed. When construction
      throws, the slot still holds the closed client and its endpoint. */
  function GetClientAsWritten(s: CacheState, e: Endpoint, src: TlsSources, build: Construction): (r: Acquisition)
    ensures !IsHit(s, e) && ConstructionFails(e, build) ==>
      && r.client == Failure(build.error)
      && r.state.client == s.client && r.state.endpoint == s.endpoint
      && (s.client.Some? ==> s.client.value.id in r.state.closed)
    ensures !(!IsHit(s, e) && ConstructionFails(e, build)) ==> r == GetClient(s, e, src, build)
  {
    if !IsHit(s, e) && ConstructionFails(e, build) then Acquisition(Shutdown(s), Failure(build.error))
    else GetClient(s, e, src, build)
  }

  /** `_getZeebeClient` with the closed client dropped from the slot before
      the replacement is constructed: reuse on a hit; otherwise close the
      cached client if there is one, construct a client for `e` (none for
      an unrecognised type) and remember `e`; when construction fails, the
      slot is left empty and the request rejects. */
  function GetClient(s: CacheState, e: Endpoint, src: TlsSources, build: Construction): (r: Acquisition)
    ensures IsHit(s, e) ==> r.state == s && r.client == Success(s.client)
    ensures !IsHit(s, e) ==> r.state.closed == s.closed + (if s.client.Some? then [s.client.value.id] else [])
    ensures !IsHit(s, e) ==>
      r.state.created == s.created + (if e.Unrecognised? || build.ConstructionFailed? then 0 else 1)
    ensures r.client.Failure? <==> !IsHit(s, e) && ConstructionFails(e, build)
    ensures r.client.Failure? ==> r.client.error == build.error && r.state.client.None?
    ensures !IsHit(s, e) && r.client.Success? ==> r.state.endpoint == Some(e) && r.state.client == r.client.value
    ensures !IsHit(s, e) && !e.Unrecognised? && build.Constructed? ==>
      r.client == Success(Some(Client(s.created, Url(e), CreateClientOptions(e, src).value)))
    ensures !IsHit(s, e) && e.Unrecognised? ==> r.client == Success(None)
  {
    if IsHit(s, e) then Acquisition(s, Success(s.client))
    else
      var t := Shutdown(s);
      match CreateClientOptions(e, src)
      case None => Acquisition(t.(client := None, endpoint := Some(e)), Success(None))
      case Some(options) =>
        if build.ConstructionFailed? then Acquisition(t.(client := None), Failure(build.error))
        else
          var c := Client(s.created, Url(e), options);
          Acquisition(t.(client := Some(c), endpoint := Some(e), created := s.created + 1), Success(Some(c)))
  }

  /** The clients constructed and not yet closed. */
  function Open(s: CacheState): set<nat>
  {
    set id | 0 <= id < s.created && id !in s.closed
  }

  /** The cache's lifecycle guarantees: only constructed clients are closed,
      none twice; the cached client is the only one open and the most
      recently built; and it was built for the cached endpoint, which is
      therefore of a recognised type. */
  ghost predicate Inv(s: CacheState)
  {
    && (forall i :: 0 <= i < |s.closed| ==> s.closed[i] < s.created)
    && (forall i, j :: 0 <= i < j < |s.closed| ==> s.closed[i] != s.closed[j])
    && Open(s) == (if s.client.Some? then {s.client.value.id} else {})
    && (s.client.Some? ==> s.client.value.id + 1 == s.created)
    && (s.client.Some? ==> s.endpoint.Some? && !s.endpoint.value.Unrecognised?)
    && (s.client.Some? ==> s.client.value.address == Url(s.endpoint.value))
  }

  lemma InitialInv()
    ensures Inv(Initial)
  {
  }

  /** A miss keeps the lifecycle guarantees: the cached client is closed
      and the slot is either emptied or given a client numbered next,
      built for a recognised endpoint. */
  lemma MissKeepsInv(s: CacheState, t: CacheState)
    requires Inv(s)
    requires t.closed == s.closed + (if s.client.Some? then [s.client.value.id] else [])
    requires t.client.None? ==> t.created == s.created
    requires t.client.Some? ==>
      && t.client.value.id == s.created && t.created == s.created + 1
      && t.endpoint.Some? && !t.endpoint.value.Unrecognised?
      && t.client.value.address == Url(t.endpoint.value)
    ensures Inv(t)
  {
    forall i | 0 <= i < |t.closed|
      ensures t.closed[i] < t.created
    {
      if i >= |s.closed| {
        assert t.closed[i] == s.client.value.id;
      } else {
        assert t.closed[i] == s.closed[i];
      }
    }
    if s.client.Some? {
      var old_ := s.client.value.id;
      assert old_ in Open(s);
      forall i, j | 0 <= i < j < |t.closed|
        ensures t.closed[i] != t.closed[j]
      {
        if j == |s.closed| {
          assert t.closed[i] == s.closed[i];
          assert old_ !in s.closed;
        }
      }
    }
    assert Open(t) == (if t.client.Some? then {t.client.value.id} else {}) by {
      forall id | 0 <= id < s.created
        ensures id !in Open(t)
      {
        if id in s.closed {
          assert id in t.closed;
        } else {
          assert id in Open(s);
          assert t.closed[|s.closed|] == id;
        }
      }
      if t.client.Some? {
        assert t.client.value.id == s.created;
        assert s.created !in t.closed;
        assert s.created in Open(t);
      }
    }
  }

  /** Every request keeps the lifecycle guarantees. */
  lemma GetClientKeepsInv(s: CacheState, e: Endpoint, src: TlsSources, build: Construction)
    requires Inv(s)
    ensures Inv(GetClient(s, e, src, build).state)
  {
    if !IsHit(s, e) {
      MissKeepsInv(s, GetClient(s, e, src, build).state);
    }
  }

  /** A client served from the corrected cache is never one that was
      closed: it is the one open client. */
  lemma ServedClientIsOpen(s: CacheState, e: Endpoint, src: TlsSources, build: Construction)
    requires Inv(s)
    ensures var a := GetClient(s, e, src, build);
      a.client.Success? && a.client.value.Some? ==>
        a.client.value.value.id !in a.state.closed && Open(a.state) == {a.client.value.value.id}
  {
    GetClientKeepsInv(s, e, src, build);
  }

  /** A request: the endpoint, and how constructing its client would turn
      out. */
  datatype Request = Request(endpoint: Endpoint, build: Construction)

  /** A run of requests from a given state. */
  function Serve(s: CacheState, requests: seq<Request>, src: TlsSources): CacheState
    decreases |requests|
  {
    if |requests| == 0 then s
    else Serve(GetClient(s, requests[0].endpoint, src, requests[0].build).state, requests[1..], src)
  }

  /** Over any run of requests from a fresh instance, failed constructions
      included, no client is ever closed twice and at most one client is
      open, the cached one. */
  lemma {:induction false} ServeKeepsInv(s: CacheState, requests: seq<Request>, src: TlsSources)
    requires Inv(s)
    ensures Inv(Serve(s, requests, src))
    decreases |requests|
  {
    if |requests| > 0 {
      GetClientKeepsInv(s, requests[0].endpoint, src, requests[0].build);
      ServeKeepsInv(GetClient(s, requests[0].endpoint, src, requests[0].build).state, requests[1..], src);
    }
  }

  /** The same endpoint twice in a row: the second request constructs
      nothing, closes nothing and gets the client of the first. */
  lemma RepeatedRequestReuses(s: CacheState, e: Endpoint, src: TlsSources, later: TlsSources,
                              build: Construction, laterBuild: Construction)
    requires !ConstructionFails(e, build)
    ensures var first := GetClient(s, e, src, build);
      var second := GetClient(first.state, e, later, laterBuild);
      second.state == first.state && second.client == first.client
  {
  }

  /** A request for a different endpoint closes the cached client exactly
      once, before its replacement is cached. */
  lemma ChangeClosesPrevious(s: CacheState, e: Endpoint, src: TlsSources, build: Construction)
    requires s.client.Some? && s.endpoint != Some(e)
    ensures var a := GetClient(s, e, src, build);
      && a.state.closed == s.closed + [s.client.value.id]
      && (a.client.Success? ==> a.state.endpoint == Some(e))
      && (a.client.Failure? ==> a.state.client.None?)
  {
  }

  /** The source's order (close, then construct) with a construction that
      throws: the closed client stays cached and the invariant breaks; the
      next request for its endpoint is served with the closed client, and a
      request for a third endpoint closes it a second time. */
  lemma StaleClientAfterFailedConstruction(s: CacheState, a: Endpoint, b: Endpoint, c: Endpoint,
                                           src: TlsSources, err: ErrorObject)
    requires Inv(s) && s.client.Some? && s.endpoint == Some(a)
    requires b != a && !b.Unrecognised? && c != a
    ensures var t := GetClientAsWritten(s, b, src, ConstructionFailed(err)).state;
      && !Inv(t)
      && GetClientAsWritten(t, a, src, Constructed).client == Success(s.client)
      && s.client.value.id in t.closed
      && GetClientAsWritten(t, c, src, Constructed).state.closed == s.closed + [s.client.value.id, s.client.value.id]
  {
    var t := GetClientAsWritten(s, b, src, ConstructionFailed(err)).state;
    assert t.closed[|s.closed|] == s.client.value.id;
    assert s.client.value.id !in Open(t);
  }

  /** The same sequence on the corrected cache: the failed construction
      leaves the slot empty, so the old endpoint gets a fresh client and the
      closed client is never closed again. */
  lemma FailedConstructionClosesOnce(s: CacheState, a: Endpoint, b: Endpoint, c: Endpoint,
                                     src: TlsSources, err: ErrorObject)
    requires Inv(s) && s.client.Some? && s.endpoint == Some(a)
    requires b != a && !b.Unrecognised? && !a.Unrecognised?
    ensures var t := GetClient(s, b, src, ConstructionFailed(err)).state;
      && Inv(t)
      && t.client.None?
      && GetClient(t, a, src, Constructed).client == Success(Some(Client(s.created, Url(a), CreateClientOptions(a, src).value)))
      && GetClient(t, c, src, Constructed).state.closed == s.closed + [s.client.value.id]
  {
    GetClientKeepsInv(s, b, src, ConstructionFailed(err));
  }
}
