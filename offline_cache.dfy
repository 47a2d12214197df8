/**
 * The Android HTTP client's offline cache interceptor: every request goes
 * to the network chain, and when the device has no usable network the
 * response is marked "public, only-if-cached" so that it may be served
 * from the cache (the only-if-cached directive of section 5.2.1.7 of
 * RFC 9111). Header names compare without regard to ASCII case, as HTTP
 * header names do.
 */
module OfflineCache {
  import opened Base
  import opened Strings

  /** The active network, when there is one: whether it is connected or connecting. */
  datatype NetworkInfo = NetworkInfo(isConnectedOrConnecting: bool)

  /** isNetworkAvailable: an active network that is connected or connecting. */
  predicate IsNetworkAvailable(activeNetwork: Option<NetworkInfo>)
  {
    activeNetwork.Some? && activeNetwork.value.isConnectedOrConnecting
  }

  lemma NetworkAvailability(activeNetwork: Option<NetworkInfo>)
    ensures IsNetworkAvailable(activeNetwork) <==> activeNetwork == Some(NetworkInfo(true))
  {
  }

  /** A header: its name and its value, in the order of the response. */
  datatype Header = Header(name: string, value: string)

  /** A response: status code, headers and body. */
  datatype Response<B> = Response(code: int, headers: seq<Header>, body: B)

  predicate SameName(a: string, b: string)
  {
    Lower(a) == Lower(b)
  }

  /** The headers without those of the given name (Headers.Builder.removeAll). */
  function RemoveAll(headers: seq<Header>, name: string): (r: seq<Header>)
    ensures |r| <= |headers|
    ensures forall h :: h in r <==> h in headers && !SameName(h.name, name)
  {
    if headers == [] then []
    else if SameName(headers[0].name, name) then RemoveAll(headers[1..], name)
    else [headers[0]] + RemoveAll(headers[1..], name)
  }

  /** Response.Builder.header(name, value): every header of that name is replaced by one, appended. */
  function SetHeader(headers: seq<Header>, name: string, value: string): (r: seq<Header>)
    ensures 1 <= |r| <= |headers| + 1 && r[|r| - 1] == Header(name, value)
    ensures forall h :: h in r[..|r| - 1] <==> h in headers && !SameName(h.name, name)
  {
    RemoveAll(headers, name) + [Header(name, value)]
  }

  /** The values of the headers of a name, in order (Headers.values). */
  function Values(headers: seq<Header>, name: string): (r: seq<string>)
    ensures |r| <= |headers|
  {
    if headers == [] then []
    else (if SameName(headers[0].name, name) then [headers[0].value] else []) + Values(headers[1..], name)
  }

  lemma {:induction false} ValuesAppend(a: seq<Header>, b: seq<Header>, name: string)
    ensures Values(a + b, name) == Values(a, name) + Values(b, name)
  {
    if a != [] {
      assert (a + b)[1..] == a[1..] + b;
      ValuesAppend(a[1..], b, name);
    } else {
      assert a + b == b;
    }
  }

  /** After RemoveAll no header has the name, and the values of every other name are kept in order. */
  lemma {:induction false} RemoveAllValues(headers: seq<Header>, name: string, other: string)
    ensures Values(RemoveAll(headers, name), name) == []
    ensures !SameName(other, name) ==> Values(RemoveAll(headers, name), other) == Values(headers, other)
  {
    if headers != [] {
      RemoveAllValues(headers[1..], name, other);
      if !SameName(headers[0].name, name) {
        ValuesAppend([headers[0]], RemoveAll(headers[1..], name), name);
        ValuesAppend([headers[0]], RemoveAll(headers[1..], name), other);
      }
    }
  }

  /** The header set has exactly the new value under its name and the other names' values unchanged. */
  lemma SetHeaderValues(headers: seq<Header>, name: string, value: string, other: string)
    ensures Values(SetHeader(headers, name, value), name) == [value]
    ensures !SameName(other, name) ==> Values(SetHeader(headers, name, value), other) == Values(headers, other)
  {
    RemoveAllValues(headers, name, other);
    ValuesAppend(RemoveAll(headers, name), [Header(name, value)], name);
    ValuesAppend(RemoveAll(headers, name), [Header(name, value)], other);
  }

  /** Removing a name twice is removing it once. */
  lemma {:induction false} RemoveAllIdempotent(headers: seq<Header>, name: string)
    ensures RemoveAll(RemoveAll(headers, name), name) == RemoveAll(headers, name)
  {
    if headers != [] {
      RemoveAllIdempotent(headers[1..], name);
      if !SameName(headers[0].name, name) {
        assert RemoveAll(headers, name)[1..] == RemoveAll(headers[1..], name);
      }
    }
  }

  lemma {:induction false} RemoveAllAppend(a: seq<Header>, b: seq<Header>, name: string)
    ensures RemoveAll(a + b, name) == RemoveAll(a, name) + RemoveAll(b, name)
  {
    if a != [] {
      assert (a + b)[1..] == a[1..] + b;
      RemoveAllAppend(a[1..], b, name);
    } else {
      assert a + b == b;
    }
  }

  /** Setting the same header twice is setting it once. */
  lemma SetHeaderIdempotent(headers: seq<Header>, name: string, value: string)
    ensures SetHeader(SetHeader(headers, name, value), name, value) == SetHeader(headers, name, value)
  {
    RemoveAllAppend(RemoveAll(headers, name), [Header(name, value)], name);
    RemoveAllIdempotent(headers, name);
    assert SameName(name, name);
    assert RemoveAll([Header(name, value)], name) == [];
  }

  const CacheControl: string := "Cache-Control"
  const OnlyIfCached: string := "public, only-if-cached"

  /** The offline branch: Cache-Control replaced by "public, only-if-cached". */
  function OfflineResponse<B>(response: Response<B>): (r: Response<B>)
    ensures r.code == response.code && r.body == response.body
    ensures Values(r.headers, CacheControl) == [OnlyIfCached]
    ensures forall other :: !SameName(other, CacheControl) ==> Values(r.headers, other) == Values(response.headers, other)
  {
    forall other ensures !SameName(other, CacheControl) ==> Values(SetHeader(response.headers, CacheControl, OnlyIfCached), other) == Values(response.headers, other) {
      SetHeaderValues(response.headers, CacheControl, OnlyIfCached, other);
    }
    SetHeaderValues(response.headers, CacheControl, OnlyIfCached, CacheControl);
    response.(headers := SetHeader(response.headers, CacheControl, OnlyIfCached))
  }

  lemma OfflineResponseIdempotent<B>(response: Response<B>)
    ensures OfflineResponse(OfflineResponse(response)) == OfflineResponse(response)
  {
    SetHeaderIdempotent(response.headers, CacheControl, OnlyIfCached);
  }

  /**
   * intercept: the outcome of the one call chain.proceed(chain.request())
   * is `proceeded`; an IOException it throws propagates as it is, a
   * response is returned as it came online and rewritten offline. The
   * network state is the one at the time of the check after proceed.
   */
  function Intercept<B>(proceeded: Outcome<Response<B>>, activeNetwork: Option<NetworkInfo>): (r: Outcome<Response<B>>)
    ensures proceeded.Thrown? ==> r == proceeded
    ensures proceeded.Ok? && IsNetworkAvailable(activeNetwork) ==> r == proceeded
    ensures proceeded.Ok? && !IsNetworkAvailable(activeNetwork) ==>
      r.Ok? && r.value.code == proceeded.value.code && r.value.body == proceeded.value.body &&
      Values(r.value.headers, CacheControl) == [OnlyIfCached] &&
      forall other :: !SameName(other, CacheControl) ==> Values(r.value.headers, other) == Values(proceeded.value.headers, other)
  {
    if proceeded.Thrown? then proceeded
    else if IsNetworkAvailable(activeNetwork) then Ok(proceeded.value)
    else Ok(OfflineResponse(proceeded.value))
  }

  /** Intercepting a response twice offline gives the same response as intercepting it once. */
  lemma InterceptIdempotent<B>(proceeded: Outcome<Response<B>>, activeNetwork: Option<NetworkInfo>)
    ensures Intercept(Intercept(proceeded, activeNetwork), activeNetwork) == Intercept(proceeded, activeNetwork)
  {
    if proceeded.Ok? && !IsNetworkAvailable(activeNetwork) {
      OfflineResponseIdempotent(proceeded.value);
    }
  }
}
