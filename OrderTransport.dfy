/**
 * The conditional-request transport for the order list (RFC 9110): it keeps
 * the latest entity tag and the latest last-modification date that any
 * changed response advertised, each separately, sends them back as
 * `If-None-Match` and `If-Modified-Since`,
 * sorts each reply into "not modified" (304), "changed" (200) or a thrown
 * error, and runs its own interval backoff. The HTTP call itself is the
 * parameter `send`, and `encodeURIComponent` is the parameter `encode`.
 */
module OrderTransport {
  import opened Wrappers
  import opened FetchContract

  datatype TransportConfig = TransportConfig(baseInterval: real, maxInterval: real, backoffMultiplier: real)

  /** The configurations under which the interval provably stays in [baseInterval, maxInterval]. */
  predicate SaneConfig(c: TransportConfig) {
    0.0 <= c.baseInterval <= c.maxInterval && 1.0 <= c.backoffMultiplier
  }

  /** The request the transport builds: a path relative to the API base and the headers it adds itself. */
  datatype Request = Request(url: string, headers: map<string, string>)

  /** What comes back: a response with a status, headers and a body, or no response at all. */
  datatype Reply<B> = Response(status: int, headers: map<string, string>, body: B) | NoResponse

  /** JavaScript truthiness of a `string | null`: present and non-empty. */
  predicate Truthy(v: Option<string>) {
    v.Some? && v.value != ""
  }

  const OrdersPath: string := "/orders/"
  const SincePrefix: string := "/orders/?since="
  const IfNoneMatch: string := "If-None-Match"
  const IfModifiedSince: string := "If-Modified-Since"

  /** The `since` query value carried by a URL, if it has one. */
  function SinceQuery(url: string): Option<string> {
    if |SincePrefix| <= |url| && url[..|SincePrefix|] == SincePrefix then Some(url[|SincePrefix|..]) else None
  }

  /** The URL requested: the `since` cursor is added exactly when it is a non-empty string. */
  function OrdersUrl(since: Option<string>, encode: string -> string): (url: string)
    ensures |OrdersPath| <= |url| && url[..|OrdersPath|] == OrdersPath
    ensures SinceQuery(url) == if Truthy(since) then Some(encode(since.value)) else None
    ensures !Truthy(since) ==> url == OrdersPath
  {
    if Truthy(since) then SincePrefix + encode(since.value) else OrdersPath
  }

  /** The cache validators kept from earlier responses. */
  datatype Validators = Validators(etag: Option<string>, lastModified: Option<string>)

  /** The headers the transport adds: one conditional header per validator that is set and non-empty, and nothing else. */
  function ConditionalHeaders(v: Validators): (h: map<string, string>)
    ensures IfNoneMatch in h <==> Truthy(v.etag)
    ensures IfModifiedSince in h <==> Truthy(v.lastModified)
    ensures IfNoneMatch in h ==> h[IfNoneMatch] == v.etag.value
    ensures IfModifiedSince in h ==> h[IfModifiedSince] == v.lastModified.value
    ensures h.Keys <= {IfNoneMatch, IfModifiedSince}
  {
    var h0: map<string, string> := map[];
    var h1 := if Truthy(v.etag) then h0[IfNoneMatch := v.etag.value] else h0;
    if Truthy(v.lastModified) then h1[IfModifiedSince := v.lastModified.value] else h1
  }

  /** `headers[lower] || headers[capitalised]`: the first spelling present with a non-empty value. */
  function HeaderValue(headers: map<string, string>, lower: string, capitalised: string): (r: Option<string>)
    ensures r.Some? <==>
      (lower in headers && headers[lower] != "") || (capitalised in headers && headers[capitalised] != "")
    ensures r.Some? ==> r.value != ""
    ensures lower in headers && headers[lower] != "" ==> r == Some(headers[lower])
    ensures !(lower in headers && headers[lower] != "") && r.Some? ==> r == Some(headers[capitalised])
  {
    if lower in headers && headers[lower] != "" then Some(headers[lower])
    else if capitalised in headers && headers[capitalised] != "" then Some(headers[capitalised])
    else None
  }

  /** The entity tag a changed response advertises, if any. */
  function AdvertisedETag(headers: map<string, string>): Option<string> {
    HeaderValue(headers, "etag", "ETag")
  }

  /** The modification date a changed response advertises, if any. */
  function AdvertisedLastModified(headers: map<string, string>): Option<string> {
    HeaderValue(headers, "last-modified", "Last-Modified")
  }

  /** Stored validators are never empty strings. */
  predicate NonEmptyValidators(v: Validators) {
    (v.etag.Some? ==> v.etag.value != "") && (v.lastModified.Some? ==> v.lastModified.value != "")
  }

  /**
   * The validators after a changed response: each one is replaced only when
   * the response advertises a new value; a missing header keeps the old one.
   */
  function Refreshed(v: Validators, headers: map<string, string>): (r: Validators)
    ensures AdvertisedETag(headers).None? ==> r.etag == v.etag
    ensures AdvertisedETag(headers).Some? ==> r.etag == AdvertisedETag(headers)
    ensures AdvertisedLastModified(headers).None? ==> r.lastModified == v.lastModified
    ensures AdvertisedLastModified(headers).Some? ==> r.lastModified == AdvertisedLastModified(headers)
    ensures NonEmptyValidators(v) ==> NonEmptyValidators(r)
  {
    var etag := AdvertisedETag(headers);
    var lastModified := AdvertisedLastModified(headers);
    Validators(if etag.Some? then etag else v.etag,
               if lastModified.Some? then lastModified else v.lastModified)
  }

  /** `Math.min(interval * backoffMultiplier, maxInterval)`: the interval after one more 304. */
  function BackedOff(interval: real, c: TransportConfig): (r: real)
    ensures r <= c.maxInterval
    ensures SaneConfig(c) && c.baseInterval <= interval <= c.maxInterval ==>
      interval <= r && c.baseInterval <= r
  {
    GrowsUnderMultiplier(interval, c.backoffMultiplier);
    Min(interval * c.backoffMultiplier, c.maxInterval)
  }

  lemma GrowsUnderMultiplier(x: real, m: real)
    ensures 0.0 <= x && 1.0 <= m ==> x <= x * m
  {
    assert x * m - x == x * (m - 1.0);
  }

  /** Everything the transport remembers between fetches. */
  datatype TransportState = TransportState(interval: real, validators: Validators, consecutiveNoChanges: nat)

  /** A fresh transport: base interval, no validators, no 304 seen. */
  function InitialState(c: TransportConfig): TransportState {
    TransportState(c.baseInterval, Validators(None, None), 0)
  }

  /** The interval lies in [baseInterval, maxInterval]. */
  predicate IntervalInBounds(st: TransportState, c: TransportConfig) {
    c.baseInterval <= st.interval <= c.maxInterval
  }

  /**
   * How one reply changes the transport and what `fetchOrders` settles with.
   * A 304 resolves "not modified", counts one more unchanged probe, backs
   * off, and keeps the validators; a 200 resolves with the body, resets the
   * counter and the interval, and refreshes the validators it advertises;
   * anything else throws and changes nothing.
   */
  function Receive<B>(st: TransportState, reply: Reply<B>, c: TransportConfig): (r: (TransportState, Fetched<B>))
    ensures r.1.Returned? <==> reply.Response? && reply.status in {200, 304}
    ensures r.1.Returned? ==> (r.1.result.notModified <==> reply.status == 304)
    ensures r.1.Threw? ==> r.0 == st
    ensures reply.NoResponse? ==> r.1 == Threw(NetworkError)
    ensures reply.Response? && reply.status !in {200, 304} ==> r.1 == Threw(HttpError(reply.status))
    ensures reply.Response? && reply.status == 304 ==>
      && r.1.result.data.None?
      && r.0.consecutiveNoChanges == st.consecutiveNoChanges + 1
      && r.0.interval == BackedOff(st.interval, c)
      && r.0.validators == st.validators
    ensures reply.Response? && reply.status == 200 ==>
      && r.1.result.data == Some(reply.body)
      && r.0.consecutiveNoChanges == 0
      && r.0.interval == c.baseInterval
      && r.0.validators == Refreshed(st.validators, reply.headers)
    ensures NonEmptyValidators(st.validators) ==> NonEmptyValidators(r.0.validators)
    ensures SaneConfig(c) && IntervalInBounds(st, c) ==> IntervalInBounds(r.0, c)
  {
    match reply
    case NoResponse => (st, Threw(NetworkError))
    case Response(status, headers, body) =>
      if status == 304 then
        (st.(interval := BackedOff(st.interval, c), consecutiveNoChanges := st.consecutiveNoChanges + 1),
         Returned(FetchResult(true, None)))
      else if status == 200 then
        (TransportState(c.baseInterval, Refreshed(st.validators, headers), 0),
         Returned(FetchResult(false, Some(body))))
      else
        (st, Threw(HttpError(status)))
  }

  /** The state after a sequence of replies, in arrival order. */
  function ReceiveAll<B>(st: TransportState, replies: seq<Reply<B>>, c: TransportConfig): TransportState
    decreases |replies|
  {
    if replies == [] then st
    else Receive(ReceiveAll(st, replies[..|replies| - 1], c), replies[|replies| - 1], c).0
  }

  /** Whatever the replies, the interval never leaves [baseInterval, maxInterval]. */
  lemma {:induction false} IntervalStaysInBounds<B>(st: TransportState, replies: seq<Reply<B>>, c: TransportConfig)
    requires SaneConfig(c) && IntervalInBounds(st, c)
    ensures IntervalInBounds(ReceiveAll(st, replies, c), c)
    decreases |replies|
  {
    if replies != [] {
      IntervalStaysInBounds(st, replies[..|replies| - 1], c);
    }
  }

  /** Is this reply a changed (200) response? */
  predicate IsChanged<B>(reply: Reply<B>) {
    reply.Response? && reply.status == 200
  }

  /** Is this reply a 304? */
  predicate IsNotModified<B>(reply: Reply<B>) {
    reply.Response? && reply.status == 304
  }

  /**
   * The value of a validator header on the latest changed response that
   * advertised one, or `initial` when no changed response did.
   */
  function LatestAdvertised<B>(initial: Option<string>, replies: seq<Reply<B>>, lower: string, capitalised: string): Option<string>
    decreases |replies|
  {
    if replies == [] then initial
    else
      var last := replies[|replies| - 1];
      if IsChanged(last) && HeaderValue(last.headers, lower, capitalised).Some?
      then HeaderValue(last.headers, lower, capitalised)
      else LatestAdvertised(initial, replies[..|replies| - 1], lower, capitalised)
  }

  /**
   * The validators are always the ones the latest changed responses
   * advertised: 304s and failures never touch them, and a changed response
   * that omits one header keeps the earlier value of that header.
   */
  lemma {:induction false} ValidatorsAreLatestAdvertised<B>(st: TransportState, replies: seq<Reply<B>>, c: TransportConfig)
    ensures ReceiveAll(st, replies, c).validators == Validators(
      LatestAdvertised(st.validators.etag, replies, "etag", "ETag"),
      LatestAdvertised(st.validators.lastModified, replies, "last-modified", "Last-Modified"))
    decreases |replies|
  {
    if replies != [] {
      ValidatorsAreLatestAdvertised(st, replies[..|replies| - 1], c);
    }
  }

  /** The index of the latest changed response, or -1 if there is none. */
  function LastChangedReply<B>(replies: seq<Reply<B>>): (i: int)
    ensures -1 <= i < |replies|
    ensures 0 <= i ==> IsChanged(replies[i])
    ensures forall j :: i < j < |replies| ==> !IsChanged(replies[j])
    decreases |replies|
  {
    if replies == [] then -1
    else if IsChanged(replies[|replies| - 1]) then |replies| - 1
    else LastChangedReply(replies[..|replies| - 1])
  }

  /** How many 304s a sequence of replies holds. */
  function CountNotModified<B>(replies: seq<Reply<B>>): (n: nat)
    ensures n <= |replies|
    decreases |replies|
  {
    if replies == [] then 0
    else CountNotModified(replies[..|replies| - 1]) + (if IsNotModified(replies[|replies| - 1]) then 1 else 0)
  }

  /**
   * The counter of unchanged probes is the number of 304s received since the
   * latest changed response (failures neither count nor reset it).
   */
  lemma {:induction false} CounterCountsNotModifiedSinceChange<B>(st: TransportState, replies: seq<Reply<B>>, c: TransportConfig)
    ensures ReceiveAll(st, replies, c).consecutiveNoChanges ==
      (if LastChangedReply(replies) < 0 then st.consecutiveNoChanges else 0)
      + CountNotModified(replies[LastChangedReply(replies) + 1..])
    decreases |replies|
  {
    if replies != [] {
      var n := |replies|;
      var init := replies[..n - 1];
      var last := replies[n - 1];
      CounterCountsNotModifiedSinceChange(st, init, c);
      var before := ReceiveAll(st, init, c);
      assert ReceiveAll(st, replies, c) == Receive(before, last, c).0;
      if IsChanged(last) {
        assert LastChangedReply(replies) == n - 1;
        assert replies[n..] == [];
      } else {
        var k := LastChangedReply(init) + 1;
        assert LastChangedReply(replies) + 1 == k;
        var tail := replies[k..];
        assert tail[..|tail| - 1] == init[k..];
        assert tail[|tail| - 1] == last;
        assert CountNotModified(tail) == CountNotModified(init[k..]) + (if IsNotModified(last) then 1 else 0);
      }
    }
  }

  /**
   * The request sequence of the conditional-request protocol: a fresh
   * transport asks unconditionally; after a changed response with
   * `ETag: "abc"` it asks with `If-None-Match: "abc"`; a 304 leaves the next
   * request's headers as they were.
   */
  lemma ConditionalRequestScenario<B>(c: TransportConfig, body: B)
    ensures ConditionalHeaders(InitialState(c).validators) == map[]
    ensures var s1 := Receive(InitialState(c), Response(200, map["ETag" := "\"abc\""], body), c).0;
      && ConditionalHeaders(s1.validators) == map[IfNoneMatch := "\"abc\""]
      && var s2 := Receive(s1, Response(304, map[], body), c).0;
         ConditionalHeaders(s2.validators) == ConditionalHeaders(s1.validators)
  {
  }

  /** The figures `getStats()` reports. */
  datatype Stats = Stats(currentInterval: real, consecutiveNoChanges: nat, hasETag: bool, hasLastModified: bool)

  class SmartPollingTransport {
    const config: TransportConfig
    var interval: real
    var lastETag: Option<string>
    var lastModified: Option<string>
    var consecutiveNoChanges: nat

    /** The stored validators are never empty; under a sane configuration the interval stays in bounds. */
    ghost predicate Valid()
      reads this
    {
      && NonEmptyValidators(Validators(lastETag, lastModified))
      && (SaneConfig(config) ==> IntervalInBounds(State(), config))
    }

    /** The fields as one value. */
    function State(): TransportState
      reads this
    {
      TransportState(interval, Validators(lastETag, lastModified), consecutiveNoChanges)
    }

    constructor(config: TransportConfig)
      ensures Valid()
      ensures this.config == config
      ensures State() == InitialState(config)
    {
      this.config := config;
      interval := config.baseInterval;
      lastETag := None;
      lastModified := None;
      consecutiveNoChanges := 0;
    }

    /**
     * One conditional fetch of the order list. `sent` is the request put on
     * the wire; the transport's new state and the outcome are those of
     * `Receive` on the reply `send` gives for it.
     */
    method FetchOrders<B>(since: Option<string>, encode: string -> string, send: Request -> Reply<B>)
      returns (sent: Request, outcome: Fetched<B>)
      requires Valid()
      modifies this
      ensures Valid()
      ensures sent == Request(OrdersUrl(since, encode), ConditionalHeaders(old(State()).validators))
      ensures (State(), outcome) == Receive(old(State()), send(sent), config)
    {
      var headers: map<string, string> := map[];
      if Truthy(lastETag) {
        headers := headers[IfNoneMatch := lastETag.value];
      }
      if Truthy(lastModified) {
        headers := headers[IfModifiedSince := lastModified.value];
      }
      var url := if Truthy(since) then SincePrefix + encode(since.value) else OrdersPath;
      sent := Request(url, headers);

      var reply := send(sent);
      if reply.NoResponse? {
        outcome := Threw(NetworkError);
        return;
      }
      if reply.status == 304 {
        OnNoChange();
        outcome := Returned(FetchResult(true, None));
        return;
      }
      if reply.status == 200 {
        OnDataChanged();
        var newETag := AdvertisedETag(reply.headers);
        var newLastModified := AdvertisedLastModified(reply.headers);
        if newETag.Some? {
          lastETag := newETag;
        }
        if newLastModified.Some? {
          lastModified := newLastModified;
        }
        outcome := Returned(FetchResult(false, Some(reply.body)));
        return;
      }
      outcome := Threw(HttpError(reply.status));
    }

    /** A 304: one more unchanged probe, and the interval backs off up to the maximum. */
    method OnNoChange()
      requires Valid()
      modifies this
      ensures Valid()
      ensures consecutiveNoChanges == old(consecutiveNoChanges) + 1
      ensures interval == BackedOff(old(interval), config)
      ensures lastETag == old(lastETag) && lastModified == old(lastModified)
    {
      consecutiveNoChanges := consecutiveNoChanges + 1;
      var newInterval := Min(interval * config.backoffMultiplier, config.maxInterval);
      if newInterval != interval {
        interval := newInterval;
      }
    }

    /** A 200: the counter and the interval go back to their starting values. */
    method OnDataChanged()
      requires Valid()
      modifies this
      ensures Valid()
      ensures consecutiveNoChanges == 0 && interval == config.baseInterval
      ensures lastETag == old(lastETag) && lastModified == old(lastModified)
    {
      consecutiveNoChanges := 0;
      interval := config.baseInterval;
    }

    /** The delay the caller should wait before the next fetch. */
    function GetNextInterval(): (r: real)
      reads this
      ensures r == State().interval
      ensures Valid() && SaneConfig(config) ==> config.baseInterval <= r <= config.maxInterval
    {
      interval
    }

    /** `hasETag`/`hasLastModified` tell exactly whether the next request is conditional on that validator. */
    function GetStats(): (s: Stats)
      reads this
      ensures s.hasETag <==> IfNoneMatch in ConditionalHeaders(State().validators)
      ensures s.hasLastModified <==> IfModifiedSince in ConditionalHeaders(State().validators)
      ensures s.currentInterval == GetNextInterval()
      ensures s.consecutiveNoChanges == State().consecutiveNoChanges
    {
      Stats(interval, consecutiveNoChanges, Truthy(lastETag), Truthy(lastModified))
    }
  }
}
