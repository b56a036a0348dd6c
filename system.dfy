/** The system bindings: subscribing to the engine's event stream
    (`Events`) and asking the engine to prune unused data (`Prune`). */
module Bindings {
  import opened Common

  /** The filter set handed to `Events`: filter name to its values. */
  type Filters = map<string, seq<string>>

  const InvalidFiltersMsg := "invalid filters"
  const DecodeFailedMsg := "unable to decode event response"

  // ---------------------------------------------------------------------
  // Query parameters of the events request

  /** The query of the events request: `since` and `until` are present
      exactly when given and carry the given text, `filters` is present
      exactly when a filter set is given (even an empty one) and carries its
      encoding, and no other key is set. */
  ghost predicate EventQuery(p: Values, since: Option<string>, until: Option<string>,
                             filters: Option<Filters>, encode: Filters -> Result<string>)
  {
    && p.Keys <= {"since", "until", "filters"}
    && ("since" in p <==> since.Some?)
    && (since.Some? ==> p["since"] == [since.value])
    && ("until" in p <==> until.Some?)
    && (until.Some? ==> p["until"] == [until.value])
    && ("filters" in p <==> filters.Some?)
    && (filters.Some? ==> encode(filters.value).Ok? && p["filters"] == [encode(filters.value).value])
  }

  /** Builds the events query one `Set` at a time. The filter set is encoded
      (by `encode`, standing for the filter encoder) only when it is given,
      and an encoding failure is returned, wrapped, instead of a query. */
  method EventParams(since: Option<string>, until: Option<string>,
                     filters: Option<Filters>, encode: Filters -> Result<string>)
    returns (r: Result<Values>)
    ensures r.Err? <==> filters.Some? && encode(filters.value).Err?
    ensures r.Err? ==> r.error == Wrapped(InvalidFiltersMsg, encode(filters.value).error)
    ensures r.Ok? ==> EventQuery(r.value, since, until, filters, encode)
  {
    var params: Values := map[];
    if since.Some? {
      params := SetParam(params, "since", since.value);
    }
    if until.Some? {
      params := SetParam(params, "until", until.value);
    }
    if filters.Some? {
      var filterString := encode(filters.value);
      if filterString.Err? {
        return Err(Wrapped(InvalidFiltersMsg, filterString.error));
      }
      params := SetParam(params, "filters", filterString.value);
    }
    return Ok(params);
  }

  /** The query properties say everything about the query: two queries that
      both meet them are the same map. */
  lemma EventQueryDetermined(p: Values, q: Values, since: Option<string>, until: Option<string>,
                             filters: Option<Filters>, encode: Filters -> Result<string>)
    requires EventQuery(p, since, until, filters, encode)
    requires EventQuery(q, since, until, filters, encode)
    ensures p == q
  {
  }

  // ---------------------------------------------------------------------
  // The decode loop over the response body

  /** What one `Decode` call on the response body gives: an event, clean end
      of stream, or any other decoding error. */
  datatype Outcome<E> = Decoded(event: E) | EndOfStream | DecodeError(cause: Error)

  /** How the decode loop ended: at end of stream, or on a decoding error. */
  datatype End = Clean | Broken(cause: Error)

  /** What a run of the decode loop does: the events it pushed, in order, the
      number of `Decode` calls it made, and how it ended. */
  datatype Drained<E> = Drained(pushed: seq<E>, decodes: nat, end: End)

  /** The body is a finite sequence of outcomes; a body whose bytes have
      run out decodes to clean end of stream from then on. */
  function Read<E>(body: seq<Outcome<E>>, i: nat): Outcome<E>
  {
    if i < |body| then body[i] else EndOfStream
  }

  /** The position of the first outcome that is not an event: the read at
      which the loop stops. */
  function Stop<E>(body: seq<Outcome<E>>): (k: nat)
    ensures k <= |body|
    ensures forall j | 0 <= j < k :: body[j].Decoded?
    ensures k < |body| ==> !body[k].Decoded?
  {
    if body == [] || !body[0].Decoded? then 0 else 1 + Stop(body[1..])
  }

  /** The events carried by a sequence of decoded outcomes, in order. */
  function Payloads<E>(outcomes: seq<Outcome<E>>): (es: seq<E>)
    requires forall j | 0 <= j < |outcomes| :: outcomes[j].Decoded?
    ensures |es| == |outcomes|
    ensures forall j | 0 <= j < |outcomes| :: outcomes[j] == Decoded(es[j])
  {
    seq(|outcomes|, j requires 0 <= j < |outcomes| => outcomes[j].event)
  }

  /** The stream that decodes to the given events, one by one. */
  function AsOutcomes<E>(es: seq<E>): (body: seq<Outcome<E>>)
    ensures |body| == |es|
    ensures forall j | 0 <= j < |es| :: body[j] == Decoded(es[j])
  {
    seq(|es|, j requires 0 <= j < |es| => Decoded(es[j]))
  }

  /** The two views of a run of events agree: the events of their outcomes
      are those events, and the outcomes of a run's events are that run. */
  lemma PayloadsRoundTrip<E>(es: seq<E>, outcomes: seq<Outcome<E>>)
    requires forall j | 0 <= j < |outcomes| :: outcomes[j].Decoded?
    ensures Payloads(AsOutcomes(es)) == es
    ensures AsOutcomes(Payloads(outcomes)) == outcomes
  {
  }

  /** The reference behaviour of the decode loop: every event before the
      first other outcome is pushed, in order; that outcome is the last one
      read; an error there ends the loop broken, end of stream ends it clean. */
  function Drain<E>(body: seq<Outcome<E>>): Drained<E>
  {
    var k := Stop(body);
    Drained(Payloads(body[..k]), k + 1,
            match Read(body, k)
            case DecodeError(c) => Broken(c)
            case _ => Clean)
  }

  /** The decode loop: decode one outcome at a time; push each event before
      the next decode; stop at end of stream or at an error. */
  method DecodeLoop<E>(body: seq<Outcome<E>>) returns (pushed: seq<E>, decodes: nat, end: End)
    ensures Drained(pushed, decodes, end) == Drain(body)
  {
    pushed, decodes := [], 0;
    while true
      invariant decodes <= Stop(body)
      invariant pushed == Payloads(body[..decodes])
      decreases |body| - decodes
    {
      var outcome := Read(body, decodes);
      decodes := decodes + 1;
      match outcome {
        case Decoded(e) =>
          pushed := pushed + [e];
        case EndOfStream =>
          end := Clean;
          return;
        case DecodeError(c) =>
          end := Broken(c);
          return;
      }
    }
  }

  /** Events e1..ek followed by end of stream (or by nothing at all): exactly
      e1..ek are pushed, in order, the loop ends clean, and nothing after the
      end of stream is read. */
  lemma DrainEventsThenEnd<E>(es: seq<E>, rest: seq<Outcome<E>>)
    ensures Drain(AsOutcomes(es) + [EndOfStream] + rest) == Drained(es, |es| + 1, Clean)
    ensures Drain(AsOutcomes(es)) == Drained(es, |es| + 1, Clean)
  {
    var body := AsOutcomes(es) + [EndOfStream] + rest;
    assert body[|es|] == EndOfStream;
    assert Stop(body) == |es| by {
      forall j | 0 <= j < |es| ensures body[j].Decoded? { assert body[j] == Decoded(es[j]); }
    }
    assert body[..|es|] == AsOutcomes(es);
    assert Payloads(AsOutcomes(es)) == es;
  }

  /** Events e1..ek followed by a decoding error: exactly e1..ek are pushed,
      in order, the loop ends broken with that error, and nothing after the
      error is read. */
  lemma DrainEventsThenError<E>(es: seq<E>, c: Error, rest: seq<Outcome<E>>)
    ensures Drain(AsOutcomes(es) + [DecodeError(c)] + rest) == Drained(es, |es| + 1, Broken(c))
  {
    var body := AsOutcomes(es) + [DecodeError(c)] + rest;
    assert body[|es|] == DecodeError(c);
    assert Stop(body) == |es| by {
      forall j | 0 <= j < |es| ensures body[j].Decoded? { assert body[j] == Decoded(es[j]); }
    }
    assert body[..|es|] == AsOutcomes(es);
    assert Payloads(AsOutcomes(es)) == es;
  }

  /** Nothing is dropped or reordered: the i-th pushed event is the i-th
      outcome read, every read but the last gave an event, and the decodes
      never go past the first outcome that is not an event. */
  lemma DrainInOrder<E>(body: seq<Outcome<E>>)
    ensures var d := Drain(body);
      && 1 <= d.decodes <= |body| + 1
      && |d.pushed| == d.decodes - 1
      && (forall i | 0 <= i < |d.pushed| :: body[i] == Decoded(d.pushed[i]))
      && !Read(body, d.decodes - 1).Decoded?
      && (d.end == Clean <==> Read(body, d.decodes - 1) == EndOfStream)
  {
  }

  /** The body as the loop sees it when the subscription is cancelled and
      the decoder first reads the closed body at read k+1. Events already in
      the decoder's buffer when the body was closed fall before k. */
  function Cancel<E>(body: seq<Outcome<E>>, k: nat): seq<Outcome<E>>
  {
    body[..if k <= |body| then k else |body|] + [EndOfStream]
  }

  /** If the decoder first reaches the closed body at read k+1, exactly the
      first k events are delivered and the loop ends clean: cancellation is
      not reported as an error. Here k counts the events decoded before that
      read, buffered ones included, not those decoded when the signal came. */
  lemma DrainCancelled<E>(body: seq<Outcome<E>>, k: nat)
    requires k <= Stop(body)
    ensures Drain(Cancel(body, k)) == Drained(Drain(body).pushed[..k], k + 1, Clean)
  {
    var cut := Cancel(body, k);
    assert cut[k] == EndOfStream;
    assert Stop(cut) == k by {
      forall j | 0 <= j < k ensures cut[j].Decoded? { assert cut[j] == body[j]; }
    }
    var n := Stop(body);
    assert Payloads(cut[..k]) == Payloads(body[..n])[..k] by {
      forall j | 0 <= j < k ensures Payloads(cut[..k])[j] == Payloads(body[..n])[j] {
        assert cut[..k][j] == body[j] == body[..n][j];
      }
    }
  }

  /** Cutting the stream again, later, has no further effect: it ends where
      the first cut put it. The watcher receives one signal and closes the
      body at most once, so this is about the stream the reader sees. */
  lemma CancelIdempotent<E>(body: seq<Outcome<E>>, k: nat, later: nat)
    requires k <= later
    ensures Drain(Cancel(Cancel(body, k), later)) == Drain(Cancel(body, k))
  {
    var once := Cancel(body, k);
    var twice := Cancel(once, later);
    var m := if k <= |body| then k else |body|;
    assert |once| == m + 1 && once[m] == EndOfStream;
    var n := Stop(once);
    assert n <= m;
    assert twice[..n + 1] == once[..n + 1];
    assert Stop(twice) == n by {
      forall j | 0 <= j < n ensures twice[j].Decoded? { assert twice[j] == once[j]; }
      assert twice[n] == once[n];
    }
    assert twice[..n] == once[..n];
  }

  // ---------------------------------------------------------------------
  // Events

  /** Subscribes to the engine's events. `client` is what obtaining the
      client connection gave; the response to the events request is its body
      as a sequence of decode outcomes. The method reports the error it
      returns (`None` is nil), the request it issued, the events it pushed to
      the event channel, in order, and how many decodes it made. */
  method Events<E>(client: Result<Conn<seq<Outcome<E>>>>, since: Option<string>, until: Option<string>,
                   filters: Option<Filters>, encode: Filters -> Result<string>)
    returns (err: Option<Error>, issued: Option<Request>, pushed: seq<E>, decodes: nat)
    // no client: its error, and nothing else happens
    ensures client.Err? ==> err == Some(client.error) && issued == None && pushed == [] && decodes == 0
    // the filters fail to encode: the wrapped error, before any request
    ensures client.Ok? && filters.Some? && encode(filters.value).Err? ==>
              && err == Some(Wrapped(InvalidFiltersMsg, encode(filters.value).error))
              && issued == None && pushed == [] && decodes == 0
    // otherwise exactly one GET of /events with the query built from the arguments
    ensures issued.Some? <==> client.Ok? && !(filters.Some? && encode(filters.value).Err?)
    ensures issued.Some? ==>
              && issued.value.verb == Get && issued.value.path == "/events"
              && EventQuery(issued.value.params, since, until, filters, encode)
    // the request fails: its error, and no event is pushed
    ensures issued.Some? && client.value.doRequest(issued.value).Err? ==>
              err == Some(client.value.doRequest(issued.value).error) && pushed == [] && decodes == 0
    // the request succeeds: the decode loop over its body decides the rest
    ensures issued.Some? && client.value.doRequest(issued.value).Ok? ==>
              var d := Drain(client.value.doRequest(issued.value).value);
              && pushed == d.pushed && decodes == d.decodes
              && err == (if d.end.Broken? then Some(Wrapped(DecodeFailedMsg, d.end.cause)) else None)
  {
    err, issued, pushed, decodes := None, None, [], 0;
    if client.Err? {
      err := Some(client.error);
      return;
    }
    var conn := client.value;
    var params := EventParams(since, until, filters, encode);
    if params.Err? {
      err := Some(params.error);
      return;
    }
    var request := Request(Get, "/events", params.value);
    issued := Some(request);
    var response := conn.doRequest(request);
    if response.Err? {
      err := Some(response.error);
      return;
    }
    var end;
    pushed, decodes, end := DecodeLoop(response.value);
    if end.Broken? {
      err := Some(Wrapped(DecodeFailedMsg, end.cause));
    }
  }

  // ---------------------------------------------------------------------
  // Prune

  /** `strconv.FormatBool`. */
  function FormatBool(b: bool): string
  {
    if b then "true" else "false"
  }

  /** The query of the prune request: `All` and `Volumes` are present exactly
      when given, as "true" or "false" matching the value; no other key. */
  ghost predicate PruneQuery(p: Values, all: Option<bool>, volumes: Option<bool>)
  {
    && p.Keys <= {"All", "Volumes"}
    && ("All" in p <==> all.Some?)
    && (all.Some? ==> p["All"] == [if all.value then "true" else "false"])
    && ("Volumes" in p <==> volumes.Some?)
    && (volumes.Some? ==> p["Volumes"] == [if volumes.value then "true" else "false"])
  }

  /** Builds the prune query one `Set` at a time. */
  method PruneParams(all: Option<bool>, volumes: Option<bool>) returns (params: Values)
    ensures PruneQuery(params, all, volumes)
  {
    params := map[];
    if all.Some? {
      params := SetParam(params, "All", FormatBool(all.value));
    }
    if volumes.Some? {
      params := SetParam(params, "Volumes", FormatBool(volumes.value));
    }
  }

  /** The prune query properties determine the query; with neither option
      given it is empty, so the server applies its defaults. */
  lemma PruneQueryDetermined(p: Values, q: Values, all: Option<bool>, volumes: Option<bool>)
    requires PruneQuery(p, all, volumes)
    requires PruneQuery(q, all, volumes)
    ensures p == q
    ensures all.None? && volumes.None? ==> p == map[]
  {
  }

  /** What processing the prune response gives: the report as decoding left
      it, and the decoding error, if any. */
  datatype Processed<P> = Processed(report: P, error: Option<Error>)

  /** Removes unused system data. `client` is what obtaining the client
      connection gave; its answer to the prune request is the processed
      response. Returns the report (`None` is a nil pointer), the error and
      the request issued. */
  method Prune<P>(client: Result<Conn<Processed<P>>>, all: Option<bool>, volumes: Option<bool>)
    returns (report: Option<P>, err: Option<Error>, issued: Option<Request>)
    ensures client.Err? ==> report == None && err == Some(client.error) && issued == None
    ensures client.Ok? ==>
              && issued.Some? && issued.value.verb == Post && issued.value.path == "/system/prune"
              && PruneQuery(issued.value.params, all, volumes)
    ensures client.Ok? && client.value.doRequest(issued.value).Err? ==>
              report == None && err == Some(client.value.doRequest(issued.value).error)
    ensures client.Ok? && client.value.doRequest(issued.value).Ok? ==>
              var processed := client.value.doRequest(issued.value).value;
              report == Some(processed.report) && err == processed.error
  {
    if client.Err? {
      return None, Some(client.error), None;
    }
    var conn := client.value;
    var params := PruneParams(all, volumes);
    var request := Request(Post, "/system/prune", params);
    issued := Some(request);
    var response := conn.doRequest(request);
    if response.Err? {
      return None, Some(response.error), issued;
    }
    report, err := Some(response.value.report), response.value.error;
  }
}
