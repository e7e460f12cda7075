/** The capture pipeline of `MoesifCaptureOutgoing`: the process-wide state
    that `start_capture_outgoing` sets up, `send_moesif_event` (self-check,
    event assembly, the enrichment hooks, skip, mask, sampling, send and the
    configuration refresh), and the instrumented calls that hand each
    finished request to it and return the native result.

    The collection API, the configuration service and its rule engine, the
    random draw and the clock are not part of this model: they come in as
    a `Services` value, a function per collaborator and a value per draw. */
module Capture {

  import opened Wrappers
  import opened BodyCodec
  import opened Adapters
  import RawHeaders

  // ----- the event ---------------------------------------------------------

  /** `MoesifApi::EventModel`. The hook results are arbitrary Ruby values,
      carried here as JSON values. */
  datatype Event = Event(
    request: EventRequest, response: EventResponse, direction: string,
    metadata: Option<Json>, userId: Option<Json>, companyId: Option<Json>,
    sessionToken: Option<Json>, weight: Option<int>)

  const Outgoing: string := "Outgoing"

  /** The event before any hook ran. */
  function Assemble(req: EventRequest, resp: EventResponse): (e: Event)
    ensures e.request == req && e.response == resp && e.direction == Outgoing
    ensures e.metadata.None? && e.userId.None? && e.companyId.None? && e.sessionToken.None? && e.weight.None?
  {
    Event(req, resp, Outgoing, None, None, None, None, None)
  }

  // ----- the hooks ---------------------------------------------------------

  /** What calling a user proc does: return a value or raise. */
  datatype HookReply<T> = Returns(value: T) | Raises

  /** A proc called with `(base_request, base_response)`; `skip_outgoing`
      yields its truthiness. */
  type Hook<T> = (HookArgument, HookArgument) -> HookReply<T>

  datatype HookName = Metadata | User | Company | Session | Skip | Mask

  /** The position of each hook in `send_moesif_event`. */
  function Rank(h: HookName): nat {
    match h
    case Metadata => 0
    case User => 1
    case Company => 2
    case Session => 3
    case Skip => 4
    case Mask => 5
  }

  /** The hooks given in the options; `None` where the option is nil. */
  datatype Hooks = Hooks(
    metadata: Option<Hook<Json>>, user: Option<Hook<Json>>, company: Option<Hook<Json>>,
    session: Option<Hook<Json>>, skip: Option<Hook<bool>>, mask: Option<Event -> HookReply<Event>>)

  function EnrichmentHook(hooks: Hooks, h: HookName): Option<Hook<Json>>
    requires Rank(h) < 4
  {
    match h
    case Metadata => hooks.metadata
    case User => hooks.user
    case Company => hooks.company
    case Session => hooks.session
  }

  predicate Configured(hooks: Hooks, h: HookName) {
    match h
    case Skip => hooks.skip.Some?
    case Mask => hooks.mask.Some?
    case _ => EnrichmentHook(hooks, h).Some?
  }

  /** Hooks are called at most once each, in the order of `Rank`, and only
      when configured. */
  predicate CallsInOrder(hooks: Hooks, calls: seq<HookName>) {
    && (forall i, j :: 0 <= i < j < |calls| ==> Rank(calls[i]) < Rank(calls[j]))
    && (forall i :: 0 <= i < |calls| ==> Configured(hooks, calls[i]))
  }

  /** The enrichment hook with this name is configured and raises. */
  predicate Raising(hooks: Hooks, h: HookName, a: HookArgument, b: HookArgument)
    requires Rank(h) < 4
  {
    EnrichmentHook(hooks, h).Some? && EnrichmentHook(hooks, h).value(a, b).Raises?
  }

  /** The field an enrichment hook fills: its value when it is configured
      and returns, the earlier value otherwise. */
  function Applied(hook: Option<Hook<Json>>, a: HookArgument, b: HookArgument, prior: Option<Json>): Option<Json> {
    if hook.Some? && hook.value(a, b).Returns? then Some(hook.value(a, b).value) else prior
  }

  /** The enrichment hooks that are configured, in calling order. */
  function EnrichmentPlan(hooks: Hooks): seq<HookName> {
    (if hooks.metadata.Some? then [Metadata] else []) +
    (if hooks.user.Some? then [User] else []) +
    (if hooks.company.Some? then [Company] else []) +
    (if hooks.session.Some? then [Session] else [])
  }

  /** The event so far (or the hook that raised) and the hooks called. */
  datatype Run = Run(event: Result<Event, HookName>, calls: seq<HookName>)

  function SetField(e: Event, h: HookName, v: Json): Event {
    match h
    case Metadata => e.(metadata := Some(v))
    case User => e.(userId := Some(v))
    case Company => e.(companyId := Some(v))
    case _ => e.(sessionToken := Some(v))
  }

  /** One `if @hook ... event_model.field = @hook.call(base_request,
      base_response)` block. */
  function CallEnrichment(run: Run, h: HookName, hooks: Hooks, a: HookArgument, b: HookArgument): Run
    requires Rank(h) < 4
  {
    var hook := EnrichmentHook(hooks, h);
    if run.event.Err? || hook.None? then run
    else match hook.value(a, b)
      case Raises => Run(Err(h), run.calls + [h])
      case Returns(v) => Run(Ok(SetField(run.event.value, h, v)), run.calls + [h])
  }

  /** The four enrichment blocks, metadata, user, company and session. */
  function Enrich(e: Event, hooks: Hooks, a: HookArgument, b: HookArgument): Run {
    var r1 := CallEnrichment(Run(Ok(e), []), Metadata, hooks, a, b);
    var r2 := CallEnrichment(r1, User, hooks, a, b);
    var r3 := CallEnrichment(r2, Company, hooks, a, b);
    CallEnrichment(r3, Session, hooks, a, b)
  }

  /** Enrichment succeeds unless a configured hook raises; then every field
      holds its hook's result and nothing else changes. */
  lemma EnrichFields(e: Event, hooks: Hooks, a: HookArgument, b: HookArgument)
    ensures Enrich(e, hooks, a, b).event.Ok? <==>
      !Raising(hooks, Metadata, a, b) && !Raising(hooks, User, a, b) &&
      !Raising(hooks, Company, a, b) && !Raising(hooks, Session, a, b)
    ensures Enrich(e, hooks, a, b).event.Ok? ==>
      var r := Enrich(e, hooks, a, b).event.value;
      && r.request == e.request && r.response == e.response && r.direction == e.direction && r.weight == e.weight
      && r.metadata == Applied(hooks.metadata, a, b, e.metadata)
      && r.userId == Applied(hooks.user, a, b, e.userId)
      && r.companyId == Applied(hooks.company, a, b, e.companyId)
      && r.sessionToken == Applied(hooks.session, a, b, e.sessionToken)
  {
  }

  /** The first configured enrichment hook that raises stops the pipeline,
      and it is the last hook called. */
  lemma EnrichFailure(e: Event, hooks: Hooks, a: HookArgument, b: HookArgument)
    ensures Enrich(e, hooks, a, b).event.Err? ==>
      var h := Enrich(e, hooks, a, b).event.error;
      var calls := Enrich(e, hooks, a, b).calls;
      && Rank(h) < 4 && Raising(hooks, h, a, b)
      && (forall g :: Rank(g) < Rank(h) ==> !Raising(hooks, g, a, b))
      && calls != [] && calls[|calls| - 1] == h
  {
  }

  /** With no hook raising, exactly the configured enrichment hooks are
      called, in the fixed order. */
  lemma EnrichCalls(e: Event, hooks: Hooks, a: HookArgument, b: HookArgument)
    ensures CallsInOrder(hooks, Enrich(e, hooks, a, b).calls)
    ensures forall i :: 0 <= i < |Enrich(e, hooks, a, b).calls| ==> Rank(Enrich(e, hooks, a, b).calls[i]) < Rank(Skip)
    ensures Enrich(e, hooks, a, b).event.Ok? ==> Enrich(e, hooks, a, b).calls == EnrichmentPlan(hooks)
  {
    EnrichCallsOrdered(e, hooks, a, b);
    EnrichCallsPlanned(e, hooks, a, b);
  }

  /** The enrichment hooks are called in their fixed order, before any
      screening hook. */
  lemma EnrichCallsOrdered(e: Event, hooks: Hooks, a: HookArgument, b: HookArgument)
    ensures CallsInOrder(hooks, Enrich(e, hooks, a, b).calls)
    ensures forall i :: 0 <= i < |Enrich(e, hooks, a, b).calls| ==> Rank(Enrich(e, hooks, a, b).calls[i]) < Rank(Skip)
  {
    var r0 := Run(Ok(e), []);
    var r1 := CallEnrichment(r0, Metadata, hooks, a, b);
    var r2 := CallEnrichment(r1, User, hooks, a, b);
    var r3 := CallEnrichment(r2, Company, hooks, a, b);
    var r4 := CallEnrichment(r3, Session, hooks, a, b);
    CallEnrichmentStep(r0, Metadata, User, hooks, a, b);
    CallEnrichmentStep(r1, User, Company, hooks, a, b);
    CallEnrichmentStep(r2, Company, Session, hooks, a, b);
    CallEnrichmentStep(r3, Session, Skip, hooks, a, b);
    assert Enrich(e, hooks, a, b) == r4;
  }

  /** With no hook raising, exactly the configured enrichment hooks are
      called. */
  lemma EnrichCallsPlanned(e: Event, hooks: Hooks, a: HookArgument, b: HookArgument)
    ensures Enrich(e, hooks, a, b).event.Ok? ==> Enrich(e, hooks, a, b).calls == EnrichmentPlan(hooks)
  {
    var r0 := Run(Ok(e), []);
    var r1 := CallEnrichment(r0, Metadata, hooks, a, b);
    var r2 := CallEnrichment(r1, User, hooks, a, b);
    var r3 := CallEnrichment(r2, Company, hooks, a, b);
    var r4 := CallEnrichment(r3, Session, hooks, a, b);
    assert Enrich(e, hooks, a, b) == r4;
    if r4.event.Ok? {
      var m := if hooks.metadata.Some? then [Metadata] else [];
      var u := if hooks.user.Some? then [User] else [];
      var c := if hooks.company.Some? then [Company] else [];
      var s := if hooks.session.Some? then [Session] else [];
      assert r3.event.Ok? && r4.calls == r3.calls + s;
      assert r2.event.Ok? && r3.calls == r2.calls + c;
      assert r1.event.Ok? && r2.calls == r1.calls + u;
      assert r1.calls == m;
      assert r4.calls == m + u + c + s;
    }
  }

  /** Hooks called in order, all of them before `h`. */
  predicate CalledBefore(hooks: Hooks, calls: seq<HookName>, h: HookName) {
    CallsInOrder(hooks, calls) && forall i :: 0 <= i < |calls| ==> Rank(calls[i]) < Rank(h)
  }

  /** One enrichment block keeps the calls in order, and calls nothing
      later than `h`. */
  lemma CallEnrichmentStep(run: Run, h: HookName, next: HookName, hooks: Hooks, a: HookArgument, b: HookArgument)
    requires Rank(h) < 4 && Rank(h) < Rank(next)
    requires CalledBefore(hooks, run.calls, h)
    ensures CalledBefore(hooks, CallEnrichment(run, h, hooks, a, b).calls, next)
  {
    if run.event.Ok? && EnrichmentHook(hooks, h).Some? {
      InOrderExtend(hooks, run.calls, h);
    }
  }

  /** Appending a configured hook ranked after every call so far keeps the
      calls in order. */
  lemma InOrderExtend(hooks: Hooks, calls: seq<HookName>, h: HookName)
    requires CallsInOrder(hooks, calls)
    requires forall i :: 0 <= i < |calls| ==> Rank(calls[i]) < Rank(h)
    requires Configured(hooks, h)
    ensures CallsInOrder(hooks, calls + [h])
    ensures forall i :: 0 <= i < |calls| + 1 ==> Rank((calls + [h])[i]) <= Rank(h)
  {
  }

  // ----- sampling and the configuration ------------------------------------

  /** What `AppConfig#get_config` followed by `#parse_configuration` yields:
      a configuration with its etag and download time, nil, or an error. */
  datatype FetchReply = Fetched(config: Json, etag: Option<string>, downloadTime: int) | NoConfig | FetchFailed

  /** What `create_event` does: returns the response's config etag, raises
      `MoesifApi::APIException` with a status code, or raises otherwise. */
  datatype SendReply = Accepted(etag: Option<string>) | ApiError(code: int) | OtherError

  /** The collaborators one capture needs. `sampling` is
      `get_sampling_percentage(event, config, user_id, company_id)` (the
      ids are fields of the event), `None` when it raises; `weigh` is
      `calculate_weight`, `None` when it raises; `draw` is
      `Random.rand(0.00..100.00)`; `now` is the clock in seconds. */
  datatype Services = Services(
    sampling: (Event, Option<Json>) -> Option<real>,
    weigh: real -> Option<int>,
    send: Event -> SendReply,
    fetch: FetchReply,
    draw: real,
    now: int)

  /** The fixed interval the refresh check adds to the start-up time. */
  const RefreshInterval: int := 300

  /** The percentage used for sampling: the computed one, 100 on failure. */
  function Percentage(computed: Option<real>): (p: real)
    ensures computed.None? ==> p == 100.0
    ensures computed.Some? ==> p == computed.value
  {
    if computed.Some? then computed.value else 100.0
  }

  /** The refresh condition of `send_moesif_event`. */
  predicate RefreshDue(responseEtag: Option<string>, currentEtag: Option<string>, now: int, lastUpdated: int) {
    responseEtag.Some? && currentEtag.Some? && currentEtag != responseEtag && now > lastUpdated + RefreshInterval
  }

  /** A 401, 402 or 403 from the collection API is the one error that is
      reported as an authorisation problem. */
  predicate Unauthorised(reply: SendReply) {
    reply.ApiError? && 401 <= reply.code <= 403
  }

  // ----- one capture -------------------------------------------------------

  datatype Failure = ModelFailed(cause: AdapterError) | HookFailed(hook: HookName)

  /** How `send_moesif_event` ends. `Raised` is an exception that escapes
      it; the others carry the event after enrichment and, from sampling
      on, after masking. */
  datatype Outcome =
    | SelfEvent
    | Raised(failure: Failure)
    | Skipped(enriched: Event)
    | SampledOut(enriched: Event, masked: Event)
    | Sent(enriched: Event, masked: Event, sent: Event, refreshAttempted: bool)
    | SendFailed(enriched: Event, masked: Event, warned: bool)

  /** The outcome got past the skip decision to sampling. */
  predicate Sampled(o: Outcome) {
    o.SampledOut? || o.Sent? || o.SendFailed?
  }

  /** The outcome got past enrichment. */
  predicate Enriched(o: Outcome) {
    o.Skipped? || Sampled(o)
  }

  /** What `start_capture_outgoing` reads from its options hash. */
  datatype Options = Options(
    applicationId: Option<string>,
    /** `None` when the key is absent, else the value's truthiness. */
    logBodyOutgoing: Option<bool>,
    hooks: Hooks)

  /** The fields of the state one capture may change. */
  datatype Snapshot = Snapshot(
    config: Option<Json>, configEtag: Option<string>, lastConfigDownloadTime: Option<int>,
    samplingPercentage: real, randomPercentage: Option<real>)

  /** What sampling and sending do, from the state `before` to the state
      `after`, for an outcome that reached sampling:
      - the draw is kept, and the percentage is the computed one or 100;
      - the event is sampled out exactly when the percentage does not exceed
        the draw, and it is sent exactly when the percentage exceeds the
        draw, the weight is computed and the API accepts the weighted event;
      - a sent event carries the weight of that percentage;
      - a refresh is attempted exactly when `RefreshDue`, and the
        configuration, its etag and its download time change only through a
        refresh that fetched one, all three at once;
      - a failed send warns exactly on 401 to 403. */
  predicate Delivered(lastUpdated: int, services: Services, before: Snapshot, after: Snapshot, outcome: Outcome)
    requires Sampled(outcome)
  {
    && after.randomPercentage == Some(services.draw)
    && after.samplingPercentage == Percentage(services.sampling(outcome.masked, before.config))
    && (outcome.SampledOut? <==> !(after.samplingPercentage > services.draw))
    && (outcome.Sent? <==>
          && after.samplingPercentage > services.draw
          && services.weigh(after.samplingPercentage).Some?
          && services.send(outcome.masked.(weight := Some(services.weigh(after.samplingPercentage).value))).Accepted?)
    && (outcome.Sent? ==>
          && services.weigh(after.samplingPercentage).Some?
          && outcome.sent == outcome.masked.(weight := Some(services.weigh(after.samplingPercentage).value))
          && services.send(outcome.sent).Accepted?
          && (outcome.refreshAttempted <==>
                RefreshDue(services.send(outcome.sent).etag, before.configEtag, services.now, lastUpdated)))
    && (outcome.SendFailed? ==>
          (outcome.warned <==>
             services.weigh(after.samplingPercentage).Some? &&
             Unauthorised(services.send(outcome.masked.(weight := Some(services.weigh(after.samplingPercentage).value))))))
    && (if outcome.Sent? && outcome.refreshAttempted && services.fetch.Fetched? then
          && after.config == Some(services.fetch.config) && after.configEtag == services.fetch.etag
          && after.lastConfigDownloadTime == Some(services.fetch.downloadTime)
        else
          after.config == before.config && after.configEtag == before.configEtag
          && after.lastConfigDownloadTime == before.lastConfigDownloadTime)
  }

  /** The skip and mask hooks that are configured, in calling order. */
  function ScreeningPlan(hooks: Hooks): seq<HookName> {
    (if hooks.skip.Some? then [Skip] else []) + (if hooks.mask.Some? then [Mask] else [])
  }

  /** The skip block lets the capture go on: there is no skip hook, or it
      returned a falsy value. */
  predicate SkipPasses(hooks: Hooks, a: HookArgument, b: HookArgument) {
    hooks.skip.None? || hooks.skip.value(a, b) == Returns(false)
  }

  /** The skip and mask hooks a capture actually calls: skip when it is
      configured, mask when it is configured and skip let the capture go
      on. */
  function ScreeningCalls(hooks: Hooks, a: HookArgument, b: HookArgument): (tail: seq<HookName>)
    ensures tail <= ScreeningPlan(hooks)
    ensures Skip in tail <==> hooks.skip.Some?
    ensures Mask in tail <==> hooks.mask.Some? && SkipPasses(hooks, a, b)
  {
    (if hooks.skip.Some? then [Skip] else []) + (if SkipPasses(hooks, a, b) && hooks.mask.Some? then [Mask] else [])
  }

  /** What the skip block, the mask block and delivery do with the enriched
      event, from the state `before` to the state `after`; `tail` is the
      hooks they called:
      - the skip hook raising ends the capture with its exception, and
        returning true ends it quietly;
      - otherwise the mask hook raising ends the capture with its exception;
      - otherwise the capture reaches sampling with the mask's result (or the
        enriched event without a mask) and is `Delivered`;
      - nothing else raises, and a capture that stops before sampling
        changes nothing. */
  predicate Screened(hooks: Hooks, lastUpdated: int, enriched: Event, a: HookArgument, b: HookArgument,
                     services: Services, before: Snapshot, after: Snapshot, outcome: Outcome, tail: seq<HookName>)
  {
    && tail == ScreeningCalls(hooks, a, b)
    && !outcome.SelfEvent?
    && (outcome.Raised? ==> outcome.failure == HookFailed(Skip) || outcome.failure == HookFailed(Mask))
    && (outcome == Raised(HookFailed(Skip)) <==> hooks.skip.Some? && hooks.skip.value(a, b).Raises?)
    && (outcome.Skipped? <==> hooks.skip.Some? && hooks.skip.value(a, b) == Returns(true))
    && (outcome == Raised(HookFailed(Mask)) <==>
          SkipPasses(hooks, a, b) && hooks.mask.Some? && hooks.mask.value(enriched).Raises?)
    && (Sampled(outcome) <==> SkipPasses(hooks, a, b) && (hooks.mask.None? || hooks.mask.value(enriched).Returns?))
    && (Enriched(outcome) ==> outcome.enriched == enriched)
    && (Sampled(outcome) ==>
          && (if hooks.mask.Some? then hooks.mask.value(outcome.enriched) == Returns(outcome.masked)
              else outcome.masked == outcome.enriched)
          && Delivered(lastUpdated, services, before, after, outcome))
    && (!Sampled(outcome) ==> after == before)
  }

  /** Skip and mask come after every enrichment hook, so the calls stay in
      order. */
  lemma ScreeningInOrder(hooks: Hooks, calls: seq<HookName>, tail: seq<HookName>)
    requires CallsInOrder(hooks, calls)
    requires forall i :: 0 <= i < |calls| ==> Rank(calls[i]) < Rank(Skip)
    requires tail <= ScreeningPlan(hooks)
    ensures CallsInOrder(hooks, calls + tail)
  {
    var all := calls + tail;
    forall i | |calls| <= i < |all| ensures Configured(hooks, all[i]) && Rank(Skip) <= Rank(all[i]) {
      assert all[i] == ScreeningPlan(hooks)[i - |calls|];
    }
    forall i, j | |calls| <= i < j < |all| ensures Rank(all[i]) < Rank(all[j]) {
      assert all[i] == ScreeningPlan(hooks)[i - |calls|];
      assert all[j] == ScreeningPlan(hooks)[j - |calls|];
    }
  }

  /** What `send_moesif_event` does once the request and response models are
      built, from the state `before` to the state `after`: hooks are called
      in order and only when configured; the enrichment hooks run on the
      assembled models as `Enrich` says; a raising enrichment hook ends the
      capture with its exception, after the hooks called so far, and changes
      nothing; otherwise the enriched event is `Screened`, and the hooks
      called are the enrichment hooks followed by the screening ones. */
  predicate Processed(hooks: Hooks, lastUpdated: int, request: EventRequest, response: EventResponse,
                      a: HookArgument, b: HookArgument, services: Services,
                      before: Snapshot, after: Snapshot, outcome: Outcome, calls: seq<HookName>)
  {
    var e := Enrich(Assemble(request, response), hooks, a, b);
    && CallsInOrder(hooks, calls)
    && match e.event
       case Err(h) => outcome == Raised(HookFailed(h)) && calls == e.calls && after == before
       case Ok(enriched) =>
         && calls == e.calls + ScreeningCalls(hooks, a, b)
         && Screened(hooks, lastUpdated, enriched, a, b, services, before, after, outcome, ScreeningCalls(hooks, a, b))
  }

  /** `@last_updated_time` is never moved, so a refresh does not restart
      the interval: after a capture whose send attempted a refresh, the
      next capture that is sent, at the same clock reading or later, again
      attempts one whenever the reply's etag differs from the one then
      held. */
  lemma RefreshIntervalNotRestarted(lastUpdated: int, first: Services, second: Services,
                                    before: Snapshot, mid: Snapshot, after: Snapshot, o1: Outcome, o2: Outcome)
    requires Sampled(o1) && Delivered(lastUpdated, first, before, mid, o1)
    requires o1.Sent? && o1.refreshAttempted
    requires Sampled(o2) && Delivered(lastUpdated, second, mid, after, o2)
    requires o2.Sent? && second.now >= first.now
    requires mid.configEtag.Some? && second.send(o2.sent).etag.Some?
    requires second.send(o2.sent).etag != mid.configEtag
    ensures o2.refreshAttempted
  {
    assert first.now > lastUpdated + RefreshInterval;
  }

  /** Where one stage of a capture ends: how, the hooks it called, and the
      state it leaves. */
  datatype Step = Step(outcome: Outcome, calls: seq<HookName>, after: Snapshot)

  /** Reference definition of sampling and sending, from the state `before`:
      draw, percentage, weight, `create_event`, the refresh and the rescue
      clauses. */
  function DeliverStep(lastUpdated: int, services: Services, before: Snapshot, enriched: Event, masked: Event): (r: Step)
    ensures Sampled(r.outcome) && r.calls == []
  {
    var drawn := before.(randomPercentage := Some(services.draw),
                         samplingPercentage := Percentage(services.sampling(masked, before.config)));
    var p := drawn.samplingPercentage;
    if !(p > services.draw) then Step(SampledOut(enriched, masked), [], drawn)
    else match services.weigh(p)
      case None => Step(SendFailed(enriched, masked, false), [], drawn)
      case Some(w) =>
        var sent := masked.(weight := Some(w));
        match services.send(sent)
        case Accepted(etag) =>
          var due := RefreshDue(etag, before.configEtag, services.now, lastUpdated);
          var after :=
            if due && services.fetch.Fetched? then
              drawn.(config := Some(services.fetch.config), configEtag := services.fetch.etag,
                     lastConfigDownloadTime := Some(services.fetch.downloadTime))
            else drawn;
          Step(Sent(enriched, masked, sent, due), [], after)
        case ApiError(code) => Step(SendFailed(enriched, masked, 401 <= code <= 403), [], drawn)
        case OtherError => Step(SendFailed(enriched, masked, false), [], drawn)
  }

  /** Reference definition of the skip block, the mask block and delivery. */
  function ScreenStep(hooks: Hooks, lastUpdated: int, enriched: Event, a: HookArgument, b: HookArgument,
                      services: Services, before: Snapshot): (r: Step)
    ensures !r.outcome.SelfEvent? && (r.outcome.Raised? ==> r.outcome.failure.HookFailed?)
  {
    var skipCalls := if hooks.skip.Some? then [Skip] else [];
    if hooks.skip.Some? && hooks.skip.value(a, b).Raises? then Step(Raised(HookFailed(Skip)), skipCalls, before)
    else if hooks.skip.Some? && hooks.skip.value(a, b) == Returns(true) then Step(Skipped(enriched), skipCalls, before)
    else if hooks.mask.None? then
      var d := DeliverStep(lastUpdated, services, before, enriched, enriched);
      Step(d.outcome, skipCalls, d.after)
    else match hooks.mask.value(enriched)
      case Raises => Step(Raised(HookFailed(Mask)), skipCalls + [Mask], before)
      case Returns(masked) =>
        var d := DeliverStep(lastUpdated, services, before, enriched, masked);
        Step(d.outcome, skipCalls + [Mask], d.after)
  }

  /** Reference definition of `send_moesif_event` once the models are built:
      the enrichment hooks, then the screening stage. */
  function ProcessStep(hooks: Hooks, lastUpdated: int, request: EventRequest, response: EventResponse,
                       a: HookArgument, b: HookArgument, services: Services, before: Snapshot): (r: Step)
    ensures !r.outcome.SelfEvent? && (r.outcome.Raised? ==> r.outcome.failure.HookFailed?)
  {
    var e := Enrich(Assemble(request, response), hooks, a, b);
    match e.event
    case Err(h) => Step(Raised(HookFailed(h)), e.calls, before)
    case Ok(enriched) =>
      var s := ScreenStep(hooks, lastUpdated, enriched, a, b, services, before);
      Step(s.outcome, e.calls + s.calls, s.after)
  }

  /** The reference delivery meets `Delivered`. */
  lemma DeliverStepDelivered(lastUpdated: int, services: Services, before: Snapshot, enriched: Event, masked: Event)
    ensures var d := DeliverStep(lastUpdated, services, before, enriched, masked);
      && Sampled(d.outcome) && d.outcome.enriched == enriched && d.outcome.masked == masked && d.calls == []
      && Delivered(lastUpdated, services, before, d.after, d.outcome)
  {
  }

  /** `Delivered` leaves no choice: for the same events, it fixes the
      outcome and the new state. */
  lemma DeliveredUnique(lastUpdated: int, services: Services, before: Snapshot,
                        after1: Snapshot, o1: Outcome, after2: Snapshot, o2: Outcome)
    requires Sampled(o1) && Sampled(o2) && o1.enriched == o2.enriched && o1.masked == o2.masked
    requires Delivered(lastUpdated, services, before, after1, o1)
    requires Delivered(lastUpdated, services, before, after2, o2)
    ensures o1 == o2 && after1 == after2
  {
  }

  /** The reference screening stage meets `Screened`. */
  lemma ScreenStepScreened(hooks: Hooks, lastUpdated: int, enriched: Event, a: HookArgument, b: HookArgument,
                           services: Services, before: Snapshot)
    ensures var s := ScreenStep(hooks, lastUpdated, enriched, a, b, services, before);
      Screened(hooks, lastUpdated, enriched, a, b, services, before, s.after, s.outcome, s.calls)
  {
    var skipCalls := if hooks.skip.Some? then [Skip] else [];
    if !SkipPasses(hooks, a, b) {
      var reply := hooks.skip.value(a, b);
      assert reply.Raises? || reply == Returns(true) by {
        if reply.Returns? { assert reply.value != false; }
      }
      assert ScreeningCalls(hooks, a, b) == skipCalls + [];
    } else if hooks.mask.None? {
      assert ScreeningCalls(hooks, a, b) == skipCalls + [];
      DeliverStepDelivered(lastUpdated, services, before, enriched, enriched);
    } else {
      assert ScreeningCalls(hooks, a, b) == skipCalls + [Mask];
      if hooks.mask.value(enriched).Returns? {
        DeliverStepDelivered(lastUpdated, services, before, enriched, hooks.mask.value(enriched).value);
      }
    }
  }

  /** `Screened` leaves no choice either. */
  lemma ScreenedUnique(hooks: Hooks, lastUpdated: int, enriched: Event, a: HookArgument, b: HookArgument,
                       services: Services, before: Snapshot,
                       after1: Snapshot, o1: Outcome, tail1: seq<HookName>,
                       after2: Snapshot, o2: Outcome, tail2: seq<HookName>)
    requires Screened(hooks, lastUpdated, enriched, a, b, services, before, after1, o1, tail1)
    requires Screened(hooks, lastUpdated, enriched, a, b, services, before, after2, o2, tail2)
    ensures o1 == o2 && tail1 == tail2 && after1 == after2
  {
    if Sampled(o1) {
      DeliveredUnique(lastUpdated, services, before, after1, o1, after2, o2);
    }
  }

  /** The reference capture meets `Processed`. */
  lemma ProcessStepProcessed(hooks: Hooks, lastUpdated: int, request: EventRequest, response: EventResponse,
                             a: HookArgument, b: HookArgument, services: Services, before: Snapshot)
    ensures var p := ProcessStep(hooks, lastUpdated, request, response, a, b, services, before);
      Processed(hooks, lastUpdated, request, response, a, b, services, before, p.after, p.outcome, p.calls)
  {
    var e := Enrich(Assemble(request, response), hooks, a, b);
    EnrichCalls(Assemble(request, response), hooks, a, b);
    if e.event.Ok? {
      ScreenStepScreened(hooks, lastUpdated, e.event.value, a, b, services, before);
      ScreeningInOrder(hooks, e.calls, ScreeningCalls(hooks, a, b));
    }
  }

  /** `Processed` fixes the outcome, the hooks called and the new state. */
  lemma ProcessedUnique(hooks: Hooks, lastUpdated: int, request: EventRequest, response: EventResponse,
                        a: HookArgument, b: HookArgument, services: Services, before: Snapshot,
                        after1: Snapshot, o1: Outcome, calls1: seq<HookName>,
                        after2: Snapshot, o2: Outcome, calls2: seq<HookName>)
    requires Processed(hooks, lastUpdated, request, response, a, b, services, before, after1, o1, calls1)
    requires Processed(hooks, lastUpdated, request, response, a, b, services, before, after2, o2, calls2)
    ensures o1 == o2 && calls1 == calls2 && after1 == after2
  {
    var e := Enrich(Assemble(request, response), hooks, a, b);
    if e.event.Ok? {
      var t := ScreeningCalls(hooks, a, b);
      ScreenedUnique(hooks, lastUpdated, e.event.value, a, b, services, before, after1, o1, t, after2, o2, t);
    }
  }

  datatype StartError = ApplicationIdRequired

  /** The module-level state of `MoesifCaptureOutgoing`. */
  class CaptureState {
    const applicationId: string
    const logBody: bool
    const hooks: Hooks
    /** `@last_updated_time`: set at start-up and never assigned again. */
    const lastUpdatedTime: int

    var config: Option<Json>
    var configEtag: Option<string>
    var lastConfigDownloadTime: Option<int>
    var samplingPercentage: real
    var randomPercentage: Option<real>

    /** The configuration, its etag and its download time are assigned
        together, so a config is present exactly when its download time
        is, and an etag never stands without a config. */
    ghost predicate Valid()
      reads this
    {
      && (config.Some? <==> lastConfigDownloadTime.Some?)
      && (configEtag.Some? ==> config.Some?)
      && (randomPercentage.Some? ==> 0.0 <= randomPercentage.value <= 100.0)
    }

    constructor Init(applicationId: string, logBody: bool, hooks: Hooks, now: int)
      ensures Valid()
      ensures this.applicationId == applicationId && this.logBody == logBody && this.hooks == hooks
      ensures this.lastUpdatedTime == now
      ensures config.None? && configEtag.None? && lastConfigDownloadTime.None?
      ensures samplingPercentage == 100.0 && randomPercentage.None?
    {
      this.applicationId := applicationId;
      this.logBody := logBody;
      this.hooks := hooks;
      lastUpdatedTime := now;
      config := None;
      configEtag := None;
      lastConfigDownloadTime := None;
      samplingPercentage := 100.0;
      randomPercentage := None;
    }

    /** `start_capture_outgoing(options)`: fails without an application id;
        otherwise `log_body_outgoing` defaults to true, the percentage
        starts at 100, the etag at nil, the clock reading is kept, and the
        initial fetch installs a configuration only when it yields one. */
    static method Start(options: Options, now: int, initial: FetchReply) returns (r: Result<CaptureState, StartError>)
      ensures r.Err? <==> options.applicationId.None?
      ensures r.Ok? ==>
        && fresh(r.value) && r.value.Valid()
        && r.value.applicationId == options.applicationId.value
        && r.value.logBody == (options.logBodyOutgoing.None? || options.logBodyOutgoing.value)
        && r.value.hooks == options.hooks
        && r.value.samplingPercentage == 100.0 && r.value.randomPercentage.None?
        && r.value.lastUpdatedTime == now
      ensures r.Ok? && initial.Fetched? ==>
        && r.value.config == Some(initial.config) && r.value.configEtag == initial.etag
        && r.value.lastConfigDownloadTime == Some(initial.downloadTime)
      ensures r.Ok? && !initial.Fetched? ==>
        r.value.config.None? && r.value.configEtag.None? && r.value.lastConfigDownloadTime.None?
    {
      if options.applicationId.None? {
        return Err(ApplicationIdRequired);
      }
      var logBody := match options.logBodyOutgoing case None => true case Some(v) => v;
      var state := new CaptureState.Init(options.applicationId.value, logBody, options.hooks, now);
      if initial.Fetched? {
        state.config := Some(initial.config);
        state.configEtag := initial.etag;
        state.lastConfigDownloadTime := Some(initial.downloadTime);
      }
      r := Ok(state);
    }

    function Snap(): Snapshot
      reads this
    {
      Snapshot(config, configEtag, lastConfigDownloadTime, samplingPercentage, randomPercentage)
    }

    /** `send_moesif_event(adapter)`. `calls` lists the hooks called, in
        order. Self traffic builds, calls and sends nothing; a response
        model that raises ends the capture before any hook; otherwise the
        capture goes on as `ProcessStep` says, which `ProcessStepProcessed`
        shows is `Processed`. */
    method SendMoesifEvent(adapter: Adapter, services: Services) returns (outcome: Outcome, calls: seq<HookName>)
      requires Valid() && adapter.Valid()
      requires 0.0 <= services.draw <= 100.0
      modifies this, adapter.request.memo, adapter.response.memo, adapter.response`codeMemo
      ensures Valid() && adapter.Valid()
      ensures adapter.IsMoesifEvent() <==> outcome == SelfEvent
      ensures adapter.IsMoesifEvent() ==>
        calls == [] && unchanged(this) && unchanged(adapter.request.memo, adapter.response.memo, adapter.response)
      ensures !adapter.IsMoesifEvent() && adapter.response.Model(logBody).Err? ==>
        outcome == Raised(ModelFailed(adapter.response.Model(logBody).error)) && calls == [] && Snap() == old(Snap())
      ensures !adapter.IsMoesifEvent() && adapter.response.Model(logBody).Ok? ==>
        Step(outcome, calls, Snap()) ==
          ProcessStep(hooks, lastUpdatedTime, adapter.request.Model(logBody), adapter.response.Model(logBody).value,
                      adapter.baseRequest, adapter.baseResponse, services, old(Snap()))
    {
      calls := [];
      if adapter.IsMoesifEvent() {
        return SelfEvent, calls;
      }
      var requestModel, responseModel := adapter.EventModels(logBody);
      if responseModel.Err? {
        return Raised(ModelFailed(responseModel.error)), calls;
      }
      outcome, calls := Process(requestModel, responseModel.value, adapter.baseRequest, adapter.baseResponse, services);
    }

    /** The part of `send_moesif_event` after the models are built: the
        enrichment hooks, skip, mask, then `Deliver`. */
    method Process(request: EventRequest, response: EventResponse, a: HookArgument, b: HookArgument, services: Services)
      returns (outcome: Outcome, calls: seq<HookName>)
      requires Valid() && 0.0 <= services.draw <= 100.0
      modifies this
      ensures Valid()
      ensures Step(outcome, calls, Snap()) ==
        ProcessStep(hooks, lastUpdatedTime, request, response, a, b, services, old(Snap()))
    {
      var run := Enrich(Assemble(request, response), hooks, a, b);
      if run.event.Err? {
        return Raised(HookFailed(run.event.error)), run.calls;
      }
      var tail;
      outcome, tail := Screen(run.event.value, a, b, services);
      calls := run.calls + tail;
    }

    /** The skip block, the mask block, then `Deliver`. */
    method Screen(enriched: Event, a: HookArgument, b: HookArgument, services: Services)
      returns (outcome: Outcome, tail: seq<HookName>)
      requires Valid() && 0.0 <= services.draw <= 100.0
      modifies this
      ensures Valid()
      ensures Step(outcome, tail, Snap()) == ScreenStep(hooks, lastUpdatedTime, enriched, a, b, services, old(Snap()))
    {
      tail := [];
      if hooks.skip.Some? {
        tail := [Skip];
        match hooks.skip.value(a, b) {
          case Raises =>
            return Raised(HookFailed(Skip)), tail;
          case Returns(shouldSkip) =>
            if shouldSkip {
              return Skipped(enriched), tail;
            }
        }
      }
      var masked := enriched;
      if hooks.mask.Some? {
        tail := tail + [Mask];
        match hooks.mask.value(enriched) {
          case Raises =>
            return Raised(HookFailed(Mask)), tail;
          case Returns(replacement) =>
            masked := replacement;
        }
      }
      outcome := Deliver(enriched, masked, services);
    }

    /** From the random draw on: sampling, weight, `create_event`, the
        refresh check and the rescue clauses. */
    method Deliver(enriched: Event, masked: Event, services: Services) returns (outcome: Outcome)
      requires Valid() && 0.0 <= services.draw <= 100.0
      modifies this
      ensures Valid()
      ensures Step(outcome, [], Snap()) == DeliverStep(lastUpdatedTime, services, old(Snap()), enriched, masked)
    {
      randomPercentage := Some(services.draw);
      samplingPercentage := Percentage(services.sampling(masked, config));
      if !(samplingPercentage > services.draw) {
        return SampledOut(enriched, masked);
      }
      var weight := services.weigh(samplingPercentage);
      if weight.None? {
        return SendFailed(enriched, masked, false);
      }
      var sent := masked.(weight := Some(weight.value));
      var reply := services.send(sent);
      match reply {
        case Accepted(etag) =>
          var due := RefreshDue(etag, configEtag, services.now, lastUpdatedTime);
          if due && services.fetch.Fetched? {
            config := Some(services.fetch.config);
            configEtag := services.fetch.etag;
            lastConfigDownloadTime := Some(services.fetch.downloadTime);
          }
          outcome := Sent(enriched, masked, sent, due);
        case ApiError(code) =>
          outcome := SendFailed(enriched, masked, 401 <= code <= 403);
        case OtherError =>
          outcome := SendFailed(enriched, masked, false);
      }
    }
  }

  // ----- the instrumented calls --------------------------------------------

  /** What an instrumented call returns: the native result, unless an
      exception escaped the capture. */
  datatype CallResult<T> = Returned(value: T) | CaptureRaised(failure: Failure)

  /** The wrapped `Curl::Easy#http_post` (and `#perform`): the native call
      has completed with `result`; the adapter is built with the verb of
      the entry point, then captured exactly as `SendMoesifEvent` does, and
      the native result is returned unless the capture raised. */
  method CurbCall<T>(state: CaptureState, curl: CurlHandle, entry: CurbEntry, result: T,
                     requestTime: string, responseTime: string,
                     parse: string -> Option<Json>, encode64: string -> string, services: Services)
    returns (r: CallResult<T>, adapter: Adapter, outcome: Outcome, calls: seq<HookName>)
    requires state.Valid() && 0.0 <= services.draw <= 100.0
    modifies state
    ensures state.Valid() && fresh(adapter) && adapter.Valid()
    ensures adapter.FromCurl(curl, CurbVerb(entry), requestTime, responseTime, parse, encode64)
    ensures r == if outcome.Raised? then CaptureRaised(outcome.failure) else Returned(result)
    ensures outcome == SelfEvent <==> IsMoesifUrl(curl.url)
    ensures IsMoesifUrl(curl.url) ==> calls == [] && unchanged(state)
    ensures outcome.Raised? && outcome.failure.ModelFailed? <==>
      !IsMoesifUrl(curl.url) && RawHeaders.ResponseHeaders(curl.headerStr).Err?
    ensures !IsMoesifUrl(curl.url) && adapter.response.Model(state.logBody).Err? ==>
      && outcome == Raised(ModelFailed(adapter.response.Model(state.logBody).error))
      && calls == [] && state.Snap() == old(state.Snap())
    ensures !IsMoesifUrl(curl.url) && adapter.response.Model(state.logBody).Ok? ==>
      Step(outcome, calls, state.Snap()) ==
        ProcessStep(state.hooks, state.lastUpdatedTime, adapter.request.Model(state.logBody),
                    adapter.response.Model(state.logBody).value,
                    CurbRequestArgument(curl, CurbVerb(entry), requestTime), CurbResponseArgument(curl, responseTime),
                    services, old(state.Snap()))
  {
    adapter := new Adapter.Curb(curl, CurbVerb(entry), requestTime, responseTime, parse, encode64);
    outcome, calls := state.SendMoesifEvent(adapter, services);
    r := if outcome.Raised? then CaptureRaised(outcome.failure) else Returned(result);
  }

  /** The replaced `Net::HTTP#request`: the native response is returned
      unless the capture raised; only when the connection is `started?` is
      an adapter built, with the https URL of the address and path, and
      captured exactly as `SendMoesifEvent` does. */
  method NetHttpCall(state: CaptureState, started: bool, address: string, req: NetHttpRequest,
                     resp: NetHttpResponse, table: seq<(int, string)>,
                     requestTime: string, responseTime: string,
                     parse: string -> Option<Json>, encode64: string -> string, services: Services)
    returns (r: CallResult<NetHttpResponse>, adapter: Option<Adapter>, outcome: Option<Outcome>,
             calls: seq<HookName>)
    requires state.Valid() && 0.0 <= services.draw <= 100.0
    modifies state
    ensures state.Valid()
    ensures adapter.Some? <==> started
    ensures outcome.Some? <==> started
    ensures !started ==> r == Returned(resp) && calls == [] && unchanged(state)
    ensures started ==>
      && fresh(adapter.value) && adapter.value.Valid()
      && adapter.value.FromNetHttp(CapturedUrl(address, req.path), req, resp, table, requestTime, responseTime,
                                   parse, encode64)
    ensures outcome.Some? ==>
      r == if outcome.value.Raised? then CaptureRaised(outcome.value.failure) else Returned(resp)
    ensures outcome.Some? ==> (outcome.value == SelfEvent <==> IsMoesifUrl(CapturedUrl(address, req.path)))
    ensures started && IsMoesifUrl(CapturedUrl(address, req.path)) ==> calls == [] && unchanged(state)
    ensures outcome.Some? ==> (outcome.value.Raised? && outcome.value.failure.ModelFailed? <==>
      !IsMoesifUrl(CapturedUrl(address, req.path)) && NetHttpStatus(resp.code, table).Err?)
    ensures started && !IsMoesifUrl(CapturedUrl(address, req.path))
            && adapter.value.response.Model(state.logBody).Err? ==>
      && outcome.value == Raised(ModelFailed(adapter.value.response.Model(state.logBody).error))
      && calls == [] && state.Snap() == old(state.Snap())
    ensures started && !IsMoesifUrl(CapturedUrl(address, req.path))
            && adapter.value.response.Model(state.logBody).Ok? ==>
      Step(outcome.value, calls, state.Snap()) ==
        ProcessStep(state.hooks, state.lastUpdatedTime, adapter.value.request.Model(state.logBody),
                    adapter.value.response.Model(state.logBody).value,
                    NetHttpRequestArgument(req), NetHttpResponseArgument(resp), services, old(state.Snap()))
  {
    if !started {
      return Returned(resp), None, None, [];
    }
    var url := CapturedUrl(address, req.path);
    var a := new Adapter.NetHttp(url, req, resp, table, requestTime, responseTime, parse, encode64);
    var o;
    o, calls := state.SendMoesifEvent(a, services);
    adapter, outcome := Some(a), Some(o);
    r := if o.Raised? then CaptureRaised(o.failure) else Returned(resp);
  }
}
