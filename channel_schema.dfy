// Validation of the bodies of the channel create and update requests: a name of
// bounded length, a channel type and an access mode from fixed sets, a rate limit
// within bounds, and the defaults filled in for fields the client leaves out.
// Errors are collected for every field, in field order, as the validator does.

module ChannelSchema {
  import opened Text

  const ChannelTypes: set<string> := {"feishu", "slack", "discord", "web_widget"}
  const AccessModes: set<string> := {"open", "allowlist", "blocklist"}

  const MinNameLength: nat := 1
  const MaxNameLength: nat := 255
  const MinRateLimit: int := 1
  const MaxRateLimit: int := 100

  const DefaultAccessMode: string := "allowlist"
  const DefaultRateLimit: int := 10

  /** The adapter-specific configuration, a JSON object. */
  type Config = map<string, string>

  /** One validation error, naming the field it is about. */
  datatype FieldError =
    | Missing(field: string)
    | TooShort(field: string)
    | TooLong(field: string)
    | NotAllowed(field: string, value: string)
    | BelowMinimum(field: string, given: int)
    | AboveMaximum(field: string, given: int)

  /** A create request's body as sent; None is a field left out. */
  datatype CreateInput = CreateInput(
    name: Option<string>, channelType: Option<string>, agentId: Option<string>,
    config: Option<Config>, accessMode: Option<string>, allowedSenders: Option<seq<string>>,
    rateLimit: Option<int>, enableSkills: Option<bool>, enableMcp: Option<bool>)

  /** A validated create request, with every default filled in. */
  datatype CreateRequest = CreateRequest(
    name: string, channelType: string, agentId: string, config: Config, accessMode: string,
    allowedSenders: seq<string>, rateLimit: int, enableSkills: bool, enableMcp: bool)

  /** An update request's body; None is a field left out or sent as null. */
  datatype UpdateRequest = UpdateRequest(
    name: Option<string>, config: Option<Config>, agentId: Option<string>,
    accessMode: Option<string>, allowedSenders: Option<seq<string>>,
    blockedSenders: Option<seq<string>>, rateLimit: Option<int>,
    enableSkills: Option<bool>, enableMcp: Option<bool>)

  // ---------------------------------------------------------------- per-field checks

  /** A required string of length MinNameLength to MaxNameLength. */
  function NameErrors(field: string, v: Option<string>): (errs: seq<FieldError>)
    ensures errs == [] <==> v.Some? && MinNameLength <= |v.value| <= MaxNameLength
    ensures |errs| <= 1
  {
    match v
    case None => [Missing(field)]
    case Some(s) =>
      if |s| < MinNameLength then [TooShort(field)]
      else if |s| > MaxNameLength then [TooLong(field)]
      else []
  }

  /** A value that must be present. */
  function RequiredErrors<T>(field: string, v: Option<T>): (errs: seq<FieldError>)
    ensures errs == [] <==> v.Some?
  {
    if v.None? then [Missing(field)] else []
  }

  /** A value from a fixed set, required or not. */
  function ChoiceErrors(field: string, v: Option<string>, allowed: set<string>, required: bool): (errs: seq<FieldError>)
    ensures errs == [] <==> (if v.Some? then v.value in allowed else !required)
    ensures |errs| <= 1
  {
    match v
    case None => if required then [Missing(field)] else []
    case Some(s) => if s in allowed then [] else [NotAllowed(field, s)]
  }

  /** An optional rate limit within MinRateLimit to MaxRateLimit. */
  function RateLimitErrors(field: string, v: Option<int>): (errs: seq<FieldError>)
    ensures errs == [] <==> (v.Some? ==> MinRateLimit <= v.value <= MaxRateLimit)
    ensures |errs| <= 1
  {
    match v
    case None => []
    case Some(n) =>
      if n < MinRateLimit then [BelowMinimum(field, n)]
      else if n > MaxRateLimit then [AboveMaximum(field, n)]
      else []
  }

  function Or<T>(v: Option<T>, default: T): T
  {
    if v.Some? then v.value else default
  }

  // ---------------------------------------------------------------- create

  /** What a create request must satisfy, field by field. */
  predicate CreateAcceptable(input: CreateInput)
  {
    && input.name.Some? && 1 <= |input.name.value| <= 255
    && input.channelType.Some? && input.channelType.value in {"feishu", "slack", "discord", "web_widget"}
    && input.agentId.Some?
    && (input.accessMode.Some? ==> input.accessMode.value in {"open", "allowlist", "blocklist"})
    && (input.rateLimit.Some? ==> 1 <= input.rateLimit.value <= 100)
  }

  /** The bounds every validated create request meets. */
  predicate WellFormed(req: CreateRequest)
  {
    && 1 <= |req.name| <= 255
    && req.channelType in {"feishu", "slack", "discord", "web_widget"}
    && req.accessMode in {"open", "allowlist", "blocklist"}
    && 1 <= req.rateLimit <= 100
  }

  /** The errors of a create request, in field order. */
  function CreateErrors(input: CreateInput): (errs: seq<FieldError>)
    ensures errs == [] <==> CreateAcceptable(input)
  {
    NameErrors("name", input.name)
    + ChoiceErrors("channel_type", input.channelType, ChannelTypes, true)
    + RequiredErrors("agent_id", input.agentId)
    + ChoiceErrors("access_mode", input.accessMode, AccessModes, false)
    + RateLimitErrors("rate_limit_per_minute", input.rateLimit)
  }

  /** ChannelCreateRequest: the request with its defaults (an empty configuration, allowlist
      mode, no allowed senders, ten messages a minute, skills and MCP off), or every error. */
  function ValidateCreate(input: CreateInput): (r: Result<CreateRequest, seq<FieldError>>)
    ensures r.Ok? <==> CreateAcceptable(input)
    ensures r.Err? ==> r.error != []
    ensures r.Ok? ==> WellFormed(r.value)
    ensures r.Ok? ==> && r.value.name == input.name.value
                      && r.value.channelType == input.channelType.value
                      && r.value.agentId == input.agentId.value
    ensures r.Ok? ==> && r.value.accessMode == (if input.accessMode.Some? then input.accessMode.value else "allowlist")
                      && r.value.rateLimit == (if input.rateLimit.Some? then input.rateLimit.value else 10)
                      && r.value.config == (if input.config.Some? then input.config.value else map[])
                      && r.value.allowedSenders == (if input.allowedSenders.Some? then input.allowedSenders.value else [])
                      && r.value.enableSkills == (input.enableSkills == Some(true))
                      && r.value.enableMcp == (input.enableMcp == Some(true))
  {
    var errs := CreateErrors(input);
    if errs != [] then Err(errs)
    else
      Ok(CreateRequest(input.name.value, input.channelType.value, input.agentId.value,
                       Or(input.config, map[]), Or(input.accessMode, DefaultAccessMode),
                       Or(input.allowedSenders, []), Or(input.rateLimit, DefaultRateLimit),
                       Or(input.enableSkills, false), Or(input.enableMcp, false)))
  }

  /** The body that sends every field of a request explicitly. */
  function Explicit(req: CreateRequest): CreateInput
  {
    CreateInput(Some(req.name), Some(req.channelType), Some(req.agentId), Some(req.config),
                Some(req.accessMode), Some(req.allowedSenders), Some(req.rateLimit),
                Some(req.enableSkills), Some(req.enableMcp))
  }

  /** Sending a well-formed request with every field given validates to that same request. */
  lemma ExplicitRoundTrip(req: CreateRequest)
    requires WellFormed(req)
    ensures ValidateCreate(Explicit(req)) == Ok(req)
  {
  }

  /** A body with only the three required fields gets every default. */
  lemma MinimalCreateGetsDefaults(name: string, channelType: string, agentId: string)
    requires 1 <= |name| <= 255 && channelType in ChannelTypes
    ensures ValidateCreate(CreateInput(Some(name), Some(channelType), Some(agentId),
                                       None, None, None, None, None, None))
            == Ok(CreateRequest(name, channelType, agentId, map[], "allowlist", [], 10, false, false))
  {
  }

  /** A body with every field wrong or missing reports one error per field, in field order. */
  lemma ErrorsInFieldOrder(name: string, channelType: string, accessMode: string, rateLimit: int)
    requires |name| > 255 && channelType !in ChannelTypes && accessMode !in AccessModes && rateLimit > 100
    ensures ValidateCreate(CreateInput(Some(name), Some(channelType), None, None, Some(accessMode),
                                       None, Some(rateLimit), None, None))
            == Err([TooLong("name"), NotAllowed("channel_type", channelType), Missing("agent_id"),
                    NotAllowed("access_mode", accessMode), AboveMaximum("rate_limit_per_minute", rateLimit)])
  {
    var input := CreateInput(Some(name), Some(channelType), None, None, Some(accessMode),
                             None, Some(rateLimit), None, None);
    assert CreateErrors(input)
           == [TooLong("name")] + [NotAllowed("channel_type", channelType)] + [Missing("agent_id")]
              + [NotAllowed("access_mode", accessMode)] + [AboveMaximum("rate_limit_per_minute", rateLimit)]
           == [TooLong("name"), NotAllowed("channel_type", channelType), Missing("agent_id"),
               NotAllowed("access_mode", accessMode), AboveMaximum("rate_limit_per_minute", rateLimit)];
    assert !CreateAcceptable(input);
  }

  // ---------------------------------------------------------------- update

  /** What an update request must satisfy: only the access mode and rate limit are checked,
      and only when given. */
  predicate UpdateAcceptable(input: UpdateRequest)
  {
    && (input.accessMode.Some? ==> input.accessMode.value in {"open", "allowlist", "blocklist"})
    && (input.rateLimit.Some? ==> 1 <= input.rateLimit.value <= 100)
  }

  /** ChannelUpdateRequest: the request unchanged, or the errors of its checked fields. */
  function ValidateUpdate(input: UpdateRequest): (r: Result<UpdateRequest, seq<FieldError>>)
    ensures r.Ok? <==> UpdateAcceptable(input)
    ensures r.Ok? ==> r.value == input
    ensures r.Err? ==> r.error != []
  {
    var errs := ChoiceErrors("access_mode", input.accessMode, AccessModes, false)
                + RateLimitErrors("rate_limit_per_minute", input.rateLimit);
    if errs != [] then Err(errs) else Ok(input)
  }

  /** An update that changes nothing is valid. */
  lemma EmptyUpdateIsValid()
    ensures ValidateUpdate(UpdateRequest(None, None, None, None, None, None, None, None, None)).Ok?
  {
  }

  /** An update accepts a rate limit exactly when a create request would. */
  lemma UpdateRateBoundsMatchCreate(input: CreateInput, rate: int)
    requires CreateAcceptable(input)
    ensures ValidateUpdate(UpdateRequest(None, None, None, None, None, None, Some(rate), None, None)).Ok?
            <==> ValidateCreate(input.(rateLimit := Some(rate))).Ok?
  {
  }

  /** The update's name carries no length bound, so an empty name passes validation. */
  lemma UpdateNameIsUnbounded(input: UpdateRequest)
    requires UpdateAcceptable(input)
    ensures ValidateUpdate(input.(name := Some(""))).Ok?
  {
  }
}
