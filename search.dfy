/**
 * The `/search-food` endpoint: the credential gate, the one outbound call, and
 * the mapping of how that call ended to the reply the caller receives.
 *
 * The two provider secrets are passed in as a `Credentials` value instead of
 * being read from the environment, and the provider is a `Provider` object
 * whose `Get` records each request, so that the model can say which requests
 * were sent.
 */
module Search {
  import opened Wrappers
  import opened Edamam
  import opened Normalize

  /** The application id and key, each possibly unset. */
  datatype Credentials = Credentials(appId: Option<string>, appKey: Option<string>)

  /** Both secrets are set and non-empty: `not id or not key` holds exactly when one is unset or `""`. */
  predicate Configured(c: Credentials)
    ensures !Configured(c) <==> (c.appId == None || c.appId == Some("") || c.appKey == None || c.appKey == Some(""))
  {
    c.appId.Some? && c.appId.value != "" && c.appKey.Some? && c.appKey.value != ""
  }

  /** The one request the endpoint sends for `query`. */
  function RequestFor(c: Credentials, query: string): (r: Request)
    requires Configured(c)
    ensures r.appId == c.appId.value && r.appKey == c.appKey.value && r.ingr == query
    ensures r.nutritionType == "cooking" && r.timeout == 10.0
    ensures r.url == "https://api.edamam.com/api/food-database/v2/parser"
  {
    Request(BaseUrl, c.appId.value, c.appKey.value, query, NutritionType, TimeoutSeconds)
  }

  /** How a search ended, before it is turned into a reply. */
  datatype Outcome =
    | Misconfigured
    | UpstreamStatus(code: int, body: string)
    | TransportFailure(reason: string)
    | Other(reason: string)
    | Ok(items: seq<FoodItem>)

  /** What the caller receives: a JSON array of items with status 200, or an error with a status and a detail. */
  datatype Reply = Items(items: seq<FoodItem>) | HttpError(status: int, detail: string) {
    function Status(): int {
      if Items? then 200 else status
    }
  }

  const CredentialsMessage: string :=
    "Edamam API credentials not configured. Please set EDAMAM_APP_ID and EDAMAM_APP_KEY environment variables."
  const UpstreamPrefix: string := "Edamam API error: "
  const TransportPrefix: string := "Failed to connect to Edamam API: "
  const InternalPrefix: string := "Internal server error: "

  /** The status code of each outcome. */
  function StatusCode(o: Outcome): (code: int)
    ensures o.UpstreamStatus? ==> code == o.code
    ensures o.TransportFailure? ==> code == 503
    ensures o.Misconfigured? || o.Other? ==> code == 500
    ensures o.Ok? ==> code == 200
  {
    match o
    case Misconfigured => 500
    case UpstreamStatus(code, _) => code
    case TransportFailure(_) => 503
    case Other(_) => 500
    case Ok(_) => 200
  }

  /** The reply for an outcome: its status is `StatusCode(o)`, and only success carries items. */
  function Respond(o: Outcome): (r: Reply)
    ensures r.Status() == StatusCode(o)
    ensures r.Items? <==> o.Ok?
    ensures o.Ok? ==> r.items == o.items
    ensures o.UpstreamStatus? ==> r.HttpError? && |UpstreamPrefix| <= |r.detail| && r.detail[|UpstreamPrefix|..] == o.body
  {
    match o
    case Misconfigured => HttpError(500, CredentialsMessage)
    case UpstreamStatus(code, text) => HttpError(code, UpstreamPrefix + text)
    case TransportFailure(reason) => HttpError(503, TransportPrefix + reason)
    case Other(reason) => HttpError(500, InternalPrefix + reason)
    case Ok(items) => Items(items)
  }

  /**
   * How an outbound call is classified: a reply outside 200..299 is passed
   * through, a transport error is "unavailable", a success whose body decodes is
   * normalised (and a raise during normalisation is an internal failure), and
   * everything else is an internal failure.
   */
  function Classify(x: Exchange, round1: real -> real): (o: Outcome)
    ensures o.UpstreamStatus? <==> (x.Replied? && !IsSuccess(x.status))
    ensures o.UpstreamStatus? ==> o.code == x.status && o.body == x.text
    ensures o.TransportFailure? <==> x.RequestError?
    ensures o.Ok? <==> (x.Replied? && IsSuccess(x.status) && x.body.Parsed? && Normalized(x.body.payload, round1).Success?)
    ensures (x.Replied? && IsSuccess(x.status) && x.body.Parsed? && Normalized(x.body.payload, round1).Success?)
              ==> o == Ok(Normalized(x.body.payload, round1).value)
    ensures (x.Replied? && IsSuccess(x.status) && x.body.Parsed? && Normalized(x.body.payload, round1).Failure?)
              ==> o == Other(Normalized(x.body.payload, round1).error)
    ensures (x.Replied? && IsSuccess(x.status) && x.body.Malformed?) ==> o == Other(x.body.reason)
    ensures x.Failed? ==> o == Other(x.reason)
    ensures !o.Misconfigured?
  {
    match x
    case Replied(status, text, body) =>
      if !IsSuccess(status) then UpstreamStatus(status, text)
      else (
        match body
        case Malformed(reason) => Other(reason)
        case Parsed(p) => (
          match Normalized(p, round1)
          case Success(items) => Ok(items)
          case Failure(error) => Other(error)))
    case RequestError(reason) => TransportFailure(reason)
    case Failed(reason) => Other(reason)
  }

  /**
   * The endpoint. Without credentials it answers 500 and makes no call;
   * otherwise it makes exactly one call through the provider (there are no
   * retries) and answers with the classification of how that call ended.
   */
  method SearchFood(creds: Credentials, query: string, provider: Provider, round1: real -> real)
    returns (reply: Reply)
    requires |query| >= 1
    modifies provider
    ensures !Configured(creds) ==> provider.calls == old(provider.calls) && reply == HttpError(500, CredentialsMessage)
    ensures Configured(creds) ==> provider.calls == old(provider.calls) + [RequestFor(creds, query)]
    ensures Configured(creds) ==> reply == Respond(Classify(provider.respond(RequestFor(creds, query)), round1))
    ensures reply.Items? ==> |reply.items| <= MaxResults && forall k :: 0 <= k < |reply.items| ==> reply.items[k].name != ""
  {
    if !Configured(creds) {
      return Respond(Misconfigured);
    }
    var exchange := provider.Get(RequestFor(creds, query));
    match exchange {
      case Replied(status, text, body) =>
        if !IsSuccess(status) {
          reply := Respond(UpstreamStatus(status, text));
        } else {
          match body {
            case Malformed(reason) =>
              reply := Respond(Other(reason));
            case Parsed(p) =>
              var normalized := NormalizeHints(p, round1);
              match normalized {
                case Success(items) =>
                  reply := Respond(Ok(items));
                case Failure(error) =>
                  reply := Respond(Other(error));
              }
          }
        }
      case RequestError(reason) =>
        reply := Respond(TransportFailure(reason));
      case Failed(reason) =>
        reply := Respond(Other(reason));
    }
  }

  // ---------------------------------------------------------------------------
  // Properties of the classification

  /** A rejected call is reported with the provider's own status and its body in the detail. */
  lemma UpstreamStatusPassedThrough(status: int, text: string, body: Body, round1: real -> real)
    requires !IsSuccess(status)
    ensures Respond(Classify(Replied(status, text, body), round1)) == HttpError(status, UpstreamPrefix + text)
  {
  }

  /** A transport failure is always 503; any other failure, an undecodable success body included, is always 500. */
  lemma FailureStatuses(transport: string, failure: string, status: int, text: string, reason: string, round1: real -> real)
    requires IsSuccess(status)
    ensures Respond(Classify(RequestError(transport), round1)).Status() == 503
    ensures Respond(Classify(Failed(failure), round1)).Status() == 500
    ensures Respond(Classify(Replied(status, text, Malformed(reason)), round1)).Status() == 500
  {
  }

  /**
   * The three error kinds never give the same reply. Their status codes differ,
   * except that a provider status of 503 or 500 coincides with that of a
   * transport or an internal failure; the detail still tells them apart.
   */
  lemma ErrorKindsDistinct(code: int, text: string, transport: string, failure: string)
    ensures Respond(UpstreamStatus(code, text)) != Respond(TransportFailure(transport))
    ensures Respond(UpstreamStatus(code, text)) != Respond(Other(failure))
    ensures Respond(TransportFailure(transport)) != Respond(Other(failure))
    ensures StatusCode(UpstreamStatus(code, text)) == StatusCode(TransportFailure(transport)) <==> code == 503
    ensures StatusCode(UpstreamStatus(code, text)) == StatusCode(Other(failure)) <==> code == 500
  {
    assert (UpstreamPrefix + text)[0] == 'E';
    assert (TransportPrefix + transport)[0] == 'F';
    assert (InternalPrefix + failure)[0] == 'I';
  }

  /**
   * No hints, a falsy `hints` value, or hints whose first twenty are all
   * unlabeled and read cleanly, is a success with the empty list, not an error.
   */
  lemma EmptyResultIsSuccess(status: int, text: string, hints: Field<seq<Hint>>, round1: real -> real)
    requires IsSuccess(status)
    requires !(hints.Invalid? && hints.truthy)
    requires hints.Value? ==> forall i :: 0 <= i < |First(hints.v)| ==> !Labeled(hints.v[i]) && HintError(hints.v[i]).None?
    ensures Respond(Classify(Replied(status, text, Parsed(Payload(hints))), round1)) == Items([])
  {
    if hints.Value? {
      var hs := hints.v;
      assert forall i :: 0 <= i < |First(hs)| ==> First(hs)[i] == hs[i];
      NormalizedFailure(hs, round1);
      CollectCount(First(hs), round1);
      NoLabeledCountsZero(First(hs));
    }
  }

  /**
   * A hint among the first twenty, after hints that all read cleanly, whose
   * label is a non-empty string but whose calories are not a number makes the
   * whole reply an internal failure.
   */
  lemma BrokenLabeledHintFails(status: int, text: string, hs: seq<Hint>, i: nat, error: string, round1: real -> real)
    requires IsSuccess(status)
    requires i < |hs| && i < MaxResults
    requires forall j :: 0 <= j < i ==> HintError(hs[j]).None?
    requires hs[i].Hint? && hs[i].food.Value? && hs[i].food.v.nutrients.Value?
    requires Labeled(hs[i]) && EnergyCode in hs[i].food.v.nutrients.v
    requires hs[i].food.v.nutrients.v[EnergyCode] == NotANumber(error)
    ensures Respond(Classify(Replied(status, text, Parsed(Payload(Value(hs)))), round1)) == HttpError(500, InternalPrefix + error)
  {
  }

  /**
   * One labeled hint with no food id and all four nutrients: one item with an
   * empty id, the label as its name and each nutrient rounded.
   */
  lemma RiceScenario(round1: real -> real)
    ensures var nutrients := map[EnergyCode := Amount(130.4), ProteinCode := Amount(2.69),
                                 CarbsCode := Amount(28.17), FatCode := Amount(0.28)];
            var hint := Hint(Value(Food(Missing, Value("Rice, white"), Value(nutrients))));
            Respond(Classify(Replied(200, "", Parsed(Payload(Value([hint])))), round1))
            == Items([FoodItem("", "Rice, white", round1(130.4), round1(2.69), round1(28.17), round1(0.28))])
  {
  }
}
