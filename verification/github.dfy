/**
 * What `fetch_from_github` does once the network has answered: the status
 * check, the GraphQL error check, and the walk down to the calendar's weeks,
 * flattened into one list of days. Building and sending the request is not
 * modelled; the answer arrives as an `HttpOutcome`.
 */
module GitHub {
  import opened Wrappers
  import Json
  import opened Contribution
  import Decimal

  /** The response body: parsed JSON, or the reason it could not be read as JSON. */
  datatype Body = Parsed(json: Json.Value) | Unparsable(detail: string)

  /** How the request ended: never answered, or answered with a status, the
      status's canonical reason phrase (when it has one) and a body. */
  datatype HttpOutcome =
    | SendFailed(detail: string)
    | Received(status: nat, canonicalReason: Option<string>, body: Body)

  /** `StatusCode::is_success`: the 2xx range. */
  predicate IsSuccess(status: nat) {
    200 <= status < 300
  }

  /** Every way the fetch can fail, in the order the code checks for them. */
  datatype FetchError =
    | Network(detail: string)
    | ApiStatus(status: nat, canonicalReason: Option<string>)
    | JsonParse(detail: string)
    | GraphQL(errors: Json.Value)
    | InvalidStructure

  /** The keys from the response root down to the calendar's weeks. */
  const WeeksPath: seq<string> :=
    ["data", "user", "contributionsCollection", "contributionCalendar", "weeks"]

  /** One day object: a date that is not a string becomes "", a count that is
      not a 64-bit integer becomes 0, and the count is cut to 32 bits. */
  function DecodeDay(v: Json.Value): Day {
    Day(Json.AsStr(Json.Index(v, "date")).GetOr(""),
        WrapI32(Json.AsI64(Json.Index(v, "contributionCount")).GetOr(0)))
  }

  function DecodeDays(items: seq<Json.Value>): seq<Day> {
    seq(|items|, i requires 0 <= i < |items| => DecodeDay(items[i]))
  }

  /** Decoding a run of day objects piece by piece gives the same days as
      decoding it whole, so pushing one day at a time builds the same list. */
  lemma DecodeDaysAppend(a: seq<Json.Value>, b: seq<Json.Value>)
    ensures DecodeDays(a + b) == DecodeDays(a) + DecodeDays(b)
  {
  }

  /** The days one week contributes: its `contributionDays` array decoded in
      order, or nothing when that field is not an array. */
  function WeekDays(week: Json.Value): seq<Day> {
    match Json.AsArray(Json.Index(week, "contributionDays"))
    case Some(items) => DecodeDays(items)
    case None => []
  }

  /** How many day entries a week holds (0 when its field is not an array). */
  function DayCount(week: Json.Value): nat {
    match Json.AsArray(Json.Index(week, "contributionDays"))
    case Some(items) => |items|
    case None => 0
  }

  function TotalDayCount(weeks: seq<Json.Value>): nat
    decreases |weeks|
  {
    if |weeks| == 0 then 0 else TotalDayCount(weeks[..|weeks| - 1]) + DayCount(weeks[|weeks| - 1])
  }

  /** Reference definition of the flattening: the weeks' days, week after week. */
  function Flatten(weeks: seq<Json.Value>): seq<Day>
    decreases |weeks|
  {
    if |weeks| == 0 then [] else Flatten(weeks[..|weeks| - 1]) + WeekDays(weeks[|weeks| - 1])
  }

  /** The two nested loops of `fetch_from_github`, pushing one day at a time. */
  method FlattenWeeks(weeks: seq<Json.Value>) returns (days: seq<Day>)
    ensures days == Flatten(weeks)
    ensures |days| == TotalDayCount(weeks)
  {
    days := [];
    var i := 0;
    while i < |weeks|
      invariant 0 <= i <= |weeks|
      invariant days == Flatten(weeks[..i])
    {
      var week := weeks[i];
      match Json.AsArray(Json.Index(week, "contributionDays")) {
        case Some(items) =>
          ghost var before := days;
          var j := 0;
          while j < |items|
            invariant 0 <= j <= |items|
            invariant days == before + DecodeDays(items[..j])
          {
            assert items[..j + 1] == items[..j] + [items[j]];
            DecodeDaysAppend(items[..j], [items[j]]);
            days := days + [DecodeDay(items[j])];
            j := j + 1;
          }
          assert items[..|items|] == items;
        case None =>
      }
      assert weeks[..i + 1][..i] == weeks[..i];
      i := i + 1;
    }
    assert weeks[..|weeks|] == weeks;
    FlattenLength(weeks);
  }

  /** Flattening two runs of weeks is flattening each and concatenating. */
  lemma {:induction false} FlattenAppend(a: seq<Json.Value>, b: seq<Json.Value>)
    ensures Flatten(a + b) == Flatten(a) + Flatten(b)
    decreases |b|
  {
    if |b| > 0 {
      var b' := b[..|b| - 1];
      assert (a + b)[..|a + b| - 1] == a + b';
      assert (a + b)[|a + b| - 1] == b[|b| - 1];
      FlattenAppend(a, b');
    } else {
      assert a + b == a;
    }
  }

  /** The output holds exactly as many days as the weeks' arrays together. */
  lemma {:induction false} FlattenLength(weeks: seq<Json.Value>)
    ensures |Flatten(weeks)| == TotalDayCount(weeks)
    decreases |weeks|
  {
    if |weeks| > 0 {
      FlattenLength(weeks[..|weeks| - 1]);
    }
  }

  /** Week `k`'s days sit, in their own order, right after the days of the
      weeks before it. */
  lemma FlattenWeekSlot(weeks: seq<Json.Value>, k: nat)
    requires k < |weeks|
    ensures var offset := TotalDayCount(weeks[..k]);
      offset + DayCount(weeks[k]) <= |Flatten(weeks)|
      && Flatten(weeks)[offset..offset + DayCount(weeks[k])] == WeekDays(weeks[k])
  {
    assert weeks == weeks[..k] + [weeks[k]] + weeks[k + 1..];
    FlattenAppend(weeks[..k] + [weeks[k]], weeks[k + 1..]);
    FlattenAppend(weeks[..k], [weeks[k]]);
    assert Flatten([weeks[k]]) == WeekDays(weeks[k]) by {
      assert [weeks[k]][..0] == [];
    }
    FlattenLength(weeks[..k]);
  }

  /** A week whose `contributionDays` is not an array adds nothing. */
  lemma NonArrayWeekSkipped(before: seq<Json.Value>, week: Json.Value, after: seq<Json.Value>)
    requires !Json.Index(week, "contributionDays").Arr?
    ensures Flatten(before + [week] + after) == Flatten(before + after)
  {
    assert Flatten([week]) == [] by {
      assert [week][..0] == [];
    }
    calc {
      Flatten(before + [week] + after);
      { FlattenAppend(before + [week], after); }
      Flatten(before + [week]) + Flatten(after);
      { FlattenAppend(before, [week]); }
      Flatten(before) + Flatten(after);
      { FlattenAppend(before, after); }
      Flatten(before + after);
    }
  }

  /** The post-response half of `fetch_from_github`. */
  function Decode(response: HttpOutcome): (r: Result<seq<Day>, FetchError>)
    // a failed send is reported before anything else
    ensures response.SendFailed? ==> r == Failure(Network(response.detail))
    // a non-2xx status is reported whatever the body holds
    ensures response.Received? && !IsSuccess(response.status) ==>
      r == Failure(ApiStatus(response.status, response.canonicalReason))
    // a 2xx answer whose body is not JSON is a parse error
    ensures response.Received? && IsSuccess(response.status) && response.body.Unparsable? ==>
      r == Failure(JsonParse(response.body.detail))
    // a top-level "errors" key wins over any "data" the body also carries
    ensures (response.Received? && IsSuccess(response.status) && response.body.Parsed?
             && Json.Get(response.body.json, "errors").Some?) ==>
      r == Failure(GraphQL(Json.Get(response.body.json, "errors").value))
    // success needs a 2xx status, a JSON body, no "errors" key and an array of weeks
    ensures r.Success? <==>
      && response.Received? && IsSuccess(response.status) && response.body.Parsed?
      && Json.Get(response.body.json, "errors").None?
      && Json.Lookup(response.body.json, WeeksPath).Arr?
    ensures r.Success? ==> r.value == Flatten(Json.Lookup(response.body.json, WeeksPath).items)
    ensures r == Failure(InvalidStructure) <==>
      && response.Received? && IsSuccess(response.status) && response.body.Parsed?
      && Json.Get(response.body.json, "errors").None?
      && !Json.Lookup(response.body.json, WeeksPath).Arr?
  {
    match response
    case SendFailed(detail) => Failure(Network(detail))
    case Received(status, reason, body) =>
      if !IsSuccess(status) then Failure(ApiStatus(status, reason))
      else match body
        case Unparsable(detail) => Failure(JsonParse(detail))
        case Parsed(json) =>
          match Json.Get(json, "errors")
          case Some(errors) => Failure(GraphQL(errors))
          case None =>
            match Json.AsArray(Json.Lookup(json, WeeksPath))
            case None => Failure(InvalidStructure)
            case Some(weeks) => Success(Flatten(weeks))
  }

  /** The error text of each failure, as `format!` writes it. A status is
      written as its number and canonical reason phrase; the JSON text of a
      GraphQL `errors` value is supplied by `render`. */
  function Message(e: FetchError, render: Json.Value -> string): string {
    match e
    case Network(detail) => "Network error: " + detail
    case ApiStatus(status, reason) =>
      "GitHub API error: " + Decimal.FromNat(status) + " " + reason.GetOr("<unknown status code>")
    case JsonParse(detail) => "JSON parse error: " + detail
    case GraphQL(errors) => "GraphQL error: " + render(errors)
    case InvalidStructure => "Invalid response structure"
  }

  /** `fetch_from_github` from the answer on: the days, or the error text. */
  function FetchFromGitHub(response: HttpOutcome, render: Json.Value -> string): (r: Result<seq<Day>, string>)
    ensures response.SendFailed? ==> r == Failure("Network error: " + response.detail)
    ensures response.Received? && !IsSuccess(response.status) ==>
      r == Failure("GitHub API error: " + Decimal.FromNat(response.status) + " "
                   + response.canonicalReason.GetOr("<unknown status code>"))
    ensures response.Received? && IsSuccess(response.status) && response.body.Unparsable? ==>
      r == Failure("JSON parse error: " + response.body.detail)
    ensures (response.Received? && IsSuccess(response.status) && response.body.Parsed?
             && Json.Get(response.body.json, "errors").Some?) ==>
      r == Failure("GraphQL error: " + render(Json.Get(response.body.json, "errors").value))
    ensures (response.Received? && IsSuccess(response.status) && response.body.Parsed?
             && Json.Get(response.body.json, "errors").None?) ==>
      match Json.AsArray(Json.Lookup(response.body.json, WeeksPath))
      case None => r == Failure("Invalid response structure")
      case Some(weeks) => r == Success(Flatten(weeks))
  {
    Decode(response).MapFailure(e => Message(e, render))
  }

  // ---------------------------------------------------------------------------
  // The response a well-behaved server sends, built from days: the partner of Decode.

  function EncodeDay(d: Day): Json.Value {
    Json.Obj(map["date" := Json.Str(d.date), "contributionCount" := Json.Int(d.contributionCount)])
  }

  function EncodeWeek(days: seq<Day>): Json.Value {
    Json.Obj(map["contributionDays" := Json.Arr(seq(|days|, i requires 0 <= i < |days| => EncodeDay(days[i])))])
  }

  function EncodeWeeks(weeks: seq<seq<Day>>): seq<Json.Value> {
    seq(|weeks|, k requires 0 <= k < |weeks| => EncodeWeek(weeks[k]))
  }

  /** A GraphQL answer carrying the calendar `weeks`, with no "errors" key. */
  function EncodeResponse(weeks: seq<seq<Day>>): Json.Value {
    Json.Obj(map["data" := Json.Obj(map["user" := Json.Obj(map["contributionsCollection" :=
      Json.Obj(map["contributionCalendar" := Json.Obj(map["weeks" := Json.Arr(EncodeWeeks(weeks))])])])])])
  }

  function Concat(weeks: seq<seq<Day>>): seq<Day>
    decreases |weeks|
  {
    if |weeks| == 0 then [] else Concat(weeks[..|weeks| - 1]) + weeks[|weeks| - 1]
  }

  lemma DecodeEncodeDay(d: Day)
    ensures DecodeDay(EncodeDay(d)) == d
  {
  }

  lemma DecodeEncodeWeek(days: seq<Day>)
    ensures WeekDays(EncodeWeek(days)) == days
  {
  }

  lemma EncodeWeeksPrefix(weeks: seq<seq<Day>>, n: nat)
    requires n <= |weeks|
    ensures EncodeWeeks(weeks)[..n] == EncodeWeeks(weeks[..n])
  {
    var encoded := EncodeWeeks(weeks);
    forall k | 0 <= k < n
      ensures encoded[..n][k] == EncodeWeeks(weeks[..n])[k]
    {
      assert weeks[..n][k] == weeks[k];
    }
  }

  lemma {:induction false} FlattenEncoded(weeks: seq<seq<Day>>)
    ensures Flatten(EncodeWeeks(weeks)) == Concat(weeks)
    decreases |weeks|
  {
    if |weeks| > 0 {
      var n := |weeks| - 1;
      var encoded := EncodeWeeks(weeks);
      assert Flatten(encoded) == Flatten(encoded[..n]) + WeekDays(encoded[n]);
      EncodeWeeksPrefix(weeks, n);
      FlattenEncoded(weeks[..n]);
      assert WeekDays(encoded[n]) == weeks[n] by {
        DecodeEncodeWeek(weeks[n]);
      }
    }
  }

  /** Decoding a 2xx answer built from some weeks of days gives back exactly
      those days, week after week, each date and count unchanged. */
  lemma DecodeEncodeRoundTrip(weeks: seq<seq<Day>>, status: nat, reason: Option<string>)
    requires IsSuccess(status)
    ensures Decode(Received(status, reason, Parsed(EncodeResponse(weeks)))) == Success(Concat(weeks))
  {
    var root := EncodeResponse(weeks);
    assert Json.Lookup(root, WeeksPath) == Json.Arr(EncodeWeeks(weeks));
    FlattenEncoded(weeks);
  }

  /** The defaulting rules for one day object. */
  lemma DayDefaults(v: Json.Value)
    ensures var date := Json.Index(v, "date");
      DecodeDay(v).date == (if date.Str? then date.s else "")
    ensures var count := Json.Index(v, "contributionCount");
      && (!count.Int? ==> DecodeDay(v).contributionCount == 0)
      && (count.Int? && !(Json.I64Min <= count.i < Json.I64Bound) ==> DecodeDay(v).contributionCount == 0)
      && (count.Int? && -TwoTo31 <= count.i < TwoTo31 ==> DecodeDay(v).contributionCount == count.i)
      && (count.Int? && Json.I64Min <= count.i < Json.I64Bound ==>
            (count.i - DecodeDay(v).contributionCount) % TwoTo32 == 0)
  {
  }

  /** A non-2xx answer is refused before its body is looked at. */
  lemma NonSuccessIgnoresBody(status: nat, reason: Option<string>, b1: Body, b2: Body)
    requires !IsSuccess(status)
    ensures Decode(Received(status, reason, b1)) == Decode(Received(status, reason, b2))
    ensures Decode(Received(status, reason, b1)).Failure?
  {
  }

  /** An "errors" key refuses the answer even when it is `null` and a valid
      calendar sits beside it. */
  lemma NullErrorsStillRefused(weeks: seq<seq<Day>>)
    ensures var body := Json.Obj(EncodeResponse(weeks).fields["errors" := Json.Null]);
      Decode(Received(200, Some("OK"), Parsed(body))) == Failure(GraphQL(Json.Null))
  {
  }

  /** One week holding one day decodes to that single day. */
  lemma SingleDayExample()
    ensures var day := Json.Obj(map["date" := Json.Str("2025-01-15"), "contributionCount" := Json.Int(5)]);
      var week := Json.Obj(map["contributionDays" := Json.Arr([day])]);
      var root := Json.Obj(map["data" := Json.Obj(map["user" := Json.Obj(map["contributionsCollection" :=
        Json.Obj(map["contributionCalendar" := Json.Obj(map["weeks" := Json.Arr([week])])])])])]);
      Decode(Received(200, Some("OK"), Parsed(root))) == Success([Day("2025-01-15", 5)])
  {
    var day := Json.Obj(map["date" := Json.Str("2025-01-15"), "contributionCount" := Json.Int(5)]);
    var week := Json.Obj(map["contributionDays" := Json.Arr([day])]);
    var root := Json.Obj(map["data" := Json.Obj(map["user" := Json.Obj(map["contributionsCollection" :=
      Json.Obj(map["contributionCalendar" := Json.Obj(map["weeks" := Json.Arr([week])])])])])]);
    assert Json.Lookup(root, WeeksPath) == Json.Arr([week]);
    assert DecodeDay(day) == Day("2025-01-15", 5);
    assert WeekDays(week) == [Day("2025-01-15", 5)];
    assert Flatten([week]) == WeekDays(week) by {
      assert [week][..0] == [];
    }
  }

  /** A 404 reads "GitHub API error: 404 Not Found". */
  lemma NotFoundMessage(render: Json.Value -> string)
    ensures Message(ApiStatus(404, Some("Not Found")), render) == "GitHub API error: 404 Not Found"
  {
  }

  /** Two different non-2xx statuses never produce the same error text,
      whatever their reason phrases: the status can be read back from it. */
  lemma ApiStatusTextsDistinct(s1: nat, r1: Option<string>, s2: nat, r2: Option<string>, render: Json.Value -> string)
    requires s1 != s2
    ensures Message(ApiStatus(s1, r1), render) != Message(ApiStatus(s2, r2), render)
  {
    var prefix := "GitHub API error: ";
    var d1, d2 := Decimal.FromNat(s1), Decimal.FromNat(s2);
    var m1 := prefix + d1 + " " + r1.GetOr("<unknown status code>");
    var m2 := prefix + d2 + " " + r2.GetOr("<unknown status code>");
    if m1 == m2 {
      if |d1| != |d2| {
        StatusTextLayout(prefix, d1, r1.GetOr("<unknown status code>"), m1);
        StatusTextLayout(prefix, d2, r2.GetOr("<unknown status code>"), m2);
      } else {
        assert d1 == m1[|prefix|..|prefix| + |d1|];
        assert d2 == m2[|prefix|..|prefix| + |d2|];
        Decimal.FromNatRoundTrip(s1);
        Decimal.FromNatRoundTrip(s2);
      }
    }
  }

  /** In a status text the digits follow the prefix and a space follows them. */
  lemma StatusTextLayout(prefix: string, digits: string, reason: string, m: string)
    requires Decimal.AllDigits(digits) && m == prefix + digits + " " + reason
    ensures m[|prefix| + |digits|] == ' '
    ensures forall i :: |prefix| <= i < |prefix| + |digits| ==> Decimal.IsDigit(m[i])
  {
    forall i | |prefix| <= i < |prefix| + |digits|
      ensures Decimal.IsDigit(m[i])
    {
      assert m[i] == digits[i - |prefix|];
    }
  }
}
