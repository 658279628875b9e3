/** The distance-matrix client: request arguments are merged with defaults and
    list-valued ones are joined with commas; the decoded response is turned
    into the list of usable routes or into one error message. */
module DistanceApi {
  import opened Values
  import opened Strings
  import opened OrderedMap

  // ---------------------------------------------------------------------
  // Request arguments
  // ---------------------------------------------------------------------

  /** A request argument: text, or a list of texts. */
  datatype ArgValue = Scalar(text: string) | List(items: seq<string>)

  const DefaultLat := "-6.17477373803497"
  const DefaultLng := "106.82717425767213"
  const TestLat := "-6.181472315327319"
  const TestLng := "106.8170462364319"

  /** The default arguments; a validation request goes from the default
      coordinates to the test coordinates. */
  function DefaultArgs(isValidation: bool, locale: string): seq<(string, ArgValue)> {
    [("origins", if isValidation then List([DefaultLat, DefaultLng]) else Scalar("")),
     ("destinations", if isValidation then List([TestLat, TestLng]) else Scalar("")),
     ("key", Scalar("")),
     ("avoid", Scalar("")),
     ("language", Scalar(locale)),
     ("units", Scalar("metric")),
     ("mode", Scalar("driving"))]
  }

  /** wp_parse_args: every given argument overrides the default of the same
      key in place, or is appended. */
  function ParseArgs(args: seq<(string, ArgValue)>, defaults: seq<(string, ArgValue)>): seq<(string, ArgValue)>
    decreases |args|
  {
    if args == [] then defaults
    else ParseArgs(args[1..], Put(defaults, args[0].0, args[0].1))
  }

  function Flat(v: ArgValue): ArgValue {
    match v
    case Scalar(_) => v
    case List(items) => Scalar(Join(items, ","))
  }

  /** The flattening loop: every list-valued argument becomes its items
      joined with ",", in place. */
  method FlattenArgs(args: seq<(string, ArgValue)>) returns (r: seq<(string, ArgValue)>)
    ensures |r| == |args|
    ensures forall i :: 0 <= i < |args| ==> r[i] == (args[i].0, Flat(args[i].1))
    ensures forall i :: 0 <= i < |r| ==> r[i].1.Scalar?
    ensures Keys(r) == Keys(args)
  {
    r := args;
    for i := 0 to |args|
      invariant |r| == |args|
      invariant forall k :: 0 <= k < i ==> r[k] == (args[k].0, Flat(args[k].1))
      invariant forall k :: i <= k < |args| ==> r[k] == args[k]
    {
      var (key, value) := args[i];
      if value.List? {
        r := r[i := (key, Scalar(Join(value.items, ",")))];
      }
    }
    SameKeys(r, args);
  }

  lemma {:induction false} SameKeys(a: seq<(string, ArgValue)>, b: seq<(string, ArgValue)>)
    requires |a| == |b|
    requires forall i :: 0 <= i < |a| ==> a[i].0 == b[i].0
    ensures Keys(a) == Keys(b)
    decreases |a|
  {
    if a != [] {
      SameKeys(a[1..], b[1..]);
    }
  }

  /** A validation request with no origin or destination given asks for the
      route from the default coordinates to the test coordinates, each
      written "lat,lng". */
  lemma ValidationOrigin(locale: string)
    ensures Get(DefaultArgs(true, locale), "origins") == Some(List([DefaultLat, DefaultLng]))
    ensures Get(DefaultArgs(true, locale), "destinations") == Some(List([TestLat, TestLng]))
    ensures Flat(List([DefaultLat, DefaultLng])) == Scalar(DefaultLat + "," + DefaultLng)
    ensures Flat(List([TestLat, TestLng])) == Scalar(TestLat + "," + TestLng)
  {
    GetAt(DefaultArgs(true, locale), "origins", 0);
    assert DefaultArgs(true, locale)[0].0 != "destinations";
    GetAt(DefaultArgs(true, locale), "destinations", 1);
    assert [DefaultLat, DefaultLng][1..] == [DefaultLng];
    assert Join([DefaultLng], ",") == DefaultLng;
    assert [TestLat, TestLng][1..] == [TestLng];
    assert Join([TestLng], ",") == TestLng;
  }

  // ---------------------------------------------------------------------
  // Response interpretation
  // ---------------------------------------------------------------------

  /** One element of the matrix, after decoding. */
  datatype Element = Element(status: string, distance: int, distanceText: string, duration: int, durationText: string)

  /** One row of the matrix. */
  type Row = seq<Element>

  /** The decoded response; a missing top-level status is the empty string. */
  datatype Response = Response(status: Option<string>, errorMessage: Option<string>, rows: seq<Row>)

  /** A usable route: distance in metres and duration in seconds, with their texts. */
  datatype RouteResult = RouteResult(distance: int, distanceText: string, duration: int, durationText: string)

  const ErrorPrefix := "API Response Error"

  function ToResult(e: Element): RouteResult {
    RouteResult(e.distance, e.distanceText, e.duration, e.durationText)
  }

  /** The usable routes, in row-then-element order. */
  function OkResults(elems: seq<Element>): seq<RouteResult>
    decreases |elems|
  {
    if elems == [] then []
    else OkResults(elems[..|elems| - 1])
         + (if elems[|elems| - 1].status == "OK" then [ToResult(elems[|elems| - 1])] else [])
  }

  /** The failed statuses, in the same order. */
  function FailedStatuses(elems: seq<Element>): seq<string>
    decreases |elems|
  {
    if elems == [] then []
    else FailedStatuses(elems[..|elems| - 1])
         + (if elems[|elems| - 1].status != "OK" then [elems[|elems| - 1].status] else [])
  }

  /** The elements row after row. */
  function Flatten(rows: seq<Row>): seq<Element>
    decreases |rows|
  {
    if rows == [] then [] else Flatten(rows[..|rows| - 1]) + rows[|rows| - 1]
  }

  const NotFoundText := "Origin and/or destination of this pairing could not be geocoded"
  const ZeroResultsText := "No route could be found between the origin and destination"
  const TooLongText := "Requested route is too long and cannot be processed"

  /** The explained failure statuses. */
  function Explanation(status: string): Option<string> {
    if status == "NOT_FOUND" then Some(NotFoundText)
    else if status == "ZERO_RESULTS" then Some(ZeroResultsText)
    else if status == "MAX_ROUTE_LENGTH_EXCEEDED" then Some(TooLongText)
    else None
  }

  /** The first failure, in order, that has an explanation. */
  function FirstExplained(errors: seq<string>): Option<string> {
    if errors == [] then None
    else if Explanation(errors[0]).Some? then Explanation(errors[0])
    else FirstExplained(errors[1..])
  }

  /** The status gate: the text of the error for a response that is not OK. */
  function StatusError(resp: Response): string {
    var status := if resp.status.Some? then resp.status.value else "";
    ErrorPrefix + ": " + status + (if resp.errorMessage.Some? then " - " + resp.errorMessage.value else "")
  }

  /** What calculate_distance makes of a decoded response. */
  function Interpret(resp: Response): (r: Result<seq<RouteResult>>)
    ensures r.Ok? ==> resp.status == Some("OK") && r.value != [] && r.value == OkResults(Flatten(resp.rows))
  {
    if resp.status != Some("OK") then Err(StatusError(resp))
    else
      var elems := Flatten(resp.rows);
      var results := OkResults(elems);
      if results != [] then Ok(results)
      else
        match FirstExplained(FailedStatuses(elems))
        case Some(message) => Err(ErrorPrefix + ": " + message)
        case None => Err(ErrorPrefix + ": No results found")
  }

  /** The response loop: collect OK elements as routes and the statuses of
      the others, then pick the outcome. */
  method CalculateDistance(resp: Response) returns (r: Result<seq<RouteResult>>)
    ensures r == Interpret(resp)
  {
    var status := if resp.status.Some? then resp.status.value else "";
    if status != "OK" {
      var message := ErrorPrefix + ": " + status;
      if resp.errorMessage.Some? {
        message := message + " - " + resp.errorMessage.value;
      }
      return Err(message);
    }
    var errors: seq<string> := [];
    var results: seq<RouteResult> := [];
    for i := 0 to |resp.rows|
      invariant results == OkResults(Flatten(resp.rows[..i]))
      invariant errors == FailedStatuses(Flatten(resp.rows[..i]))
    {
      var row := resp.rows[i];
      ghost var done := Flatten(resp.rows[..i]);
      assert done + row[..0] == done;
      for j := 0 to |row|
        invariant results == OkResults(done + row[..j])
        invariant errors == FailedStatuses(done + row[..j])
      {
        var element := row[j];
        CollectStep(done, row, j);
        if element.status != "OK" {
          errors := errors + [element.status];
          continue;
        }
        results := results + [ToResult(element)];
      }
      FlattenStep(resp.rows, i);
    }
    assert resp.rows[..|resp.rows|] == resp.rows;
    if results != [] {
      return Ok(results);
    }
    if errors != [] {
      for k := 0 to |errors|
        invariant FirstExplained(errors[k..]) == FirstExplained(errors)
      {
        assert errors[k..][0] == errors[k] && errors[k..][1..] == errors[k + 1..];
        var explained := Explanation(errors[k]);
        if explained.Some? {
          return Err(ErrorPrefix + ": " + explained.value);
        }
      }
      assert errors[|errors|..] == [];
    }
    return Err(ErrorPrefix + ": No results found");
  }

  /** One more element of the current row. */
  lemma CollectStep(done: seq<Element>, row: Row, j: nat)
    requires j < |row|
    ensures OkResults(done + row[..j + 1])
            == OkResults(done + row[..j]) + (if row[j].status == "OK" then [ToResult(row[j])] else [])
    ensures FailedStatuses(done + row[..j + 1])
            == FailedStatuses(done + row[..j]) + (if row[j].status != "OK" then [row[j].status] else [])
  {
    var e := done + row[..j + 1];
    assert e[..|e| - 1] == done + row[..j];
    assert e[|e| - 1] == row[j];
  }

  /** One more row. */
  lemma FlattenStep(rows: seq<Row>, i: nat)
    requires i < |rows|
    ensures Flatten(rows[..i + 1]) == Flatten(rows[..i]) + rows[i][..|rows[i]|]
  {
    assert rows[..i + 1][..i] == rows[..i];
    assert rows[i][..|rows[i]|] == rows[i];
  }

  /** A response whose status is not OK is an error naming that status, and
      the API's own message when it sends one. */
  lemma StatusGate(resp: Response, status: string)
    requires resp.status == Some(status) && status != "OK"
    ensures resp.errorMessage.None? ==> Interpret(resp) == Err(ErrorPrefix + ": " + status)
    ensures resp.errorMessage.Some? ==> Interpret(resp) == Err(ErrorPrefix + ": " + status + " - " + resp.errorMessage.value)
  {
  }

  /** Each element lands in exactly one of the two lists: the routes are the
      OK elements and the failures the others. */
  lemma {:induction false} ResultsPartition(elems: seq<Element>)
    ensures |OkResults(elems)| + |FailedStatuses(elems)| == |elems|
    ensures OkResults(elems) == [] <==> forall i :: 0 <= i < |elems| ==> elems[i].status != "OK"
    ensures FailedStatuses(elems) == [] <==> forall i :: 0 <= i < |elems| ==> elems[i].status == "OK"
    decreases |elems|
  {
    if elems != [] {
      var init := elems[..|elems| - 1];
      ResultsPartition(init);
      assert forall i :: 0 <= i < |init| ==> init[i] == elems[i];
    }
  }

  /** One usable route is enough: the failures of other elements are then
      ignored. */
  lemma PartialSuccess(resp: Response, i: nat)
    requires resp.status == Some("OK")
    requires i < |Flatten(resp.rows)| && Flatten(resp.rows)[i].status == "OK"
    ensures Interpret(resp).Ok?
    ensures Interpret(resp).value == OkResults(Flatten(resp.rows))
  {
    ResultsPartition(Flatten(resp.rows));
  }

  /** Without a usable route, the first explained failure, in element order,
      chooses the message, whatever failures come after it. */
  lemma {:induction false} FirstExplainedWins(errors: seq<string>, j: nat)
    requires j < |errors| && Explanation(errors[j]).Some?
    requires forall i :: 0 <= i < j ==> Explanation(errors[i]).None?
    ensures FirstExplained(errors) == Explanation(errors[j])
    decreases j
  {
    if j > 0 {
      FirstExplainedWins(errors[1..], j - 1);
    }
  }

  /** With no usable route and no explained failure, the message is "No
      results found". */
  lemma {:induction false} NoExplanation(errors: seq<string>)
    requires forall i :: 0 <= i < |errors| ==> Explanation(errors[i]).None?
    ensures FirstExplained(errors) == None
    decreases |errors|
  {
    if errors != [] {
      NoExplanation(errors[1..]);
    }
  }

  /** With no usable route, the message is that of the first explained
      failure, or "No results found" when no failure is explained. */
  lemma NoRouteMessage(resp: Response)
    requires resp.status == Some("OK")
    requires forall i :: 0 <= i < |Flatten(resp.rows)| ==> Flatten(resp.rows)[i].status != "OK"
    ensures var first := FirstExplained(FailedStatuses(Flatten(resp.rows)));
      Interpret(resp) == Err(ErrorPrefix + ": " + (if first.Some? then first.value else "No results found"))
  {
    var elems := Flatten(resp.rows);
    ResultsPartition(elems);
    assert OkResults(elems) == [];
  }

  /** A single row with an unexplained failure followed by a ZERO_RESULTS
      element: the unexplained status is skipped. */
  lemma ZeroResultsMessage()
    ensures Interpret(Response(Some("OK"), None,
              [[Element("UNKNOWN", 0, "", 0, ""), Element("ZERO_RESULTS", 0, "", 0, "")]]))
            == Err(ErrorPrefix + ": " + ZeroResultsText)
  {
    var e1 := Element("UNKNOWN", 0, "", 0, "");
    var e2 := Element("ZERO_RESULTS", 0, "", 0, "");
    var rows: seq<Row> := [[e1, e2]];
    assert rows[..0] == [];
    assert Flatten(rows) == [e1, e2];
    CollectStep([], [e1, e2], 0);
    CollectStep([], [e1, e2], 1);
    assert [e1, e2][..0] == [] && [e1, e2][..2] == [e1, e2];
    assert FailedStatuses([e1, e2]) == ["UNKNOWN", "ZERO_RESULTS"];
    assert OkResults([e1, e2]) == [];
    FirstExplainedWins(["UNKNOWN", "ZERO_RESULTS"], 1);
  }

  /** Given arguments override the default of the same key; the others keep
      their default. */
  lemma {:induction false} ParseArgsGet(args: seq<(string, ArgValue)>, defaults: seq<(string, ArgValue)>, k: string)
    requires DistinctKeys(args)
    ensures k in Keys(args) ==> Get(ParseArgs(args, defaults), k) == Get(args, k)
    ensures k !in Keys(args) ==> Get(ParseArgs(args, defaults), k) == Get(defaults, k)
    decreases |args|
  {
    if args != [] {
      var d := Put(defaults, args[0].0, args[0].1);
      ParseArgsGet(args[1..], d, k);
      if k != args[0].0 {
        GetPutOther(defaults, args[0].0, args[0].1, k);
      }
    }
  }

  /** The keys of the merged arguments: the defaults' keys, then the new ones. */
  lemma {:induction false} ParseArgsKeys(args: seq<(string, ArgValue)>, defaults: seq<(string, ArgValue)>)
    ensures Keys(ParseArgs(args, defaults)) == Keys(defaults) + Keys(args)
    decreases |args|
  {
    if args != [] {
      ParseArgsKeys(args[1..], Put(defaults, args[0].0, args[0].1));
    }
  }
}
