/**
 * Building API requests and classifying their responses.
 *
 * A request carries its target, its method and an optional form body. Query
 * methods (GET and HEAD) never carry a body: their data is appended to the
 * target's query instead. A response is classified before the session reacts:
 * no body to show, a problem document, a "continue on the same step"
 * instruction, a step to render and save, or a failure.
 */
module Requests {
  import opened Wrappers
  import opened Haapi
  import opened Interpreter

  // ---------------------------------------------------------------------------
  // URLs and form data
  // ---------------------------------------------------------------------------

  /** One name/value entry of URL-encoded form data. */
  datatype Pair = Pair(name: string, value: string)

  /** The text of form data: entries `name=value` joined by `&`.
      Percent-encoding is not modelled. */
  function Encode(pairs: seq<Pair>): string {
    if pairs == [] then ""
    else if |pairs| == 1 then pairs[0].name + "=" + pairs[0].value
    else pairs[0].name + "=" + pairs[0].value + "&" + Encode(pairs[1..])
  }

  /** Index of the first `?` in a URL, or its length when there is none. */
  function QueryStart(url: string): (k: nat)
    ensures k <= |url|
    ensures k < |url| <==> '?' in url
    ensures k < |url| ==> url[k] == '?'
    ensures forall i :: 0 <= i < k ==> url[i] != '?'
  {
    if url == [] then 0
    else if url[0] == '?' then 0
    else 1 + QueryStart(url[1..])
  }

  /** The part of a URL before its query. */
  function PathOf(url: string): string {
    url[..QueryStart(url)]
  }

  /** The query of a URL, without the `?`; empty when there is none. */
  function QueryOf(url: string): string {
    if '?' in url then url[QueryStart(url) + 1..] else ""
  }

  datatype Request = Request(target: string, httpMethod: string, body: Option<seq<Pair>>)

  predicate IsQueryMethod(m: string) {
    m == "GET" || m == "HEAD"
  }

  /** The request sent for a link, a method ("" when absent) and optional data. */
  function RequestFor(link: string, httpMethod: string, data: Option<seq<Pair>>): (r: Request)
    ensures r.httpMethod == httpMethod
    ensures |link| <= |r.target| && r.target[..|link|] == link
    ensures IsQueryMethod(httpMethod) ==> r.body.None?
    ensures !IsQueryMethod(httpMethod) ==> r.target == link && r.body == data
    ensures data.None? ==> r.target == link && r.body.None?
  {
    if IsQueryMethod(httpMethod) then
      if data.Some? then
        Request(link + (if '?' in link then "&" else "?") + Encode(data.value), httpMethod, None)
      else Request(link, httpMethod, None)
    else Request(link, httpMethod, data)
  }

  /** The request building step of `apiRequest`: the link is reassigned when
      query data must be appended. */
  method PrepareRequest(link: string, httpMethod: string, data: Option<seq<Pair>>) returns (r: Request)
    ensures r == RequestFor(link, httpMethod, data)
  {
    var target := link;
    var body: Option<seq<Pair>>;
    if httpMethod == "GET" || httpMethod == "HEAD" {
      body := None;
      if data.Some? {
        var searchParams := Encode(data.value);
        if '?' in target {
          target := target + "&" + searchParams;
        } else {
          target := target + "?" + searchParams;
        }
      }
    } else {
      body := data;
    }
    r := Request(target, httpMethod, body);
  }

  lemma {:induction false} QueryStartAppend(a: string, b: string)
    ensures '?' in a ==> QueryStart(a + b) == QueryStart(a)
    ensures '?' !in a ==> QueryStart(a + b) == |a| + QueryStart(b)
  {
    if a == [] {
      assert a + b == b;
    } else {
      assert (a + b)[0] == a[0];
      assert (a + b)[1..] == a[1..] + b;
      if a[0] != '?' {
        assert '?' in a ==> '?' in a[1..];
        assert '?' in a[1..] ==> '?' in a;
        QueryStartAppend(a[1..], b);
      }
    }
  }

  /** Appending to a URL that has a query extends that query. */
  lemma ExtendQuery(link: string, tail: string)
    requires '?' in link
    ensures PathOf(link + tail) == PathOf(link)
    ensures QueryOf(link + tail) == QueryOf(link) + tail
  {
    QueryStartAppend(link, tail);
    var k := QueryStart(link);
    assert '?' in link + tail by { assert (link + tail)[k] == '?'; }
    assert (link + tail)[..k] == link[..k];
    assert (link + tail)[k + 1..] == link[k + 1..] + tail;
  }

  /** Appending `?` and a query to a URL without one starts its query. */
  lemma StartQuery(link: string, query: string)
    requires '?' !in link
    ensures PathOf(link + "?" + query) == PathOf(link)
    ensures QueryOf(link + "?" + query) == query
  {
    var tail := "?" + query;
    var u := link + tail;
    assert link + "?" + query == u;
    QueryStartAppend(link, tail);
    assert tail[0] == '?';
    assert QueryStart(u) == |link|;
    assert u[|link|] == '?';
    assert u[..|link|] == link;
    assert u[|link| + 1..] == query;
    assert QueryStart(link) == |link|;
  }

  /** A request never changes the resource it is sent to. Query data extends
      the query (after an `&` when the link already has one) and leaves no body;
      any other method sends the data as the body. */
  lemma {:induction false} RequestTargets(link: string, httpMethod: string, data: Option<seq<Pair>>)
    ensures var r := RequestFor(link, httpMethod, data);
      && PathOf(r.target) == PathOf(link)
      && r.httpMethod == httpMethod
      && (IsQueryMethod(httpMethod) ==> r.body.None?)
      && (IsQueryMethod(httpMethod) && data.Some? && '?' in link ==>
            QueryOf(r.target) == QueryOf(link) + "&" + Encode(data.value))
      && (IsQueryMethod(httpMethod) && data.Some? && '?' !in link ==>
            QueryOf(r.target) == Encode(data.value))
      && (!IsQueryMethod(httpMethod) || data.None? ==> r.target == link)
      && (!IsQueryMethod(httpMethod) ==> r.body == data)
  {
    if IsQueryMethod(httpMethod) && data.Some? {
      var e := Encode(data.value);
      if '?' in link {
        ExtendQuery(link, "&" + e);
        assert link + "&" + e == link + ("&" + e);
        assert QueryOf(link) + ("&" + e) == QueryOf(link) + "&" + e;
      } else {
        StartQuery(link, e);
      }
    }
  }

  /** A link with a query gets `&`, one without gets `?`, an empty form still
      gets the separator. */
  lemma QueryExamples()
    ensures RequestFor("/x", "GET", Some([Pair("a", "1")])).target == "/x?a=1"
    ensures RequestFor("/x?y=2", "GET", Some([Pair("a", "1"), Pair("b", "")])).target == "/x?y=2&a=1&b="
    ensures RequestFor("/x", "GET", Some([])).target == "/x?"
    ensures RequestFor("/x", "POST", Some([Pair("a", "1")])) == Request("/x", "POST", Some([Pair("a", "1")]))
  {
    assert '?' !in "/x";
    assert '?' in "/x?y=2" by { assert "/x?y=2"[2] == '?'; }
  }

  // ---------------------------------------------------------------------------
  // Form serialisation
  // ---------------------------------------------------------------------------

  /** A field is sent unless it is an unchecked checkbox. */
  predicate Included(f: Field) {
    f.fieldType != CheckboxType || f.checked
  }

  function PairOf(f: Field): Pair {
    Pair(f.name, f.value)
  }

  /** The form data of a list of fields. */
  function FormPairs(fields: seq<Field>): (r: seq<Pair>)
    ensures |r| <= |fields|
    ensures (forall f :: f in fields ==> Included(f)) ==> |r| == |fields|
  {
    if fields == [] then []
    else
      var last := fields[|fields| - 1];
      FormPairs(fields[..|fields| - 1]) + (if Included(last) then [PairOf(last)] else [])
  }

  /** The positions of the fields that are sent. */
  function IncludedIndices(fields: seq<Field>): seq<nat> {
    if fields == [] then []
    else
      var n := |fields| - 1;
      IncludedIndices(fields[..n]) + (if Included(fields[n]) then [n] else [])
  }

  /** The body loop of `apiRequestForFormAction`. */
  method SerializeForm(fields: seq<Field>) returns (pairs: seq<Pair>)
    ensures pairs == FormPairs(fields)
  {
    pairs := [];
    var i := 0;
    while i < |fields|
      invariant 0 <= i <= |fields|
      invariant pairs == FormPairs(fields[..i])
    {
      assert fields[..i + 1][..i] == fields[..i];
      if fields[i].fieldType != CheckboxType || fields[i].checked {
        pairs := pairs + [Pair(fields[i].name, fields[i].value)];
      }
      i := i + 1;
    }
    assert fields[..i] == fields;
  }

  /** Form data lists exactly the fields that are not unchecked checkboxes,
      each with its value, in field order. */
  lemma {:induction false} FormPairsOrder(fields: seq<Field>)
    ensures
      var idx := IncludedIndices(fields);
      var p := FormPairs(fields);
      && |p| == |idx|
      && (forall k :: 0 <= k < |idx| ==> idx[k] < |fields| && p[k] == PairOf(fields[idx[k]]))
      && (forall k, l :: 0 <= k < l < |idx| ==> idx[k] < idx[l])
      && (forall i :: 0 <= i < |fields| ==> (Included(fields[i]) <==> i in idx))
  {
    IndexedPairs(fields);
    IncludedIndicesSorted(fields);
    IncludedIndicesMembers(fields);
  }

  /** Pair k of the form data is the pair of the field at included position k. */
  lemma {:induction false} IndexedPairs(fields: seq<Field>)
    ensures var idx := IncludedIndices(fields); var p := FormPairs(fields);
      && |p| == |idx|
      && forall k :: 0 <= k < |idx| ==> idx[k] < |fields| && p[k] == PairOf(fields[idx[k]])
  {
    if fields != [] {
      var n := |fields| - 1;
      var front := fields[..n];
      IndexedPairs(front);
      var idx := IncludedIndices(fields);
      var idx0 := IncludedIndices(front);
      var p := FormPairs(fields);
      var p0 := FormPairs(front);
      assert idx == idx0 + (if Included(fields[n]) then [n] else []);
      assert p == p0 + (if Included(fields[n]) then [PairOf(fields[n])] else []);
      forall k | 0 <= k < |idx|
        ensures idx[k] < |fields| && p[k] == PairOf(fields[idx[k]])
      {
        if k < |idx0| {
          assert idx[k] == idx0[k] && p[k] == p0[k];
          assert fields[idx0[k]] == front[idx0[k]];
        }
      }
    }
  }

  /** The included positions are strictly increasing and within the fields. */
  lemma {:induction false} IncludedIndicesSorted(fields: seq<Field>)
    ensures forall k :: 0 <= k < |IncludedIndices(fields)| ==> IncludedIndices(fields)[k] < |fields|
    ensures forall k, l :: 0 <= k < l < |IncludedIndices(fields)| ==>
      IncludedIndices(fields)[k] < IncludedIndices(fields)[l]
  {
    if fields != [] {
      var n := |fields| - 1;
      IncludedIndicesSorted(fields[..n]);
      var idx := IncludedIndices(fields);
      var idx0 := IncludedIndices(fields[..n]);
      assert idx == idx0 + (if Included(fields[n]) then [n] else []);
      assert forall k :: 0 <= k < |idx0| ==> idx0[k] < n;
      forall k | 0 <= k < |idx|
        ensures idx[k] < |fields|
      {
        if k < |idx0| {
          assert idx[k] == idx0[k];
        }
      }
      forall k, l | 0 <= k < l < |idx|
        ensures idx[k] < idx[l]
      {
        assert idx[k] == idx0[k];
        if l < |idx0| {
          assert idx[l] == idx0[l];
        } else {
          assert idx[l] == n;
        }
      }
    }
  }

  /** A position is included exactly when its field is sent. */
  lemma {:induction false} IncludedIndicesMembers(fields: seq<Field>)
    ensures forall i :: 0 <= i < |fields| ==> (Included(fields[i]) <==> i in IncludedIndices(fields))
  {
    if fields != [] {
      var n := |fields| - 1;
      var front := fields[..n];
      IncludedIndicesMembers(front);
      IncludedIndicesSorted(front);
      var idx := IncludedIndices(fields);
      var idx0 := IncludedIndices(front);
      assert idx == idx0 + (if Included(fields[n]) then [n] else []);
      assert forall k :: 0 <= k < |idx0| ==> idx0[k] < n;
      assert n !in idx0;
      forall i | 0 <= i < |fields|
        ensures Included(fields[i]) <==> i in idx
      {
        if i < n {
          assert fields[i] == front[i];
          assert i in idx0 <==> i in idx;
        }
      }
    }
  }

  /** The request a form action sends: its href and method, with its fields
      as form data (an absent field list sends empty form data). */
  function FormRequest(a: Action): Request {
    RequestFor(a.model.href, a.model.httpMethod, Some(FormPairs(a.model.fields.GetOr([]))))
  }

  // ---------------------------------------------------------------------------
  // Responses
  // ---------------------------------------------------------------------------

  const ProblemContentType := "application/problem+json"
  const InvalidInputType := "https://curity.se/problems/invalid-input"
  const NothingToDisplayText := "Nothing to display"
  const InvalidResponseText := "Invalid response content"

  /** A response body read as JSON: the same document seen as a step and as a
      problem, or text that does not parse. */
  datatype Body = Unparsable | Json(asStep: Step, asProblem: Problem)

  datatype Response = Response(status: int, contentType: string, text: string, body: Body)

  /** What the fetch gives: a response, or a failure before one arrives. */
  datatype Fetched = NetworkError | Received(response: Response)

  datatype Outcome =
    | NothingToDisplay(status: int)
    | ProblemOutcome(problem: Problem, status: int)
    | ContinueOutcome
    | StepOutcome(snapshot: Snapshot)
    | Failure

  /** Statuses whose body is never parsed. */
  predicate NoBodyStatus(status: int) {
    status == 204 || status < 200 || (300 <= status && status < 400)
  }

  /** The branch `apiRequest` takes for a fetch result. */
  function Classify(f: Fetched): (o: Outcome)
    ensures f.NetworkError? ==> o.Failure?
    ensures o.StepOutcome? ==> Settled(o.snapshot)
    ensures o.ProblemOutcome? ==>
      && f.Received? && f.response.contentType == ProblemContentType && o.status == f.response.status
      && !NoBodyStatus(f.response.status)
    ensures o.ContinueOutcome? ==>
      && f.Received? && f.response.body.Json?
      && f.response.body.asStep.stepType == ContinueSameStep
  {
    match f
    case NetworkError => Failure
    case Received(r) =>
      if NoBodyStatus(r.status) then NothingToDisplay(r.status)
      else match r.body
        case Unparsable => Failure
        case Json(step, problem) =>
          if r.contentType == ProblemContentType then ProblemOutcome(problem, r.status)
          else if step.stepType == ContinueSameStep then ContinueOutcome
          else StepOutcome(Snapshot(step, r.text, r.status))
  }

  /** A snapshot worth keeping: a status with a body, and a step that is not
      an instruction to continue on the same step. */
  predicate Settled(s: Snapshot) {
    !NoBodyStatus(s.status) && s.model.stepType != ContinueSameStep
  }

  /** Only a parsed, non-problem step with a status that has a body is kept,
      and it is kept as received. Statuses of 600 and above are not excluded. */
  lemma ClassifySnapshot(f: Fetched)
    ensures Classify(f).StepOutcome? ==>
      && f.Received?
      && Classify(f).snapshot == Snapshot(f.response.body.asStep, f.response.text, f.response.status)
      && Settled(Classify(f).snapshot)
      && f.response.contentType != ProblemContentType
    ensures f.Received? && NoBodyStatus(f.response.status) ==> Classify(f) == NothingToDisplay(f.response.status)
    ensures
      (f.Received? && f.response.status == 600 && f.response.body.Json?
       && f.response.contentType != ProblemContentType
       && f.response.body.asStep.stepType != ContinueSameStep) ==> Classify(f).StepOutcome?
  {
  }

  /** The page of a problem document: its title (or its type when untitled),
      then each of its messages. */
  function ProblemIntents(p: Problem): (r: seq<Intent>)
    ensures |r| == 1 + |p.messages|
    ensures r[0] == ErrorMessage(if p.title != "" then p.title else p.problemType)
    ensures forall i :: 0 <= i < |p.messages| ==> r[i + 1] == ErrorMessage(p.messages[i].text)
  {
    [ErrorMessage(if p.title != "" then p.title else p.problemType)]
    + seq(|p.messages|, i requires 0 <= i < |p.messages| => ErrorMessage(p.messages[i].text))
  }

  /** An invalid-input problem goes to the form's handler when there is one. */
  predicate RoutesToHandler(p: Problem, hasHandler: bool) {
    p.problemType == InvalidInputType && hasHandler
  }

  /** The colour of the status button. */
  function StatusColor(status: int): (c: string)
    ensures c == "warning" <==> status >= 400
    ensures c == "navy" <==> status < 400
  {
    if status >= 400 then "warning" else "navy"
  }

  /** The label of a link button: its title, or `link:` and its relation. */
  function LinkLabel(l: Link): (s: string)
    ensures l.title != "" ==> s == l.title
    ensures l.title == "" ==> s == "link:" + l.rel
  {
    if l.title != "" then l.title else "link:" + l.rel
  }
}
