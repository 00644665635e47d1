/** metrics.py: the request counter of `PrometheusMetricsMiddleware`, with
    its endpoint label grouped to keep the label set small, and the task
    counter of `track_celery_task`. Durations are not modelled. */
module Metrics {
  import opened Records
  import opened Text

  /** A character of `sub` that `s` lacks rules out `sub in s`. */
  lemma {:induction false} MissingCharRulesOut(s: string, sub: string, c: char)
    requires c in sub && c !in s
    ensures !Contains(s, sub)
    decreases |s|
  {
    if |sub| <= |s| {
      var i :| 0 <= i < |sub| && sub[i] == c;
      assert s[..|sub|][i] != sub[i];
    }
    if s != [] {
      MissingCharRulesOut(s[1..], sub, c);
    }
  }

  /** The endpoint label of a request path. */
  function EndpointLabel(path: string): string
  {
    var endpoint := if path == [] then "unknown" else path;
    if Contains(endpoint, "/api/") then "/api/*"
    else if Contains(endpoint, "/static/") then "/static/*"
    else if Contains(endpoint, "/media/") then "/media/*"
    else endpoint
  }

  /** The grouping, case by case: an empty path is 'unknown', '/api/' wins
      over '/static/', which wins over '/media/', and any other path is its
      own label. */
  lemma EndpointLabelCases(path: string)
    ensures path == [] ==> EndpointLabel(path) == "unknown"
    ensures Contains(path, "/api/") ==> EndpointLabel(path) == "/api/*"
    ensures !Contains(path, "/api/") && Contains(path, "/static/") ==> EndpointLabel(path) == "/static/*"
    ensures !Contains(path, "/api/") && !Contains(path, "/static/") && Contains(path, "/media/") ==> EndpointLabel(path) == "/media/*"
    ensures path != [] && !Contains(path, "/api/") && !Contains(path, "/static/") && !Contains(path, "/media/") ==> EndpointLabel(path) == path
  {
    if path == [] {
      MissingCharRulesOut("unknown", "/api/", '/');
      MissingCharRulesOut("unknown", "/static/", '/');
      MissingCharRulesOut("unknown", "/media/", '/');
    }
  }

  /** A string starts with `sub` contains it. */
  lemma PrefixContained(s: string, sub: string)
    requires |sub| <= |s| && s[..|sub|] == sub
    ensures Contains(s, sub)
  {
  }

  /** Each fixed label is its own label. */
  lemma ApiLabelFixed()
    ensures EndpointLabel("/api/*") == "/api/*"
  {
    PrefixContained("/api/*", "/api/");
  }

  lemma StaticLabelFixed()
    ensures EndpointLabel("/static/*") == "/static/*"
  {
    MissingCharRulesOut("/static/*", "/api/", 'p');
    PrefixContained("/static/*", "/static/");
  }

  /** The media label lacks a p and an s, so neither earlier pattern occurs in it. */
  lemma MediaLacksEarlierPatterns()
    ensures !Contains("/media/*", "/api/") && !Contains("/media/*", "/static/")
  {
    assert !Contains("/media/*", "/api/") by { MissingCharRulesOut("/media/*", "/api/", 'p'); }
    assert !Contains("/media/*", "/static/") by { MissingCharRulesOut("/media/*", "/static/", 's'); }
  }

  lemma MediaLabelFixed()
    ensures EndpointLabel("/media/*") == "/media/*"
  {
    MediaLacksEarlierPatterns();
    PrefixContained("/media/*", "/media/");
  }

  lemma UnknownLabelFixed()
    ensures EndpointLabel("unknown") == "unknown"
  {
    MissingCharRulesOut("unknown", "/api/", '/');
    MissingCharRulesOut("unknown", "/static/", '/');
    MissingCharRulesOut("unknown", "/media/", '/');
  }

  /** A label is its own label, so grouping twice is grouping once. */
  lemma EndpointLabelIdempotent(path: string)
    ensures EndpointLabel(EndpointLabel(path)) == EndpointLabel(path)
  {
    EndpointLabelCases(path);
    ApiLabelFixed();
    StaticLabelFixed();
    MediaLabelFixed();
    UnknownLabelFixed();
  }

  datatype HttpResponse = HttpResponse(status: nat, body: string)

  /** `http_requests_total` is labelled by method, endpoint and status code. */
  datatype RequestLabels = RequestLabels(verb: string, endpoint: string, status: nat)

  /** `celery_task_total` is labelled by task name and 'success'/'failure'. */
  datatype TaskLabels = TaskLabels(taskName: string, status: string)

  function Count<K(!new)>(m: map<K, nat>, k: K): nat
  {
    if k in m then m[k] else 0
  }

  /** `.labels(...).inc()`. */
  function Inc<K(!new)>(m: map<K, nat>, k: K): (r: map<K, nat>)
    ensures Count(r, k) == Count(m, k) + 1
    ensures forall j :: j != k ==> Count(r, j) == Count(m, j)
  {
    m[k := Count(m, k) + 1]
  }

  /** The process's counters. */
  class Registry {
    var httpRequests: map<RequestLabels, nat>
    var celeryTasks: map<TaskLabels, nat>

    constructor ()
      ensures httpRequests == map[] && celeryTasks == map[]
    {
      httpRequests := map[];
      celeryTasks := map[];
    }
  }

  /** `PrometheusMetricsMiddleware.__call__`: `downstream` is what
      `get_response(request)` gives. */
  method MetricsCall(registry: Registry, verb: string, path: string, downstream: HttpResponse) returns (response: HttpResponse)
    modifies registry
    ensures response == downstream
    ensures registry.httpRequests == Inc(old(registry.httpRequests), RequestLabels(verb, EndpointLabel(path), downstream.status))
    ensures registry.celeryTasks == old(registry.celeryTasks)
  {
    response := downstream;
    var endpoint := if path == [] then "unknown" else path;
    if Contains(endpoint, "/api/") {
      endpoint := "/api/*";
    } else if Contains(endpoint, "/static/") {
      endpoint := "/static/*";
    } else if Contains(endpoint, "/media/") {
      endpoint := "/media/*";
    }
    registry.httpRequests := Inc(registry.httpRequests, RequestLabels(verb, endpoint, response.status));
  }

  /** A call of a function wrapped by `track_celery_task(taskName)`: `call`
      is how the wrapped function ends, and the wrapper ends the same way. */
  method TrackCeleryTask<T>(registry: Registry, taskName: string, call: Py<T>) returns (r: Py<T>)
    modifies registry
    ensures r == call
    ensures registry.celeryTasks == Inc(old(registry.celeryTasks), TaskLabels(taskName, if call.Returned? then "success" else "failure"))
    ensures registry.httpRequests == old(registry.httpRequests)
  {
    var status := "success";
    if call.Raised? {
      status := "failure";
    }
    registry.celeryTasks := Inc(registry.celeryTasks, TaskLabels(taskName, status));
    r := call;
  }
}
