/**
 What the handler's effects do to the world around it: the component's
 `error` and `isLoading` state, the auth store's session, the router's
 location and the requests sent so far.

 `Run` replays effects one at a time. The summaries below say the same
 thing field by field (each field ends as the last value written to it),
 and `RunSummary` proves the two agree.
 */
module LoginScreen {
  import opened Js
  import opened Login

  /** What `setAuth` records in the auth store: the identity together with its token. */
  datatype Session = Session(user: Identity, token: Field)

  datatype Screen = Screen(
    error: Option<string>,
    isLoading: bool,
    auth: Option<Session>,
    location: string,
    requests: seq<Request>)

  /** One effect on the screen; cancelling the browser's own submission keeps the page, so it changes nothing here. */
  function Apply(s: Screen, e: Effect): Screen {
    match e
    case PreventDefault => s
    case SetError(error) => s.(error := error)
    case SetLoading(loading) => s.(isLoading := loading)
    case Send(request) => s.(requests := s.requests + [request])
    case SetAuth(user, token) => s.(auth := Some(Session(user, token)))
    case Navigate(path) => s.(location := path)
  }

  function Run(s: Screen, trace: seq<Effect>): Screen
    decreases |trace|
  {
    if trace == [] then s else Run(Apply(s, trace[0]), trace[1..])
  }

  /** The screen after one submission, starting from `s`. */
  function Submit(s: Screen, o: Oracles): Screen {
    Run(s, HandleSubmit(o))
  }

  // ----- field-by-field summaries of a trace -----

  /** The values `pick` finds in the trace, in order. */
  function Collect<T>(trace: seq<Effect>, pick: Effect -> Option<T>): seq<T>
    decreases |trace|
  {
    if trace == [] then []
    else (match pick(trace[0]) case Some(v) => [v] case None => []) + Collect(trace[1..], pick)
  }

  function PickRequest(e: Effect): Option<Request> {
    if e.Send? then Some(e.request) else None
  }

  function PickError(e: Effect): Option<Option<string>> {
    if e.SetError? then Some(e.error) else None
  }

  function PickLoading(e: Effect): Option<bool> {
    if e.SetLoading? then Some(e.loading) else None
  }

  function PickAuth(e: Effect): Option<Option<Session>> {
    if e.SetAuth? then Some(Some(Session(e.user, e.token))) else None
  }

  function PickNavigation(e: Effect): Option<string> {
    if e.Navigate? then Some(e.path) else None
  }

  /** The requests sent, in order. */
  function Requests(trace: seq<Effect>): seq<Request> {
    Collect(trace, PickRequest)
  }

  /** The values passed to `setError`, in order. */
  function ErrorWrites(trace: seq<Effect>): seq<Option<string>> {
    Collect(trace, PickError)
  }

  /** The values passed to `setIsLoading`, in order. */
  function LoadingWrites(trace: seq<Effect>): seq<bool> {
    Collect(trace, PickLoading)
  }

  /** The sessions recorded by `setAuth`, in order. */
  function AuthWrites(trace: seq<Effect>): seq<Option<Session>> {
    Collect(trace, PickAuth)
  }

  /** The paths navigated to, in order. */
  function Navigations(trace: seq<Effect>): seq<string> {
    Collect(trace, PickNavigation)
  }

  /** The last of `writes`, or `current` when there are none. */
  function LastOr<T>(writes: seq<T>, current: T): T {
    if writes == [] then current else writes[|writes| - 1]
  }

  /** Collecting distributes over concatenation. */
  lemma {:induction false} CollectAppend<T>(a: seq<Effect>, b: seq<Effect>, pick: Effect -> Option<T>)
    ensures Collect(a + b, pick) == Collect(a, pick) + Collect(b, pick)
    decreases |a|
  {
    if a == [] {
      assert a + b == b;
    } else {
      var ab := a + b;
      assert ab[0] == a[0];
      assert ab[1..] == a[1..] + b;
      CollectAppend(a[1..], b, pick);
      var h: seq<T> := match pick(a[0]) case Some(v) => [v] case None => [];
      assert Collect(ab, pick) == h + Collect(a[1..] + b, pick);
      assert Collect(a, pick) == h + Collect(a[1..], pick);
      assert h + (Collect(a[1..], pick) + Collect(b, pick)) == (h + Collect(a[1..], pick)) + Collect(b, pick);
    }
  }

  /** The last value collected from `a + b` is the last from `b`, or else the last from `a`. */
  lemma LastOrAppend<T>(a: seq<T>, b: seq<T>, current: T)
    ensures LastOr(a + b, current) == LastOr(b, LastOr(a, current))
  {
    if b == [] {
      assert a + b == a;
    }
  }

  /** Replaying a trace appends exactly its requests. */
  lemma {:induction false} RunRequests(s: Screen, trace: seq<Effect>)
    ensures Run(s, trace).requests == s.requests + Requests(trace)
    decreases |trace|
  {
    if trace != [] {
      var e := trace[0];
      RunRequests(Apply(s, e), trace[1..]);
      assert trace == [e] + trace[1..];
      CollectAppend([e], trace[1..], PickRequest);
    }
  }

  /** Replaying a trace leaves the error and the loading flag at the last value written, or where they were. */
  lemma {:induction false} RunErrorLoading(s: Screen, trace: seq<Effect>)
    ensures Run(s, trace).error == LastOr(ErrorWrites(trace), s.error)
    ensures Run(s, trace).isLoading == LastOr(LoadingWrites(trace), s.isLoading)
    decreases |trace|
  {
    if trace != [] {
      var e := trace[0];
      RunErrorLoading(Apply(s, e), trace[1..]);
      assert trace == [e] + trace[1..];
      CollectAppend([e], trace[1..], PickError);
      CollectAppend([e], trace[1..], PickLoading);
      LastOrAppend(ErrorWrites([e]), ErrorWrites(trace[1..]), s.error);
      LastOrAppend(LoadingWrites([e]), LoadingWrites(trace[1..]), s.isLoading);
    }
  }

  /** Replaying a trace leaves the session and the location at the last value written, or where they were. */
  lemma {:induction false} RunAuthLocation(s: Screen, trace: seq<Effect>)
    ensures Run(s, trace).auth == LastOr(AuthWrites(trace), s.auth)
    ensures Run(s, trace).location == LastOr(Navigations(trace), s.location)
    decreases |trace|
  {
    if trace != [] {
      var e := trace[0];
      RunAuthLocation(Apply(s, e), trace[1..]);
      assert trace == [e] + trace[1..];
      CollectAppend([e], trace[1..], PickAuth);
      CollectAppend([e], trace[1..], PickNavigation);
      LastOrAppend(AuthWrites([e]), AuthWrites(trace[1..]), s.auth);
      LastOrAppend(Navigations([e]), Navigations(trace[1..]), s.location);
    }
  }

  /**
   Replaying a trace leaves every field at the last value the trace wrote
   to it (or where it was), and appends exactly the trace's requests.
   */
  lemma RunSummary(s: Screen, trace: seq<Effect>)
    ensures Run(s, trace).requests == s.requests + Requests(trace)
    ensures Run(s, trace).error == LastOr(ErrorWrites(trace), s.error)
    ensures Run(s, trace).isLoading == LastOr(LoadingWrites(trace), s.isLoading)
    ensures Run(s, trace).auth == LastOr(AuthWrites(trace), s.auth)
    ensures Run(s, trace).location == LastOr(Navigations(trace), s.location)
  {
    RunRequests(s, trace);
    RunErrorLoading(s, trace);
    RunAuthLocation(s, trace);
  }
}
