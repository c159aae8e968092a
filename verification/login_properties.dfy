/**
 What one submission of the sign-in form does, for every combination of
 outcomes of its external steps: which failures stop which later steps,
 what ends up in the auth store, which error is shown, and that loading
 always ends.
 */
module LoginProperties {
  import opened Js
  import opened Login
  import opened LoginScreen

  /** The value that stops the `try` block, when it stops early. */
  function RaisedBy(o: Oracles): Option<Thrown> {
    TryBlock(o).raised
  }

  /** A step that is reached rejects with `v` (a `fetch`, a `json()` on an ok response, or the validation). */
  predicate StepRejects(o: Oracles, v: Thrown) {
    || o.validation == Throws(v)
    || (o.validation.Ok? && o.loginFetch == Throws(v))
    || (o.validation.Ok? && o.loginFetch.Ok? && o.loginFetch.value.ok && o.loginJson == Throws(v))
    || (TokenReceived(o) && o.meFetch == Throws(v))
    || (TokenReceived(o) && o.meFetch.Ok? && o.meFetch.value.ok && o.meJson == Throws(v))
  }

  /** Collecting from a single effect. */
  lemma CollectOne<T>(e: Effect, pick: Effect -> Option<T>)
    ensures Collect([e], pick) == match pick(e) case Some(v) => [v] case None => []
  {
    assert [e][1..] == [];
  }

  /** The effects of the `try` block, as the stages it reaches. */
  function ReachedEffects(o: Oracles): seq<Effect> {
    [SetLoading(true)]
    + (if o.validation.Ok? then [Send(LoginRequest(o.validation.value))] else [])
    + (if TokenReceived(o) then [Send(ProfileRequest(TokenOf(o)))] else [])
    + (if AllSucceed(o) then [SetAuth(IdentityOf(o.meJson.value), TokenOf(o)), Navigate(ChatPath)] else [])
  }

  /** The `try` block performs the effects of exactly the stages it reaches, and runs to its end only when all succeed. */
  lemma TryBlockStages(o: Oracles)
    ensures TryBlock(o).effects == ReachedEffects(o)
    ensures RaisedBy(o).None? <==> AllSucceed(o)
  {
  }

  /** Collecting from two effects. */
  lemma CollectPair<T>(x: Effect, y: Effect, pick: Effect -> Option<T>)
    ensures Collect([x, y], pick)
         == (match pick(x) case Some(v) => [v] case None => []) + (match pick(y) case Some(v) => [v] case None => [])
  {
    assert [x, y] == [x] + [y];
    CollectAppend([x], [y], pick);
    CollectOne(x, pick);
    CollectOne(y, pick);
  }

  /** Collecting from the `try` block is collecting from each stage it reaches. */
  lemma CollectStages<T>(o: Oracles, pick: Effect -> Option<T>)
    ensures Collect(TryBlock(o).effects, pick)
         == Collect([SetLoading(true)], pick)
            + Collect(if o.validation.Ok? then [Send(LoginRequest(o.validation.value))] else [], pick)
            + Collect(if TokenReceived(o) then [Send(ProfileRequest(TokenOf(o)))] else [], pick)
            + Collect(if AllSucceed(o) then [SetAuth(IdentityOf(o.meJson.value), TokenOf(o)), Navigate(ChatPath)] else [], pick)
  {
    TryBlockStages(o);
    var a := [SetLoading(true)];
    var b := if o.validation.Ok? then [Send(LoginRequest(o.validation.value))] else [];
    var c := if TokenReceived(o) then [Send(ProfileRequest(TokenOf(o)))] else [];
    var d := if AllSucceed(o) then [SetAuth(IdentityOf(o.meJson.value), TokenOf(o)), Navigate(ChatPath)] else [];
    CollectAppend(a, b, pick);
    CollectAppend(a + b, c, pick);
    CollectAppend(a + b + c, d, pick);
  }

  /** The `try` block sends the sign-in request once the form is valid, and the profile request once a token body arrived. */
  lemma TryBlockRequests(o: Oracles)
    ensures Requests(TryBlock(o).effects)
         == if o.validation.Throws? then []
            else if !TokenReceived(o) then [LoginRequest(o.validation.value)]
            else [LoginRequest(o.validation.value), ProfileRequest(TokenOf(o))]
  {
    CollectStages(o, PickRequest);
    CollectOne(SetLoading(true), PickRequest);
    if o.validation.Ok? {
      CollectOne(Send(LoginRequest(o.validation.value)), PickRequest);
    }
    if TokenReceived(o) {
      CollectOne(Send(ProfileRequest(TokenOf(o))), PickRequest);
    }
    if AllSucceed(o) {
      CollectPair(SetAuth(IdentityOf(o.meJson.value), TokenOf(o)), Navigate(ChatPath), PickRequest);
    }
  }

  /** The `try` block never writes the error, and switches loading on once. */
  lemma TryBlockErrorAndLoading(o: Oracles)
    ensures ErrorWrites(TryBlock(o).effects) == []
    ensures LoadingWrites(TryBlock(o).effects) == [true]
  {
    CollectStages(o, PickError);
    CollectStages(o, PickLoading);
    CollectOne(SetLoading(true), PickError);
    CollectOne(SetLoading(true), PickLoading);
    if o.validation.Ok? {
      var login := Send(LoginRequest(o.validation.value));
      CollectOne(login, PickError);
      CollectOne(login, PickLoading);
    }
    if TokenReceived(o) {
      var profile := Send(ProfileRequest(TokenOf(o)));
      CollectOne(profile, PickError);
      CollectOne(profile, PickLoading);
    }
    if AllSucceed(o) {
      var auth := SetAuth(IdentityOf(o.meJson.value), TokenOf(o));
      CollectPair(auth, Navigate(ChatPath), PickError);
      CollectPair(auth, Navigate(ChatPath), PickLoading);
    }
  }

  /** The `try` block records the session and navigates to the chat page exactly when every step succeeded. */
  lemma TryBlockAuthAndNavigation(o: Oracles)
    ensures AuthWrites(TryBlock(o).effects)
         == if AllSucceed(o) then [Some(Session(IdentityOf(o.meJson.value), TokenOf(o)))] else []
    ensures Navigations(TryBlock(o).effects) == if AllSucceed(o) then [ChatPath] else []
  {
    CollectStages(o, PickAuth);
    CollectStages(o, PickNavigation);
    CollectOne(SetLoading(true), PickAuth);
    CollectOne(SetLoading(true), PickNavigation);
    if o.validation.Ok? {
      var login := Send(LoginRequest(o.validation.value));
      CollectOne(login, PickAuth);
      CollectOne(login, PickNavigation);
    }
    if TokenReceived(o) {
      var profile := Send(ProfileRequest(TokenOf(o)));
      CollectOne(profile, PickAuth);
      CollectOne(profile, PickNavigation);
    }
    if AllSucceed(o) {
      var auth := SetAuth(IdentityOf(o.meJson.value), TokenOf(o));
      CollectPair(auth, Navigate(ChatPath), PickAuth);
      CollectPair(auth, Navigate(ChatPath), PickNavigation);
    }
  }

  /**
   The `try` block, field by field: it sends the sign-in request once the
   form is valid and the profile request once a token body arrived; it
   records the session and navigates exactly when every step succeeded.
   */
  lemma TryBlockSummary(o: Oracles)
    ensures Requests(TryBlock(o).effects)
         == if o.validation.Throws? then []
            else if !TokenReceived(o) then [LoginRequest(o.validation.value)]
            else [LoginRequest(o.validation.value), ProfileRequest(TokenOf(o))]
    ensures ErrorWrites(TryBlock(o).effects) == []
    ensures LoadingWrites(TryBlock(o).effects) == [true]
    ensures AuthWrites(TryBlock(o).effects)
         == if AllSucceed(o) then [Some(Session(IdentityOf(o.meJson.value), TokenOf(o)))] else []
    ensures Navigations(TryBlock(o).effects) == if AllSucceed(o) then [ChatPath] else []
  {
    TryBlockRequests(o);
    TryBlockErrorAndLoading(o);
    TryBlockAuthAndNavigation(o);
  }

  /** Collecting from the handler is collecting from its four parts. */
  lemma CollectHandler<T>(o: Oracles, pick: Effect -> Option<T>)
    ensures Collect(HandleSubmit(o), pick)
         == Collect([PreventDefault, SetError(None)], pick) + Collect(TryBlock(o).effects, pick)
            + Collect(CatchBlock(RaisedBy(o)), pick) + Collect([SetLoading(false)], pick)
  {
    var a := [PreventDefault, SetError(None)];
    var b := TryBlock(o).effects;
    var c := CatchBlock(RaisedBy(o));
    var d := [SetLoading(false)];
    assert HandleSubmit(o) == a + b + c + d;
    CollectAppend(a, b, pick);
    CollectAppend(a + b, c, pick);
    CollectAppend(a + b + c, d, pick);
    if RaisedBy(o).Some? {
      CollectOne(c[0], pick);
    }
  }

  /** The handler sends the requests, records the session and navigates exactly as its `try` block does. */
  lemma HandleSubmitPassesThrough(o: Oracles)
    ensures Requests(HandleSubmit(o)) == Requests(TryBlock(o).effects)
    ensures AuthWrites(HandleSubmit(o)) == AuthWrites(TryBlock(o).effects)
    ensures Navigations(HandleSubmit(o)) == Navigations(TryBlock(o).effects)
  {
    CollectHandler(o, PickRequest);
    CollectHandler(o, PickAuth);
    CollectHandler(o, PickNavigation);
    CollectPair(PreventDefault, SetError(None), PickRequest);
    CollectPair(PreventDefault, SetError(None), PickAuth);
    CollectPair(PreventDefault, SetError(None), PickNavigation);
    CollectOne(SetLoading(false), PickRequest);
    CollectOne(SetLoading(false), PickAuth);
    CollectOne(SetLoading(false), PickNavigation);
    if RaisedBy(o).Some? {
      var c := SetError(Some(ErrorText(RaisedBy(o).value)));
      assert CatchBlock(RaisedBy(o)) == [c];
      CollectOne(c, PickRequest);
      CollectOne(c, PickAuth);
      CollectOne(c, PickNavigation);
    }
  }

  /** The error is cleared first and set again only when the `try` block stops early, with the text of what it threw. */
  lemma HandleSubmitErrors(o: Oracles)
    ensures ErrorWrites(HandleSubmit(o))
         == match RaisedBy(o) case None => [None] case Some(e) => [None, Some(ErrorText(e))]
  {
    TryBlockErrorAndLoading(o);
    CollectHandler(o, PickError);
    CollectPair(PreventDefault, SetError(None), PickError);
    CollectOne(SetLoading(false), PickError);
    if RaisedBy(o).Some? {
      var c := SetError(Some(ErrorText(RaisedBy(o).value)));
      assert CatchBlock(RaisedBy(o)) == [c];
      CollectOne(c, PickError);
    }
  }

  /** Loading is switched on at the start of the `try` block and off in `finally`, and nowhere else. */
  lemma HandleSubmitLoading(o: Oracles)
    ensures LoadingWrites(HandleSubmit(o)) == [true, false]
  {
    TryBlockErrorAndLoading(o);
    CollectHandler(o, PickLoading);
    CollectPair(PreventDefault, SetError(None), PickLoading);
    CollectOne(SetLoading(false), PickLoading);
    if RaisedBy(o).Some? {
      var c := SetError(Some(ErrorText(RaisedBy(o).value)));
      assert CatchBlock(RaisedBy(o)) == [c];
      CollectOne(c, PickLoading);
    }
  }

  /**
   The handler first cancels the browser's own form submission, then clears
   the error, and its last effect switches loading off.
   */
  lemma HandleSubmitBrackets(o: Oracles)
    ensures HandleSubmit(o)[0] == PreventDefault
    ensures HandleSubmit(o)[1] == SetError(None)
    ensures HandleSubmit(o)[|HandleSubmit(o)| - 1] == SetLoading(false)
  {
  }

  // ----- one submission, from any starting screen -----

  /** A form that fails validation sends nothing, records no session and does not navigate: only the error changes. */
  lemma ValidationFailureStopsEverything(s: Screen, o: Oracles)
    requires o.validation.Throws?
    ensures HandleSubmit(o)
         == [PreventDefault, SetError(None), SetLoading(true), SetError(Some(ErrorText(o.validation.reason))), SetLoading(false)]
    ensures Submit(s, o) == s.(error := Some(ErrorText(o.validation.reason)), isLoading := false)
  {
    var t := HandleSubmit(o);
    assert t == [PreventDefault, SetError(None), SetLoading(true), SetError(Some(ErrorText(o.validation.reason))), SetLoading(false)];
    RunSummary(s, t);
    HandleSubmitPassesThrough(o);
    HandleSubmitErrors(o);
    HandleSubmitLoading(o);
    TryBlockSummary(o);
  }

  /**
   The session is recorded and the app navigates to the chat page exactly
   when the form is valid and both the sign-in and the profile responses
   are ok and readable; otherwise the session and location are untouched.
   */
  lemma SignedInExactlyOnFullSuccess(s: Screen, o: Oracles)
    ensures AuthWrites(HandleSubmit(o)) != [] <==> AllSucceed(o)
    ensures Navigations(HandleSubmit(o)) != [] <==> AllSucceed(o)
    ensures |AuthWrites(HandleSubmit(o))| <= 1 && |Navigations(HandleSubmit(o))| <= 1
    ensures AllSucceed(o) ==> Submit(s, o).auth.Some? && Submit(s, o).location == ChatPath
    ensures !AllSucceed(o) ==> Submit(s, o).auth == s.auth && Submit(s, o).location == s.location
  {
    RunSummary(s, HandleSubmit(o));
    HandleSubmitPassesThrough(o);
    TryBlockSummary(o);
  }

  /**
   On success the stored identity comes from the profile body (`email`
   falling back to `username` when missing, `null` or empty, `name` from
   `username`), the stored token is the sign-in body's `access_token`, and
   that same token was the bearer credential of the profile request.
   */
  lemma StoredSessionComesFromResponses(s: Screen, o: Oracles)
    requires AllSucceed(o)
    ensures var r := Submit(s, o);
      && r.auth.Some?
      && r.auth.value.user.id == Get(o.meJson.value, "id")
      && r.auth.value.user.email
         == (if Truthy(Get(o.meJson.value, "email")) then Get(o.meJson.value, "email") else Get(o.meJson.value, "username"))
      && r.auth.value.user.name == Get(o.meJson.value, "username")
      && r.auth.value.token == Get(o.loginJson.value, "access_token")
      && r.requests == s.requests + [LoginRequest(o.validation.value), ProfileRequest(r.auth.value.token)]
      && r.requests[|s.requests| + 1].headers == [("Authorization", "Bearer " + Render(r.auth.value.token))]
      && r.error == None
  {
    RunSummary(s, HandleSubmit(o));
    HandleSubmitPassesThrough(o);
    HandleSubmitErrors(o);
    HandleSubmitLoading(o);
    TryBlockSummary(o);
    TryBlockStages(o);
  }

  /**
   A sign-in response that is not ok shows its `detail`, converted to a
   string, when that is truthy, and `Login failed: <statusText>` otherwise
   (also when `detail` is missing, `null`, `0`, `false` or empty, or the
   body cannot be read); no profile request follows.
   */
  lemma RejectedSignInReportsDetail(s: Screen, o: Oracles)
    requires o.validation.Ok? && o.loginFetch.Ok? && !o.loginFetch.value.ok
    ensures var detail := if o.loginJson.Ok? then Get(o.loginJson.value, "detail") else Undefined;
      Submit(s, o).error
      == Some(if Truthy(detail) then Render(detail) else "Login failed: " + o.loginFetch.value.statusText)
    ensures Submit(s, o).requests == s.requests + [LoginRequest(o.validation.value)]
    ensures Submit(s, o).auth == s.auth && Submit(s, o).location == s.location
  {
    RunSummary(s, HandleSubmit(o));
    HandleSubmitPassesThrough(o);
    HandleSubmitErrors(o);
    HandleSubmitLoading(o);
    TryBlockSummary(o);
  }

  /** A profile response that is not ok shows the fixed profile failure and leaves the session as it was. */
  lemma RejectedProfileReportsFailure(s: Screen, o: Oracles)
    requires TokenReceived(o) && o.meFetch.Ok? && !o.meFetch.value.ok
    ensures Submit(s, o).error == Some(ProfileFailure)
    ensures Submit(s, o).auth == s.auth && Submit(s, o).location == s.location
    ensures Submit(s, o).requests
         == s.requests + [LoginRequest(o.validation.value), ProfileRequest(Get(o.loginJson.value, "access_token"))]
  {
    RunSummary(s, HandleSubmit(o));
    HandleSubmitPassesThrough(o);
    HandleSubmitErrors(o);
    HandleSubmitLoading(o);
    TryBlockSummary(o);
  }

  /** A step that rejects shows the rejection's message, or the generic text when what it threw is not an `Error`. */
  lemma RejectionShowsItsMessage(s: Screen, o: Oracles, v: Thrown)
    requires StepRejects(o, v)
    ensures v.ErrorObject? ==> Submit(s, o).error == Some(v.message)
    ensures v.NonError? ==> Submit(s, o).error == Some(UnexpectedFailure)
    ensures Submit(s, o).auth == s.auth && Submit(s, o).location == s.location
  {
    RunSummary(s, HandleSubmit(o));
    HandleSubmitPassesThrough(o);
    HandleSubmitErrors(o);
    HandleSubmitLoading(o);
    TryBlockSummary(o);
    assert RaisedBy(o) == Some(v);
  }

  /**
   On every path the error is cleared first and set at most once more
   (exactly when the attempt fails), loading is switched on and then off,
   and the screen ends not loading, with an error exactly on failure.
   */
  lemma ErrorSetAtMostOnceAndLoadingEnds(s: Screen, o: Oracles)
    ensures var writes := ErrorWrites(HandleSubmit(o));
      && 1 <= |writes| <= 2
      && writes[0] == None
      && (|writes| == 2 <==> !AllSucceed(o))
      && (|writes| == 2 ==> writes[1].Some?)
    ensures LoadingWrites(HandleSubmit(o)) == [true, false]
    ensures HandleSubmit(o)[|HandleSubmit(o)| - 1] == SetLoading(false)
    ensures !Submit(s, o).isLoading
    ensures Submit(s, o).error.None? <==> AllSucceed(o)
  {
    RunSummary(s, HandleSubmit(o));
    HandleSubmitErrors(o);
    HandleSubmitLoading(o);
    HandleSubmitBrackets(o);
    TryBlockStages(o);
  }

  /**
   Requests only go out in order and only as far as the flow gets: none
   for an invalid form, the sign-in request alone until a token body has
   arrived, then the profile request. The sign-in request posts the email
   as the form field `username` and the password as `password`.
   */
  lemma RequestsFollowTheFlow(s: Screen, o: Oracles)
    ensures |Requests(HandleSubmit(o))|
         == if o.validation.Throws? then 0 else if TokenReceived(o) then 2 else 1
    ensures Submit(s, o).requests == s.requests + Requests(HandleSubmit(o))
    ensures o.validation.Ok? ==>
      var login := Requests(HandleSubmit(o))[0];
      && login.verb == "POST" && login.url == LoginUrl
      && login.form == [("username", o.validation.value.email), ("password", o.validation.value.password)]
    ensures TokenReceived(o) ==>
      var profile := Requests(HandleSubmit(o))[1];
      && profile.verb == "GET" && profile.url == ProfileUrl
      && profile.headers == [("Authorization", "Bearer " + Render(Get(o.loginJson.value, "access_token")))]
  {
    RunSummary(s, HandleSubmit(o));
    HandleSubmitPassesThrough(o);
    TryBlockSummary(o);
  }
}
