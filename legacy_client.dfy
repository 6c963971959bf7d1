/** The older AcunetixAPI of the package's `__main__` module: the same
    construction checks and poller, but `connect` always checks the
    credentials and a resolved callback is always called with the
    notification. */
module LegacyClient {
  import opened Json
  import opened Resources
  import opened Requests
  import opened Callbacks
  import Client

  class AcunetixApi {
    const apiKey: string
    const endpoint: string
    var callbacks: map<string, Callback>
    var connected: bool
    /** Every request `_request` has issued, in order. */
    ghost var requests: seq<Request>
    /** Every callback invocation, in order. */
    ghost var invocations: seq<Invocation>
    /** The number of poller tasks started. */
    ghost var pollers: nat

    constructor (apiKey: string, endpoint: string)
      requires Client.ConfigError(apiKey, endpoint).None?
      ensures this.apiKey == apiKey && this.endpoint == endpoint
      ensures callbacks == map[] && !connected
      ensures requests == [] && invocations == [] && pollers == 0
    {
      this.apiKey := apiKey;
      this.endpoint := endpoint;
      callbacks := map[];
      connected := false;
      requests := [];
      invocations := [];
      pollers := 0;
    }

    /** `AcunetixAPI(api_key, endpoint)`, with the same checks as the
      current client. */
    static method New(apiKey: string, endpoint: string) returns (r: Result<AcunetixApi>)
      ensures r.Fail? <==> Client.ConfigError(apiKey, endpoint).Some?
      ensures r.Fail? ==> r.error == Client.ConfigError(apiKey, endpoint).value
      ensures r.Ok? ==> fresh(r.value) && r.value.apiKey == apiKey && r.value.endpoint == endpoint
      ensures r.Ok? ==> r.value.callbacks == map[] && !r.value.connected
      ensures r.Ok? ==> r.value.requests == [] && r.value.invocations == [] && r.value.pollers == 0
    {
      var e := Client.ConfigError(apiKey, endpoint);
      if e.Some? {
        return Fail(e.value);
      }
      var client := new AcunetixApi(apiKey, endpoint);
      return Ok(client);
    }

    /** `AcunetixAPI(api_key)`: the endpoint defaults to `localhost:3443`,
      so only the key is checked. */
    static method NewWithDefaultEndpoint(apiKey: string) returns (r: Result<AcunetixApi>)
      ensures r.Fail? <==> !Client.IsHexKey(apiKey)
      ensures r.Fail? ==> r.error == ValueError("Invalid API key")
      ensures r.Ok? ==> fresh(r.value) && r.value.apiKey == apiKey && r.value.endpoint == Client.DefaultEndpoint
      ensures r.Ok? ==> r.value.callbacks == map[] && !r.value.connected
      ensures r.Ok? ==> r.value.requests == [] && r.value.invocations == [] && r.value.pollers == 0
    {
      r := New(apiKey, Client.DefaultEndpoint);
    }

    /** `_request(method, path, data)`. */
    method SendRequest(verb: HttpMethod, path: string, body: Option<Value>, reply: Reply) returns (rec: Received)
      modifies this
      ensures rec == Classify(reply)
      ensures requests == old(requests) + [Request(verb, Url(endpoint, path), body)]
      ensures callbacks == old(callbacks) && connected == old(connected)
      ensures invocations == old(invocations) && pollers == old(pollers)
    {
      requests := requests + [Request(verb, Url(endpoint, path), body)];
      rec := Classify(reply);
    }

    /** `connect()`: a second call does nothing; the first marks the client
      connected, always checks the credentials, and starts the poller only
      when the check passes. */
    method Connect(me: Reply) returns (outcome: Outcome<()>)
      modifies this
      ensures connected
      ensures old(connected) ==> outcome == Returned(()) && requests == old(requests) && pollers == old(pollers)
      ensures !old(connected) ==>
        requests == old(requests) + [Request(GET, Url(endpoint, "me"), None)]
        && outcome == (if Classify(me).Raised? then ApiFailure(Classify(me).error) else Returned(()))
        && pollers == old(pollers) + (if Classify(me).Raised? then 0 else 1)
      ensures callbacks == old(callbacks) && invocations == old(invocations)
    {
      if connected {
        return Returned(());
      }
      connected := true;
      var rec := SendRequest(GET, "me", None, me);
      if rec.Raised? {
        return ApiFailure(rec.error);
      }
      pollers := pollers + 1;
      return Returned(());
    }

    /** `_execute_callback(callback_id, notification)`: pop the entry and
      call it with the notification, whatever its signature. */
    method ExecuteCallback(callbackId: string, notification: Notification)
      modifies this
      ensures Registry(callbacks, invocations) == Resolve(Registry(old(callbacks), old(invocations)), callbackId, notification, WithNotification)
      ensures requests == old(requests) && connected == old(connected) && pollers == old(pollers)
    {
      if callbackId !in callbacks {
        return;
      }
      var callback := callbacks[callbackId];
      callbacks := callbacks - {callbackId};
      invocations := invocations + [Invocation(callbackId, callback, Some(notification))];
    }

    /** The body of the poller's loop for one notification. */
    method HandleItem(item: Value, done: set<int>, answer: Reply) returns (step: Result<Step>, consumed: Received)
      modifies this
      ensures step == ItemStep(item, done)
      ensures step.Fail? ==> callbacks == old(callbacks) && invocations == old(invocations) && requests == old(requests)
      ensures step.Ok? ==> Registry(callbacks, invocations) == Handle(Registry(old(callbacks), old(invocations)), step.value, WithNotification)
      ensures step.Ok? ==> consumed == Classify(answer)
      ensures step.Ok? ==> requests == old(requests) + [Request(POST, Url(endpoint, ConsumePath(step.value.consumeId)), None)]
      ensures connected == old(connected) && pollers == old(pollers)
    {
      step := ItemStep(item, done);
      consumed := Classify(answer);
      if step.Fail? {
        return;
      }
      var resolve := step.value.resolve;
      if resolve.Some? {
        ExecuteCallback(resolve.value.resourceId, resolve.value);
      }
      consumed := SendRequest(POST, ConsumePath(step.value.consumeId), None, answer);
    }

    /** The `for` loop of `_poll_notifications` over one fetched batch, as in
      the current client but resolving with the notification always passed. */
    method HandleBatch(items: seq<Value>, done: set<int>, answers: nat -> Reply) returns (outcome: Client.PollOutcome, ghost steps: seq<Step>)
      modifies this
      ensures Registry(callbacks, invocations) == Run(Registry(old(callbacks), old(invocations)), steps, WithNotification)
      ensures requests == old(requests) + Consumes(endpoint, steps)
      ensures Client.StepsRead(items, done, steps)
      ensures outcome.Completed? ==> |steps| == |items|
      ensures outcome.Crashed? ==> |steps| < |items| && ItemStep(items[|steps|], done) == Fail(outcome.pyError)
      ensures !outcome.Caught? ==> Client.Consumed(answers, |steps|)
      ensures outcome.Caught? ==> 0 < |steps| && Client.Consumed(answers, |steps| - 1) && Classify(answers(|steps| - 1)) == Raised(outcome.apiError)
      ensures connected == old(connected) && pollers == old(pollers)
    {
      steps := [];
      var i := 0;
      while i < |items|
        invariant 0 <= i <= |items| && |steps| == i
        invariant Client.StepsRead(items, done, steps)
        invariant Client.Consumed(answers, i)
        invariant Registry(callbacks, invocations) == Run(Registry(old(callbacks), old(invocations)), steps, WithNotification)
        invariant requests == old(requests) + Consumes(endpoint, steps)
        invariant connected == old(connected) && pollers == old(pollers)
      {
        var step, consumed := HandleItem(items[i], done, answers(i));
        if step.Fail? {
          return Client.Crashed(step.error), steps;
        }
        RunSnoc(Registry(old(callbacks), old(invocations)), steps, step.value, WithNotification);
        ConsumesSnoc(old(requests), endpoint, steps, step.value);
        Client.StepsReadSnoc(items, done, steps, step.value);
        steps := steps + [step.value];
        if consumed.Raised? {
          return Client.Caught(consumed.error), steps;
        }
        Client.ConsumedSnoc(answers, i);
        i := i + 1;
      }
      return Client.Completed, steps;
    }

    /** One pass of `_poll_notifications`: fetch the batch, then handle it. */
    method PollOnce(done: set<int>, fetch: Reply, answers: nat -> Reply) returns (outcome: Client.PollOutcome, ghost steps: seq<Step>)
      modifies this
      ensures Registry(callbacks, invocations) == Run(Registry(old(callbacks), old(invocations)), steps, WithNotification)
      ensures requests == old(requests) + [Request(GET, Url(endpoint, "notifications"), None)] + Consumes(endpoint, steps)
      ensures Classify(fetch).Raised? ==> outcome == Client.Caught(Classify(fetch).error) && steps == []
      ensures Classify(fetch).Body? && Client.BatchItems(Classify(fetch).value).Fail? ==>
        outcome == Client.Crashed(Client.BatchItems(Classify(fetch).value).error) && steps == []
      ensures Classify(fetch).Body? && Client.BatchItems(Classify(fetch).value).Ok? ==>
        Client.StepsRead(Client.BatchItems(Classify(fetch).value).value, done, steps)
      ensures Classify(fetch).Body? && Client.BatchItems(Classify(fetch).value).Ok? ==>
        var items := Client.BatchItems(Classify(fetch).value).value;
        && (outcome.Crashed? ==> |steps| < |items| && ItemStep(items[|steps|], done) == Fail(outcome.pyError))
        && (!outcome.Caught? ==> Client.Consumed(answers, |steps|))
        && (outcome.Caught? ==> 0 < |steps| && Client.Consumed(answers, |steps| - 1) && Classify(answers(|steps| - 1)) == Raised(outcome.apiError))
      ensures outcome.Completed? ==> |steps| == |Client.BatchItems(Classify(fetch).value).value|
      ensures connected == old(connected) && pollers == old(pollers)
    {
      steps := [];
      var received := SendRequest(GET, "notifications", None, fetch);
      if received.Raised? {
        return Client.Caught(received.error), steps;
      }
      var items := Client.BatchItems(received.value);
      if items.Fail? {
        return Client.Crashed(items.error), steps;
      }
      outcome, steps := HandleBatch(items.value, done, answers);
    }
  }
}
