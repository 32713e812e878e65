/**
 * The data-layer adapter for the account's two-step authentication
 * endpoints. Four intents become HTTP request descriptors; successful
 * responses are turned into store-update actions after their keys are
 * camel-cased; one error is stored as it came.
 *
 * The store's `dispatch` is modelled as appending to a log of actions. The
 * key-casing routine is external and is passed in as a function.
 */
module TwoStep {

  // ---------------------------------------------------------------------
  // JavaScript values and objects
  // ---------------------------------------------------------------------

  /** The JavaScript values the adapter moves around. */
  datatype JsValue =
    | Undefined
    | Null
    | Bool(b: bool)
    | Number(n: int)
    | Str(s: string)
    | Array(items: seq<JsValue>)
    | Object(obj: JsObject<JsValue>)

  /** A plain object: its own keys in insertion order (`Object.keys`) and
      the value held under each. */
  datatype JsObject<V> = JsObject(keys: seq<string>, fields: map<string, V>)

  /** The keys listed are the keys held, each listed once. */
  ghost predicate WellFormed<V>(o: JsObject<V>)
  {
    && (forall i, j :: 0 <= i < j < |o.keys| ==> o.keys[i] != o.keys[j])
    && (forall k :: k in o.fields <==> k in o.keys)
  }

  /** JavaScript truthiness. */
  predicate Truthy(v: JsValue)
  {
    match v
    case Undefined => false
    case Null => false
    case Bool(b) => b
    case Number(n) => n != 0
    case Str(s) => s != ""
    case Array(_) => true
    case Object(_) => true
  }

  /** `o[k] = v`: the value is replaced where the key exists, and a new key
      goes last. */
  function Put<V>(o: JsObject<V>, k: string, v: V): (r: JsObject<V>)
    ensures r.fields == o.fields[k := v]
    ensures o.keys <= r.keys && |r.keys| <= |o.keys| + 1
    ensures WellFormed(o) ==> WellFormed(r)
  {
    if k in o.keys then JsObject(o.keys, o.fields[k := v])
    else JsObject(o.keys + [k], o.fields[k := v])
  }

  // ---------------------------------------------------------------------
  // fromApi
  // ---------------------------------------------------------------------

  /** What `fromApi` builds after visiting `keys` in order: every visited
      key's value stored under the camel-cased key. */
  function FromApiSpec<V>(camelCase: string -> string, keys: seq<string>, fields: map<string, V>): (r: JsObject<V>)
    requires forall k :: k in keys ==> k in fields
    ensures WellFormed(r)
    ensures |r.keys| <= |keys|
    decreases |keys|
  {
    if keys == [] then JsObject([], map[])
    else
      var last := keys[|keys| - 1];
      Put(FromApiSpec(camelCase, keys[..|keys| - 1], fields), camelCase(last), fields[last])
  }

  /** `fromApi(data)`: reduces `Object.keys(data)` into a fresh object,
      assigning each value under its camel-cased key. */
  method FromApi<V>(camelCase: string -> string, data: JsObject<V>) returns (r: JsObject<V>)
    requires WellFormed(data)
    ensures r == FromApiSpec(camelCase, data.keys, data.fields)
  {
    var accumulator := JsObject([], map[]);
    var i := 0;
    while i < |data.keys|
      invariant 0 <= i <= |data.keys|
      invariant accumulator == FromApiSpec(camelCase, data.keys[..i], data.fields)
    {
      var currentKey := data.keys[i];
      assert data.keys[..i + 1][..i] == data.keys[..i];
      accumulator := Put(accumulator, camelCase(currentKey), data.fields[currentKey]);
      i := i + 1;
    }
    assert data.keys[..i] == data.keys;
    r := accumulator;
  }

  /** The output keys are exactly the camel-cased input keys. */
  lemma {:induction false} FromApiKeys<V>(camelCase: string -> string, keys: seq<string>, fields: map<string, V>, k: string)
    requires forall key :: key in keys ==> key in fields
    ensures k in FromApiSpec(camelCase, keys, fields).fields <==> exists i :: 0 <= i < |keys| && camelCase(keys[i]) == k
    decreases |keys|
  {
    if keys != [] {
      var prefix := keys[..|keys| - 1];
      FromApiKeys(camelCase, prefix, fields, k);
      if k in FromApiSpec(camelCase, prefix, fields).fields {
        var i :| 0 <= i < |prefix| && camelCase(prefix[i]) == k;
        assert keys[i] == prefix[i];
      }
      if exists i :: 0 <= i < |keys| && camelCase(keys[i]) == k {
        var i :| 0 <= i < |keys| && camelCase(keys[i]) == k;
        if i < |prefix| {
          assert prefix[i] == keys[i];
        }
      }
    }
  }

  /** An input key's value survives under its camel-cased key unless a later
      key camel-cases to the same key: the later one overwrites it. */
  lemma {:induction false} FromApiLastKeyWins<V>(camelCase: string -> string, keys: seq<string>, fields: map<string, V>, i: nat)
    requires forall key :: key in keys ==> key in fields
    requires i < |keys|
    requires forall j :: i < j < |keys| ==> camelCase(keys[j]) != camelCase(keys[i])
    ensures camelCase(keys[i]) in FromApiSpec(camelCase, keys, fields).fields
    ensures FromApiSpec(camelCase, keys, fields).fields[camelCase(keys[i])] == fields[keys[i]]
    decreases |keys|
  {
    var prefix := keys[..|keys| - 1];
    if i < |keys| - 1 {
      forall j | i < j < |prefix|
        ensures camelCase(prefix[j]) != camelCase(prefix[i])
      {
        assert prefix[j] == keys[j];
      }
      FromApiLastKeyWins(camelCase, prefix, fields, i);
      assert prefix[i] == keys[i];
    }
  }

  /** When no two input keys camel-case alike, every input key's value is
      found under its camel-cased key. */
  lemma FromApiWithoutCollisions<V>(camelCase: string -> string, keys: seq<string>, fields: map<string, V>)
    requires forall key :: key in keys ==> key in fields
    requires forall i, j :: 0 <= i < j < |keys| ==> camelCase(keys[i]) != camelCase(keys[j])
    ensures forall i :: 0 <= i < |keys| ==>
      && camelCase(keys[i]) in FromApiSpec(camelCase, keys, fields).fields
      && FromApiSpec(camelCase, keys, fields).fields[camelCase(keys[i])] == fields[keys[i]]
  {
    forall i | 0 <= i < |keys|
      ensures camelCase(keys[i]) in FromApiSpec(camelCase, keys, fields).fields
      ensures FromApiSpec(camelCase, keys, fields).fields[camelCase(keys[i])] == fields[keys[i]]
    {
      FromApiLastKeyWins(camelCase, keys, fields, i);
    }
  }

  /** Two input keys that camel-case alike leave one output key holding the
      later key's value. */
  lemma FromApiCollisionExample(a: JsValue, b: JsValue)
    ensures var camel := (k: string) => if k == "two_step_enabled" then "twoStepEnabled" else k;
      FromApiSpec(camel, ["two_step_enabled", "twoStepEnabled"], map["two_step_enabled" := a, "twoStepEnabled" := b])
      == JsObject(["twoStepEnabled"], map["twoStepEnabled" := b])
  {
    var keys := ["two_step_enabled", "twoStepEnabled"];
    assert keys[..1] == ["two_step_enabled"] && keys[..1][..0] == [];
  }

  // ---------------------------------------------------------------------
  // Intents, requests and actions
  // ---------------------------------------------------------------------

  /** The four action types the adapter handles. */
  datatype ActionType =
    | TwoStepRequest
    | TwoStepValidateCodeRequest
    | TwoStepSendSmsCodeRequest
    | TwoStepAppAuthCodesRequest

  /** An intent as dispatched by the application: its type and the fields a
      validation intent carries (undefined when absent). */
  datatype Intent = Intent(kind: ActionType, code: JsValue, action: JsValue, remember2fa: JsValue)

  datatype HttpMethod = Get | Post

  /** A request descriptor; `body` is undefined when the request has none. */
  datatype Request = Request(apiVersion: string, httpMethod: HttpMethod, path: string, body: JsValue)

  /** The actions the adapter dispatches: an HTTP request carrying the
      originating intent, and the three store updates. */
  datatype Action =
    | Http(request: Request, origin: Intent)
    | SetTwoStep(twoStep: JsObject<JsValue>)
    | SetTwoStepCodeValidationResult(validation: JsObject<JsValue>)
    | SetTwoStepSendSmsValidationCodeResult(result: JsValue)

  /** The body of the validation request: always the code; `action` and
      `remember2fa` each only when the intent's value is falsy, and then
      that falsy value. */
  function ValidateBody(intent: Intent): (body: JsObject<JsValue>)
    ensures WellFormed(body)
    ensures |body.keys| > 0 && body.keys[0] == "code"
    ensures "code" in body.fields && body.fields["code"] == intent.code
    ensures "action" in body.fields <==> !Truthy(intent.action)
    ensures "action" in body.fields ==> body.fields["action"] == intent.action
    ensures "remember2fa" in body.fields <==> !Truthy(intent.remember2fa)
    ensures "remember2fa" in body.fields ==> body.fields["remember2fa"] == intent.remember2fa
    ensures forall k :: k in body.fields ==> k == "code" || k == "action" || k == "remember2fa"
  {
    var withCode := JsObject(["code"], map["code" := intent.code]);
    var withAction := if Truthy(intent.action) then withCode else Put(withCode, "action", intent.action);
    if Truthy(intent.remember2fa) then withAction else Put(withAction, "remember2fa", intent.remember2fa)
  }

  /** Because the conditions are inverted, the body never carries a truthy
      `action` or `remember2fa`: asking to remember the device is never sent. */
  lemma ValidateBodyOmitsTruthyFlags(intent: Intent)
    ensures var body := ValidateBody(intent);
      && ("action" in body.fields ==> !Truthy(body.fields["action"]))
      && ("remember2fa" in body.fields ==> !Truthy(body.fields["remember2fa"]))
  {
  }

  /** The request builders of the adapter. */
  datatype Initiator = StatusCall | ValidateCall | SendSmsCall | AppAuthCodesCall

  /** The descriptor each builder sends. */
  function Descriptor(call: Initiator, intent: Intent): (r: Request)
    ensures r.apiVersion == "1.1"
    ensures r.httpMethod == Post <==> call == ValidateCall || call == SendSmsCall
    ensures r.body != Undefined <==> call == ValidateCall
    ensures call == ValidateCall ==> r.body == Object(ValidateBody(intent))
  {
    match call
    case StatusCall => Request("1.1", Get, "/me/two-step/", Undefined)
    case ValidateCall => Request("1.1", Post, "/me/two-step/validate", Object(ValidateBody(intent)))
    case SendSmsCall => Request("1.1", Post, "/me/two-step/sms/new", Undefined)
    case AppAuthCodesCall => Request("1.1", Get, "/me/two-step/app-auth-setup/", Undefined)
  }

  /** Each builder has an endpoint of its own, and only the validation body
      depends on the intent. */
  lemma DescriptorEndpoints(c1: Initiator, c2: Initiator, i1: Intent, i2: Intent)
    ensures c1 != c2 ==> Descriptor(c1, i1).path != Descriptor(c2, i2).path
    ensures c1 != ValidateCall ==> Descriptor(c1, i1) == Descriptor(c1, i2)
  {
  }

  // ---------------------------------------------------------------------
  // The store and its dispatch
  // ---------------------------------------------------------------------

  /** The store, seen through the actions dispatched to it. */
  class Store {
    var log: seq<Action>

    constructor ()
      ensures log == []
    {
      log := [];
    }

    /** `dispatch(a)` */
    method Dispatch(a: Action)
      modifies this
      ensures log == old(log) + [a]
    {
      log := log + [a];
    }
  }

  // ---------------------------------------------------------------------
  // Request builders
  // ---------------------------------------------------------------------

  method RequestTwoStep(store: Store, action: Intent)
    modifies store
    ensures store.log == old(store.log) + [Http(Descriptor(StatusCall, action), action)]
  {
    store.Dispatch(Http(Request("1.1", Get, "/me/two-step/", Undefined), action));
  }

  method ValidateTwoStepCode(store: Store, action: Intent)
    modifies store
    ensures store.log == old(store.log) + [Http(Descriptor(ValidateCall, action), action)]
  {
    store.Dispatch(Http(Request("1.1", Post, "/me/two-step/validate", Object(ValidateBody(action))), action));
  }

  method SendSmsValidationCode(store: Store, action: Intent)
    modifies store
    ensures store.log == old(store.log) + [Http(Descriptor(SendSmsCall, action), action)]
  {
    store.Dispatch(Http(Request("1.1", Post, "/me/two-step/sms/new", Undefined), action));
  }

  method GetAppAuthCodes(store: Store, action: Intent)
    modifies store
    ensures store.log == old(store.log) + [Http(Descriptor(AppAuthCodesCall, action), action)]
  {
    store.Dispatch(Http(Request("1.1", Get, "/me/two-step/app-auth-setup/", Undefined), action));
  }

  // ---------------------------------------------------------------------
  // Store handlers
  // ---------------------------------------------------------------------

  method StoreFetchedTwoStep(store: Store, camelCase: string -> string, action: Intent, data: JsObject<JsValue>)
    requires WellFormed(data)
    modifies store
    ensures store.log == old(store.log) + [SetTwoStep(FromApiSpec(camelCase, data.keys, data.fields))]
  {
    var twoStep := FromApi(camelCase, data);
    store.Dispatch(SetTwoStep(twoStep));
  }

  method StoreTwoStepCodeValidationResult(store: Store, camelCase: string -> string, action: Intent, data: JsObject<JsValue>)
    requires WellFormed(data)
    modifies store
    ensures store.log == old(store.log) + [SetTwoStepCodeValidationResult(FromApiSpec(camelCase, data.keys, data.fields))]
  {
    var validation := FromApi(camelCase, data);
    store.Dispatch(SetTwoStepCodeValidationResult(validation));
  }

  method StoreSendSmsValidationCodeResult(store: Store, camelCase: string -> string, action: Intent, data: JsObject<JsValue>)
    requires WellFormed(data)
    modifies store
    ensures store.log == old(store.log) + [SetTwoStepSendSmsValidationCodeResult(Object(FromApiSpec(camelCase, data.keys, data.fields)))]
  {
    var result := FromApi(camelCase, data);
    store.Dispatch(SetTwoStepSendSmsValidationCodeResult(Object(result)));
  }

  /** The error is stored as it came, without key casing. */
  method StoreSendSmsValidationCodeError(store: Store, action: Intent, error: JsValue)
    modifies store
    ensures store.log == old(store.log) + [SetTwoStepSendSmsValidationCodeResult(error)]
  {
    store.Dispatch(SetTwoStepSendSmsValidationCodeResult(error));
  }

  // ---------------------------------------------------------------------
  // Routing
  // ---------------------------------------------------------------------

  datatype SuccessHandler = StoreFetched | StoreValidationResult | StoreSmsResult | IgnoreSuccess
  datatype ErrorHandler = StoreSmsError | IgnoreError

  /** `dispatchRequest(initiator, onSuccess, onError)` */
  datatype Route = Route(initiator: Initiator, onSuccess: SuccessHandler, onError: ErrorHandler)

  /** The exported table: one route for each of the four action types. */
  function Handlers(): (table: map<ActionType, seq<Route>>)
    ensures table.Keys == {TwoStepRequest, TwoStepValidateCodeRequest, TwoStepSendSmsCodeRequest, TwoStepAppAuthCodesRequest}
    ensures forall t :: t in table ==> |table[t]| == 1
  {
    map[
      TwoStepRequest := [Route(StatusCall, StoreFetched, IgnoreError)],
      TwoStepValidateCodeRequest := [Route(ValidateCall, StoreValidationResult, IgnoreError)],
      TwoStepSendSmsCodeRequest := [Route(SendSmsCall, StoreSmsResult, StoreSmsError)],
      TwoStepAppAuthCodesRequest := [Route(AppAuthCodesCall, IgnoreSuccess, IgnoreError)]
    ]
  }

  /** The actions a success continuation dispatches for a response. */
  function SuccessActions(h: SuccessHandler, camelCase: string -> string, data: JsObject<JsValue>): (actions: seq<Action>)
    requires WellFormed(data)
    ensures h == StoreFetched ==> actions == [SetTwoStep(FromApiSpec(camelCase, data.keys, data.fields))]
    ensures h == StoreValidationResult ==> actions == [SetTwoStepCodeValidationResult(FromApiSpec(camelCase, data.keys, data.fields))]
    ensures h == StoreSmsResult ==> actions == [SetTwoStepSendSmsValidationCodeResult(Object(FromApiSpec(camelCase, data.keys, data.fields)))]
    ensures h == IgnoreSuccess ==> actions == []
  {
    var transformed := FromApiSpec(camelCase, data.keys, data.fields);
    match h
    case StoreFetched => [SetTwoStep(transformed)]
    case StoreValidationResult => [SetTwoStepCodeValidationResult(transformed)]
    case StoreSmsResult => [SetTwoStepSendSmsValidationCodeResult(Object(transformed))]
    case IgnoreSuccess => []
  }

  /** The actions an error continuation dispatches for an error. */
  function ErrorActions(h: ErrorHandler, error: JsValue): (actions: seq<Action>)
    ensures h == IgnoreError ==> actions == []
    ensures h == StoreSmsError ==> actions == [SetTwoStepSendSmsValidationCodeResult(error)]
  {
    match h
    case StoreSmsError => [SetTwoStepSendSmsValidationCodeResult(error)]
    case IgnoreError => []
  }

  /** Runs a route's request builder. */
  method RunInitiator(store: Store, call: Initiator, action: Intent)
    modifies store
    ensures store.log == old(store.log) + [Http(Descriptor(call, action), action)]
  {
    match call
    case StatusCall => RequestTwoStep(store, action);
    case ValidateCall => ValidateTwoStepCode(store, action);
    case SendSmsCall => SendSmsValidationCode(store, action);
    case AppAuthCodesCall => GetAppAuthCodes(store, action);
  }

  /** Runs a route's success continuation; `noop` dispatches nothing. */
  method RunSuccess(store: Store, h: SuccessHandler, camelCase: string -> string, action: Intent, data: JsObject<JsValue>)
    requires WellFormed(data)
    modifies store
    ensures store.log == old(store.log) + SuccessActions(h, camelCase, data)
  {
    match h
    case StoreFetched => StoreFetchedTwoStep(store, camelCase, action, data);
    case StoreValidationResult => StoreTwoStepCodeValidationResult(store, camelCase, action, data);
    case StoreSmsResult => StoreSendSmsValidationCodeResult(store, camelCase, action, data);
    case IgnoreSuccess =>
  }

  /** Runs a route's error continuation; `noop` dispatches nothing. */
  method RunError(store: Store, h: ErrorHandler, action: Intent, error: JsValue)
    modifies store
    ensures store.log == old(store.log) + ErrorActions(h, error)
  {
    match h
    case StoreSmsError => StoreSendSmsValidationCodeError(store, action, error);
    case IgnoreError =>
  }

  /** What each action type's route does: which endpoint it calls, which
      store action a success becomes (camel-cased), and whether an error is
      stored (raw). */
  lemma RoutingTable(t: ActionType, camelCase: string -> string, data: JsObject<JsValue>, error: JsValue)
    requires WellFormed(data)
    ensures t in Handlers() && |Handlers()[t]| == 1
    ensures var route := Handlers()[t][0];
      var transformed := FromApiSpec(camelCase, data.keys, data.fields);
      && route.initiator == (match t
           case TwoStepRequest => StatusCall
           case TwoStepValidateCodeRequest => ValidateCall
           case TwoStepSendSmsCodeRequest => SendSmsCall
           case TwoStepAppAuthCodesRequest => AppAuthCodesCall)
      && route.onSuccess == (match t
           case TwoStepRequest => StoreFetched
           case TwoStepValidateCodeRequest => StoreValidationResult
           case TwoStepSendSmsCodeRequest => StoreSmsResult
           case TwoStepAppAuthCodesRequest => IgnoreSuccess)
      && SuccessActions(route.onSuccess, camelCase, data) == (match t
           case TwoStepRequest => [SetTwoStep(transformed)]
           case TwoStepValidateCodeRequest => [SetTwoStepCodeValidationResult(transformed)]
           case TwoStepSendSmsCodeRequest => [SetTwoStepSendSmsValidationCodeResult(Object(transformed))]
           case TwoStepAppAuthCodesRequest => [])
      && ErrorActions(route.onError, error)
         == (if t == TwoStepSendSmsCodeRequest then [SetTwoStepSendSmsValidationCodeResult(error)] else [])
  {
  }
}
