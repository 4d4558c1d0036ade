/**
 * The cache state machine of `SSHKeyManager` (infraninja/utils/pubkeys.py).
 *
 * The manager keeps four cached attributes: the SSH keys, the credentials, the session key
 * and the API base URL. Python looks an attribute up on the instance first and on the class
 * after that. The class attributes start as None. Every write of the form `self._x = ...`
 * creates an instance attribute that from then on shadows the class attribute of the same
 * name, while `clear_cache` only resets class attributes. So the model keeps the two layers
 * apart: `ClassAttrs` for the class, `InstanceAttrs` for what the instance has assigned.
 *
 * Each operation is first a function on a snapshot `Manager` of both layers, returning a
 * `Step`: the new snapshot, the result, the HTTP requests made and the number of prompts.
 * The classes at the end perform the same operations in place, and each method is proved
 * to agree with its step function. The environment, typed input and HTTP outcomes are
 * parameters.
 */
module PubKeys {
  import opened Values

  datatype Credentials = Credentials(username: string, password: string)

  /** A response body: JSON that decodes, or text that does not. */
  datatype Body = NotJson | Json(value: Value)

  /** What the network does with one request: an exception, or a reply. */
  datatype HttpOutcome = Raised | Reply(status: int, body: Body)

  /** An HTTP request the manager makes: the login POST, or an authenticated request. */
  datatype Request = Post(url: string, json: Credentials) | Get(url: string, session: Value)

  /** An instance attribute: not assigned yet (reads fall through to the class), or assigned. */
  datatype Slot<T> = Unset | Assigned(value: T)

  /** The class attributes `_ssh_keys`, `_credentials`, `_session_key`, `_base_url`; `Null` is None. */
  datatype ClassAttrs = ClassAttrs(sshKeys: Option<seq<Value>>, credentials: Option<Credentials>,
                                   sessionKey: Value, baseUrl: Option<string>)

  /** The same four attributes as assigned on one instance through `self.`. */
  datatype InstanceAttrs = InstanceAttrs(sshKeys: Slot<seq<Value>>, credentials: Slot<Credentials>,
                                         sessionKey: Slot<Value>, baseUrl: Slot<Option<string>>)

  datatype Manager = Manager(cls: ClassAttrs, inst: InstanceAttrs)

  /** The outcome of one operation. */
  datatype Step<T> = Step(after: Manager, result: T, requests: seq<Request>, prompts: nat)

  const NoInstanceAttrs := InstanceAttrs(Unset, Unset, Unset, Unset)
  const InitialClassAttrs := ClassAttrs(None, None, Null, None)

  // ---------------------------------------------------------------- attribute lookup

  /** `self._ssh_keys` */
  function Keys(m: Manager): Option<seq<Value>> {
    match m.inst.sshKeys
    case Assigned(k) => Some(k)
    case Unset => m.cls.sshKeys
  }

  /** `self._credentials` */
  function Creds(m: Manager): Option<Credentials> {
    match m.inst.credentials
    case Assigned(c) => Some(c)
    case Unset => m.cls.credentials
  }

  /** `self._session_key` */
  function Session(m: Manager): Value {
    match m.inst.sessionKey
    case Assigned(k) => k
    case Unset => m.cls.sessionKey
  }

  /** `self._base_url` */
  function BaseUrl(m: Manager): Option<string> {
    match m.inst.baseUrl
    case Assigned(u) => u
    case Unset => m.cls.baseUrl
  }

  /** Truthiness of an optional string. */
  predicate Filled(s: Option<string>) {
    s.Some? && s.value != ""
  }

  /** Truthiness of an optional list. */
  predicate HasKeys(k: Option<seq<Value>>) {
    k.Some? && k.value != []
  }

  function LoginEndpoint(baseUrl: string): string {
    baseUrl + "/login/"
  }

  function KeyListEndpoint(baseUrl: string): string {
    baseUrl + "/ssh-tools/ssh-keylist/"
  }

  // ---------------------------------------------------------------- response decoding

  /** `response_data.get("session_key")` */
  function LoginReplyKey(v: Value): Value {
    if v.Object? then GetOr(v.fields, "session_key", Null) else Null
  }

  /** `[key_data["key"] for key_data in items]`; None where a lookup raises KeyError. */
  function KeysOf(items: seq<Value>): (r: Option<seq<Value>>)
    ensures r.Some? <==> forall k :: 0 <= k < |items| ==> items[k].Object? && "key" in items[k].fields
    ensures r.Some? ==> |r.value| == |items| && forall k :: 0 <= k < |items| ==> r.value[k] == items[k].fields["key"]
  {
    if items == [] then Some([])
    else
      var rest := KeysOf(items[1..]);
      if !(items[0].Object? && "key" in items[0].fields) then None
      else if rest.None? then
        var k :| 0 <= k < |items[1..]| && !(items[1..][k].Object? && "key" in items[1..][k].fields);
        assert items[k + 1] == items[1..][k];
        None
      else Some([items[0].fields["key"]] + rest.value)
  }

  /** The key list of a key-list response: the "key" of every element of "result", in order. */
  function KeyListOf(body: Body): Option<seq<Value>> {
    match body
    case NotJson => None
    case Json(v) =>
      if v.Object? && "result" in v.fields && v.fields["result"].List? then KeysOf(v.fields["result"].items)
      else None
  }

  // ---------------------------------------------------------------- the operations on a snapshot

  /** `_get_base_url`: the cached URL when it is truthy, otherwise the environment's, assigned on the instance. */
  function BaseUrlStep(m: Manager, env: Option<string>): (r: Step<Option<string>>)
    ensures r.requests == [] && r.prompts == 0 && r.after.cls == m.cls
    ensures Filled(BaseUrl(m)) ==> r.after == m && r.result == BaseUrl(m)
    ensures !Filled(BaseUrl(m)) ==> BaseUrl(r.after) == env && r.result == (if Filled(env) then env else None)
    ensures r.result.None? || Filled(r.result)
    ensures r.result.Some? ==> BaseUrl(r.after) == r.result
    ensures Keys(r.after) == Keys(m) && Creds(r.after) == Creds(m) && Session(r.after) == Session(m)
    ensures r.after.inst == (if Filled(BaseUrl(m)) then m.inst else m.inst.(baseUrl := Assigned(env)))
  {
    if Filled(BaseUrl(m)) then Step(m, BaseUrl(m), [], 0)
    else
      var after := m.(inst := m.inst.(baseUrl := Assigned(env)));
      Step(after, if Filled(env) then env else None, [], 0)
  }

  /** `_get_credentials`: the cached credentials, or one prompt whose answer is assigned on the instance. */
  function CredentialsStep(m: Manager, username: string, password: string): (r: Step<Credentials>)
    ensures r.requests == [] && r.after.cls == m.cls && Creds(r.after) == Some(r.result)
    ensures Creds(m).Some? ==> r.after == m && r.result == Creds(m).value && r.prompts == 0
    ensures Creds(m).None? ==> r.result == Credentials(username, password) && r.prompts == 1
    ensures Keys(r.after) == Keys(m) && Session(r.after) == Session(m) && BaseUrl(r.after) == BaseUrl(m)
    ensures Creds(m).None? ==> r.after.inst == m.inst.(credentials := Assigned(r.result))
  {
    if Creds(m).Some? then Step(m, Creds(m).value, [], 0)
    else
      var c := Credentials(username, password);
      Step(m.(inst := m.inst.(credentials := Assigned(c))), c, [], 1)
  }

  /** `_make_auth_request`: no request without a session; the body of a 200 reply, None for anything else. */
  function AuthRequestStep(m: Manager, url: string, outcome: HttpOutcome): (r: Step<Option<Body>>)
    ensures r.after == m && r.prompts == 0
    ensures !Truthy(Session(m)) ==> r.requests == [] && r.result.None?
    ensures Truthy(Session(m)) ==> r.requests == [Get(url, Session(m))]
    ensures r.result.Some? <==> Truthy(Session(m)) && outcome.Reply? && outcome.status == 200
    ensures r.result.Some? ==> r.result.value == outcome.body
  {
    if !Truthy(Session(m)) then Step(m, None, [], 0)
    else
      var resp := if outcome.Reply? && outcome.status == 200 then Some(outcome.body) else None;
      Step(m, resp, [Get(url, Session(m))], 0)
  }

  /**
   * `_login`: true at once with a truthy cached session; otherwise the base URL, the
   * credentials, and one POST to `<base>/login/` whose 200 JSON reply supplies the session
   * key, assigned on the instance.
   */
  function LoginStep(m: Manager, env: Option<string>, username: string, password: string, outcome: HttpOutcome)
    : (r: Step<bool>)
    ensures r.result <==> Truthy(Session(r.after))
    ensures r.after.cls == m.cls && Keys(r.after) == Keys(m)
    ensures Truthy(Session(m)) ==> r.after == m && r.requests == [] && r.prompts == 0
    ensures r.prompts <= 1 && (r.prompts == 1 ==> Creds(m).None?)
    ensures |r.requests| <= 1
    ensures r.requests != [] ==>
              Filled(BaseUrl(r.after)) && Creds(r.after).Some?
              && r.requests[0] == Post(LoginEndpoint(BaseUrl(r.after).value), Creds(r.after).value)
    ensures !Truthy(Session(m)) && r.requests == [] ==> !r.result && !Filled(BaseUrl(r.after))
    ensures !Truthy(Session(m)) && r.result ==>
              r.requests != [] && outcome.Reply? && outcome.status == 200 && outcome.body.Json?
              && r.after.inst.sessionKey == Assigned(LoginReplyKey(outcome.body.value))
    ensures !Truthy(Session(m)) ==> BaseUrl(r.after) == (if Filled(BaseUrl(m)) then BaseUrl(m) else env)
    ensures !Truthy(Session(m)) && !Filled(BaseUrl(r.after)) ==> !r.result && r.requests == [] && r.prompts == 0
    ensures !Truthy(Session(m)) && Filled(BaseUrl(r.after)) ==>
              && r.requests == [Post(LoginEndpoint(BaseUrl(r.after).value),
                                     if Creds(m).Some? then Creds(m).value else Credentials(username, password))]
              && r.prompts == (if Creds(m).Some? then 0 else 1)
              && Creds(r.after) == Some(r.requests[0].json)
    ensures !Truthy(Session(m)) && Filled(BaseUrl(r.after)) && outcome.Reply? && outcome.status == 200 && outcome.body.Json? ==>
              && r.after.inst.sessionKey == Assigned(LoginReplyKey(outcome.body.value))
              && (r.result <==> Truthy(LoginReplyKey(outcome.body.value)))
    ensures !Truthy(Session(m)) && !Filled(BaseUrl(r.after)) ==> r.after.inst == m.inst.(baseUrl := Assigned(env))
    ensures !Truthy(Session(m)) && !(outcome.Reply? && outcome.status == 200 && outcome.body.Json?) ==>
              !r.result && Session(r.after) == Session(m)
    ensures !Truthy(Session(m)) && Filled(BaseUrl(r.after)) ==>
              && r.after.inst.sshKeys == m.inst.sshKeys
              && r.after.inst.baseUrl == (if Filled(BaseUrl(m)) then m.inst.baseUrl else Assigned(env))
              && r.after.inst.credentials == (if Creds(m).Some? then m.inst.credentials
                                              else Assigned(Credentials(username, password)))
              && r.after.inst.sessionKey == (if outcome.Reply? && outcome.status == 200 && outcome.body.Json?
                                             then Assigned(LoginReplyKey(outcome.body.value)) else m.inst.sessionKey)
  {
    if Truthy(Session(m)) then Step(m, true, [], 0)
    else
      var b := BaseUrlStep(m, env);
      if b.result.None? then Step(b.after, false, [], 0)
      else
        var c := CredentialsStep(b.after, username, password);
        var sent := [Post(LoginEndpoint(b.result.value), c.result)];
        if outcome.Reply? && outcome.status == 200 && outcome.body.Json? then
          var key := LoginReplyKey(outcome.body.value);
          Step(c.after.(inst := c.after.inst.(sessionKey := Assigned(key))), Truthy(key), sent, c.prompts)
        else
          Step(c.after, false, sent, c.prompts)
  }

  /**
   * `fetch_ssh_keys`: the cached keys when they are non-empty and no refresh is forced;
   * otherwise a login, the base URL, and one authenticated request to
   * `<base>/ssh-tools/ssh-keylist/` whose key list is assigned on the instance.
   */
  function KeysStep(m: Manager, forceRefresh: bool, env: Option<string>, username: string, password: string,
                    loginOutcome: HttpOutcome, keysOutcome: HttpOutcome): (r: Step<Option<seq<Value>>>)
    ensures r.after.cls == m.cls
    ensures HasKeys(Keys(m)) && !forceRefresh ==>
              r.after == m && r.result == Keys(m) && r.requests == [] && r.prompts == 0
    ensures r.result.None? ==> Keys(r.after) == Keys(m)
    ensures r.result.Some? && (forceRefresh || !HasKeys(Keys(m))) ==>
              keysOutcome.Reply? && keysOutcome.status == 200 && r.result == KeyListOf(keysOutcome.body)
              && r.after.inst.sshKeys == Assigned(r.result.value)
              && Truthy(Session(r.after)) && Filled(BaseUrl(r.after)) && r.requests != []
              && r.requests[|r.requests| - 1] == Get(KeyListEndpoint(BaseUrl(r.after).value), Session(r.after))
    ensures r.prompts <= 1 && |r.requests| <= 2
    ensures (forceRefresh || !HasKeys(Keys(m))) && LoginStep(m, env, username, password, loginOutcome).result
            && BaseUrlStep(LoginStep(m, env, username, password, loginOutcome).after, env).result.Some?
            && keysOutcome.Reply? && keysOutcome.status == 200 ==>
              && r.result == KeyListOf(keysOutcome.body)
              && (r.result.Some? ==> Keys(r.after) == r.result)
    ensures forceRefresh || !HasKeys(Keys(m)) ==>
              var l := LoginStep(m, env, username, password, loginOutcome);
              var b := BaseUrlStep(l.after, env);
              && r.prompts == l.prompts
              && r.requests == l.requests + (if l.result && b.result.Some?
                                             then [Get(KeyListEndpoint(b.result.value), Session(l.after))] else [])
              && Session(r.after) == Session(l.after) && Creds(r.after) == Creds(l.after)
              && (!l.result ==> r.after == l.after && r.result.None?)
              && (l.result ==> r.after == (if r.result.Some? then b.after.(inst := b.after.inst.(sshKeys := Assigned(r.result.value)))
                                          else b.after))
  {
    if HasKeys(Keys(m)) && !forceRefresh then Step(m, Keys(m), [], 0)
    else
      var l := LoginStep(m, env, username, password, loginOutcome);
      if !l.result then Step(l.after, None, l.requests, l.prompts)
      else
        var b := BaseUrlStep(l.after, env);
        if b.result.None? then Step(b.after, None, l.requests, l.prompts)
        else
          var a := AuthRequestStep(b.after, KeyListEndpoint(b.result.value), keysOutcome);
          var keys := if a.result.Some? then KeyListOf(a.result.value) else None;
          if keys.None? then Step(b.after, None, l.requests + a.requests, l.prompts)
          else Step(b.after.(inst := b.after.inst.(sshKeys := Assigned(keys.value))), keys, l.requests + a.requests, l.prompts)
  }

  /**
   * `clear_cache` as written: the class attributes for keys, credentials and session go back
   * to None. Whatever the instance has assigned still shadows them.
   */
  function ClearCacheStep(m: Manager): (r: Manager)
    ensures BaseUrl(r) == BaseUrl(m)
    ensures Keys(r) == (if m.inst.sshKeys.Assigned? then Keys(m) else None)
    ensures Creds(r) == (if m.inst.credentials.Assigned? then Creds(m) else None)
    ensures Session(r) == (if m.inst.sessionKey.Assigned? then Session(m) else Null)
    ensures r.inst == m.inst
    ensures r.cls == m.cls.(sshKeys := None, credentials := None, sessionKey := Null)
  {
    m.(cls := m.cls.(sshKeys := None, credentials := None, sessionKey := Null))
  }

  /** After a login that obtained a session, `clear_cache` leaves it in force: the next login sends nothing. */
  lemma StaleSessionAfterClearCache(m: Manager, env: Option<string>, username: string, password: string,
                                    outcome: HttpOutcome, env': Option<string>, username': string,
                                    password': string, outcome': HttpOutcome)
    requires !Truthy(Session(m)) && LoginStep(m, env, username, password, outcome).result
    ensures var cleared := ClearCacheStep(LoginStep(m, env, username, password, outcome).after);
            Truthy(Session(cleared)) && LoginStep(cleared, env', username', password', outcome') == Step(cleared, true, [], 0)
  {
    var l := LoginStep(m, env, username, password, outcome);
    assert l.after.inst.sessionKey.Assigned?;
  }

  /** Keys fetched from the server survive `clear_cache`: the next fetch returns them and sends nothing. */
  lemma StaleKeysAfterClearCache(m: Manager, forceRefresh: bool, env: Option<string>, username: string,
                                 password: string, loginOutcome: HttpOutcome, keysOutcome: HttpOutcome,
                                 env': Option<string>, username': string, password': string,
                                 loginOutcome': HttpOutcome, keysOutcome': HttpOutcome)
    requires forceRefresh || !HasKeys(Keys(m))
    requires HasKeys(KeysStep(m, forceRefresh, env, username, password, loginOutcome, keysOutcome).result)
    ensures var r := KeysStep(m, forceRefresh, env, username, password, loginOutcome, keysOutcome);
            var cleared := ClearCacheStep(r.after);
            KeysStep(cleared, false, env', username', password', loginOutcome', keysOutcome') == Step(cleared, r.result, [], 0)
  {
    var r := KeysStep(m, forceRefresh, env, username, password, loginOutcome, keysOutcome);
    assert r.after.inst.sshKeys == Assigned(r.result.value);
  }

  /** What clearing the caches evidently means: keys, credentials and session are gone on both layers. */
  function ClearAllCachesStep(m: Manager): (r: Manager)
    ensures Keys(r) == None && Creds(r) == None && Session(r) == Null
    ensures BaseUrl(r) == BaseUrl(m)
  {
    Manager(m.cls.(sshKeys := None, credentials := None, sessionKey := Null),
            m.inst.(sshKeys := Unset, credentials := Unset, sessionKey := Unset))
  }

  /** After clearing both layers, a login prompts once and posts the fresh credentials. */
  lemma FreshLoginAfterClearAll(m: Manager, env: Option<string>, username: string, password: string, outcome: HttpOutcome)
    requires Filled(BaseUrl(m))
    ensures var r := LoginStep(ClearAllCachesStep(m), env, username, password, outcome);
            r.prompts == 1 && r.requests == [Post(LoginEndpoint(BaseUrl(m).value), Credentials(username, password))]
  {
  }

  /** After clearing both layers, even a non-forced fetch logs in again before it can return keys. */
  lemma FreshFetchAfterClearAll(m: Manager, env: Option<string>, username: string, password: string,
                                loginOutcome: HttpOutcome, keysOutcome: HttpOutcome)
    requires Filled(BaseUrl(m))
    ensures var r := KeysStep(ClearAllCachesStep(m), false, env, username, password, loginOutcome, keysOutcome);
            r.prompts == 1 && r.requests != []
            && r.requests[0] == Post(LoginEndpoint(BaseUrl(m).value), Credentials(username, password))
  {
    FreshLoginAfterClearAll(m, env, username, password, loginOutcome);
  }

  /** A second login after a successful one sends nothing and prompts for nothing. */
  lemma LoginIsCached(m: Manager, env: Option<string>, username: string, password: string, outcome: HttpOutcome,
                      env': Option<string>, username': string, password': string, outcome': HttpOutcome)
    requires LoginStep(m, env, username, password, outcome).result
    ensures var after := LoginStep(m, env, username, password, outcome).after;
            LoginStep(after, env', username', password', outcome') == Step(after, true, [], 0)
  {
  }

  /** A non-forced fetch after one that returned keys returns the same keys and sends nothing. */
  lemma FetchIsCached(m: Manager, forceRefresh: bool, env: Option<string>, username: string, password: string,
                      loginOutcome: HttpOutcome, keysOutcome: HttpOutcome, env': Option<string>,
                      username': string, password': string, loginOutcome': HttpOutcome, keysOutcome': HttpOutcome)
    requires HasKeys(KeysStep(m, forceRefresh, env, username, password, loginOutcome, keysOutcome).result)
    ensures var r := KeysStep(m, forceRefresh, env, username, password, loginOutcome, keysOutcome);
            KeysStep(r.after, false, env', username', password', loginOutcome', keysOutcome') == Step(r.after, r.result, [], 0)
  {
  }

  /** A fetch that has to go to the server and whose login fails returns None after the login's own requests. */
  lemma FetchFailsWithoutLogin(m: Manager, forceRefresh: bool, env: Option<string>, username: string, password: string,
                               loginOutcome: HttpOutcome, keysOutcome: HttpOutcome)
    requires forceRefresh || !HasKeys(Keys(m))
    requires !LoginStep(m, env, username, password, loginOutcome).result
    ensures var r := KeysStep(m, forceRefresh, env, username, password, loginOutcome, keysOutcome);
            var l := LoginStep(m, env, username, password, loginOutcome);
            r.result.None? && r.requests == l.requests && r.after == l.after
  {
  }

  /**
   * From a fresh manager, with `JINN_API_URL` set, a login reply carrying a truthy session key
   * and a 200 key-list reply: the fetch prompts once, posts the typed credentials, requests the
   * key list with the new session, and returns the key list of that reply.
   */
  lemma FetchFromFreshManager(env: string, username: string, password: string, key: Value, keysBody: Body)
    requires env != "" && Truthy(key)
    ensures var r := KeysStep(Manager(InitialClassAttrs, NoInstanceAttrs), false, Some(env), username, password,
                              Reply(200, Json(Object(map["session_key" := key]))), Reply(200, keysBody));
            && r.result == KeyListOf(keysBody) && r.prompts == 1
            && r.requests == [Post(LoginEndpoint(env), Credentials(username, password)), Get(KeyListEndpoint(env), key)]
            && (r.result.Some? ==> Keys(r.after) == r.result)
  {
    var m := Manager(InitialClassAttrs, NoInstanceAttrs);
    var l := LoginStep(m, Some(env), username, password, Reply(200, Json(Object(map["session_key" := key]))));
    assert LoginReplyKey(Json(Object(map["session_key" := key])).value) == key;
    assert l.result && Session(l.after) == key && BaseUrl(l.after) == Some(env);
  }

  // ---------------------------------------------------------------- the objects

  /** The class object `SSHKeyManager` itself: the class attributes and the singleton slot. */
  class KeyManagerClass {
    var sshKeys: Option<seq<Value>>
    var credentials: Option<Credentials>
    var sessionKey: Value
    var baseUrl: Option<string>
    var instance: SSHKeyManager?

    function Attrs(): ClassAttrs
      reads this
    {
      ClassAttrs(sshKeys, credentials, sessionKey, baseUrl)
    }

    /** The singleton, once there is one, is an instance of this class. */
    predicate Valid()
      reads this
    {
      instance != null ==> instance.cls == this
    }

    /** The class as defined: every attribute None, no instance yet. */
    constructor()
      ensures Attrs() == InitialClassAttrs && instance == null && Valid()
    {
      sshKeys := None;
      credentials := None;
      sessionKey := Null;
      baseUrl := None;
      instance := null;
    }

    /** `get_instance`: create the instance on the first call, return that same instance on every call. */
    method GetInstance(env: Option<string>) returns (m: SSHKeyManager)
      requires Valid()
      modifies this
      ensures Valid() && instance == m && m.cls == this
      ensures old(instance) != null ==> m == old(instance) && Attrs() == old(Attrs())
      ensures old(instance) == null ==>
                fresh(m) && m.Inst() == NoInstanceAttrs && m.log == [] && m.prompts == 0
                && Attrs() == old(Attrs()).(baseUrl := if old(baseUrl).None? then env else old(baseUrl))
    {
      if instance == null {
        var created := new SSHKeyManager(this, env);
        instance := created;
      }
      m := instance;
    }
  }

  /**
   * An `SSHKeyManager` instance: the attributes it has assigned through `self.`, over the
   * class attributes in `cls`. `log` and `prompts` record the HTTP requests sent and the
   * credential prompts shown.
   */
  class SSHKeyManager {
    const cls: KeyManagerClass
    var sshKeys: Slot<seq<Value>>
    var credentials: Slot<Credentials>
    var sessionKey: Slot<Value>
    var baseUrl: Slot<Option<string>>
    ghost var log: seq<Request>
    ghost var prompts: nat

    function Inst(): InstanceAttrs
      reads this
    {
      InstanceAttrs(sshKeys, credentials, sessionKey, baseUrl)
    }

    /** Both layers, as attribute reads on this instance see them. */
    function View(): Manager
      reads this, cls
    {
      Manager(cls.Attrs(), Inst())
    }

    /** `__init__`: fill the class base URL from the environment if it is still None. */
    constructor(c: KeyManagerClass, env: Option<string>)
      modifies c`baseUrl
      ensures cls == c && Inst() == NoInstanceAttrs && log == [] && prompts == 0
      ensures c.baseUrl == (if old(c.baseUrl).None? then env else old(c.baseUrl))
    {
      cls := c;
      sshKeys := Unset;
      credentials := Unset;
      sessionKey := Unset;
      baseUrl := Unset;
      log := [];
      prompts := 0;
      new;
      if c.baseUrl.None? {
        c.baseUrl := env;
      }
    }

    /** `_get_base_url` */
    method GetBaseUrl(env: Option<string>) returns (url: Option<string>)
      modifies this`baseUrl
      ensures var s := BaseUrlStep(old(View()), env); View() == s.after && url == s.result
    {
      if !Filled(BaseUrl(View())) {
        baseUrl := Assigned(env);
        if !Filled(env) {
          return None;
        }
      }
      url := BaseUrl(View());
    }

    /** `_get_credentials`; `username` and `password` are what the prompts would read. */
    method GetCredentials(username: string, password: string) returns (c: Credentials)
      modifies this`credentials, this`prompts
      ensures var s := CredentialsStep(old(View()), username, password);
              View() == s.after && c == s.result && prompts == old(prompts) + s.prompts
    {
      var cached := Creds(View());
      if cached.Some? {
        return cached.value;
      }
      prompts := prompts + 1;
      c := Credentials(username, password);
      credentials := Assigned(c);
    }

    /** `_make_auth_request`; `outcome` is what the request to `url` would meet. */
    method MakeAuthRequest(url: string, outcome: HttpOutcome) returns (response: Option<Body>)
      modifies this`log
      ensures var s := AuthRequestStep(View(), url, outcome); response == s.result && log == old(log) + s.requests
    {
      var session := Session(View());
      if !Truthy(session) {
        return None;
      }
      log := log + [Get(url, session)];
      if outcome.Reply? && outcome.status == 200 {
        response := Some(outcome.body);
      } else {
        response := None;
      }
    }

    /** `_login`; `outcome` is what the login POST would meet. */
    method Login(env: Option<string>, username: string, password: string, outcome: HttpOutcome) returns (ok: bool)
      modifies this`baseUrl, this`credentials, this`sessionKey, this`log, this`prompts
      ensures var s := LoginStep(old(View()), env, username, password, outcome);
              View() == s.after && ok == s.result && log == old(log) + s.requests && prompts == old(prompts) + s.prompts
    {
      if Truthy(Session(View())) {
        return true;
      }
      var base := GetBaseUrl(env);
      if base.None? {
        return false;
      }
      var c := GetCredentials(username, password);
      log := log + [Post(LoginEndpoint(base.value), c)];
      if outcome.Reply? && outcome.status == 200 && outcome.body.Json? {
        var key := LoginReplyKey(outcome.body.value);
        sessionKey := Assigned(key);
        ok := Truthy(key);
      } else {
        ok := false;
      }
    }

    /** `fetch_ssh_keys`; the two outcomes are what the login and the key-list requests would meet. */
    method FetchSshKeys(forceRefresh: bool, env: Option<string>, username: string, password: string,
                        loginOutcome: HttpOutcome, keysOutcome: HttpOutcome) returns (keys: Option<seq<Value>>)
      modifies this`baseUrl, this`credentials, this`sessionKey, this`sshKeys, this`log, this`prompts
      ensures var s := KeysStep(old(View()), forceRefresh, env, username, password, loginOutcome, keysOutcome);
              View() == s.after && keys == s.result && log == old(log) + s.requests && prompts == old(prompts) + s.prompts
    {
      if HasKeys(Keys(View())) && !forceRefresh {
        return Keys(View());
      }
      ghost var s := KeysStep(View(), forceRefresh, env, username, password, loginOutcome, keysOutcome);
      ghost var l := LoginStep(View(), env, username, password, loginOutcome);
      var loggedIn := Login(env, username, password, loginOutcome);
      assert View() == l.after && loggedIn == l.result;
      if !loggedIn {
        assert s == Step(l.after, None, l.requests, l.prompts);
        return None;
      }
      ghost var b := BaseUrlStep(View(), env);
      var base := GetBaseUrl(env);
      if base.None? {
        assert s == Step(b.after, None, l.requests, l.prompts);
        return None;
      }
      assert View() == b.after && log == old(log) + l.requests && prompts == old(prompts) + l.prompts;
      ghost var a := AuthRequestStep(View(), KeyListEndpoint(base.value), keysOutcome);
      var response := MakeAuthRequest(KeyListEndpoint(base.value), keysOutcome);
      assert response == a.result && log == old(log) + (l.requests + a.requests);
      keys := if response.Some? then KeyListOf(response.value) else None;
      if keys.Some? {
        sshKeys := Assigned(keys.value);
        assert s == Step(b.after.(inst := b.after.inst.(sshKeys := Assigned(keys.value))), keys, l.requests + a.requests, l.prompts);
      } else {
        assert s == Step(b.after, None, l.requests + a.requests, l.prompts);
      }
    }

    /** `clear_cache` as written: only the class attributes are reset. */
    method ClearCache() returns (cleared: bool)
      modifies cls`sshKeys, cls`credentials, cls`sessionKey
      ensures cleared && View() == ClearCacheStep(old(View()))
    {
      cls.credentials := None;
      cls.sshKeys := None;
      cls.sessionKey := Null;
      cleared := true;
    }

    /** The corrected `clear_cache`: the attributes this instance assigned are dropped as well. */
    method ClearAllCaches() returns (cleared: bool)
      modifies cls`sshKeys, cls`credentials, cls`sessionKey, this`sshKeys, this`credentials, this`sessionKey
      ensures cleared && View() == ClearAllCachesStep(old(View()))
    {
      cls.credentials := None;
      cls.sshKeys := None;
      cls.sessionKey := Null;
      credentials := Unset;
      sshKeys := Unset;
      sessionKey := Unset;
      cleared := true;
    }
  }
}
