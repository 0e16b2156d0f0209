/** The serverless chat proxy (`api/chat.js`): request validation, mode and
    pool selection, and the key-failover loop with its per-key cooldown map.

    The network call is an oracle: `upstream` maps the outbound request of
    one attempt to its outcome.  Every slot is tried at most once per
    incoming request, so a function of the request is as general as a
    sequence of outcomes consumed one per attempt.  The clock is the
    parameter `now`, captured once per request as the source does. */
module ChatRouter {
  import opened Wrappers
  import opened JsString

  /** Cooldown window after a 429, in milliseconds. */
  const CooldownTime: int := 60 * 1000
  /** The upstream model name; every slot sends this one. */
  const UpstreamModel: string := "llama-3.1-8b-instant"
  const BusyMessage: string := "Ventora is busy. Please try again shortly."
  const DefaultTemperature: real := 0.7
  const DefaultMaxTokens: real := 1024.0

  datatype Message = Message(role: string, content: string)

  /** `req.body.messages`: an array, or any other value. */
  datatype MessagesField = MessagesArray(items: seq<Message>) | NotAnArray

  /** `req.body.model`: undefined or null, a string, or some other value
      (on which `model?.replace` throws a TypeError). */
  datatype ModelField = NoModel | ModelString(name: string) | ModelOther

  /** A numeric body field as received: the destructuring default applies
      only to `Undefined`; `Null` and numbers are sent on unchanged.
      Numbers are carried as opaque reals. */
  datatype NumField = Undefined | Null | Number(value: real)

  datatype RequestBody = RequestBody(messages: MessagesField, model: ModelField,
                                     temperature: NumField, maxTokens: NumField)

  /** An incoming request; `body` is `None` when `req.body` is undefined or
      null, on which the destructuring throws. */
  datatype ChatRequest = ChatRequest(httpMethod: string, body: Option<RequestBody>)

  /** The four credentials read from the process environment; "" = unset. */
  datatype Env = Env(main: string, backup: string, research: string, study: string)

  /** One entry of a pool. */
  datatype Slot = Slot(name: string, key: string, systemPrompt: string)

  /** What is sent upstream for one attempt: the bearer key and the JSON body. */
  datatype UpstreamCall = UpstreamCall(key: string, model: string, temperature: NumField,
                                       maxTokens: NumField, messages: seq<Message>)

  /** The outcome of one attempt: a 2xx reply whose JSON is the payload, a
      reply with a status outside 200-299 and its body text, or an exception
      (network failure, or a 2xx body that is not JSON) with its message. */
  datatype Outcome = Ok(payload: string) | Status(code: FailStatus, body: string) | Threw(message: string)

  /** A status `response.ok` rejects: anything outside 200-299. */
  type FailStatus = c: int | !(200 <= c <= 299) witness 500

  /** What the handler answers. `Crashed` is an exception the handler does
      not catch; the hosting runtime turns it into a 500. */
  datatype Response =
    | Preflight                                   // 200, no body
    | ErrorReply(status: int, error: string)      // 405 or 400
    | Completion(payload: string)                 // 200, upstream JSON
    | Busy(details: Option<string>)               // 429, BusyMessage + details
    | Crashed

  function StatusOf(r: Response): int {
    match r
    case Preflight => 200
    case ErrorReply(s, _) => s
    case Completion(_) => 200
    case Busy(_) => 429
    case Crashed => 500
  }

  /** The request-shaping values every attempt shares. */
  datatype Shaping = Shaping(temperature: NumField, maxTokens: NumField, messages: seq<Message>)

  function ShapingOf(body: RequestBody): (p: Shaping)
    requires body.messages.MessagesArray?
    ensures p.messages == body.messages.items
    ensures body.temperature.Undefined? ==> p.temperature == Number(DefaultTemperature)
    ensures !body.temperature.Undefined? ==> p.temperature == body.temperature
    ensures body.maxTokens.Undefined? ==> p.maxTokens == Number(DefaultMaxTokens)
    ensures !body.maxTokens.Undefined? ==> p.maxTokens == body.maxTokens
  {
    Shaping(if body.temperature.Undefined? then Number(DefaultTemperature) else body.temperature,
            if body.maxTokens.Undefined? then Number(DefaultMaxTokens) else body.maxTokens,
            body.messages.items)
  }

  /** The outbound request for one slot: the system prompt goes first. */
  function CallFor(slot: Slot, p: Shaping): UpstreamCall {
    UpstreamCall(slot.key, UpstreamModel, p.temperature, p.maxTokens,
                 [Message("system", slot.systemPrompt)] + p.messages)
  }

  function CallsFor(slots: seq<Slot>, p: Shaping): (r: seq<UpstreamCall>)
    ensures |r| == |slots|
    ensures forall k :: 0 <= k < |slots| ==> r[k] == CallFor(slots[k], p)
  {
    seq(|slots|, k requires 0 <= k < |slots| => CallFor(slots[k], p))
  }

  // ---------------------------------------------------------------------
  // Mode and pool selection

  /** `model?.replace("groq:", "") || "general"`; `None` stands for the
      TypeError thrown when `model` is neither nullish nor a string. */
  function ModeOf(model: ModelField): (r: Option<string>)
    ensures r.None? <==> model.ModelOther?
    ensures r.Some? ==> r.value != ""
    ensures model.NoModel? ==> r == Some("general")
  {
    match model
    case NoModel => Some("general")
    case ModelOther => None
    case ModelString(s) =>
      var m := ReplaceFirst(s, "groq:", "");
      if m == "" then Some("general") else Some(m)
  }

  /** A `groq:` prefix is removed and the rest is the mode. */
  lemma ModeOfPrefixed(m: string)
    requires m != ""
    ensures ModeOf(ModelString("groq:" + m)) == Some(m)
  {
    var s := "groq:" + m;
    assert OccursAt(s, "groq:", 0);
    assert IndexOf(s, "groq:") == 0;
    assert |"groq:"| == 5;
    assert s[5..] == m;
    assert ReplaceFirst(s, "groq:", "") == m;
  }

  /** Only the first `groq:` is removed: "groq:groq:" gives "groq:". */
  lemma ModeOfRemovesFirstOnly()
    ensures ModeOf(ModelString("groq:groq:")) == Some("groq:")
  {
    ModeOfPrefixed("groq:");
  }

  /** A model name without `groq:` is the mode itself, and "groq:" alone
      falls back to general. */
  lemma ModeOfUnprefixed(s: string)
    requires s != "" && !Includes(s, "groq:")
    ensures ModeOf(ModelString(s)) == Some(s)
    ensures ModeOf(ModelString("groq:")) == Some("general")
    ensures ModeOf(ModelString("")) == Some("general")
  {
    assert OccursAt("groq:", "groq:", 0);
  }

  /** The pool catalogue, rebuilt per request from the environment. The
      `backup` slot of every pool carries the same BACKUP key. */
  function Pools(env: Env): map<string, seq<Slot>> {
    map[
      "general" := [Slot("main", env.main, GeneralPrompt), Slot("backup", env.backup, GeneralBackupPrompt)],
      "research" := [Slot("research", env.research, ResearchPrompt), Slot("backup", env.backup, ResearchBackupPrompt)],
      "study" := [Slot("study", env.study, StudyPrompt), Slot("backup", env.backup, StudyBackupPrompt)]
    ]
  }

  // The system prompt of each slot.
  const GeneralPrompt: string := "You are Ventora AI. Be clear, concise, and helpful."
  const GeneralBackupPrompt: string := "You are Ventora AI. Answer clearly."
  const ResearchPrompt: string := "You are Ventora AI Research Mode. Provide structured, evidence-based answers."
  const ResearchBackupPrompt: string := "You are Ventora AI Research Mode. Be factual and structured."
  const StudyPrompt: string := "You are Ventora AI Study Partner. Explain simply with examples."
  const StudyBackupPrompt: string := "You are Ventora AI Study Partner. Keep answers easy."

  /** Pool selection with the fallback the code intends: an own entry of
      the catalogue, else the general pool. */
  function PoolFor(env: Env, mode: string): (pool: seq<Slot>)
    ensures mode in Pools(env) ==> pool == Pools(env)[mode]
    ensures mode !in Pools(env) ==> pool == Pools(env)["general"]
    ensures |pool| == 2 && pool[1].name == "backup" && pool[1].key == env.backup
  {
    var pools := Pools(env);
    if mode in pools then pools[mode] else pools["general"]
  }

  /** Names every plain JavaScript object inherits from `Object.prototype`. */
  const InheritedNames: set<string> := {
    "constructor", "__proto__", "toString", "toLocaleString", "valueOf",
    "hasOwnProperty", "isPrototypeOf", "propertyIsEnumerable",
    "__defineGetter__", "__defineSetter__", "__lookupGetter__", "__lookupSetter__"}

  datatype PoolLookup = Iterable(slots: seq<Slot>) | NotIterable

  /** `GROQ_POOLS[mode] || GROQ_POOLS.general` as written: an inherited
      name finds a function (or `Object.prototype`), which is truthy, so no
      fallback happens and the `for...of` over it throws. */
  function PoolLookupAsWritten(env: Env, mode: string): (r: PoolLookup)
    ensures r.NotIterable? <==> mode in InheritedNames
    ensures r.Iterable? ==> r.slots == PoolFor(env, mode)
  {
    var pools := Pools(env);
    if mode in pools then Iterable(pools[mode])
    else if mode in InheritedNames then NotIterable
    else Iterable(pools["general"])
  }

  /** The discrepancy: model "groq:constructor" makes the handler as
      written throw, where the intended fallback is the general pool. */
  lemma ConstructorModeNotIterable(env: Env)
    ensures ModeOf(ModelString("groq:constructor")) == Some("constructor")
    ensures PoolLookupAsWritten(env, "constructor") == NotIterable
    ensures PoolFor(env, "constructor") == Pools(env)["general"]
  {
    ModeOfPrefixed("constructor");
  }

  // ---------------------------------------------------------------------
  // The failover loop

  /** A stored expiry blocks a key while it is truthy (non-zero) and later
      than `now`. */
  predicate CoolingDown(cooldown: map<string, int>, key: string, now: int) {
    key in cooldown && cooldown[key] != 0 && cooldown[key] > now
  }

  predicate Usable(slot: Slot, cooldown: map<string, int>, now: int) {
    slot.key != "" && !CoolingDown(cooldown, slot.key, now)
  }

  /** `lastError` after a failed attempt. */
  function FailureText(slot: Slot, o: Outcome): string {
    match o
    case Ok(_) => ""
    case Status(code, body) => if code == 429 then "Rate limited on key: " + slot.name else body
    case Threw(m) => m
  }

  datatype WalkResult = WalkResult(success: Option<string>, cooldown: map<string, int>,
                                   lastError: Option<string>, attempted: seq<Slot>)

  /** The slot loop as a specification: walks `slots` in order from the
      given cooldown map and last error. */
  function Walk(slots: seq<Slot>, cooldown: map<string, int>, now: int,
                upstream: UpstreamCall -> Outcome, p: Shaping, lastError: Option<string>): WalkResult
    decreases |slots|
  {
    if slots == [] then WalkResult(None, cooldown, lastError, [])
    else
      var slot := slots[0];
      if !Usable(slot, cooldown, now) then Walk(slots[1..], cooldown, now, upstream, p, lastError)
      else
        var o := upstream(CallFor(slot, p));
        if o.Ok? then WalkResult(Some(o.payload), cooldown, lastError, [slot])
        else
          var cd := if o.Status? && o.code == 429 then cooldown[slot.key := now + CooldownTime] else cooldown;
          var rest := Walk(slots[1..], cd, now, upstream, p, Some(FailureText(slot, o)));
          rest.(attempted := [slot] + rest.attempted)
  }

  /** Keys among `attempted` whose attempt was answered with a 429. */
  function RateLimitedKeys(attempted: seq<Slot>, upstream: UpstreamCall -> Outcome, p: Shaping): set<string> {
    if attempted == [] then {}
    else
      var o := upstream(CallFor(attempted[0], p));
      (if o.Status? && o.code == 429 then {attempted[0].key} else {})
        + RateLimitedKeys(attempted[1..], upstream, p)
  }

  /** `a` is `b` with some elements left out, order kept. */
  predicate Subsequence(a: seq<Slot>, b: seq<Slot>)
    decreases |b|
  {
    a == [] || (b != [] && ((a[0] == b[0] && Subsequence(a[1..], b[1..])) || Subsequence(a, b[1..])))
  }

  lemma {:induction false} SubsequenceLength(a: seq<Slot>, b: seq<Slot>)
    requires Subsequence(a, b)
    ensures |a| <= |b|
    ensures forall x :: x in a ==> x in b
    decreases |b|
  {
    if a != [] {
      if a[0] == b[0] && Subsequence(a[1..], b[1..]) {
        SubsequenceLength(a[1..], b[1..]);
        forall x | x in a ensures x in b {
          if x != a[0] {
            assert x in a[1..];
          }
        }
      } else {
        SubsequenceLength(a, b[1..]);
      }
    }
  }

  /** Slots are attempted in pool order, each at most once. */
  lemma {:induction false} WalkAttemptsInOrder(slots: seq<Slot>, cooldown: map<string, int>, now: int,
                                               upstream: UpstreamCall -> Outcome, p: Shaping, e: Option<string>)
    ensures Subsequence(Walk(slots, cooldown, now, upstream, p, e).attempted, slots)
    decreases |slots|
  {
    if slots != [] {
      var slot := slots[0];
      if !Usable(slot, cooldown, now) {
        WalkAttemptsInOrder(slots[1..], cooldown, now, upstream, p, e);
        var w := Walk(slots[1..], cooldown, now, upstream, p, e);
        assert w.attempted == [] || Subsequence(w.attempted, slots[1..]);
      } else {
        var o := upstream(CallFor(slot, p));
        if !o.Ok? {
          var cd := if o.Status? && o.code == 429 then cooldown[slot.key := now + CooldownTime] else cooldown;
          WalkAttemptsInOrder(slots[1..], cd, now, upstream, p, Some(FailureText(slot, o)));
          var w := Walk(slots[1..], cd, now, upstream, p, Some(FailureText(slot, o)));
          assert ([slot] + w.attempted)[1..] == w.attempted;
        } else {
          assert [slot][1..] == [];
        }
      }
    }
  }

  /** Every attempted slot has a key, and that key was not cooling down in
      the map the request started from. */
  lemma {:induction false} WalkAttemptsUsable(slots: seq<Slot>, cooldown: map<string, int>, now: int,
                                              upstream: UpstreamCall -> Outcome, p: Shaping, e: Option<string>)
    ensures forall s :: s in Walk(slots, cooldown, now, upstream, p, e).attempted ==> Usable(s, cooldown, now)
    decreases |slots|
  {
    if slots != [] {
      var slot := slots[0];
      if !Usable(slot, cooldown, now) {
        WalkAttemptsUsable(slots[1..], cooldown, now, upstream, p, e);
      } else {
        var o := upstream(CallFor(slot, p));
        if !o.Ok? {
          var cd := if o.Status? && o.code == 429 then cooldown[slot.key := now + CooldownTime] else cooldown;
          WalkAttemptsUsable(slots[1..], cd, now, upstream, p, Some(FailureText(slot, o)));
          forall s | s in Walk(slots[1..], cd, now, upstream, p, Some(FailureText(slot, o))).attempted
            ensures Usable(s, cooldown, now)
          {
            if s.key != slot.key {
              assert CoolingDown(cd, s.key, now) == CoolingDown(cooldown, s.key, now);
            }
          }
        }
      }
    }
  }

  /** At most one success: a successful walk ends with the one attempt that
      was answered 2xx, and every earlier attempt failed; an unsuccessful
      walk saw no 2xx at all. */
  lemma {:induction false} WalkSuccessIsFirstOk(slots: seq<Slot>, cooldown: map<string, int>, now: int,
                                                upstream: UpstreamCall -> Outcome, p: Shaping, e: Option<string>)
    ensures var w := Walk(slots, cooldown, now, upstream, p, e);
      && (w.success.Some? ==>
            && w.attempted != []
            && upstream(CallFor(w.attempted[|w.attempted| - 1], p)) == Ok(w.success.value)
            && forall k :: 0 <= k < |w.attempted| - 1 ==> !upstream(CallFor(w.attempted[k], p)).Ok?)
      && (w.success.None? ==> forall k :: 0 <= k < |w.attempted| ==> !upstream(CallFor(w.attempted[k], p)).Ok?)
    decreases |slots|
  {
    if slots != [] {
      var slot := slots[0];
      if !Usable(slot, cooldown, now) {
        assert Walk(slots, cooldown, now, upstream, p, e) == Walk(slots[1..], cooldown, now, upstream, p, e);
        WalkSuccessIsFirstOk(slots[1..], cooldown, now, upstream, p, e);
      } else {
        var o := upstream(CallFor(slot, p));
        if !o.Ok? {
          var cd := if o.Status? && o.code == 429 then cooldown[slot.key := now + CooldownTime] else cooldown;
          var e' := Some(FailureText(slot, o));
          WalkSuccessIsFirstOk(slots[1..], cd, now, upstream, p, e');
          var w := Walk(slots[1..], cd, now, upstream, p, e');
          var all := [slot] + w.attempted;
          assert Walk(slots, cooldown, now, upstream, p, e) == w.(attempted := all);
          assert forall k :: 1 <= k < |all| ==> all[k] == w.attempted[k - 1];
        } else {
          assert Walk(slots, cooldown, now, upstream, p, e) == WalkResult(Some(o.payload), cooldown, e, [slot]);
        }
      }
    }
  }

  /** The cooldown map changes only for keys answered with 429, each set to
      `now + 60000`; no other key's entry is added or altered. */
  lemma {:induction false} WalkCooldownOnlyOn429(slots: seq<Slot>, cooldown: map<string, int>, now: int,
                                                 upstream: UpstreamCall -> Outcome, p: Shaping, e: Option<string>)
    ensures var w := Walk(slots, cooldown, now, upstream, p, e);
      var limited := RateLimitedKeys(w.attempted, upstream, p);
      && w.cooldown.Keys == cooldown.Keys + limited
      && (forall k :: k in limited ==> w.cooldown[k] == now + CooldownTime)
      && (forall k :: k in cooldown && k !in limited ==> w.cooldown[k] == cooldown[k])
    decreases |slots|
  {
    if slots != [] {
      var slot := slots[0];
      if !Usable(slot, cooldown, now) {
        WalkCooldownOnlyOn429(slots[1..], cooldown, now, upstream, p, e);
      } else {
        var o := upstream(CallFor(slot, p));
        if !o.Ok? {
          var cd := if o.Status? && o.code == 429 then cooldown[slot.key := now + CooldownTime] else cooldown;
          var e' := Some(FailureText(slot, o));
          WalkCooldownOnlyOn429(slots[1..], cd, now, upstream, p, e');
          var w := Walk(slots[1..], cd, now, upstream, p, e');
          assert ([slot] + w.attempted)[1..] == w.attempted;
        } else {
          assert [slot][1..] == [];
        }
      }
    }
  }

  /** An exhausted walk reports the failure of its last attempt, or the
      initial last error when nothing was attempted. */
  lemma {:induction false} WalkLastError(slots: seq<Slot>, cooldown: map<string, int>, now: int,
                                         upstream: UpstreamCall -> Outcome, p: Shaping, e: Option<string>)
    ensures var w := Walk(slots, cooldown, now, upstream, p, e);
      w.success.None? ==>
        w.lastError == if w.attempted == [] then e
                       else var last := w.attempted[|w.attempted| - 1];
                            Some(FailureText(last, upstream(CallFor(last, p))))
    decreases |slots|
  {
    if slots != [] {
      var slot := slots[0];
      if !Usable(slot, cooldown, now) {
        WalkLastError(slots[1..], cooldown, now, upstream, p, e);
      } else {
        var o := upstream(CallFor(slot, p));
        if !o.Ok? {
          var cd := if o.Status? && o.code == 429 then cooldown[slot.key := now + CooldownTime] else cooldown;
          var e' := Some(FailureText(slot, o));
          WalkLastError(slots[1..], cd, now, upstream, p, e');
          var w := Walk(slots[1..], cd, now, upstream, p, e');
          if w.attempted != [] {
            assert ([slot] + w.attempted)[|w.attempted|] == w.attempted[|w.attempted| - 1];
          }
        }
      }
    }
  }

  /** With an upstream that always answers 2xx the map is never written. */
  lemma {:induction false} WalkAllOkKeepsCooldown(slots: seq<Slot>, cooldown: map<string, int>, now: int,
                                                  upstream: UpstreamCall -> Outcome, p: Shaping, e: Option<string>)
    requires forall c :: upstream(c).Ok?
    ensures Walk(slots, cooldown, now, upstream, p, e).cooldown == cooldown
    decreases |slots|
  {
    if slots != [] && !Usable(slots[0], cooldown, now) {
      WalkAllOkKeepsCooldown(slots[1..], cooldown, now, upstream, p, e);
    }
  }

  // ---------------------------------------------------------------------
  // The handler

  datatype Handled = Handled(response: Response, calls: seq<UpstreamCall>, cooldown: map<string, int>)

  /** The whole handler as a function of the request, the environment, the
      clock, the upstream and the cooldown map it starts from. */
  function Handle(env: Env, req: ChatRequest, now: int, upstream: UpstreamCall -> Outcome,
                  cooldown: map<string, int>): Handled
  {
    if req.httpMethod == "OPTIONS" then Handled(Preflight, [], cooldown)
    else if req.httpMethod != "POST" then Handled(ErrorReply(405, "Method not allowed"), [], cooldown)
    else if req.body.None? then Handled(Crashed, [], cooldown)
    else
      var body := req.body.value;
      if !body.messages.MessagesArray? then Handled(ErrorReply(400, "Invalid messages"), [], cooldown)
      else match ModeOf(body.model)
        case None => Handled(Crashed, [], cooldown)
        case Some(mode) =>
          var p := ShapingOf(body);
          var w := Walk(PoolFor(env, mode), cooldown, now, upstream, p, None);
          Handled(if w.success.Some? then Completion(w.success.value) else Busy(w.lastError),
                  CallsFor(w.attempted, p), w.cooldown)
  }

  /** The selected pool and the shaping of a request that reaches the loop. */
  predicate ReachesLoop(req: ChatRequest) {
    req.httpMethod == "POST" && req.body.Some? && req.body.value.messages.MessagesArray?
      && !req.body.value.model.ModelOther?
  }

  function SelectedPool(env: Env, req: ChatRequest): seq<Slot>
    requires ReachesLoop(req)
  {
    PoolFor(env, ModeOf(req.body.value.model).value)
  }

  function LoopOf(env: Env, req: ChatRequest, now: int, upstream: UpstreamCall -> Outcome,
                  cooldown: map<string, int>): WalkResult
    requires ReachesLoop(req)
  {
    Walk(SelectedPool(env, req), cooldown, now, upstream, ShapingOf(req.body.value), None)
  }

  /** OPTIONS is answered 200 with no body; any other method but POST gets
      405. Neither calls upstream nor touches the map. */
  lemma MethodGate(env: Env, req: ChatRequest, now: int, upstream: UpstreamCall -> Outcome,
                   cooldown: map<string, int>)
    requires req.httpMethod != "POST"
    ensures var h := Handle(env, req, now, upstream, cooldown);
      && h.calls == [] && h.cooldown == cooldown
      && (req.httpMethod == "OPTIONS" ==> h.response == Preflight && StatusOf(h.response) == 200)
      && (req.httpMethod != "OPTIONS" ==> h.response == ErrorReply(405, "Method not allowed"))
  {
  }

  /** A POST whose `messages` is not an array gets 400 with no attempt. */
  lemma InvalidMessagesRejected(env: Env, req: ChatRequest, now: int, upstream: UpstreamCall -> Outcome,
                                cooldown: map<string, int>)
    requires req.httpMethod == "POST" && req.body.Some? && req.body.value.messages.NotAnArray?
    ensures Handle(env, req, now, upstream, cooldown) == Handled(ErrorReply(400, "Invalid messages"), [], cooldown)
  {
  }

  /** Only the selected pool's slots are called, in pool order, each at most
      once; each call has a key that was usable when the request began and
      carries the fixed model, the defaulted shaping and the system prompt. */
  lemma CallsComeFromSelectedPool(env: Env, req: ChatRequest, now: int, upstream: UpstreamCall -> Outcome,
                                  cooldown: map<string, int>)
    requires ReachesLoop(req)
    ensures var h := Handle(env, req, now, upstream, cooldown);
      var w := LoopOf(env, req, now, upstream, cooldown);
      && h.calls == CallsFor(w.attempted, ShapingOf(req.body.value))
      && Subsequence(w.attempted, SelectedPool(env, req))
      && |h.calls| <= 2
      && (forall s :: s in w.attempted ==> s in SelectedPool(env, req) && Usable(s, cooldown, now))
      && (forall c :: c in h.calls ==>
            (&& c.model == UpstreamModel && c.messages != []
             && c.messages[0].role == "system"
             && c.messages[1..] == req.body.value.messages.items
             && c.temperature == ShapingOf(req.body.value).temperature
             && c.maxTokens == ShapingOf(req.body.value).maxTokens))
  {
    var p := ShapingOf(req.body.value);
    var w := LoopOf(env, req, now, upstream, cooldown);
    WalkAttemptsInOrder(SelectedPool(env, req), cooldown, now, upstream, p, None);
    WalkAttemptsUsable(SelectedPool(env, req), cooldown, now, upstream, p, None);
    SubsequenceLength(w.attempted, SelectedPool(env, req));
    var calls := CallsFor(w.attempted, p);
    forall c | c in calls
      ensures c.model == UpstreamModel && c.messages != [] && c.messages[0].role == "system"
        && c.messages[1..] == p.messages
    {
      var k :| 0 <= k < |calls| && calls[k] == c;
      assert c == CallFor(w.attempted[k], p);
    }
  }

  /** The first 2xx is the answer: its payload is returned with 200 and no
      slot after it is called; an exhausted request answers 429 with the
      last failure (none when nothing was attempted). */
  lemma ResponseOfLoop(env: Env, req: ChatRequest, now: int, upstream: UpstreamCall -> Outcome,
                       cooldown: map<string, int>)
    requires ReachesLoop(req)
    ensures var h := Handle(env, req, now, upstream, cooldown);
      var calls := h.calls;
      && (h.response.Completion? ==>
            && calls != [] && upstream(calls[|calls| - 1]) == Ok(h.response.payload)
            && (forall k :: 0 <= k < |calls| - 1 ==> !upstream(calls[k]).Ok?))
      && (!h.response.Completion? ==>
            && h.response.Busy? && StatusOf(h.response) == 429
            && (forall c :: c in calls ==> !upstream(c).Ok?)
            && (calls == [] ==> h.response.details == None))
  {
    var p := ShapingOf(req.body.value);
    WalkSuccessIsFirstOk(SelectedPool(env, req), cooldown, now, upstream, p, None);
    WalkLastError(SelectedPool(env, req), cooldown, now, upstream, p, None);
  }

  /** The details of an exhausted request name the last attempted slot's
      failure: "Rate limited on key: <name>" for a 429, the body text for
      another status, the exception message otherwise. */
  lemma ExhaustedDetails(env: Env, req: ChatRequest, now: int, upstream: UpstreamCall -> Outcome,
                         cooldown: map<string, int>)
    requires ReachesLoop(req)
    ensures var w := LoopOf(env, req, now, upstream, cooldown);
      var h := Handle(env, req, now, upstream, cooldown);
      w.success.None? && w.attempted != [] ==>
        var last := w.attempted[|w.attempted| - 1];
        h.response == Busy(Some(FailureText(last, upstream(CallFor(last, ShapingOf(req.body.value))))))
  {
    WalkLastError(SelectedPool(env, req), cooldown, now, upstream, ShapingOf(req.body.value), None);
  }

  /** Only keys answered 429 get an entry written, to `now + 60000`. */
  lemma CooldownWrites(env: Env, req: ChatRequest, now: int, upstream: UpstreamCall -> Outcome,
                       cooldown: map<string, int>)
    ensures var h := Handle(env, req, now, upstream, cooldown);
      && (!ReachesLoop(req) ==> h.cooldown == cooldown && h.calls == [])
      && (ReachesLoop(req) ==>
            var limited := RateLimitedKeys(LoopOf(env, req, now, upstream, cooldown).attempted,
                                           upstream, ShapingOf(req.body.value));
            && h.cooldown.Keys == cooldown.Keys + limited
            && (forall k :: k in limited ==> h.cooldown[k] == now + CooldownTime)
            && (forall k :: k in cooldown && k !in limited ==> h.cooldown[k] == cooldown[k]))
  {
    if ReachesLoop(req) {
      WalkCooldownOnlyOn429(SelectedPool(env, req), cooldown, now, upstream, ShapingOf(req.body.value), None);
    }
  }

  /** A key answered 429 at `now` is not called again by any request made
      within the next 60 seconds, whatever pool that request selects. */
  lemma CooledKeySkipped(env: Env, req: ChatRequest, now: int, upstream: UpstreamCall -> Outcome,
                         cooldown: map<string, int>,
                         req2: ChatRequest, now2: int, upstream2: UpstreamCall -> Outcome, key: string)
    requires 0 <= now <= now2 < now + CooldownTime
    requires ReachesLoop(req) && ReachesLoop(req2)
    requires key in RateLimitedKeys(LoopOf(env, req, now, upstream, cooldown).attempted,
                                    upstream, ShapingOf(req.body.value))
    ensures var cd := Handle(env, req, now, upstream, cooldown).cooldown;
      forall c :: c in Handle(env, req2, now2, upstream2, cd).calls ==> c.key != key
  {
    CooldownWrites(env, req, now, upstream, cooldown);
    var cd := Handle(env, req, now, upstream, cooldown).cooldown;
    assert CoolingDown(cd, key, now2);
    CallsComeFromSelectedPool(env, req2, now2, upstream2, cd);
    var w := LoopOf(env, req2, now2, upstream2, cd);
    var calls := Handle(env, req2, now2, upstream2, cd).calls;
    forall c | c in calls ensures c.key != key {
      var k :| 0 <= k < |calls| && calls[k] == c;
      assert c.key == w.attempted[k].key;
      assert w.attempted[k] in w.attempted;
    }
  }

  /** The shared BACKUP key: a 429 on the backup slot of one mode keeps the
      backup slot of every other mode from being called for 60 seconds. */
  lemma BackupCooldownShared(env: Env, req: ChatRequest, now: int, upstream: UpstreamCall -> Outcome,
                             cooldown: map<string, int>,
                             req2: ChatRequest, now2: int, upstream2: UpstreamCall -> Outcome)
    requires 0 <= now <= now2 < now + CooldownTime
    requires ReachesLoop(req) && ReachesLoop(req2)
    requires env.backup in RateLimitedKeys(LoopOf(env, req, now, upstream, cooldown).attempted,
                                           upstream, ShapingOf(req.body.value))
    ensures var cd := Handle(env, req, now, upstream, cooldown).cooldown;
      var pool2 := SelectedPool(env, req2);
      forall c :: c in Handle(env, req2, now2, upstream2, cd).calls ==> c != CallFor(pool2[1], ShapingOf(req2.body.value))
  {
    CooledKeySkipped(env, req, now, upstream, cooldown, req2, now2, upstream2, env.backup);
  }

  /** An expiry at or before `now` does not block: a pool whose first slot
      has a key whose stored expiry has passed calls that slot first. */
  lemma ExpiredCooldownAllowsCall(env: Env, req: ChatRequest, now: int, upstream: UpstreamCall -> Outcome,
                                  cooldown: map<string, int>)
    requires ReachesLoop(req)
    requires var first := SelectedPool(env, req)[0];
      first.key != "" && (first.key in cooldown ==> cooldown[first.key] <= now)
    ensures var h := Handle(env, req, now, upstream, cooldown);
      h.calls != [] && h.calls[0] == CallFor(SelectedPool(env, req)[0], ShapingOf(req.body.value))
  {
  }

  /** With an upstream that always succeeds, the map is left as it was, so
      repeating the same request gets the same answer. */
  lemma AllOkIsRepeatable(env: Env, req: ChatRequest, now: int, upstream: UpstreamCall -> Outcome,
                          cooldown: map<string, int>)
    requires forall c :: upstream(c).Ok?
    ensures var h := Handle(env, req, now, upstream, cooldown);
      && h.cooldown == cooldown
      && Handle(env, req, now, upstream, h.cooldown) == h
  {
    if ReachesLoop(req) {
      WalkAllOkKeepsCooldown(SelectedPool(env, req), cooldown, now, upstream, ShapingOf(req.body.value), None);
    }
  }

  /** The proxy instance: its one piece of state is the module-level map
      from key to cooldown expiry, which lives for the whole process. */
  class ChatProxy {
    var cooldown: map<string, int>

    constructor ()
      ensures cooldown == map[]
    {
      cooldown := map[];
    }

    /** One invocation of the handler. */
    method HandleRequest(env: Env, req: ChatRequest, now: int, upstream: UpstreamCall -> Outcome)
      returns (response: Response, calls: seq<UpstreamCall>)
      modifies this
      ensures Handled(response, calls, cooldown) == Handle(env, req, now, upstream, old(cooldown))
    {
      if req.httpMethod == "OPTIONS" {
        return Preflight, [];
      }
      if req.httpMethod != "POST" {
        return ErrorReply(405, "Method not allowed"), [];
      }
      if req.body.None? {
        return Crashed, [];
      }
      var body := req.body.value;
      if !body.messages.MessagesArray? {
        return ErrorReply(400, "Invalid messages"), [];
      }
      var mode := ModeOf(body.model);
      if mode.None? {
        return Crashed, [];
      }
      var p := ShapingOf(body);
      var success, lastError, attempted := TrySlots(PoolFor(env, mode.value), p, now, upstream);
      calls := CallsFor(attempted, p);
      response := if success.Some? then Completion(success.value) else Busy(lastError);
    }

    /** The `for...of` over the selected pool: skips slots without a key or
        still cooling down, returns on the first 2xx, records a cooldown on a
        429 and keeps the last failure otherwise. */
    method TrySlots(pool: seq<Slot>, p: Shaping, now: int, upstream: UpstreamCall -> Outcome)
      returns (success: Option<string>, lastError: Option<string>, attempted: seq<Slot>)
      modifies this
      ensures WalkResult(success, cooldown, lastError, attempted) == Walk(pool, old(cooldown), now, upstream, p, None)
    {
      ghost var spec := Walk(pool, cooldown, now, upstream, p, None);
      lastError := None;
      attempted := [];
      var i := 0;
      while i < |pool|
        invariant 0 <= i <= |pool|
        invariant var rest := Walk(pool[i..], cooldown, now, upstream, p, lastError);
          spec == rest.(attempted := attempted + rest.attempted)
      {
        var slot := pool[i];
        assert pool[i..][0] == slot && pool[i..][1..] == pool[i + 1..];
        if slot.key == "" || CoolingDown(cooldown, slot.key, now) {
          i := i + 1;
          continue;
        }
        var outcome := upstream(CallFor(slot, p));
        attempted := attempted + [slot];
        if outcome.Ok? {
          return Some(outcome.payload), lastError, attempted;
        }
        if outcome.Status? && outcome.code == 429 {
          cooldown := cooldown[slot.key := now + CooldownTime];
          lastError := Some("Rate limited on key: " + slot.name);
        } else if outcome.Status? {
          lastError := Some(outcome.body);
        } else {
          lastError := Some(outcome.message);
        }
        i := i + 1;
      }
      assert pool[i..] == [];
      success := None;
    }
  }
}
