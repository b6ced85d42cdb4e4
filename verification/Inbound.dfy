/** The inbound interbank endpoint and its idempotency cache. Messages are processed one at a time;
    what the executor answers and whether the cache can be read and written are given with each
    message. Strings are sequences of bytes. */
module Inbound {
  import opened Common

  const NEW_TX := "NEW_TX"
  const COMMIT_TX := "COMMIT_TX"
  const ROLLBACK_TX := "ROLLBACK_TX"

  /** A decoded envelope; `payloadOk` tells whether the body is present and of the announced type. */
  datatype Msg = Msg(kind: string, routing: int, key: string, payloadOk: bool)

  datatype Key = Key(sender: int, key: string)

  datatype Reply = Reply(status: int, body: string)

  /** A cached reply; an empty body is stored as none. */
  datatype Cached = Cached(kind: string, status: int, body: Option<string>)

  /** What the executor does with a message: a result body, or an error text. */
  datatype Answer = Success(body: string) | Failure(text: string)

  datatype Env = Env(lookupOk: bool, answer: Answer, insertOk: bool)

  datatype Call = Call(key: Key, kind: string)

  /** The cache, the executor calls made so far, and the keys whose cache insert failed after the executor
      had run; the last two are history that nothing reads. */
  datatype State = State(cache: map<Key, Cached>, calls: seq<Call>, lost: seq<Key>)

  const MAX_KEY := 64
  const ROUTING_MISMATCH := "idempotenceKey.routingNumber mismatches X-Api-Key sender"
  const KEY_TOO_LONG := "idempotenceKey.locallyGeneratedKey exceeds maximum length of 64 bytes"

  predicate KnownType(kind: string) {
    kind == NEW_TX || kind == COMMIT_TX || kind == ROLLBACK_TX
  }

  /** What is answered when the body is missing or of another type. */
  function BadPayload(kind: string): string {
    kind + if kind == NEW_TX then ": missing or invalid transaction payload" else ": missing or invalid body"
  }

  function Reused(cached: string, kind: string): string {
    "idempotenceKey already used for a " + cached + " message; cannot reuse it for " + kind
  }

  /** The cached row was written for a message of another type. */
  predicate OtherType(cached: string, kind: string) {
    cached != "" && cached != kind
  }

  /** Texts are given with JSON escapes already applied. */
  function ErrorBody(text: string): string {
    "{\"error\":\"" + text + "\"}"
  }

  function Replay(c: Cached): Reply {
    if c.status == 204 then Reply(204, "")
    else Reply(c.status, if c.body.Some? then c.body.value else "")
  }

  /** The insert, after the executor ran or without it. */
  function Persist(s: State, k: Key, c: Cached, executed: bool, insertOk: bool): State {
    if insertOk then s.(cache := s.cache[k := c]) else if executed then s.(lost := s.lost + [k]) else s
  }

  /** The reply to a message that is not in the cache, and the row that records it. */
  function Handled(m: Msg, answer: Answer): (Reply, Cached) {
    if !m.payloadOk then
      var body := ErrorBody(BadPayload(m.kind));
      (Reply(400, body), Cached(m.kind, 400, Some(body)))
    else if answer.Failure? then
      var body := ErrorBody(answer.text);
      (Reply(500, body), Cached(m.kind, 500, Some(body)))
    else if m.kind == NEW_TX then
      (Reply(200, answer.body), Cached(m.kind, 200, if answer.body == "" then None else Some(answer.body)))
    else
      (Reply(204, ""), Cached(m.kind, 204, None))
  }

  function Post(s: State, sender: int, m: Msg, env: Env): (State, Reply) {
    var k := Key(sender, m.key);
    if sender != m.routing then (s, Reply(400, ErrorBody(ROUTING_MISMATCH)))
    else if |m.key| > MAX_KEY then (s, Reply(400, ErrorBody(KEY_TOO_LONG)))
    else if !env.lookupOk then (s, Reply(500, ErrorBody("cache lookup failed")))
    else if k in s.cache then
      if OtherType(s.cache[k].kind, m.kind) then (s, Reply(400, ErrorBody(Reused(s.cache[k].kind, m.kind))))
      else (s, Replay(s.cache[k]))
    else if !KnownType(m.kind) then (s, Reply(400, ErrorBody("unknown messageType: " + m.kind)))
    else
      var h := Handled(m, env.answer);
      var called := if m.payloadOk then s.(calls := s.calls + [Call(k, m.kind)]) else s;
      (Persist(called, k, h.1, m.payloadOk, env.insertOk), h.0)
  }

  datatype Event = Event(sender: int, msg: Msg, env: Env)

  function Run(s: State, events: seq<Event>): State {
    if events == [] then s
    else
      var e := events[|events| - 1];
      Post(Run(s, events[..|events| - 1]), e.sender, e.msg, e.env).0
  }

  // What every sequence of messages keeps

  function CallOf(k: Key): Call -> int {
    (c: Call) => if c.key == k then 1 else 0
  }

  function LostOf(k: Key): Key -> int {
    (l: Key) => if l == k then 1 else 0
  }

  /** The cached reply to this key came from the executor: only a bad payload is cached as 400. */
  predicate FromExecutor(s: State, k: Key) {
    k in s.cache && s.cache[k].status != 400
  }

  /** A key was executed exactly once for each executed reply that could not be cached, and once more if
      its cached reply came from the executor. */
  ghost predicate Inv(s: State) {
    forall k :: Sum(s.calls, CallOf(k)) == Sum(s.lost, LostOf(k)) + (if FromExecutor(s, k) then 1 else 0)
  }

  lemma PostKeeps(s: State, sender: int, m: Msg, env: Env)
    requires Inv(s)
    ensures Inv(Post(s, sender, m, env).0)
  {
    hide Handled, Sum;
    var s' := Post(s, sender, m, env).0;
    var k := Key(sender, m.key);
    HandledStatus(m, env.answer);
    if s' != s {
      forall j ensures Sum(s'.calls, CallOf(j)) == Sum(s'.lost, LostOf(j)) + (if FromExecutor(s', j) then 1 else 0) {
        assert Sum(s.calls, CallOf(j)) == Sum(s.lost, LostOf(j)) + (if FromExecutor(s, j) then 1 else 0);
        SumAppend(s.calls, Call(k, m.kind), CallOf(j));
        SumAppend(s.lost, k, LostOf(j));
      }
    }
  }

  lemma HandledStatus(m: Msg, answer: Answer)
    ensures Handled(m, answer).1.status == 400 <==> !m.payloadOk
  {
  }

  lemma {:induction false} RunKeeps(s: State, events: seq<Event>)
    requires Inv(s)
    ensures Inv(Run(s, events))
  {
    hide Inv, Post;
    if events != [] {
      var e := events[|events| - 1];
      RunKeeps(s, events[..|events| - 1]);
      PostKeeps(Run(s, events[..|events| - 1]), e.sender, e.msg, e.env);
    }
  }

  /** A cached reply is never replaced. */
  lemma {:induction false} CacheIsStable(s: State, events: seq<Event>, k: Key)
    requires k in s.cache
    ensures k in Run(s, events).cache && Run(s, events).cache[k] == s.cache[k]
  {
    hide Handled;
    if events != [] {
      CacheIsStable(s, events[..|events| - 1], k);
    }
  }

  /** Over any sequence of messages the executor runs exactly once for every executed reply of a key that
      could not be cached, plus once if its cached reply came from the executor. So it runs at most once
      per key if and only if no such insert failed, or one did and nothing executed was cached since. */
  lemma ExecutedExactly(events: seq<Event>, k: Key)
    ensures var s := Run(State(map[], [], []), events);
            var calls, lost := Sum(s.calls, CallOf(k)), Sum(s.lost, LostOf(k));
            && calls == lost + (if FromExecutor(s, k) then 1 else 0)
            && (calls <= 1 <==> lost == 0 || (lost == 1 && !FromExecutor(s, k)))
            && (s.lost == [] ==> calls <= 1)
  {
    hide Run, Post;
    var s := State(map[], [], []);
    assert Inv(s);
    RunKeeps(s, events);
    LostIsCount(Run(s, events).lost, k);
  }

  lemma {:induction false} LostIsCount(lost: seq<Key>, k: Key)
    ensures Sum(lost, LostOf(k)) >= 0
  {
    if lost != [] {
      LostIsCount(lost[..|lost| - 1], k);
    }
  }

  /** Without the cache row the executor runs again: two deliveries of one message, the first insert failing. */
  lemma FailedInsertRunsTwice(m: Msg)
    requires m.kind == COMMIT_TX && m.payloadOk && |m.key| <= MAX_KEY
    ensures var e := Env(true, Success(""), false);
            var s := Post(Post(State(map[], [], []), m.routing, m, e).0, m.routing, m, e).0;
            Sum(s.calls, CallOf(Key(m.routing, m.key))) == 2
  {
    var k := Key(m.routing, m.key);
    SumAppend([], Call(k, m.kind), CallOf(k));
    SumAppend([Call(k, m.kind)], Call(k, m.kind), CallOf(k));
    assert [] + [Call(k, m.kind)] == [Call(k, m.kind)];
  }

  /** Once the reply to a message is cached, every later message with the same sender, key and type
      gets exactly that status and body, whatever came in between, and changes nothing. */
  lemma RepliesRepeat(s: State, first: Event, between: seq<Event>, again: Event)
    requires var k := Key(first.sender, first.msg.key);
             k !in s.cache && k in Post(s, first.sender, first.msg, first.env).0.cache
    requires again.sender == first.sender && again.msg.key == first.msg.key && again.msg.kind == first.msg.kind
    requires again.msg.routing == again.sender && again.env.lookupOk
    ensures var p := Post(s, first.sender, first.msg, first.env);
            var later := Run(p.0, between);
            Post(later, again.sender, again.msg, again.env) == (later, p.1)
  {
    hide Run;
    var p := Post(s, first.sender, first.msg, first.env);
    CacheIsStable(p.0, between, Key(first.sender, first.msg.key));
  }

  /** The first reply to an accepted message: a missing or wrong body is told 400 with the reason, a failing
      executor 500 with exactly its text, a vote goes out as 200 with exactly the executor's body, and a
      commit or rollback is 204 without one. The cached row, if the insert succeeds, holds that same status
      and body, and nothing else in the cache changes. */
  lemma FirstReply(s: State, m: Msg, env: Env)
    requires |m.key| <= 64 && env.lookupOk && Key(m.routing, m.key) !in s.cache
    requires m.kind == "NEW_TX" || m.kind == "COMMIT_TX" || m.kind == "ROLLBACK_TX"
    ensures var p, k := Post(s, m.routing, m, env), Key(m.routing, m.key);
            var s', r := p.0, p.1;
            && (!m.payloadOk ==>
                  r.status == 400 && s'.calls == s.calls
                  && r.body == "{\"error\":\"" + m.kind
                       + (if m.kind == "NEW_TX" then ": missing or invalid transaction payload" else ": missing or invalid body") + "\"}")
            && (m.payloadOk ==> s'.calls == s.calls + [Call(k, m.kind)])
            && (m.payloadOk && env.answer.Failure? ==> r == Reply(500, "{\"error\":\"" + env.answer.text + "\"}"))
            && (m.payloadOk && env.answer.Success? ==>
                  r == if m.kind == "NEW_TX" then Reply(200, env.answer.body) else Reply(204, ""))
            && (!env.insertOk ==> s'.cache == s.cache)
            && (env.insertOk ==>
                  && s'.cache.Keys == s.cache.Keys + {k} && (forall j :: j in s.cache ==> s'.cache[j] == s.cache[j])
                  && s'.cache[k].kind == m.kind && s'.cache[k].status == r.status
                  && (if s'.cache[k].body.Some? then s'.cache[k].body.value == r.body else r.body == ""))
  {
  }

  /** What a rejected message is told. */
  lemma RejectionTexts(s: State, sender: int, m: Msg, env: Env)
    ensures var r, k := Post(s, sender, m, env).1, Key(sender, m.key);
            && (sender != m.routing ==>
                  r == Reply(400, "{\"error\":\"" + "idempotenceKey.routingNumber mismatches X-Api-Key sender" + "\"}"))
            && (sender == m.routing && |m.key| > 64 ==>
                  r == Reply(400, "{\"error\":\"" + "idempotenceKey.locallyGeneratedKey exceeds maximum length of 64 bytes" + "\"}"))
            && (sender == m.routing && |m.key| <= 64 ==>
                  && (!env.lookupOk ==> r == Reply(500, "{\"error\":\"" + "cache lookup failed" + "\"}"))
                  && (env.lookupOk && k in s.cache && s.cache[k].kind != "" && s.cache[k].kind != m.kind ==>
                        r == Reply(400, "{\"error\":\"" + ("idempotenceKey already used for a " + s.cache[k].kind
                                        + " message; cannot reuse it for " + m.kind) + "\"}")))
            && (sender == m.routing && |m.key| <= 64 && env.lookupOk && k !in s.cache
                && m.kind != "NEW_TX" && m.kind != "COMMIT_TX" && m.kind != "ROLLBACK_TX" ==>
                  r == Reply(400, "{\"error\":\"" + ("unknown messageType: " + m.kind) + "\"}"))
  {
    hide Handled;
  }

  /** A reused key with another type, a foreign routing number, an over-long key or an unknown type
      leaves cache and executor untouched and is answered 400, or 500 when the cache could not be read. */
  lemma RejectsLeaveNoTrace(s: State, sender: int, m: Msg, env: Env)
    requires || m.routing != sender || |m.key| > MAX_KEY
             || (Key(sender, m.key) in s.cache && OtherType(s.cache[Key(sender, m.key)].kind, m.kind))
             || (Key(sender, m.key) !in s.cache && !KnownType(m.kind))
    ensures Post(s, sender, m, env).0 == s
    ensures Post(s, sender, m, env).1.status
            == if m.routing == sender && |m.key| <= MAX_KEY && !env.lookupOk then 500 else 400
  {
  }

  // The handler

  class Handler {
    var cache: map<Key, Cached>
    ghost var calls: seq<Call>
    ghost var lost: seq<Key>

    ghost function Tables(): State
      reads this
    {
      State(cache, calls, lost)
    }

    /** persistCache and persistCacheSilent: a failing insert is ignored. */
    method PersistCache(k: Key, kind: string, status: int, body: Option<string>, ghost executed: bool, insertOk: bool)
      modifies this
      ensures Tables() == Persist(old(Tables()), k, Cached(kind, status, body), executed, insertOk)
    {
      if insertOk {
        cache := cache[k := Cached(kind, status, body)];
      } else if executed {
        lost := lost + [k];
      }
    }

    method PersistAndReturnError(k: Key, kind: string, status: int, text: string, ghost executed: bool, insertOk: bool) returns (r: Reply)
      modifies this
      ensures r == Reply(status, ErrorBody(text))
      ensures Tables() == Persist(old(Tables()), k, Cached(kind, status, Some(ErrorBody(text))), executed, insertOk)
    {
      PersistCache(k, kind, status, Some(ErrorBody(text)), executed, insertOk);
      r := Reply(status, ErrorBody(text));
    }

    method PostMessage(sender: int, m: Msg, env: Env) returns (r: Reply)
      modifies this
      ensures (Tables(), r) == Post(old(Tables()), sender, m, env)
    {
      if sender != m.routing {
        return Reply(400, ErrorBody(ROUTING_MISMATCH));
      }
      if |m.key| > MAX_KEY {
        return Reply(400, ErrorBody(KEY_TOO_LONG));
      }
      if !env.lookupOk {
        return Reply(500, ErrorBody("cache lookup failed"));
      }
      var k := Key(sender, m.key);
      if k in cache {
        if cache[k].kind != "" && cache[k].kind != m.kind {
          return Reply(400, ErrorBody(Reused(cache[k].kind, m.kind)));
        }
        return Replay(cache[k]);
      }
      if m.kind != NEW_TX && m.kind != COMMIT_TX && m.kind != ROLLBACK_TX {
        return Reply(400, ErrorBody("unknown messageType: " + m.kind));
      }
      if !m.payloadOk {
        r := PersistAndReturnError(k, m.kind, 400, BadPayload(m.kind), false, env.insertOk);
        return;
      }
      calls := calls + [Call(k, m.kind)];
      if env.answer.Failure? {
        r := PersistAndReturnError(k, m.kind, 500, env.answer.text, true, env.insertOk);
        return;
      }
      if m.kind == NEW_TX {
        PersistCache(k, m.kind, 200, if env.answer.body == "" then None else Some(env.answer.body), true, env.insertOk);
        r := Reply(200, env.answer.body);
      } else {
        PersistCache(k, m.kind, 204, None, true, env.insertOk);
        r := Reply(204, "");
      }
    }
  }
}
