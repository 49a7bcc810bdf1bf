/** Sharing one promise among concurrent identical GET requests of the browser client. */
module RequestDedup {
  import opened Text

  /** A request that was really sent; `era` counts the cancellations before it. */
  datatype Sent = Sent(key: string, era: nat, settled: bool)

  datatype State = State(pending: map<string, nat>, sent: seq<Sent>, cancels: nat)

  const INITIAL := State(map[], [], 0)

  datatype Event = Get(key: string) | Settle(id: nat) | CancelAll

  predicate Enabled(s: State, e: Event) {
    e.Settle? ==> e.id < |s.sent| && !s.sent[e.id].settled
  }

  function Step(s: State, e: Event): State
    requires Enabled(s, e)
  {
    match e
    case Get(key) =>
      if key in s.pending then s
      else s.(pending := s.pending[key := |s.sent|], sent := s.sent + [Sent(key, s.cancels, false)])
    case Settle(id) =>
      var key := s.sent[id].key;
      s.(sent := s.sent[id := s.sent[id].(settled := true)],
         pending := if key in s.pending && s.pending[key] == id then s.pending - {key} else s.pending)
    case CancelAll => s.(pending := map[], cancels := s.cancels + 1)
  }

  /** An entry is the newest request for its key, it is not settled, and it was sent after the last cancellation. */
  ghost predicate EntryOk(s: State, key: string)
    requires key in s.pending
  {
    var id := s.pending[key];
    && id < |s.sent| && s.sent[id] == Sent(key, s.cancels, false)
    && forall j :: id < j < |s.sent| ==> s.sent[j].key != key
  }

  ghost predicate Invariant(s: State) {
    && (forall key :: key in s.pending ==> EntryOk(s, key))
    && (forall id :: 0 <= id < |s.sent| ==> s.sent[id].era <= s.cancels)
    && (forall id :: 0 <= id < |s.sent| && !s.sent[id].settled && s.sent[id].era == s.cancels ==>
          s.sent[id].key in s.pending && s.pending[s.sent[id].key] == id)
  }

  lemma StepKeeps(s: State, e: Event)
    requires Invariant(s) && Enabled(s, e)
    ensures Invariant(Step(s, e))
  {
    var s' := Step(s, e);
    forall key | key in s'.pending
      ensures EntryOk(s', key)
    {
      assert key in s.pending ==> EntryOk(s, key);
      if e.Settle? {
        assert s.sent[e.id].key in s.pending ==> EntryOk(s, s.sent[e.id].key);
      }
    }
  }

  ghost predicate IsRun(states: seq<State>, events: seq<Event>) {
    && |states| == |events| + 1 && states[0] == INITIAL
    && forall i :: 0 <= i < |events| ==> Enabled(states[i], events[i]) && states[i + 1] == Step(states[i], events[i])
  }

  lemma {:induction false} RunKeeps(states: seq<State>, events: seq<Event>, i: nat)
    requires IsRun(states, events) && i < |states|
    ensures Invariant(states[i])
  {
    if i > 0 {
      RunKeeps(states, events, i - 1);
      StepKeeps(states[i - 1], events[i - 1]);
      assert states[i - 1 + 1] == Step(states[i - 1], events[i - 1]);
    }
  }

  /**
   * In every state of every run, what a get for a key would share is the newest request for the key, still unsettled
   * and sent since the last cancellation; and there is never a second such request.
   */
  lemma SharedRequestIsTheOnlyOne(states: seq<State>, events: seq<Event>, i: nat, key: string, j: nat)
    requires IsRun(states, events) && i < |states|
    requires j < |states[i].sent| && states[i].sent[j] == Sent(key, states[i].cancels, false)
    ensures key in states[i].pending && states[i].pending[key] == j
    ensures forall k :: j < k < |states[i].sent| ==> states[i].sent[k].key != key
  {
    RunKeeps(states, events, i);
    assert EntryOk(states[i], key);
  }

  /** The end of an older request leaves the entry of a newer one alone. */
  lemma OlderSettleKeepsNewer(states: seq<State>, events: seq<Event>, i: nat, key: string)
    requires IsRun(states, events) && i < |events| && events[i].Settle?
    requires key in states[i].pending && states[i].pending[key] != events[i].id
    ensures key in states[i + 1].pending && states[i + 1].pending[key] == states[i].pending[key]
  {
    RunKeeps(states, events, i);
    assert Enabled(states[i], events[i]) && states[i + 1] == Step(states[i], events[i]);
    assert EntryOk(states[i], key);
  }

  /** A get sends a request if and only if no unsettled one for the key has been sent since the last cancellation. */
  lemma GetSendsIff(states: seq<State>, events: seq<Event>, i: nat, key: string)
    requires IsRun(states, events) && i < |events| && events[i] == Get(key)
    ensures var s, s' := states[i], states[i + 1];
            if forall j :: 0 <= j < |s.sent| ==> s.sent[j] != Sent(key, s.cancels, false) then s'.sent == s.sent + [Sent(key, s.cancels, false)]
            else s' == s
  {
    RunKeeps(states, events, i);
    assert states[i + 1] == Step(states[i], events[i]);
    assert key in states[i].pending ==> EntryOk(states[i], key);
  }

  /** The end of a request settles it, and no get shares it any more. */
  lemma SettledIsForgotten(states: seq<State>, events: seq<Event>, i: nat, id: nat)
    requires IsRun(states, events) && i < |events| && events[i] == Settle(id)
    ensures id < |states[i].sent| && states[i + 1].sent == states[i].sent[id := states[i].sent[id].(settled := true)]
    ensures id !in states[i + 1].pending.Values
  {
    RunKeeps(states, events, i);
    RunKeeps(states, events, i + 1);
    assert Enabled(states[i], events[i]) && states[i + 1] == Step(states[i], events[i]);
    var pending := states[i + 1].pending;
    forall key | key in pending
      ensures pending[key] != id
    {
      assert EntryOk(states[i + 1], key);
    }
  }

  /** After a cancellation nothing is shared with what was sent before. */
  lemma CancelForgets(states: seq<State>, events: seq<Event>, i: nat)
    requires IsRun(states, events) && i < |events| && events[i] == CancelAll
    ensures states[i + 1].pending == map[] && states[i + 1].sent == states[i].sent
    ensures forall j :: 0 <= j < |states[i].sent| ==> states[i].sent[j].era < states[i + 1].cancels
  {
    RunKeeps(states, events, i);
    assert states[i + 1] == Step(states[i], events[i]);
  }

  // ---- Keys ----

  function AuthContext(token: Option<string>): string {
    if token.None? || token.value == "" then "anonymous" else token.value
  }

  /** `getRequestKey`; the parameters come as their JSON text. */
  function RequestKey(token: Option<string>, url: string, params: Option<string>): string {
    AuthContext(token) + ":" + url + if params.Some? then "?" + params.value else ""
  }

  /** Every call of the client passes a path. */
  predicate IsPath(url: string) {
    "/" <= url
  }

  ghost predicate CanCollide(a: Option<string>, b: Option<string>) {
    exists u, p, v, q :: IsPath(u) && IsPath(v) && RequestKey(a, u, p) == RequestKey(b, v, q)
  }

  /** What every key of the session begins with. */
  function KeyStart(token: Option<string>): string {
    AuthContext(token) + ":/"
  }

  /**
   * Requests of two sessions can share a key, and so a response, exactly when what the keys of one session begin
   * with starts what those of the other begin with.
   */
  lemma SessionsShareIff(a: Option<string>, b: Option<string>)
    ensures CanCollide(a, b) <==> KeyStart(a) <= KeyStart(b) || KeyStart(b) <= KeyStart(a)
  {
    if u, p, v, q :| IsPath(u) && IsPath(v) && RequestKey(a, u, p) == RequestKey(b, v, q) {
      StartsKey(a, u, p);
      StartsKey(b, v, q);
      var key, x, y := RequestKey(a, u, p), KeyStart(a), KeyStart(b);
      assert x == key[..|x|] && y == key[..|y|];
    }
    if KeyStart(a) <= KeyStart(b) {
      CollideBy(a, b);
    }
    if KeyStart(b) <= KeyStart(a) {
      CollideBy(b, a);
      var u, p, v, q :| IsPath(u) && IsPath(v) && RequestKey(b, u, p) == RequestKey(a, v, q);
      assert RequestKey(a, v, q) == RequestKey(b, u, p);
    }
  }

  lemma StartsKey(token: Option<string>, url: string, params: Option<string>)
    requires IsPath(url)
    ensures KeyStart(token) <= RequestKey(token, url, params)
  {
    assert url == "/" + url[1..];
    assert RequestKey(token, url, params) == KeyStart(token) + (url[1..] + if params.Some? then "?" + params.value else "");
  }

  lemma CollideBy(a: Option<string>, b: Option<string>)
    requires KeyStart(a) <= KeyStart(b)
    ensures CanCollide(a, b)
  {
    var n := |AuthContext(a)| + 1;
    var u := KeyStart(b)[n..];
    assert u[0] == KeyStart(a)[n];
    assert IsPath(u) && IsPath("/");
    KeyOfRest(a, KeyStart(b));
    assert RequestKey(b, "/", None) == KeyStart(b);
  }

  lemma KeyOfRest(a: Option<string>, key: string)
    requires AuthContext(a) + ":" <= key
    ensures RequestKey(a, key[|AuthContext(a)| + 1..], None) == key
  {
  }

  /** The limit of the key format: two different tokens and two paths with one key. */
  lemma KeysCanCoincide()
    ensures RequestKey(Some("t"), "/x:/y", None) == RequestKey(Some("t:/x"), "/y", None)
    ensures CanCollide(Some("t"), Some("t:/x"))
  {
    assert RequestKey(Some("t"), "/x:/y", None) == "t:/x:/y" == RequestKey(Some("t:/x"), "/y", None);
    assert IsPath("/x:/y") && IsPath("/y");
  }

  lemma ColonEndsContext(a: string, b: string)
    requires ':' !in b && a + ":/" <= b + ":/"
    ensures a == b
  {
    assert forall i :: 0 <= i < |b| ==> (b + ":/")[i] in b;
    assert (a + ":/")[|a|] == ':' == (b + ":/")[|a|];
    assert a == (b + ":/")[..|a|];
  }

  /** Sessions whose tokens hold no colon never share a response unless their contexts are the same. */
  lemma TokensWithoutColonSeparate(a: Option<string>, b: Option<string>)
    requires ':' !in AuthContext(a) && ':' !in AuthContext(b) && CanCollide(a, b)
    ensures AuthContext(a) == AuthContext(b)
  {
    SessionsShareIff(a, b);
    if KeyStart(a) <= KeyStart(b) {
      ColonEndsContext(AuthContext(a), AuthContext(b));
    } else {
      ColonEndsContext(AuthContext(b), AuthContext(a));
    }
  }

  /** How a key is written, with a token and without. */
  lemma KeysWritten()
    ensures RequestKey(Some("t"), "/a", Some("{}")) == "t:/a?{}"
    ensures RequestKey(None, "/a", None) == RequestKey(Some(""), "/a", None) == "anonymous:/a"
  {
  }

  /** Within a session, requests for paths without a query of their own share a key only if path and parameters agree. */
  lemma KeysTellRequestsApart(token: Option<string>, u: string, p: Option<string>, v: string, q: Option<string>)
    requires '?' !in u && '?' !in v
    ensures RequestKey(token, u, p) == RequestKey(token, v, q) <==> u == v && p == q
  {
    var start := AuthContext(token) + ":";
    var x, y := Target(u, p), Target(v, q);
    assert RequestKey(token, u, p) == start + x && RequestKey(token, v, q) == start + y;
    if start + x == start + y {
      assert x == (start + x)[|start|..] == y;
      SameTarget(u, p, v, q);
    }
  }

  function Target(url: string, params: Option<string>): string {
    url + if params.Some? then "?" + params.value else ""
  }

  lemma SameTarget(u: string, p: Option<string>, v: string, q: Option<string>)
    requires '?' !in u && '?' !in v && Target(u, p) == Target(v, q)
    ensures u == v && p == q
  {
    NotShorter(u, p, v, q);
    NotShorter(v, q, u, p);
    assert u == Target(u, p)[..|u|] == v;
    assert Target(u, p)[|u|..] == Target(v, q)[|u|..];
    if p.Some? && q.Some? {
      assert p.value == ("?" + p.value)[1..] == ("?" + q.value)[1..] == q.value;
    }
  }

  lemma NotShorter(u: string, p: Option<string>, v: string, q: Option<string>)
    requires '?' !in v && Target(u, p) == Target(v, q)
    ensures |u| >= |v|
  {
    assert forall i :: 0 <= i < |v| ==> Target(v, q)[i] == v[i] && v[i] in v;
    assert p.Some? ==> Target(u, p)[|u|] == '?';
  }

  // ---- The client's own code ----

  class HttpClient {
    var pendingGetRequests: map<string, nat>
    var sent: seq<Sent>
    var cancels: nat

    ghost function View(): State
      reads this
    {
      State(pendingGetRequests, sent, cancels)
    }

    constructor ()
      ensures View() == INITIAL
    {
      pendingGetRequests, sent, cancels := map[], [], 0;
    }

    /** The wrapped `http.get`: the promise of the request that answers the call. */
    method Get(token: Option<string>, url: string, params: Option<string>) returns (promise: nat)
      modifies this
      ensures View() == Step(old(View()), Event.Get(RequestKey(token, url, params)))
      ensures RequestKey(token, url, params) in pendingGetRequests && promise == pendingGetRequests[RequestKey(token, url, params)]
    {
      var key := RequestKey(token, url, params);
      if key in pendingGetRequests {
        return pendingGetRequests[key];
      }
      promise := |sent|;
      sent := sent + [Sent(key, cancels, false)];
      pendingGetRequests := pendingGetRequests[key := promise];
    }

    /** The `finally` handler of a request. */
    method OnSettled(id: nat)
      requires Enabled(View(), Settle(id))
      modifies this
      ensures View() == Step(old(View()), Settle(id))
    {
      var key := sent[id].key;
      sent := sent[id := sent[id].(settled := true)];
      if key in pendingGetRequests && pendingGetRequests[key] == id {
        pendingGetRequests := pendingGetRequests - {key};
      }
    }

    /** `cancelAllPendingRequests`. */
    method CancelAllPendingRequests()
      modifies this
      ensures View() == Step(old(View()), CancelAll)
    {
      pendingGetRequests := map[];
      cancels := cancels + 1;
    }
  }
}
