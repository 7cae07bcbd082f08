/** The connection and retry machine of `BtpsClient` under overlapping socket events, timers and
    re-entrant listeners (src/client/btpsClient.ts:46-100, 123-147, 218-319). */
module Client {

  /** A call from user code. A listener may call the client again while it is being notified:
      `setup` are the calls of the callback given to `connect`, `onError` those of the error
      listeners. `valid` says whether the receiver parses as an identity. */
  datatype Call =
    | Connect(receiver: string, valid: bool, setup: seq<Call>, onError: seq<Call>)
    | End
    | Destroy

  /** The fields that steer retrying, and counts of what was asked for and done: address lookups
      pending, reconnect timers waiting and fired, sockets opened, `connect` invocations, and
      whether a message line was handled. */
  datatype State = State(
    retries: nat, isConnecting: bool, destroyed: bool, shouldRetry: bool,
    pending: nat, timers: nat, fired: nat, sockets: nat, connects: nat, handled: bool)

  const NEW_CLIENT := State(0, false, false, true, 0, 0, 0, 0, 0, false)

  /** What `getRetryInfo` is asked about. */
  datatype Failure = NoFailure | Message(text: string) | SyntaxFailure

  datatype Lookup = Address | NoAddress | NoHostname | ConnectThrew

  datatype Event =
    | User(call: Call)
    | Timer(onError: seq<Call>)
    | Resolved(lookup: Lookup, onError: seq<Call>)
    | SocketError(text: string, onError: seq<Call>)
    | SocketTimeout(onError: seq<Call>)
    | SocketEnd(onEnd: seq<Call>)
    | Line(parses: bool, listenerThrows: bool, onMessage: seq<Call>, onError: seq<Call>)

  const NON_RETRYABLE := ["invalid identity", "invalid btpAddress", "invalid hostname", "unsupported protocol",
                          "signature verification failed", "destroyed"]

  /** The client's own messages, without the receiver in some of them. */
  const REFUSED := "Already connecting"
  const NO_ADDRESS := "DNS resolution failed: No btpAddress record found"
  const NO_HOSTNAME := "invalid hostname: undefined"
  const CONNECT_THREW := "DNS resolution failed"
  const IS_DESTROYED := "BtpsClient instance is destroyed"
  const TIMED_OUT := "Connection timeout"

  // ---------- the operations on values ----------

  /** The list holds whole messages: `invalid identity: x` is not on it. */
  predicate NonRetryable(failure: Failure) {
    failure.Message? && failure.text in NON_RETRYABLE
  }

  predicate WillRetry(max: int, s: State, failure: Failure) {
    s.retries < max && !s.destroyed && !failure.SyntaxFailure? && !NonRetryable(failure) && s.shouldRetry
  }

  function InvalidIdentity(receiver: string): string {
    "invalid identity: " + receiver
  }

  /** The part of `resolveError` before the listeners hear of it. */
  function Freed(max: int, s: State, text: string): State {
    if WillRetry(max, s, Message(text)) then s.(isConnecting := false) else s
  }

  function Perform(max: int, s: State, call: Call): State
    decreases call
  {
    match call
    case Connect(receiver, valid, setup, onError) =>
      var asked := s.(connects := s.connects + 1);
      if asked.isConnecting then PerformAll(max, Freed(max, asked, REFUSED), onError)
      else
        var ready := PerformAll(max, asked.(isConnecting := true), setup);
        if valid then ready.(pending := ready.pending + 1)
        else PerformAll(max, Freed(max, ready, InvalidIdentity(receiver)), onError)
    case End => s.(isConnecting := false)
    case Destroy => s.(isConnecting := false, destroyed := true, shouldRetry := false)
  }

  function PerformAll(max: int, s: State, calls: seq<Call>): State
    decreases calls
  {
    if calls == [] then s else PerformAll(max, Perform(max, s, calls[0]), calls[1..])
  }

  function ResolveError(max: int, s: State, text: string, onError: seq<Call>): State {
    PerformAll(max, Freed(max, s, text), onError)
  }

  function RetryConnect(max: int, s: State): State {
    if s.retries >= max then s else s.(retries := s.retries + 1, timers := s.timers + 1)
  }

  function InitializeConnection(max: int, s: State, onError: seq<Call>): State {
    if s.destroyed then ResolveError(max, s, IS_DESTROYED, onError)
    else s.(sockets := s.sockets + 1)
  }

  /** A failure of a socket: whether to retry is settled before the listeners are told. */
  function SocketFails(max: int, s: State, text: string, onError: seq<Call>): State {
    var told := ResolveError(max, s, text, onError);
    if WillRetry(max, s, Message(text)) then RetryConnect(max, told) else told
  }

  function SocketEnds(max: int, s: State, onEnd: seq<Call>): State {
    var told := PerformAll(max, s, onEnd).(isConnecting := false);
    if WillRetry(max, s, NoFailure) then RetryConnect(max, told) else told
  }

  function LineArrives(max: int, s: State, line: Event): State
    requires line.Line?
  {
    var s' := s.(shouldRetry := false, handled := true);
    if line.parses && !line.listenerThrows then
      PerformAll(max, s', line.onMessage).(isConnecting := false)
    else
      var told := if line.parses then PerformAll(max, s', line.onMessage) else s';
      PerformAll(max, told.(isConnecting := false, shouldRetry := false), line.onError)
  }

  /** Events without their cause (a timer that was never set, a socket never opened) do nothing. */
  function Step(max: int, s: State, event: Event): State {
    match event
    case User(call) => Perform(max, s, call)
    case Timer(onError) =>
      if s.timers == 0 then s
      else Perform(max, s.(timers := s.timers - 1, fired := s.fired + 1), Connect("", true, [], onError))
    case Resolved(lookup, onError) =>
      if s.pending == 0 then s
      else
        var looked := s.(pending := s.pending - 1);
        (match lookup
         case Address => InitializeConnection(max, looked, onError)
         case NoAddress => ResolveError(max, looked, NO_ADDRESS, onError)
         case NoHostname => ResolveError(max, looked, NO_HOSTNAME, onError)
         case ConnectThrew =>
           if looked.destroyed then InitializeConnection(max, looked, onError)
           else ResolveError(max, looked, CONNECT_THREW, onError))
    case SocketError(text, onError) => if s.sockets == 0 then s else SocketFails(max, s, text, onError)
    case SocketTimeout(onError) => if s.sockets == 0 then s else SocketFails(max, s, TIMED_OUT, onError)
    case SocketEnd(onEnd) => if s.sockets == 0 then s else SocketEnds(max, s, onEnd)
    case Line(_, _, _, _) => if s.sockets == 0 then s else LineArrives(max, s, event)
  }

  function Run(max: int, s: State, events: seq<Event>): State
    decreases |events|
  {
    if events == [] then s else Run(max, Step(max, s, events[0]), events[1..])
  }

  // ---------- what user calls can and cannot do ----------

  /** Calls never touch the budget, the timers or the sockets; `destroyed` and the end of
      retrying are for good; every accepted `connect` starts at most one lookup. */
  predicate CallsOnly(s: State, r: State) {
    && r.retries == s.retries && r.timers == s.timers && r.fired == s.fired && r.sockets == s.sockets
    && r.handled == s.handled
    && (s.destroyed ==> r.destroyed) && (r.shouldRetry ==> s.shouldRetry)
    && (r.destroyed && !s.destroyed ==> !r.shouldRetry)
    && 0 <= r.pending - s.pending <= r.connects - s.connects
  }

  lemma {:induction false} PerformIsCalls(max: int, s: State, call: Call)
    ensures CallsOnly(s, Perform(max, s, call))
    decreases call
  {
    if call.Connect? {
      var asked := s.(connects := s.connects + 1);
      if asked.isConnecting {
        PerformAllIsCalls(max, Freed(max, asked, REFUSED), call.onError);
      } else {
        var ready := PerformAll(max, asked.(isConnecting := true), call.setup);
        PerformAllIsCalls(max, asked.(isConnecting := true), call.setup);
        if !call.valid {
          PerformAllIsCalls(max, Freed(max, ready, InvalidIdentity(call.receiver)), call.onError);
        }
      }
    }
  }

  lemma {:induction false} PerformAllIsCalls(max: int, s: State, calls: seq<Call>)
    ensures CallsOnly(s, PerformAll(max, s, calls))
    decreases calls
  {
    if calls != [] {
      PerformIsCalls(max, s, calls[0]);
      PerformAllIsCalls(max, Perform(max, s, calls[0]), calls[1..]);
    }
  }

  // ---------- the invariant ----------

  function Budget(max: int): nat {
    if max < 0 then 0 else max
  }

  /** Each retry is one timer, waiting or fired; each lookup or socket goes back to one `connect`,
      the user's or a fired timer's; a handled line and `destroy` both end retrying. */
  predicate Ok(max: int, s: State) {
    && s.retries <= Budget(max)
    && s.timers + s.fired == s.retries
    && s.fired <= s.connects
    && s.sockets + s.pending <= s.connects
    && (s.handled || s.destroyed ==> !s.shouldRetry)
  }

  lemma SocketEventOk(max: int, s: State, told: State)
    requires Ok(max, s) && CallsOnly(s, told)
    ensures Ok(max, told) && Ok(max, RetryConnect(max, told))
  {
  }

  /** The fired timer is paid for by the connect it makes. */
  lemma TimerOk(max: int, s: State, onError: seq<Call>)
    requires Ok(max, s)
    ensures Ok(max, Step(max, s, Timer(onError)))
  {
    if s.timers > 0 {
      var due := s.(timers := s.timers - 1, fired := s.fired + 1);
      PerformIsCalls(max, due, Connect("", true, [], onError));
      TimerConnects(max, due, onError);
    }
  }

  /** A lookup comes back: at most one socket in its place, and else only calls. */
  lemma ResolvedIsCalls(max: int, s: State, lookup: Lookup, onError: seq<Call>)
    requires s.pending > 0
    ensures var looked := s.(pending := s.pending - 1);
            var r := Step(max, s, Resolved(lookup, onError));
            CallsOnly(looked, r) || (!s.destroyed && r == looked.(sockets := s.sockets + 1))
  {
    var looked := s.(pending := s.pending - 1);
    match lookup
    case Address => ResolveIsCalls(max, looked, IS_DESTROYED, onError);
    case NoAddress => ResolveIsCalls(max, looked, NO_ADDRESS, onError);
    case NoHostname => ResolveIsCalls(max, looked, NO_HOSTNAME, onError);
    case ConnectThrew =>
      ResolveIsCalls(max, looked, IS_DESTROYED, onError);
      ResolveIsCalls(max, looked, CONNECT_THREW, onError);
  }

  lemma ResolveIsCalls(max: int, s: State, text: string, onError: seq<Call>)
    ensures CallsOnly(s, ResolveError(max, s, text, onError))
  {
    PerformAllIsCalls(max, Freed(max, s, text), onError);
  }

  lemma SocketFailsOk(max: int, s: State, text: string, onError: seq<Call>)
    requires Ok(max, s)
    ensures Ok(max, SocketFails(max, s, text, onError))
  {
    ResolveIsCalls(max, s, text, onError);
    SocketEventOk(max, s, ResolveError(max, s, text, onError));
  }

  lemma SocketEndsOk(max: int, s: State, onEnd: seq<Call>)
    requires Ok(max, s)
    ensures Ok(max, SocketEnds(max, s, onEnd))
  {
    PerformAllIsCalls(max, s, onEnd);
    SocketEventOk(max, s, PerformAll(max, s, onEnd).(isConnecting := false));
  }

  lemma StepOk(max: int, s: State, event: Event)
    requires Ok(max, s)
    ensures Ok(max, Step(max, s, event))
  {
    match event
    case User(call) => PerformIsCalls(max, s, call);
    case Timer(onError) => TimerOk(max, s, onError);
    case Resolved(lookup, onError) =>
      if s.pending > 0 {
        ResolvedIsCalls(max, s, lookup, onError);
      }
    case SocketError(text, onError) => SocketFailsOk(max, s, text, onError);
    case SocketTimeout(onError) => SocketFailsOk(max, s, TIMED_OUT, onError);
    case SocketEnd(onEnd) => SocketEndsOk(max, s, onEnd);
    case Line(_, _, _, _) => LineIsCalls(max, s, event);
  }

  lemma TimerConnects(max: int, s: State, onError: seq<Call>)
    ensures Perform(max, s, Connect("", true, [], onError)).connects > s.connects
  {
    PerformAllIsCalls(max, Freed(max, s.(connects := s.connects + 1), REFUSED), onError);
  }

  lemma LineIsCalls(max: int, s: State, line: Event)
    requires line.Line?
    ensures CallsOnly(s.(handled := true, shouldRetry := false), LineArrives(max, s, line))
  {
    var s' := s.(shouldRetry := false, handled := true);
    PerformAllIsCalls(max, s', line.onMessage);
    PerformAllIsCalls(max, PerformAll(max, s', line.onMessage).(isConnecting := false, shouldRetry := false), line.onError);
    PerformAllIsCalls(max, s'.(isConnecting := false, shouldRetry := false), line.onError);
  }

  lemma {:induction false} RunOk(max: int, s: State, events: seq<Event>)
    requires Ok(max, s)
    ensures Ok(max, Run(max, s, events))
    decreases |events|
  {
    if events != [] {
      StepOk(max, s, events[0]);
      RunOk(max, Step(max, s, events[0]), events[1..]);
    }
  }

  /** Over every run: the budget holds, and the sockets opened are at most the connects the user
      asked for and one for each retry. */
  lemma RetryBudget(max: int, events: seq<Event>)
    ensures var s := Run(max, NEW_CLIENT, events);
            && 0 <= s.retries <= Budget(max)
            && s.fired <= s.connects
            && s.sockets <= (s.connects - s.fired) + Budget(max)
  {
    RunOk(max, NEW_CLIENT, events);
  }

  /** So many times: the connection ends, the timer fires, a socket is opened. */
  function Reconnects(n: nat): seq<Event> {
    if n == 0 then [] else [SocketEnd([]), Timer([]), Resolved(Address, [])] + Reconnects(n - 1)
  }

  /** A connection after `k` retries. */
  function ConnectedAfter(k: nat): State {
    State(k, true, false, true, 0, 0, k, k + 1, k + 1, false)
  }

  lemma ConnectStarts(max: int, s: State, receiver: string)
    requires !s.isConnecting
    ensures Perform(max, s, Connect(receiver, true, [], []))
         == s.(isConnecting := true, connects := s.connects + 1, pending := s.pending + 1)
  {
    var ready := s.(isConnecting := true, connects := s.connects + 1);
    assert PerformAll(max, ready, []) == ready;
  }

  lemma {:induction false} ReconnectsSpend(max: int, k: nat, n: nat)
    requires k + n <= max
    ensures Run(max, ConnectedAfter(k), Reconnects(n)) == ConnectedAfter(k + n)
    decreases n
  {
    if n > 0 {
      var events := Reconnects(n);
      var later := events[1..];
      assert later == [Timer([]), Resolved(Address, [])] + Reconnects(n - 1);
      assert later[1..] == [Resolved(Address, [])] + Reconnects(n - 1) && later[1..][1..] == Reconnects(n - 1);
      var ended := State(k + 1, false, false, true, 0, 1, k, k + 1, k + 1, false);
      var fired := State(k + 1, true, false, true, 1, 0, k + 1, k + 1, k + 2, false);
      assert Step(max, ConnectedAfter(k), events[0]) == ended;
      ConnectStarts(max, ended.(timers := 0, fired := k + 1), "");
      assert Step(max, ended, later[0]) == fired;
      assert Step(max, fired, later[1]) == ConnectedAfter(k + 1);
      assert Run(max, ended, later) == Run(max, fired, later[1..]);
      ReconnectsSpend(max, k + 1, n - 1);
    }
  }

  /** The budget is attained: one connect of the user's can open a socket for itself and one for
      each retry. */
  lemma BudgetAttained(max: nat, receiver: string) returns (events: seq<Event>)
    ensures var s := Run(max, NEW_CLIENT, events);
            s.retries == max && s.connects - s.fired == 1 && s.sockets == 1 + max
  {
    var first := [User(Connect(receiver, true, [], [])), Resolved(Address, [])];
    events := first + Reconnects(max);
    assert events[1..] == [Resolved(Address, [])] + Reconnects(max) && events[1..][1..] == Reconnects(max);
    ConnectStarts(max, NEW_CLIENT, receiver);
    assert Step(max, NEW_CLIENT, events[0]) == State(0, true, false, true, 1, 0, 0, 0, 1, false);
    ReconnectsSpend(max, 0, max);
  }

  // ---------- what is over is over ----------

  lemma StepWithoutRetry(max: int, s: State, event: Event)
    requires !s.shouldRetry
    ensures var r := Step(max, s, event);
            !r.shouldRetry && r.retries == s.retries && r.timers + r.fired == s.timers + s.fired
  {
    match event
    case User(call) => PerformIsCalls(max, s, call);
    case Timer(onError) =>
      if s.timers > 0 {
        PerformIsCalls(max, s.(timers := s.timers - 1, fired := s.fired + 1), Connect("", true, [], onError));
      }
    case Resolved(lookup, onError) =>
      if s.pending > 0 {
        ResolvedIsCalls(max, s, lookup, onError);
      }
    case SocketError(text, onError) => ResolveIsCalls(max, s, text, onError);
    case SocketTimeout(onError) => ResolveIsCalls(max, s, TIMED_OUT, onError);
    case SocketEnd(onEnd) => PerformAllIsCalls(max, s, onEnd);
    case Line(_, _, _, _) => LineIsCalls(max, s, event);
  }

  lemma {:induction false} RunWithoutRetry(max: int, s: State, events: seq<Event>)
    requires !s.shouldRetry
    ensures var r := Run(max, s, events);
            r.retries == s.retries && r.timers + r.fired == s.timers + s.fired
    decreases |events|
  {
    if events != [] {
      StepWithoutRetry(max, s, events[0]);
      RunWithoutRetry(max, Step(max, s, events[0]), events[1..]);
    }
  }

  /** Once a line from the server was handled no reconnect timer is set any more, by any event. */
  lemma NoTimerAfterLine(max: int, before: seq<Event>, line: Event, after: seq<Event>)
    requires line.Line? && Run(max, NEW_CLIENT, before).sockets > 0
    ensures var s := Run(max, NEW_CLIENT, before);
            var r := Run(max, Step(max, s, line), after);
            r.timers + r.fired == s.timers + s.fired && r.retries == s.retries
  {
    var s := Run(max, NEW_CLIENT, before);
    LineIsCalls(max, s, line);
    RunWithoutRetry(max, Step(max, s, line), after);
  }

  lemma StepWhenDestroyed(max: int, s: State, event: Event)
    requires s.destroyed
    ensures Step(max, s, event).destroyed && Step(max, s, event).sockets == s.sockets
  {
    match event
    case User(call) => PerformIsCalls(max, s, call);
    case Timer(onError) =>
      if s.timers > 0 {
        PerformIsCalls(max, s.(timers := s.timers - 1, fired := s.fired + 1), Connect("", true, [], onError));
      }
    case Resolved(lookup, onError) =>
      if s.pending > 0 {
        ResolvedIsCalls(max, s, lookup, onError);
      }
    case SocketError(text, onError) => ResolveIsCalls(max, s, text, onError);
    case SocketTimeout(onError) => ResolveIsCalls(max, s, TIMED_OUT, onError);
    case SocketEnd(onEnd) => PerformAllIsCalls(max, s, onEnd);
    case Line(_, _, _, _) => LineIsCalls(max, s, event);
  }

  /** No socket is opened after `destroy`, wherever it was called from. */
  lemma {:induction false} NoSocketAfterDestroy(max: int, s: State, events: seq<Event>)
    requires s.destroyed
    ensures Run(max, s, events).sockets == s.sockets && Run(max, s, events).destroyed
    decreases |events|
  {
    if events != [] {
      StepWhenDestroyed(max, s, events[0]);
      NoSocketAfterDestroy(max, Step(max, s, events[0]), events[1..]);
    }
  }

  // ---------- which messages are retryable ----------

  /** The message of an invalid identity carries the receiver, so the list never contains it. */
  lemma NeverListed(receiver: string)
    ensures !NonRetryable(Message(InvalidIdentity(receiver)))
  {
    var text, prefix := InvalidIdentity(receiver), "invalid identity: ";
    assert |text| >= |prefix| == 18 && text[0] == prefix[0] == 'i' && text[8] == prefix[8] == 'i';
    assert |NON_RETRYABLE[0]| < 18 && |NON_RETRYABLE[2]| < 18 && |NON_RETRYABLE[5]| < 18;
    assert NON_RETRYABLE[1][8] == 'b' && NON_RETRYABLE[3][0] == 'u' && NON_RETRYABLE[4][0] == 's';
    assert forall i | 0 <= i < |NON_RETRYABLE| :: NON_RETRYABLE[i] != text;
  }

  /** A text as long as none on the list is not on it. */
  lemma LengthNotListed(text: string)
    requires |text| !in {9, 16, 18, 20, 29}
    ensures !NonRetryable(Message(text))
  {
    assert |NON_RETRYABLE[0]| == 16 && |NON_RETRYABLE[1]| == 18 && |NON_RETRYABLE[2]| == 16;
    assert |NON_RETRYABLE[3]| == 20 && |NON_RETRYABLE[4]| == 29 && |NON_RETRYABLE[5]| == 9;
    assert forall i | 0 <= i < |NON_RETRYABLE| :: |NON_RETRYABLE[i]| != |text|;
  }

  /** None of the client's own messages is on the list of non-retryable ones. */
  lemma OwnMessagesRetryable()
    ensures forall text | text in [REFUSED, NO_ADDRESS, NO_HOSTNAME, CONNECT_THREW, IS_DESTROYED, TIMED_OUT] :: !NonRetryable(Message(text))
  {
    assert REFUSED[0] == 'A' && TIMED_OUT[0] == 'C';
    assert forall i | 0 <= i < |NON_RETRYABLE| :: NON_RETRYABLE[i][0] in ['i', 'u', 's', 'd'];
    LengthNotListed(NO_ADDRESS);
    LengthNotListed(NO_HOSTNAME);
    LengthNotListed(CONNECT_THREW);
    LengthNotListed(IS_DESTROYED);
  }

  // ---------- when a failed connect frees the client ----------

  /** The budget and the flags allow a retry, whatever failed. */
  predicate Retryable(max: int, s: State) {
    s.retries < max && !s.destroyed && s.shouldRetry
  }

  /** What the listeners of a failed connect find: still connecting exactly if it was and no retry
      is allowed. */
  function Told(max: int, s: State): State {
    s.(isConnecting := s.isConnecting && !Retryable(max, s))
  }

  predicate LookupFails(s: State, lookup: Lookup) {
    lookup.Address? ==> s.destroyed
  }

  /** A connect refused because of another, or failing on its identity, frees the client exactly
      when a retry is allowed, whatever its callbacks and listeners do themselves. */
  lemma FailedConnectFreesExactly(max: int, s: State, receiver: string, valid: bool, setup: seq<Call>, onError: seq<Call>)
    requires s.isConnecting || !valid
    ensures var asked := s.(connects := s.connects + 1);
            var ready := if s.isConnecting then asked else PerformAll(max, asked.(isConnecting := true), setup);
            Perform(max, s, Connect(receiver, valid, setup, onError)) == PerformAll(max, Told(max, ready), onError)
  {
    OwnMessagesRetryable();
    NeverListed(receiver);
  }

  /** And so does a lookup that ends without a connection. */
  lemma FailedLookupFreesExactly(max: int, s: State, lookup: Lookup, onError: seq<Call>)
    requires s.pending > 0 && LookupFails(s, lookup)
    ensures Step(max, s, Resolved(lookup, onError)) == PerformAll(max, Told(max, s.(pending := s.pending - 1)), onError)
  {
    OwnMessagesRetryable();
  }

  predicate OnlyConnects(calls: seq<Call>)
    decreases calls
  {
    calls != [] ==> calls[0].Connect? && OnlyConnects(calls[0].onError) && OnlyConnects(calls[1..])
  }

  /** While the client counts as connecting and no retry is allowed, with the budget spent or
      retrying over, connects start nothing, those made by their error listeners included. */
  lemma {:induction false} StuckWhileConnecting(max: int, s: State, calls: seq<Call>)
    requires s.isConnecting && !Retryable(max, s) && OnlyConnects(calls)
    ensures var r := PerformAll(max, s, calls);
            r == s.(connects := r.connects) && r.connects >= s.connects + |calls|
    decreases calls
  {
    if calls != [] {
      var asked := s.(connects := s.connects + 1);
      var call := calls[0];
      FailedConnectFreesExactly(max, s, call.receiver, call.valid, call.setup, call.onError);
      assert Told(max, asked) == asked;
      StuckWhileConnecting(max, asked, call.onError);
      StuckWhileConnecting(max, Perform(max, s, call), calls[1..]);
    }
  }

  /** `end` frees the client: the next connect to a valid identity starts its lookup. */
  lemma EndFrees(max: int, s: State, receiver: string, setup: seq<Call>, onError: seq<Call>)
    ensures Perform(max, Perform(max, s, End), Connect(receiver, true, setup, onError)).pending > s.pending
  {
    var asked := s.(isConnecting := true, connects := s.connects + 1);
    PerformAllIsCalls(max, asked, setup);
  }

  lemma {:induction false} StaysFree(max: int, s: State, calls: seq<Call>)
    requires !s.isConnecting && forall call | call in calls :: !call.Connect?
    ensures !PerformAll(max, s, calls).isConnecting
    decreases calls
  {
    if calls != [] {
      StaysFree(max, Perform(max, s, calls[0]), calls[1..]);
    }
  }

  /** A handled line frees the client, whatever its message listeners do, unless an error listener
      connects again. */
  lemma LineFrees(max: int, s: State, line: Event)
    requires line.Line? && s.sockets > 0
    requires (line.parses && !line.listenerThrows) || forall call | call in line.onError :: !call.Connect?
    ensures var r := Step(max, s, line);
            r.handled && !r.isConnecting && !r.shouldRetry && r.retries == s.retries && r.timers == s.timers
  {
    LineIsCalls(max, s, line);
    var s' := s.(shouldRetry := false, handled := true);
    if !(line.parses && !line.listenerThrows) {
      var told := if line.parses then PerformAll(max, s', line.onMessage) else s';
      StaysFree(max, told.(isConnecting := false, shouldRetry := false), line.onError);
    }
  }

  // ---------- when exactly a reconnect is scheduled ----------

  predicate FromSocket(event: Event) {
    event.SocketError? || event.SocketTimeout? || event.SocketEnd?
  }

  /** The events that tell the listeners whether there will be a retry. */
  predicate Tells(s: State, event: Event) {
    match event
    case User(call) => call.Connect? && (s.isConnecting || !call.valid)
    case Timer(_) => s.timers > 0 && s.isConnecting
    case Resolved(lookup, _) => s.pending > 0 && LookupFails(s, lookup)
    case SocketError(_, _) => s.sockets > 0
    case SocketTimeout(_) => s.sockets > 0
    case SocketEnd(_) => s.sockets > 0
    case Line(_, _, _, _) => false
  }

  /** The `willRetry` they are told. */
  predicate Announced(max: int, s: State, event: Event) {
    match event
    case User(Connect(receiver, _, setup, _)) =>
      if s.isConnecting then Retryable(max, s)
      else Retryable(max, PerformAll(max, s.(isConnecting := true, connects := s.connects + 1), setup))
    case SocketError(text, _) => Retryable(max, s) && !NonRetryable(Message(text))
    case _ => Retryable(max, s)
  }

  /** A socket failure sets a reconnect timer exactly when the budget, the message and the flags
      allowed it as the failure came in, and only then are its listeners told by a client that is
      free again; nothing they do can change that. */
  lemma RetryScheduledExactly(max: int, s: State, text: string, onError: seq<Call>)
    requires s.sockets > 0
    ensures var allowed := s.retries < max && !s.destroyed && s.shouldRetry
              && text !in ["invalid identity", "invalid btpAddress", "invalid hostname", "unsupported protocol",
                           "signature verification failed", "destroyed"];
            Step(max, s, SocketError(text, onError))
              == Scheduled(PerformAll(max, s.(isConnecting := s.isConnecting && !allowed), onError), allowed)
    ensures var allowed := s.retries < max && !s.destroyed && s.shouldRetry;
            Step(max, s, SocketTimeout(onError))
              == Scheduled(PerformAll(max, s.(isConnecting := s.isConnecting && !allowed), onError), allowed)
    ensures var allowed := s.retries < max && !s.destroyed && s.shouldRetry;
            Step(max, s, SocketEnd(onError)) == Scheduled(PerformAll(max, s, onError).(isConnecting := false), allowed)
  {
    OwnMessagesRetryable();
    FailsExactly(max, s, text, onError);
    FailsExactly(max, s, TIMED_OUT, onError);
    PerformAllIsCalls(max, s, onError);
  }

  /** One timer more, if a retry was allowed. */
  function Scheduled(s: State, allowed: bool): State {
    if allowed then s.(retries := s.retries + 1, timers := s.timers + 1) else s
  }

  lemma FailsExactly(max: int, s: State, text: string, onError: seq<Call>)
    ensures var allowed := Retryable(max, s) && !NonRetryable(Message(text));
            SocketFails(max, s, text, onError)
              == Scheduled(PerformAll(max, s.(isConnecting := s.isConnecting && !allowed), onError), allowed)
  {
    ResolveIsCalls(max, s, text, onError);
  }

  /** Each of the six messages that name a lasting failure sets no timer. */
  lemma ListedSetsNoTimer(max: int, s: State, text: string, onError: seq<Call>)
    requires text in ["invalid identity", "invalid btpAddress", "invalid hostname", "unsupported protocol",
                      "signature verification failed", "destroyed"]
    ensures Step(max, s, SocketError(text, onError)).timers == s.timers
  {
    if s.sockets > 0 {
      RetryScheduledExactly(max, s, text, onError);
      PerformAllIsCalls(max, s, onError);
    }
  }

  /** An announced retry is scheduled exactly if a socket failed; a connect or lookup that fails
      announces one and schedules none. Each retry is one timer. */
  lemma AnnouncedRetryScheduledExactly(max: int, s: State, event: Event)
    requires Tells(s, event)
    ensures var r := Step(max, s, event);
            && r.retries == s.retries + (if FromSocket(event) && Announced(max, s, event) then 1 else 0)
            && r.timers + r.fired == s.timers + s.fired + (r.retries - s.retries)
  {
    OwnMessagesRetryable();
    match event
    case User(call) => PerformIsCalls(max, s, call);
    case Timer(onError) =>
      PerformIsCalls(max, s.(timers := s.timers - 1, fired := s.fired + 1), Connect("", true, [], onError));
    case Resolved(lookup, onError) => ResolvedIsCalls(max, s, lookup, onError);
    case SocketError(text, onError) => ResolveIsCalls(max, s, text, onError);
    case SocketTimeout(onError) => ResolveIsCalls(max, s, TIMED_OUT, onError);
    case SocketEnd(onEnd) => PerformAllIsCalls(max, s, onEnd);
  }

  /** So a listener that destroys the client while it is told of a failure still leaves a timer
      behind; the timer finds the client destroyed and opens nothing. */
  lemma TimerOutlivesDestroy(max: int, s: State, events: seq<Event>)
    requires s.sockets > 0 && Retryable(max, s)
    ensures var r := Step(max, s, SocketEnd([Destroy]));
            r.destroyed && r.timers == s.timers + 1 && Run(max, r, events).sockets == s.sockets
  {
    RetryScheduledExactly(max, s, "", [Destroy]);
    assert PerformAll(max, s, [Destroy]) == Perform(max, s, Destroy) by {
      assert [Destroy][1..] == [];
    }
    NoSocketAfterDestroy(max, Step(max, s, SocketEnd([Destroy])), events);
  }

  // ---------- the class ----------

  class BtpsClient {
    const maxRetries: int
    var retries: nat
    var isConnecting: bool
    var destroyed: bool
    var shouldRetry: bool
    ghost var pending: nat
    ghost var timers: nat
    ghost var fired: nat
    ghost var sockets: nat
    ghost var connects: nat
    ghost var handled: bool

    ghost function View(): State
      reads this
    {
      State(retries, isConnecting, destroyed, shouldRetry, pending, timers, fired, sockets, connects, handled)
    }

    constructor (maxRetries: int)
      ensures this.maxRetries == maxRetries && View() == NEW_CLIENT && Ok(maxRetries, View())
    {
      this.maxRetries := maxRetries;
      retries, isConnecting, destroyed, shouldRetry := 0, false, false, true;
      pending, timers, fired, sockets, connects, handled := 0, 0, 0, 0, 0, false;
    }

    predicate MayRetry(failure: Failure)
      reads this
    {
      retries < maxRetries && !(destroyed || failure.SyntaxFailure? || NonRetryable(failure) || !shouldRetry)
    }

    /** `connect`, with what its callback and the error listeners do to the client meanwhile. */
    method DoConnect(receiver: string, valid: bool, setup: seq<Call>, onError: seq<Call>)
      modifies this
      ensures View() == Perform(maxRetries, old(View()), Connect(receiver, valid, setup, onError))
      decreases Connect(receiver, valid, setup, onError)
    {
      connects := connects + 1;
      if isConnecting {
        if MayRetry(Message(REFUSED)) {
          isConnecting := false;
        }
        DoAll(onError);
        return;
      }
      isConnecting := true;
      DoAll(setup);
      if valid {
        pending := pending + 1;
        return;
      }
      if MayRetry(Message(InvalidIdentity(receiver))) {
        isConnecting := false;
      }
      DoAll(onError);
    }

    method DoEnd()
      modifies this
      ensures View() == Perform(maxRetries, old(View()), End)
    {
      isConnecting := false;
    }

    method DoDestroy()
      modifies this
      ensures View() == Perform(maxRetries, old(View()), Destroy)
    {
      isConnecting := false;
      destroyed := true;
      shouldRetry := false;
    }

    /** The calls a listener makes, one after another. */
    method DoAll(calls: seq<Call>)
      modifies this
      ensures View() == PerformAll(maxRetries, old(View()), calls)
      decreases calls
    {
      if calls == [] {
        return;
      }
      match calls[0] {
        case Connect(receiver, valid, setup, onError) => DoConnect(receiver, valid, setup, onError);
        case End => DoEnd();
        case Destroy => DoDestroy();
      }
      DoAll(calls[1..]);
    }

    method DoResolveError(text: string, onError: seq<Call>) returns (willRetry: bool)
      modifies this
      ensures View() == ResolveError(maxRetries, old(View()), text, onError)
      ensures willRetry == WillRetry(maxRetries, old(View()), Message(text))
    {
      willRetry := MayRetry(Message(text));
      if willRetry {
        isConnecting := false;
      }
      DoAll(onError);
    }

    method DoRetryConnect()
      modifies this
      ensures View() == RetryConnect(maxRetries, old(View()))
      ensures old(Ok(maxRetries, View())) ==> Ok(maxRetries, View())
    {
      if retries >= maxRetries {
        return;
      }
      retries := retries + 1;
      timers := timers + 1;
    }

    /** The 'error' listener of the socket; the timeout callback is the same with its own text. */
    method OnSocketError(text: string, onError: seq<Call>)
      modifies this
      ensures View() == SocketFails(maxRetries, old(View()), text, onError)
      ensures old(Ok(maxRetries, View())) ==> Ok(maxRetries, View())
    {
      if Ok(maxRetries, View()) {
        SocketFailsOk(maxRetries, View(), text, onError);
      }
      var willRetry := DoResolveError(text, onError);
      if willRetry {
        DoRetryConnect();
      }
    }

    method OnSocketEnd(onEnd: seq<Call>)
      modifies this
      ensures View() == SocketEnds(maxRetries, old(View()), onEnd)
      ensures old(Ok(maxRetries, View())) ==> Ok(maxRetries, View())
    {
      if Ok(maxRetries, View()) {
        SocketEndsOk(maxRetries, View(), onEnd);
      }
      var willRetry := MayRetry(NoFailure);
      DoAll(onEnd);
      isConnecting := false;
      if willRetry {
        DoRetryConnect();
      }
    }

    method OnLine(parses: bool, listenerThrows: bool, onMessage: seq<Call>, onError: seq<Call>)
      modifies this
      ensures View() == LineArrives(maxRetries, old(View()), Line(parses, listenerThrows, onMessage, onError))
      ensures !shouldRetry && retries == old(retries) && timers == old(timers)
    {
      LineIsCalls(maxRetries, View(), Line(parses, listenerThrows, onMessage, onError));
      handled := true;
      shouldRetry := false;
      if parses {
        DoAll(onMessage);
      }
      isConnecting := false;
      if !parses || listenerThrows {
        shouldRetry := false;
        DoAll(onError);
      }
    }

    /** `initializeConnection`, when an address was found. */
    method OnAddress(onError: seq<Call>)
      requires pending > 0
      modifies this
      ensures View() == Step(maxRetries, old(View()), Resolved(Address, onError))
      ensures old(destroyed) ==> sockets == old(sockets)
    {
      ghost var looked := View().(pending := pending - 1);
      ResolveIsCalls(maxRetries, looked, IS_DESTROYED, onError);
      pending := pending - 1;
      if destroyed {
        var _ := DoResolveError(IS_DESTROYED, onError);
        return;
      }
      sockets := sockets + 1;
    }
  }
}
