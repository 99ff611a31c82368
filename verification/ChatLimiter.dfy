/** Per-sender chat budgets with a periodic cleanup of idle ones. Instants and durations are in
    nanoseconds; zero is Go's zero time, which every reading of the clock is after. */
module ChatLimiter {

  import opened Common

  const IDLE_LIMIT: nat := 300_000_000_000
  const CLEANUP_PERIOD: nat := 128

  type Key = string

  datatype Config = Config(messageLimit: int, messageWindow: nat, typingLimit: int, typingWindow: nat, typingCooldown: nat)

  const Default := Config(10, 5_000_000_000, 10, 5_000_000_000, 2_000_000_000)

  /** One of the two fixed-window counters of a budget. */
  datatype Window = Window(count: nat, reset: Instant)

  datatype Typing = Typing(state: bool, at: Instant)

  datatype Budget = Budget(messages: Window, typing: Window, lastTyping: Option<Typing>, lastActivity: Instant)

  const NewBudget := Budget(Window(0, 0), Window(0, 0), None, 0)

  type Budgets = map<Key, Budget>

  datatype State = State(budgets: Budgets, operations: nat)

  datatype Request = Message | TypingChanged(isTyping: bool)

  datatype Call = Call(key: Key, request: Request, now: Instant)

  function KeyOf(room: string, principal: string): Key {
    room + ":" + principal
  }

  function Lookup(budgets: Budgets, key: Key): Budget {
    if key in budgets then budgets[key] else NewBudget
  }

  /** The window at the time of a request: a new one when the old one is over. */
  function Current(window: Window, length: nat, now: Instant): Window {
    if window.reset < now then Window(0, now + length) else window
  }

  predicate HasRoom(window: Window, limit: int) {
    window.count < limit
  }

  function Counted(window: Window): Window {
    window.(count := window.count + 1)
  }

  /** A repeated typing state within the cooldown. */
  predicate Redundant(budget: Budget, config: Config, isTyping: bool, now: Instant) {
    budget.lastTyping.Some? && budget.lastTyping.value.state == isTyping
    && now - budget.lastTyping.value.at < config.typingCooldown
  }

  predicate Allows(config: Config, budget: Budget, request: Request, now: Instant) {
    match request
    case Message => HasRoom(Current(budget.messages, config.messageWindow, now), config.messageLimit)
    case TypingChanged(isTyping) =>
      !Redundant(budget, config, isTyping, now) && HasRoom(Current(budget.typing, config.typingWindow, now), config.typingLimit)
  }

  function After(config: Config, budget: Budget, request: Request, now: Instant): Budget {
    var active := budget.(lastActivity := now);
    match request
    case Message =>
      var window := Current(budget.messages, config.messageWindow, now);
      active.(messages := if HasRoom(window, config.messageLimit) then Counted(window) else window)
    case TypingChanged(isTyping) =>
      if Redundant(budget, config, isTyping, now) then active
      else
        var window := Current(budget.typing, config.typingWindow, now);
        if HasRoom(window, config.typingLimit)
        then active.(typing := Counted(window), lastTyping := Some(Typing(isTyping, now)))
        else active.(typing := window)
  }

  predicate IsIdle(budget: Budget, now: Instant) {
    IDLE_LIMIT < now - budget.lastActivity
  }

  function Cleaned(budgets: Budgets, now: Instant): Budgets {
    map key | key in budgets && !IsIdle(budgets[key], now) :: budgets[key]
  }

  /** The limiter that never cleans up. */
  function Plain(config: Config, budgets: Budgets, call: Call): Budgets {
    budgets[call.key := After(config, Lookup(budgets, call.key), call.request, call.now)]
  }

  predicate Decision(config: Config, budgets: Budgets, call: Call) {
    Allows(config, Lookup(budgets, call.key), call.request, call.now)
  }

  /** The budgets a call finds: every 128th call cleans up first. */
  function Found(s: State, now: Instant): Budgets {
    if (s.operations + 1) % CLEANUP_PERIOD == 0 then Cleaned(s.budgets, now) else s.budgets
  }

  function Step(config: Config, s: State, call: Call): State {
    State(Plain(config, Found(s, call.now), call), s.operations + 1)
  }

  const Start := State(map[], 0)

  function Run(config: Config, calls: seq<Call>): State {
    if calls == [] then Start else Step(config, Run(config, calls[..|calls| - 1]), calls[|calls| - 1])
  }

  function RunPlain(config: Config, calls: seq<Call>): Budgets {
    if calls == [] then map[] else Plain(config, RunPlain(config, calls[..|calls| - 1]), calls[|calls| - 1])
  }

  /** What the limiter answers to a call that comes after the given ones. */
  predicate Answer(config: Config, before: seq<Call>, call: Call) {
    Decision(config, Found(Run(config, before), call.now), call)
  }

  predicate Chronological(calls: seq<Call>) {
    forall i, j :: 0 <= i < j < |calls| ==> calls[i].now <= calls[j].now
  }

  predicate Bounded(config: Config) {
    config.messageWindow <= IDLE_LIMIT && config.typingWindow <= IDLE_LIMIT && config.typingCooldown <= IDLE_LIMIT
  }

  /** Two windows that no request from `now` on can tell apart. */
  predicate SameWindow(left: Window, right: Window, now: Instant) {
    left == right || (left.reset < now && right.reset < now)
  }

  predicate CooledDown(typing: Option<Typing>, cooldown: nat, now: Instant) {
    typing.Some? ==> cooldown <= now - typing.value.at
  }

  predicate SameTyping(left: Option<Typing>, right: Option<Typing>, cooldown: nat, now: Instant) {
    left == right || (CooledDown(left, cooldown, now) && CooledDown(right, cooldown, now))
  }

  predicate Similar(config: Config, left: Budget, right: Budget, now: Instant) {
    && SameWindow(left.messages, right.messages, now) && SameWindow(left.typing, right.typing, now)
    && SameTyping(left.lastTyping, right.lastTyping, config.typingCooldown, now)
  }

  /** Nothing in a budget outlives its last activity by more than the idle limit. */
  predicate Grounded(budget: Budget, now: Instant) {
    && budget.lastActivity <= now
    && budget.messages.reset <= budget.lastActivity + IDLE_LIMIT
    && budget.typing.reset <= budget.lastActivity + IDLE_LIMIT
    && (budget.lastTyping.Some? ==> budget.lastTyping.value.at <= budget.lastActivity)
  }

  lemma SimilarDecide(config: Config, left: Budget, right: Budget, request: Request, now: Instant)
    requires Similar(config, left, right, now)
    ensures Allows(config, left, request, now) == Allows(config, right, request, now)
    ensures Similar(config, After(config, left, request, now), After(config, right, request, now), now)
  {
  }

  lemma GroundedAfter(config: Config, budget: Budget, request: Request, before: Instant, now: Instant)
    requires Bounded(config) && Grounded(budget, before) && before <= now
    ensures Grounded(After(config, budget, request, now), now)
  {
  }

  lemma SimilarLater(config: Config, left: Budget, right: Budget, before: Instant, now: Instant)
    requires Similar(config, left, right, before) && before <= now
    ensures Similar(config, left, right, now)
  {
  }

  /** An idle budget is as good as none. */
  lemma IdleIsNew(config: Config, idle: Budget, other: Budget, now: Instant)
    requires Bounded(config) && Grounded(idle, now) && IsIdle(idle, now) && Similar(config, idle, other, now)
    ensures Similar(config, NewBudget, other, now)
  {
  }

  ghost predicate Related(config: Config, cleaned: Budgets, plain: Budgets, now: Instant) {
    forall key :: Grounded(Lookup(cleaned, key), now) && Similar(config, Lookup(cleaned, key), Lookup(plain, key), now)
  }

  lemma StepKeepsRelated(config: Config, s: State, plain: Budgets, before: Instant, call: Call)
    requires Bounded(config) && Related(config, s.budgets, plain, before) && before <= call.now
    ensures Related(config, Step(config, s, call).budgets, Plain(config, plain, call), call.now)
    ensures Decision(config, Found(s, call.now), call) == Decision(config, plain, call)
  {
    var found := Found(s, call.now);
    forall key
      ensures Grounded(Lookup(found, key), call.now) && Similar(config, Lookup(found, key), Lookup(plain, key), call.now)
    {
      assert Grounded(Lookup(s.budgets, key), before) && Similar(config, Lookup(s.budgets, key), Lookup(plain, key), before);
      SimilarLater(config, Lookup(s.budgets, key), Lookup(plain, key), before, call.now);
      if key !in found && key in s.budgets {
        IdleIsNew(config, s.budgets[key], Lookup(plain, key), call.now);
      }
    }
    SimilarDecide(config, Lookup(found, call.key), Lookup(plain, call.key), call.request, call.now);
    GroundedAfter(config, Lookup(found, call.key), call.request, call.now, call.now);
    forall key
      ensures Grounded(Lookup(Plain(config, found, call), key), call.now)
      ensures Similar(config, Lookup(Plain(config, found, call), key), Lookup(Plain(config, plain, call), key), call.now)
    {
      assert key != call.key ==> Lookup(Plain(config, found, call), key) == Lookup(found, key);
    }
  }

  function LastTime(calls: seq<Call>): Instant {
    if calls == [] then 0 else calls[|calls| - 1].now
  }

  lemma {:induction false} RunsAreRelated(config: Config, calls: seq<Call>)
    requires Bounded(config) && Chronological(calls)
    ensures Related(config, Run(config, calls).budgets, RunPlain(config, calls), LastTime(calls))
  {
    if calls != [] {
      var before := calls[..|calls| - 1];
      RunsAreRelated(config, before);
      StepKeepsRelated(config, Run(config, before), RunPlain(config, before), LastTime(before), calls[|calls| - 1]);
    }
  }

  /** When no window and no cooldown exceeds the idle limit, the cleanup is invisible: every
      call gets the answer that the limiter without cleanup would give. */
  lemma CleanupIsInvisible(config: Config, before: seq<Call>, call: Call)
    requires Bounded(config) && Chronological(before + [call])
    ensures Answer(config, before, call) == Decision(config, RunPlain(config, before), call)
  {
    var all := before + [call];
    forall i, j | 0 <= i < j < |before|
      ensures before[i].now <= before[j].now
    {
      assert all[i].now <= all[j].now;
    }
    forall i | 0 <= i < |before|
      ensures before[i].now <= call.now
    {
      assert all[i] == before[i] && all[|before|] == call;
    }
    RunsAreRelated(config, before);
    StepKeepsRelated(config, Run(config, before), RunPlain(config, before), LastTime(before), call);
  }

  lemma DefaultIsBounded()
    ensures Bounded(Default)
  {
  }

  /** The two counters of a budget. */
  datatype Meter = Messages | TypingStates

  predicate CountedBy(request: Request, meter: Meter) {
    match meter
    case Messages => request.Message?
    case TypingStates => request.TypingChanged?
  }

  function WindowOf(budget: Budget, meter: Meter): Window {
    match meter
    case Messages => budget.messages
    case TypingStates => budget.typing
  }

  function LimitOf(config: Config, meter: Meter): int {
    match meter
    case Messages => config.messageLimit
    case TypingStates => config.typingLimit
  }

  function LengthOf(config: Config, meter: Meter): nat {
    match meter
    case Messages => config.messageWindow
    case TypingStates => config.typingWindow
  }

  /** A request on the key that the limiter lets through within the closed interval. */
  predicate AdmittedAt(config: Config, meter: Meter, before: seq<Call>, call: Call, key: Key, start: Instant) {
    && call.key == key && CountedBy(call.request, meter)
    && start <= call.now <= start + LengthOf(config, meter) && Answer(config, before, call)
  }

  function Admitted(config: Config, meter: Meter, calls: seq<Call>, key: Key, start: Instant): nat {
    if calls == [] then 0
    else
      var before := calls[..|calls| - 1];
      Admitted(config, meter, before, key, start)
      + if AdmittedAt(config, meter, before, calls[|calls| - 1], key, start) then 1 else 0
  }

  function Max0(limit: int): nat {
    if limit < 0 then 0 else limit
  }

  /** How many requests of the interval may have been let through by the time the window of
      the key is as given: only this window's when it began before the interval, and otherwise
      also those of one full window before it. */
  predicate AtMost(limit: nat, length: nat, window: Window, admitted: nat, start: Instant, now: Instant) {
    && window.count <= limit && window.reset <= now + length
    && (now < start ==> admitted == 0)
    && (window.reset < start + length ==> admitted <= window.count)
    && (window.reset <= start + 2 * length ==> admitted <= limit + window.count)
    && admitted <= 2 * limit
  }

  /** All that a window has counted was let through since it began. */
  predicate AtLeast(length: nat, window: Window, admitted: nat, start: Instant, now: Instant) {
    now <= start + length && (start == 0 || start + length <= window.reset) ==> window.count <= admitted
  }

  predicate Plausible(config: Config, meter: Meter, window: Window, admitted: nat, start: Instant, now: Instant) {
    && AtMost(Max0(LimitOf(config, meter)), LengthOf(config, meter), window, admitted, start, now)
    && AtLeast(LengthOf(config, meter), window, admitted, start, now)
  }

  lemma RequestKeepsPlausible(
    config: Config, meter: Meter, budget: Budget, request: Request, admitted: nat, start: Instant, before: Instant, now: Instant)
    requires CountedBy(request, meter) && before <= now
    requires Plausible(config, meter, WindowOf(budget, meter), admitted, start, before)
    ensures var counts := start <= now <= start + LengthOf(config, meter) && Allows(config, budget, request, now);
      Plausible(config, meter, WindowOf(After(config, budget, request, now), meter), admitted + (if counts then 1 else 0), start, now)
  {
  }

  lemma PlausibleLater(
    config: Config, meter: Meter, window: Window, admitted: nat, start: Instant, before: Instant, now: Instant)
    requires Plausible(config, meter, window, admitted, start, before) && before <= now
    ensures Plausible(config, meter, window, admitted, start, now)
  {
  }

  /** Requests of the other kind and other keys leave the window alone. */
  lemma OthersKeepWindow(config: Config, meter: Meter, budgets: Budgets, call: Call, key: Key)
    requires call.key != key || !CountedBy(call.request, meter)
    ensures WindowOf(Lookup(Plain(config, budgets, call), key), meter) == WindowOf(Lookup(budgets, key), meter)
  {
  }

  lemma CallKeepsPlausible(
    config: Config, meter: Meter, budgets: Budgets, call: Call, key: Key, admitted: nat, start: Instant, before: Instant)
    requires before <= call.now
    requires Plausible(config, meter, WindowOf(Lookup(budgets, key), meter), admitted, start, before)
    ensures var counts := call.key == key && CountedBy(call.request, meter)
        && start <= call.now <= start + LengthOf(config, meter) && Decision(config, budgets, call);
      Plausible(config, meter, WindowOf(Lookup(Plain(config, budgets, call), key), meter),
                admitted + (if counts then 1 else 0), start, call.now)
  {
    if call.key == key && CountedBy(call.request, meter) {
      RequestKeepsPlausible(config, meter, Lookup(budgets, key), call.request, admitted, start, before, call.now);
    } else {
      OthersKeepWindow(config, meter, budgets, call, key);
      PlausibleLater(config, meter, WindowOf(Lookup(budgets, key), meter), admitted, start, before, call.now);
    }
  }

  /** A run's last call comes after a run. */
  lemma LastCall(calls: seq<Call>)
    requires Chronological(calls) && calls != []
    ensures var before := calls[..|calls| - 1];
      Chronological(before) && before + [calls[|calls| - 1]] == calls && LastTime(before) <= LastTime(calls)
  {
  }

  lemma {:induction false} AdmittedIsPlausible(config: Config, meter: Meter, calls: seq<Call>, key: Key, start: Instant)
    requires Bounded(config) && Chronological(calls)
    ensures Plausible(config, meter, WindowOf(Lookup(RunPlain(config, calls), key), meter),
                      Admitted(config, meter, calls, key, start), start, LastTime(calls))
  {
    if calls != [] {
      var before, call := calls[..|calls| - 1], calls[|calls| - 1];
      LastCall(calls);
      AdmittedIsPlausible(config, meter, before, key, start);
      CleanupIsInvisible(config, before, call);
      CallKeepsPlausible(config, meter, RunPlain(config, before), call, key, Admitted(config, meter, before, key, start),
                         start, LastTime(before));
    }
  }

  /** No closed interval as long as the window sees more than twice the limit of messages, or of
      typing states. */
  lemma AtMostTwiceTheLimit(config: Config, meter: Meter, calls: seq<Call>, room: string, principal: string, start: Instant)
    requires Bounded(config) && Chronological(calls)
    ensures Admitted(config, meter, calls, KeyOf(room, principal), start) <= 2 * Max0(LimitOf(config, meter))
  {
    AdmittedIsPlausible(config, meter, calls, KeyOf(room, principal), start);
  }

  /** The last typing state that was let through. */
  function LastPassed(config: Config, calls: seq<Call>, key: Key): Option<Typing> {
    if calls == [] then None
    else
      var before, call := calls[..|calls| - 1], calls[|calls| - 1];
      if call.key == key && call.request.TypingChanged? && Answer(config, before, call)
      then Some(Typing(call.request.isTyping, call.now))
      else LastPassed(config, before, key)
  }

  lemma {:induction false} LastPassedIsKept(config: Config, calls: seq<Call>, key: Key)
    requires Bounded(config) && Chronological(calls)
    ensures Lookup(RunPlain(config, calls), key).lastTyping == LastPassed(config, calls, key)
  {
    if calls != [] {
      var before, call := calls[..|calls| - 1], calls[|calls| - 1];
      LastCall(calls);
      LastPassedIsKept(config, before, key);
      CleanupIsInvisible(config, before, call);
    }
  }

  /** The typing state that was last let through, told again within the cooldown. */
  predicate Repeats(config: Config, before: seq<Call>, call: Call) {
    && call.request.TypingChanged?
    && var last := LastPassed(config, before, call.key);
      && last.Some? && last.value.state == call.request.isTyping
      && call.now < last.value.at + config.typingCooldown
  }

  /** Where an interval as long as the window has to begin to end now. */
  function Since(now: Instant, length: nat): Instant {
    if now < length then 0 else now - length
  }

  /** A call is refused only for a reason: it repeats a typing state within the cooldown, which
      is always refused, or as many as the limit were let through in the window before it. */
  lemma RefusedForReason(config: Config, meter: Meter, before: seq<Call>, call: Call)
    requires Bounded(config) && Chronological(before + [call]) && CountedBy(call.request, meter)
    ensures Repeats(config, before, call) ==> !Answer(config, before, call)
    ensures !Repeats(config, before, call) && !Answer(config, before, call) ==>
      LimitOf(config, meter) <= Admitted(config, meter, before, call.key, Since(call.now, LengthOf(config, meter)))
    ensures Admitted(config, meter, before, call.key, Since(call.now, LengthOf(config, meter))) == 0 && 0 < LimitOf(config, meter) ==>
      Answer(config, before, call) == !Repeats(config, before, call)
  {
    LastCall(before + [call]);
    assert (before + [call])[..|before|] == before;
    CleanupIsInvisible(config, before, call);
    LastPassedIsKept(config, before, call.key);
    AdmittedIsPlausible(config, meter, before, call.key, Since(call.now, LengthOf(config, meter)));
  }

  /** With the configured values: never more than twenty messages in five seconds, and a message
      is refused only when ten went through in the five seconds before it. */
  lemma DefaultMessages(calls: seq<Call>, call: Call, start: Instant)
    requires Chronological(calls + [call]) && call.request.Message?
    ensures Admitted(Default, Messages, calls, call.key, start) <= 20
    ensures !Answer(Default, calls, call) ==> 10 <= Admitted(Default, Messages, calls, call.key, Since(call.now, 5_000_000_000))
  {
    LastCall(calls + [call]);
    assert (calls + [call])[..|calls|] == calls;
    AdmittedIsPlausible(Default, Messages, calls, call.key, start);
    RefusedForReason(Default, Messages, calls, call);
  }

  /** A typing state is refused when it repeats the last one within two seconds, and otherwise
      only when ten went through in the five seconds before it. */
  lemma DefaultTyping(calls: seq<Call>, call: Call, start: Instant)
    requires Chronological(calls + [call]) && call.request.TypingChanged?
    ensures Admitted(Default, TypingStates, calls, call.key, start) <= 20
    ensures var last := LastPassed(Default, calls, call.key);
      var repeated := last.Some? && last.value.state == call.request.isTyping && call.now < last.value.at + 2_000_000_000;
      && (repeated ==> !Answer(Default, calls, call))
      && (!repeated && !Answer(Default, calls, call) ==>
            10 <= Admitted(Default, TypingStates, calls, call.key, Since(call.now, 5_000_000_000)))
  {
    LastCall(calls + [call]);
    assert (calls + [call])[..|calls|] == calls;
    AdmittedIsPlausible(Default, TypingStates, calls, call.key, start);
    RefusedForReason(Default, TypingStates, calls, call);
  }

  lemma LastColon(room: string, principal: string)
    requires ':' !in principal
    ensures var key := KeyOf(room, principal);
      && key[..|room|] == room && key[|room|] == ':' && key[|room| + 1..] == principal
      && forall i :: |room| < i < |key| ==> key[i] != ':'
  {
    var key := KeyOf(room, principal);
    forall i | |room| < i < |key|
      ensures key[i] != ':'
    {
      assert key[i] == principal[i - |room| - 1];
    }
  }

  /** Two rooms or two senders never share a budget, as long as no sender's name has a colon. */
  lemma KeysAreDistinct(room: string, principal: string, otherRoom: string, otherPrincipal: string)
    requires ':' !in principal && ':' !in otherPrincipal
    ensures KeyOf(room, principal) == KeyOf(otherRoom, otherPrincipal) <==> room == otherRoom && principal == otherPrincipal
  {
    LastColon(room, principal);
    LastColon(otherRoom, otherPrincipal);
  }

  predicate CalledWithin(calls: seq<Call>, key: Key, now: Instant) {
    exists i :: 0 <= i < |calls| && calls[i].key == key && now <= calls[i].now + 300_000_000_000
  }

  /** A budget says when its key was called. */
  predicate IsCalled(calls: seq<Call>, key: Key, now: Instant) {
    exists i :: 0 <= i < |calls| && calls[i].key == key && calls[i].now == now
  }

  ghost predicate Dated(calls: seq<Call>, budgets: Budgets) {
    forall key :: key in budgets ==> IsCalled(calls, key, budgets[key].lastActivity)
  }

  /** Only idle budgets are ever missing. */
  ghost predicate Remembers(calls: seq<Call>, budgets: Budgets, now: Instant) {
    forall i :: 0 <= i < |calls| && now - calls[i].now <= IDLE_LIMIT ==>
      calls[i].key in budgets && calls[i].now <= budgets[calls[i].key].lastActivity
  }

  lemma CallKeepsDated(config: Config, calls: seq<Call>, budgets: Budgets, call: Call)
    requires Dated(calls, budgets)
    ensures Dated(calls + [call], Plain(config, budgets, call))
  {
    var all, after := calls + [call], Plain(config, budgets, call);
    forall key | key in after
      ensures IsCalled(all, key, after[key].lastActivity)
    {
      if key == call.key {
        assert all[|calls|] == call;
      } else {
        var i :| 0 <= i < |calls| && calls[i].key == key && calls[i].now == budgets[key].lastActivity;
        assert all[i] == calls[i];
      }
    }
  }

  lemma CallKeepsRemembers(config: Config, calls: seq<Call>, budgets: Budgets, call: Call)
    requires Remembers(calls, budgets, call.now) && Chronological(calls + [call])
    ensures Remembers(calls + [call], Plain(config, budgets, call), call.now)
  {
    var all, after := calls + [call], Plain(config, budgets, call);
    assert all[|calls|] == call;
    forall i | 0 <= i < |all| && call.now - all[i].now <= IDLE_LIMIT
      ensures all[i].key in after && all[i].now <= after[all[i].key].lastActivity
    {
      if i < |calls| {
        assert all[i] == calls[i];
      }
    }
  }

  lemma CleanupKeepsRemembers(calls: seq<Call>, budgets: Budgets, before: Instant, now: Instant)
    requires Dated(calls, budgets) && Remembers(calls, budgets, before) && before <= now
    ensures Dated(calls, Cleaned(budgets, now)) && Remembers(calls, Cleaned(budgets, now), now)
    ensures Remembers(calls, budgets, now)
  {
  }

  lemma {:induction false} RunRemembers(config: Config, calls: seq<Call>)
    requires Chronological(calls)
    ensures var end := Run(config, calls);
      Dated(calls, end.budgets) && Remembers(calls, end.budgets, LastTime(calls)) && end.operations == |calls|
  {
    if calls != [] {
      var before, call := calls[..|calls| - 1], calls[|calls| - 1];
      LastCall(calls);
      RunRemembers(config, before);
      var s := Run(config, before);
      CleanupKeepsRemembers(before, s.budgets, LastTime(before), call.now);
      CallKeepsDated(config, before, Found(s, call.now), call);
      CallKeepsRemembers(config, before, Found(s, call.now), call);
    }
  }

  /** Every 128th call leaves exactly the budgets whose keys were called in the last five
      minutes; the others take none away. */
  lemma IdleBudgetsGo(config: Config, calls: seq<Call>)
    requires Chronological(calls) && calls != []
    ensures |calls| % 128 == 0 ==> forall key :: key in Run(config, calls).budgets <==> CalledWithin(calls, key, LastTime(calls))
    ensures |calls| % 128 != 0 ==>
      var last := |calls| - 1;
      Run(config, calls).budgets.Keys == Run(config, calls[..last]).budgets.Keys + {calls[last].key}
  {
    RunRemembers(config, calls);
    RunRemembers(config, calls[..|calls| - 1]);
    var budgets := Run(config, calls).budgets;
    if |calls| % 128 == 0 {
      forall key | key in budgets
        ensures CalledWithin(calls, key, LastTime(calls))
      {
        assert LastTime(calls) - budgets[key].lastActivity <= IDLE_LIMIT;
        assert IsCalled(calls, key, budgets[key].lastActivity);
      }
    }
  }

  class Limiter {
    const config: Config
    var budgets: Budgets
    var operations: nat
    ghost var calls: seq<Call>

    ghost predicate Valid()
      reads this
    {
      State(budgets, operations) == Run(config, calls)
    }

    constructor (config: Config)
      ensures Valid() && this.config == config && calls == []
    {
      this.config := config;
      budgets, operations, calls := map[], 0, [];
    }

    /** Counts the operation and cleans up when its turn has come. */
    method Tick(now: Instant)
      modifies this`budgets, this`operations
      ensures operations == old(operations) + 1
      ensures budgets == Found(State(old(budgets), old(operations)), now)
    {
      operations := operations + 1;
      if operations % CLEANUP_PERIOD == 0 {
        Cleanup(now);
      }
    }

    method Cleanup(now: Instant)
      modifies this`budgets
      ensures budgets == Cleaned(old(budgets), now)
    {
      var rest := budgets.Keys;
      while rest != {}
        invariant rest <= budgets.Keys <= old(budgets).Keys
        invariant forall key :: key in budgets ==> budgets[key] == old(budgets)[key]
        invariant forall key :: key in old(budgets) && key !in rest ==> (key in budgets <==> !IsIdle(old(budgets)[key], now))
        decreases |rest|
      {
        var key :| key in rest;
        rest := rest - {key};
        if now - budgets[key].lastActivity > IDLE_LIMIT {
          budgets := budgets - {key};
        }
      }
    }

    method AllowMessage(room: string, principal: string, now: Instant) returns (allowed: bool)
      requires Valid()
      modifies this
      ensures Valid() && calls == old(calls) + [Call(KeyOf(room, principal), Message, now)]
      ensures allowed == Answer(config, old(calls), Call(KeyOf(room, principal), Message, now))
    {
      Tick(now);
      var key := KeyOf(room, principal);
      var budget := if key in budgets then budgets[key] else NewBudget;
      budget, allowed := SpendMessage(budget, now);
      budgets := budgets[key := budget];
      Record(Call(key, Message, now));
    }

    method SpendMessage(budget: Budget, now: Instant) returns (after: Budget, allowed: bool)
      ensures after == After(config, budget, Message, now) && allowed == Allows(config, budget, Message, now)
    {
      after := budget.(lastActivity := now);
      if now > after.messages.reset {
        after := after.(messages := Window(0, now + config.messageWindow));
      }
      if after.messages.count >= config.messageLimit {
        return after, false;
      }
      after := after.(messages := Window(after.messages.count + 1, after.messages.reset));
      allowed := true;
    }

    method AllowTyping(room: string, principal: string, isTyping: bool, now: Instant) returns (allowed: bool)
      requires Valid()
      modifies this
      ensures Valid() && calls == old(calls) + [Call(KeyOf(room, principal), TypingChanged(isTyping), now)]
      ensures allowed == Answer(config, old(calls), Call(KeyOf(room, principal), TypingChanged(isTyping), now))
    {
      Tick(now);
      var key := KeyOf(room, principal);
      var budget := if key in budgets then budgets[key] else NewBudget;
      budget, allowed := SpendTyping(budget, isTyping, now);
      budgets := budgets[key := budget];
      Record(Call(key, TypingChanged(isTyping), now));
    }

    method SpendTyping(budget: Budget, isTyping: bool, now: Instant) returns (after: Budget, allowed: bool)
      ensures after == After(config, budget, TypingChanged(isTyping), now)
      ensures allowed == Allows(config, budget, TypingChanged(isTyping), now)
    {
      after := budget.(lastActivity := now);
      if after.lastTyping.Some? && after.lastTyping.value.state == isTyping {
        if now - after.lastTyping.value.at < config.typingCooldown {
          return after, false;
        }
      }
      if now > after.typing.reset {
        after := after.(typing := Window(0, now + config.typingWindow));
      }
      if after.typing.count >= config.typingLimit {
        return after, false;
      }
      after := after.(typing := Window(after.typing.count + 1, after.typing.reset), lastTyping := Some(Typing(isTyping, now)));
      allowed := true;
    }

    ghost method Record(call: Call)
      requires State(budgets, operations) == Step(config, Run(config, calls), call)
      modifies this`calls
      ensures Valid() && calls == old(calls) + [call]
    {
      var before := calls;
      calls := calls + [call];
      assert calls[..|calls| - 1] == before;
    }
  }
}
