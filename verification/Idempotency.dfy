/** The idempotency middleware: look up, lock, look again, run, store, release, executed
    by any number of concurrent requests against a store whose entries may expire. */
module Idempotency {

  import opened Common

  type Key = string
  type Fingerprint = string

  /** A request's identity doubles as its random lock token. */
  type RequestId = nat

  /** `status` is 0 when the handler never wrote, `uncacheable` when the body outgrew the capture buffer. */
  datatype Response = Response(status: int, uncacheable: bool, content: string)

  datatype Record = Record(fingerprint: Fingerprint, status: int, content: string)

  predicate Cacheable(response: Response) {
    !response.uncacheable && 200 <= response.status < 300
  }

  function Recorded(fingerprint: Fingerprint, response: Response): Record {
    Record(fingerprint, response.status, response.content)
  }

  datatype Outcome =
    | Replayed(record: Record)
    | Mismatch
    | InProgress
    | Unavailable
    | Ran(response: Response)
    | Panicked

  /** What a request answers when it finds a record. */
  function ReplayOf(record: Record, fingerprint: Fingerprint): Outcome {
    if record.fingerprint == fingerprint then Replayed(record) else Mismatch
  }

  datatype Pc =
    | Looking
    | Acquiring
    | Rechecking
    | Running
    | Storing(response: Response)
    | Releasing(pending: Outcome)
    | Done(outcome: Outcome)

  datatype Request = Request(key: Key, fingerprint: Fingerprint, pc: Pc)

  /** `produced` lists, per key, the record of every handler run that ended with a cacheable response. */
  datatype State = State(
    results: map<Key, Record>,
    locks: map<Key, RequestId>,
    requests: map<RequestId, Request>,
    produced: map<Key, seq<Record>>)

  const EMPTY := State(map[], map[], map[], map[])

  /** `works` is false when the store call reports an error; `taken` is true when a failing
      SetNX nevertheless took the lock. */
  datatype Event =
    | Arrive(id: RequestId, key: Key, fingerprint: Fingerprint)
    | Look(id: RequestId, works: bool)
    | Acquire(id: RequestId, works: bool, taken: bool)
    | Recheck(id: RequestId, works: bool)
    | Finish(id: RequestId, response: Response)
    | Panic(id: RequestId)
    | Store(id: RequestId, works: bool)
    | Release(id: RequestId, works: bool)
    | ExpireLock(key: Key)
    | ExpireResult(key: Key)

  function Produced(s: State, key: Key): seq<Record> {
    if key in s.produced then s.produced[key] else []
  }

  predicate At(s: State, id: RequestId, pc: Pc) {
    id in s.requests && s.requests[id].pc == pc
  }

  function Goto(s: State, id: RequestId, pc: Pc): State
    requires id in s.requests
  {
    s.(requests := s.requests[id := s.requests[id].(pc := pc)])
  }

  function LookStep(s: State, id: RequestId, works: bool): State {
    if !At(s, id, Looking) then s
    else
      var request := s.requests[id];
      if !works then Goto(s, id, Done(Unavailable))
      else if request.key in s.results
      then Goto(s, id, Done(ReplayOf(s.results[request.key], request.fingerprint)))
      else Goto(s, id, Acquiring)
  }

  function AcquireStep(s: State, id: RequestId, works: bool, taken: bool): State {
    if !At(s, id, Acquiring) then s
    else
      var key := s.requests[id].key;
      var held := if key !in s.locks && (works || taken) then s.locks[key := id] else s.locks;
      Goto(s, id, if !works then Done(Unavailable) else if key in s.locks then Done(InProgress) else Rechecking)
      .(locks := held)
  }

  function RecheckStep(s: State, id: RequestId, works: bool): State {
    if !At(s, id, Rechecking) then s
    else
      var request := s.requests[id];
      if !works then Goto(s, id, Releasing(Unavailable))
      else if request.key in s.results
      then Goto(s, id, Releasing(ReplayOf(s.results[request.key], request.fingerprint)))
      else Goto(s, id, Running)
  }

  function FinishStep(s: State, id: RequestId, response: Response): State {
    if !At(s, id, Running) then s
    else if !Cacheable(response) then Goto(s, id, Releasing(Ran(response)))
    else
      var request := s.requests[id];
      Goto(s, id, Storing(response))
      .(produced := s.produced[request.key := Produced(s, request.key) + [Recorded(request.fingerprint, response)]])
  }

  function StoreStep(s: State, id: RequestId, works: bool): State {
    if id !in s.requests || !s.requests[id].pc.Storing? then s
    else
      var request := s.requests[id];
      Goto(s, id, Releasing(Ran(request.pc.response)))
      .(results := if works then s.results[request.key := Recorded(request.fingerprint, request.pc.response)] else s.results)
  }

  /** The lock is deleted only while it still holds this request's token. */
  function ReleaseStep(s: State, id: RequestId, works: bool): State {
    if id !in s.requests || !s.requests[id].pc.Releasing? then s
    else
      var request := s.requests[id];
      var mine := request.key in s.locks && s.locks[request.key] == id;
      Goto(s, id, Done(request.pc.pending)).(locks := if works && mine then s.locks - {request.key} else s.locks)
  }

  function Step(s: State, event: Event): State {
    match event
    case Arrive(id, key, fingerprint) =>
      if id in s.requests then s else s.(requests := s.requests[id := Request(key, fingerprint, Looking)])
    case Look(id, works) => LookStep(s, id, works)
    case Acquire(id, works, taken) => AcquireStep(s, id, works, taken)
    case Recheck(id, works) => RecheckStep(s, id, works)
    case Finish(id, response) => FinishStep(s, id, response)
    case Panic(id) => if At(s, id, Running) then Goto(s, id, Releasing(Panicked)) else s
    case Store(id, works) => StoreStep(s, id, works)
    case Release(id, works) => ReleaseStep(s, id, works)
    case ExpireLock(key) => s.(locks := s.locks - {key})
    case ExpireResult(key) => s.(results := s.results - {key})
  }

  function Run(s: State, events: seq<Event>): State
    decreases |events|
  {
    if events == [] then s else Run(Step(s, events[0]), events[1..])
  }

  /** Between taking the lock and giving it back. */
  predicate Holding(pc: Pc) {
    pc.Rechecking? || pc.Running? || pc.Storing? || pc.Releasing?
  }

  /** Every request in its critical section owns the lock of the key. */
  predicate LockOwned(s: State, key: Key) {
    forall id :: id in s.requests && s.requests[id].key == key && Holding(s.requests[id].pc) ==>
      key in s.locks && s.locks[key] == id
  }

  predicate NobodyHolds(s: State, key: Key) {
    forall id :: id in s.requests && s.requests[id].key == key ==> !Holding(s.requests[id].pc)
  }

  /** A lock may expire once nobody relies on it, as after a release that failed. */
  predicate ExpiryIsSafe(s: State, event: Event, key: Key) {
    event == ExpireLock(key) ==> NobodyHolds(s, key)
  }

  lemma StepKeepsLock(s: State, event: Event, key: Key)
    requires LockOwned(s, key)
    ensures LockOwned(Step(s, event), key) <==> ExpiryIsSafe(s, event, key)
  {
    if event != ExpireLock(key) {
      OtherStepKeepsLock(s, event, key);
    }
  }

  lemma OtherStepKeepsLock(s: State, event: Event, key: Key)
    requires LockOwned(s, key) && event != ExpireLock(key)
    ensures LockOwned(Step(s, event), key)
  {
  }

  /** The key's one record is stored, or its producer still holds the lock in order to store it. */
  predicate RecordSafe(s: State, key: Key) {
    && |Produced(s, key)| <= 1
    && (key in s.results ==> Produced(s, key) == [s.results[key]])
    && (Produced(s, key) != [] && key !in s.results ==>
          && key in s.locks && s.locks[key] in s.requests
          && s.requests[s.locks[key]].key == key && s.requests[s.locks[key]].pc.Storing?)
  }

  /** What a request's position says about the runs of its key so far. */
  predicate PositionFits(key: Key, request: Request, produced: seq<Record>, stored: bool) {
    match request.pc
    case Running => produced == [] && !stored
    case Storing(response) => produced == [Recorded(request.fingerprint, response)] && !stored
    case Releasing(outcome) => AnswerFits(request.fingerprint, outcome, produced)
    case Done(outcome) => AnswerFits(request.fingerprint, outcome, produced)
    case _ => true
  }

  /** An answer that carries a cacheable response carries the one that was produced. */
  predicate AnswerFits(fingerprint: Fingerprint, outcome: Outcome, produced: seq<Record>) {
    match outcome
    case Replayed(record) => record.fingerprint == fingerprint && produced == [record]
    case Ran(response) => Cacheable(response) ==> produced == [Recorded(fingerprint, response)]
    case Mismatch => |produced| == 1 && produced[0].fingerprint != fingerprint
    case _ => true
  }

  predicate PositionsFit(s: State, key: Key) {
    forall id :: id in s.requests && s.requests[id].key == key ==>
      PositionFits(key, s.requests[id], Produced(s, key), key in s.results)
  }

  predicate Inv(s: State, key: Key) {
    LockOwned(s, key) && RecordSafe(s, key) && PositionsFit(s, key)
  }

  /** No record of this key expires or fails to be written, and no lock of it expires under its holder. */
  predicate Quiet(s: State, event: Event, key: Key) {
    match event
    case ExpireLock(_) => ExpiryIsSafe(s, event, key)
    case ExpireResult(expired) => expired != key
    case Store(id, works) => works || id !in s.requests || s.requests[id].key != key
    case _ => true
  }

  lemma LookKeepsInv(s: State, id: RequestId, works: bool, key: Key)
    requires Inv(s, key)
    ensures Inv(LookStep(s, id, works), key)
  {
  }

  lemma AcquireKeepsInv(s: State, id: RequestId, works: bool, taken: bool, key: Key)
    requires Inv(s, key)
    ensures Inv(AcquireStep(s, id, works, taken), key)
  {
  }

  lemma RecheckKeepsInv(s: State, id: RequestId, works: bool, key: Key)
    requires Inv(s, key)
    ensures Inv(RecheckStep(s, id, works), key)
  {
  }

  lemma FinishKeepsInv(s: State, id: RequestId, response: Response, key: Key)
    requires Inv(s, key)
    ensures Inv(FinishStep(s, id, response), key)
  {
  }

  lemma StoreKeepsInv(s: State, id: RequestId, works: bool, key: Key)
    requires Inv(s, key) && Quiet(s, Store(id, works), key)
    ensures Inv(StoreStep(s, id, works), key)
  {
  }

  lemma ReleaseKeepsInv(s: State, id: RequestId, works: bool, key: Key)
    requires Inv(s, key)
    ensures Inv(ReleaseStep(s, id, works), key)
  {
  }

  lemma StepKeepsInv(s: State, event: Event, key: Key)
    requires Inv(s, key) && Quiet(s, event, key)
    ensures Inv(Step(s, event), key)
  {
    match event
    case Look(id, works) => LookKeepsInv(s, id, works, key);
    case Acquire(id, works, taken) => AcquireKeepsInv(s, id, works, taken, key);
    case Recheck(id, works) => RecheckKeepsInv(s, id, works, key);
    case Finish(id, response) => FinishKeepsInv(s, id, response, key);
    case Store(id, works) => StoreKeepsInv(s, id, works, key);
    case Release(id, works) => ReleaseKeepsInv(s, id, works, key);
    case _ =>
  }

  predicate QuietRun(s: State, events: seq<Event>, key: Key)
    decreases |events|
  {
    events == [] || (Quiet(s, events[0], key) && QuietRun(Step(s, events[0]), events[1..], key))
  }

  lemma {:induction false} RunKeepsInv(s: State, events: seq<Event>, key: Key)
    requires Inv(s, key) && QuietRun(s, events, key)
    ensures Inv(Run(s, events), key)
    decreases |events|
  {
    if events != [] {
      StepKeepsInv(s, events[0], key);
      RunKeepsInv(Step(s, events[0]), events[1..], key);
    }
  }

  /** The lock is owned in this state and after every step of the run. */
  predicate LockOwnedThroughout(s: State, events: seq<Event>, key: Key)
    decreases |events|
  {
    LockOwned(s, key) && (events != [] ==> LockOwnedThroughout(Step(s, events[0]), events[1..], key))
  }

  predicate SafeExpiries(s: State, events: seq<Event>, key: Key)
    decreases |events|
  {
    events != [] ==> ExpiryIsSafe(s, events[0], key) && SafeExpiries(Step(s, events[0]), events[1..], key)
  }

  /** Every request in its critical section owns the lock as long as, and no longer than, no lock
      of the key expires under its holder. */
  lemma {:induction false} LockHoldsExactlyWhenSafe(s: State, events: seq<Event>, key: Key)
    requires LockOwned(s, key)
    ensures LockOwnedThroughout(s, events, key) <==> SafeExpiries(s, events, key)
    ensures SafeExpiries(s, events, key) ==> LockOwned(Run(s, events), key)
    decreases |events|
  {
    if events != [] {
      StepKeepsLock(s, events[0], key);
      if ExpiryIsSafe(s, events[0], key) {
        LockHoldsExactlyWhenSafe(Step(s, events[0]), events[1..], key);
      }
    }
  }

  /** While no lock of the key expires under its holder, at most one request of the key is in its
      critical section, even when records expire or fail to be written. */
  lemma OneHandlerAtATime(events: seq<Event>, key: Key, first: RequestId, second: RequestId)
    requires SafeExpiries(EMPTY, events, key)
    ensures var end := Run(EMPTY, events);
      (&& first in end.requests && end.requests[first].key == key && Holding(end.requests[first].pc)
       && second in end.requests && end.requests[second].key == key && Holding(end.requests[second].pc))
      ==> first == second
  {
    LockHoldsExactlyWhenSafe(EMPTY, events, key);
  }

  /** At most one cacheable run ever happens, and every replay is that run's record. */
  lemma AtMostOneCacheableRun(events: seq<Event>, key: Key, id: RequestId)
    requires QuietRun(EMPTY, events, key)
    ensures var end := Run(EMPTY, events);
      && |Produced(end, key)| <= 1
      && (id in end.requests && end.requests[id].key == key && end.requests[id].pc.Done? ==>
            AnswerFits(end.requests[id].fingerprint, end.requests[id].pc.outcome, Produced(end, key)))
  {
    RunKeepsInv(EMPTY, events, key);
  }

  /** Requests of the key that are not in `early` have nothing to say but the stored record. */
  predicate LatecomersReplay(s: State, key: Key, record: Record, early: set<RequestId>) {
    && key in s.results && s.results[key] == record
    && forall id :: id in s.requests && id !in early && s.requests[id].key == key ==>
         || s.requests[id].pc == Looking || s.requests[id].pc == Done(Unavailable)
         || (record.fingerprint == s.requests[id].fingerprint && s.requests[id].pc == Done(Replayed(record)))
         || (record.fingerprint != s.requests[id].fingerprint && s.requests[id].pc == Done(Mismatch))
  }

  lemma StepKeepsLatecomers(s: State, event: Event, key: Key, record: Record, early: set<RequestId>)
    requires Inv(s, key) && Quiet(s, event, key)
    requires LatecomersReplay(s, key, record, early)
    ensures LatecomersReplay(Step(s, event), key, record, early)
  {
  }

  /** Once a record is stored, every request that arrives later replays exactly that record,
      is told that its body differs, or is turned away because the store cannot be read. */
  lemma {:induction false} LaterRequestsReplay(
    s: State, events: seq<Event>, key: Key, record: Record, early: set<RequestId>)
    requires Inv(s, key) && QuietRun(s, events, key)
    requires LatecomersReplay(s, key, record, early)
    ensures LatecomersReplay(Run(s, events), key, record, early)
    decreases |events|
  {
    if events != [] {
      StepKeepsInv(s, events[0], key);
      StepKeepsLatecomers(s, events[0], key, record, early);
      LaterRequestsReplay(Step(s, events[0]), events[1..], key, record, early);
    }
  }

  /** The request has its answer, or gives the lock back before it answers. */
  predicate Answering(s: State, id: RequestId, fingerprint: Fingerprint, outcome: Outcome) {
    id in s.requests && s.requests[id].fingerprint == fingerprint && s.requests[id].pc in {Releasing(outcome), Done(outcome)}
  }

  lemma StepKeepsAnswer(s: State, event: Event, id: RequestId, fingerprint: Fingerprint, outcome: Outcome)
    requires Answering(s, id, fingerprint, outcome)
    ensures Answering(Step(s, event), id, fingerprint, outcome)
  {
  }

  lemma {:induction false} AnswerStays(s: State, events: seq<Event>, id: RequestId, fingerprint: Fingerprint, outcome: Outcome)
    requires Answering(s, id, fingerprint, outcome)
    ensures Answering(Run(s, events), id, fingerprint, outcome)
    decreases |events|
  {
    if events != [] {
      StepKeepsAnswer(s, events[0], id, fingerprint, outcome);
      AnswerStays(Step(s, events[0]), events[1..], id, fingerprint, outcome);
    }
  }

  /** The step is a look, or a second look under the lock, that works and finds a record. */
  predicate Finds(s: State, event: Event, id: RequestId) {
    && id in s.requests && s.requests[id].key in s.results
    && ((event == Look(id, true) && s.requests[id].pc == Looking) || (event == Recheck(id, true) && s.requests[id].pc == Rechecking))
  }

  /** The record that was found, if it was stored for the same body. */
  function AnswerTo(s: State, id: RequestId): (outcome: Outcome)
    requires id in s.requests && s.requests[id].key in s.results
    ensures s.results[s.requests[id].key].fingerprint == s.requests[id].fingerprint ==> outcome == Replayed(s.results[s.requests[id].key])
    ensures s.results[s.requests[id].key].fingerprint != s.requests[id].fingerprint ==> outcome == Mismatch
  {
    ReplayOf(s.results[s.requests[id].key], s.requests[id].fingerprint)
  }

  lemma FindingAnswers(s: State, event: Event, id: RequestId)
    requires Finds(s, event, id)
    ensures var record := s.results[s.requests[id].key];
      var fingerprint := s.requests[id].fingerprint;
      Answering(Step(s, event), id, fingerprint, if record.fingerprint == fingerprint then Replayed(record) else Mismatch)
  {
  }

  /** In every schedule, a request that finds a record answers with that very record if it was
      stored for the same body, and with a mismatch otherwise. */
  lemma FoundRecordIsAnswered(events: seq<Event>, n: nat, id: RequestId)
    requires n < |events| && Finds(Run(EMPTY, events[..n]), events[n], id)
    ensures var before := Run(EMPTY, events[..n]);
      var record := before.results[before.requests[id].key];
      var fingerprint := before.requests[id].fingerprint;
      Answering(Run(EMPTY, events), id, fingerprint, if record.fingerprint == fingerprint then Replayed(record) else Mismatch)
  {
    var before := Run(EMPTY, events[..n]);
    var fingerprint := before.requests[id].fingerprint;
    var record := before.results[before.requests[id].key];
    var outcome := if record.fingerprint == fingerprint then Replayed(record) else Mismatch;
    FindingAnswers(before, events[n], id);
    assert events == events[..n] + events[n..] && events[n..][0] == events[n];
    RunConcat(EMPTY, events[..n], events[n..]);
    AnswerStays(Step(before, events[n]), events[n..][1..], id, fingerprint, outcome);
  }

  /** Whatever expires or fails, a lock leaves the store only by expiring or by its own
      holder's release; no other request can take it away. */
  lemma LockLeavesByOwnerOrExpiry(s: State, event: Event, key: Key)
    requires key in s.locks
    ensures var next := Step(s, event);
      (key in next.locks && next.locks[key] == s.locks[key])
      || event == ExpireLock(key)
      || (event == Release(s.locks[key], true) && s.locks[key] in s.requests && s.requests[s.locks[key]].key == key)
  {
  }

  function Critical(id: RequestId, key: Key): seq<Event> {
    [Arrive(id, key, ""), Look(id, true), Acquire(id, true, false), Recheck(id, true)]
  }

  lemma CriticalRuns(s: State, id: RequestId, key: Key)
    requires id !in s.requests && key !in s.results && key !in s.locks
    ensures Run(s, Critical(id, key)) ==
      s.(locks := s.locks[key := id], requests := s.requests[id := Request(key, "", Running)])
  {
    var arrived := Step(s, Arrive(id, key, ""));
    var looked := LookStep(arrived, id, true);
    var acquired := AcquireStep(looked, id, true, false);
    var events := Critical(id, key);
    assert looked.requests == s.requests[id := Request(key, "", Acquiring)];
    assert acquired.requests == s.requests[id := Request(key, "", Rechecking)];
    calc {
      Run(s, events);
      { assert events[1..] == [Look(id, true), Acquire(id, true, false), Recheck(id, true)]; }
      Run(arrived, [Look(id, true), Acquire(id, true, false), Recheck(id, true)]);
      Run(looked, [Acquire(id, true, false), Recheck(id, true)]);
      Run(acquired, [Recheck(id, true)]);
      RecheckStep(acquired, id, true);
    }
  }

  lemma {:induction false} RunConcat(s: State, first: seq<Event>, second: seq<Event>)
    ensures Run(s, first + second) == Run(Run(s, first), second)
    decreases |first|
  {
    if first == [] {
      assert first + second == second;
    } else {
      assert (first + second)[1..] == first[1..] + second;
      RunConcat(Step(s, first[0]), first[1..], second);
    }
  }

  /** The assumption on expiry is needed: when a lock expires under a slow handler, a second
      handler of the same key runs beside it. */
  lemma ExpiredLockAdmitsSecondHandler()
    ensures var end := Run(EMPTY, Critical(1, "k") + [ExpireLock("k")] + Critical(2, "k"));
      At(end, 1, Running) && At(end, 2, Running) && end.requests[1].key == end.requests[2].key
  {
    RunConcat(EMPTY, Critical(1, "k") + [ExpireLock("k")], Critical(2, "k"));
    RunConcat(EMPTY, Critical(1, "k"), [ExpireLock("k")]);
    CriticalRuns(EMPTY, 1, "k");
    var first := EMPTY.(locks := map["k" := 1], requests := map[1 := Request("k", "", Running)]);
    assert Run(EMPTY, Critical(1, "k")) == first;
    ExpireAlone(first, "k");
    CriticalRuns(first.(locks := first.locks - {"k"}), 2, "k");
  }

  lemma ExpireAlone(s: State, key: Key)
    ensures Run(s, [ExpireLock(key)]) == s.(locks := s.locks - {key})
  {
    assert [ExpireLock(key)][1..] == [];
  }

  /** An expiry forgets the record of one key and nothing else. */
  lemma RecordExpires(s: State, key: Key)
    ensures var next := Step(s, ExpireResult(key));
      && next.locks == s.locks && next.requests == s.requests && key !in next.results
      && forall other :: other != key ==> (other in next.results <==> other in s.results)
                                          && (other in s.results ==> next.results[other] == s.results[other])
  {
  }

  lemma RunTwo(s: State, first: Event, second: Event)
    ensures Run(s, [first, second]) == Step(Step(s, first), second)
  {
    assert [first, second][1..] == [second] && [second][1..] == [];
    assert Run(Step(s, first), [second]) == Run(Step(Step(s, first), second), []);
  }

  function Arrived(s: State, id: RequestId, key: Key, fingerprint: Fingerprint, pc: Pc): State {
    s.(requests := s.requests[id := Request(key, fingerprint, pc)])
  }

  /** A request that arrives after a record was stored changes nothing and answers with it, or
      with a mismatch; one that cannot read the store answers that it is unavailable. */
  lemma UndisturbedLook(s: State, id: RequestId, key: Key, fingerprint: Fingerprint, works: bool)
    requires id !in s.requests
    ensures Run(s, [Arrive(id, key, fingerprint), Look(id, works)])
            == Arrived(s, id, key, fingerprint,
                 if !works then Done(Unavailable)
                 else if key !in s.results then Acquiring
                 else if s.results[key].fingerprint == fingerprint then Done(Replayed(s.results[key]))
                 else Done(Mismatch))
  {
    RunTwo(s, Arrive(id, key, fingerprint), Look(id, works));
    var arrived := Step(s, Arrive(id, key, fingerprint));
    assert arrived == Arrived(s, id, key, fingerprint, Looking);
  }

  /** A held lock is a conflict; a free one is taken, and the second look finds what there is. */
  lemma UndisturbedLock(s: State, id: RequestId, works: bool, taken: bool)
    requires At(s, id, Acquiring)
    ensures var key := s.requests[id].key;
      var next := Step(s, Acquire(id, works, taken));
      && next.results == s.results && next.produced == s.produced && id in next.requests
      && next.requests[id] == s.requests[id].(pc := if !works then Done(Unavailable) else if key in s.locks then Done(InProgress) else Rechecking)
      && next.locks == (if key !in s.locks && (works || taken) then s.locks[key := id] else s.locks)
  {
  }

  lemma UndisturbedRecheck(s: State, id: RequestId, works: bool)
    requires At(s, id, Rechecking)
    ensures var next := Step(s, Recheck(id, works));
      var request := s.requests[id];
      && next.results == s.results && next.locks == s.locks && next.produced == s.produced && id in next.requests
      && next.requests[id] == request.(pc :=
           if !works then Releasing(Unavailable)
           else if request.key !in s.results then Running
           else if s.results[request.key].fingerprint == request.fingerprint then Releasing(Replayed(s.results[request.key]))
           else Releasing(Mismatch))
  {
  }

  /** The run's end: a successful response that fits the buffer is stored for its body, anything
      else is not; the caller gets it either way; then the lock is free again. */
  lemma UndisturbedFinish(s: State, id: RequestId, response: Response)
    requires At(s, id, Running) && s.requests[id].key in s.locks && s.locks[s.requests[id].key] == id
    ensures var key, fingerprint := s.requests[id].key, s.requests[id].fingerprint;
      var stored := 200 <= response.status <= 299 && !response.uncacheable;
      var finished := Step(s, Finish(id, response));
      var kept := if stored then Step(finished, Store(id, true)) else finished;
      var next := Step(kept, Release(id, true));
      && At(next, id, Done(Ran(response))) && next.locks == s.locks - {key}
      && next.results == (if stored then s.results[key := Record(fingerprint, response.status, response.content)] else s.results)
  {
  }

  /** A record that cannot be written is lost; a panic stores nothing; the lock is freed even so. */
  lemma UndisturbedFailure(s: State, id: RequestId, response: Response)
    requires At(s, id, Running) && s.requests[id].key in s.locks && s.locks[s.requests[id].key] == id
    requires 200 <= response.status <= 299 && !response.uncacheable
    ensures var key := s.requests[id].key;
      var unwritten := Step(Step(Step(s, Finish(id, response)), Store(id, false)), Release(id, true));
      var panicked := Step(Step(s, Panic(id)), Release(id, true));
      && At(unwritten, id, Done(Ran(response))) && unwritten.results == s.results && unwritten.locks == s.locks - {key}
      && At(panicked, id, Done(Panicked)) && panicked.results == s.results && panicked.locks == s.locks - {key}
  {
  }

  /** A release that fails leaves the lock; one that comes after the lock has passed on to
      another request leaves that request's lock. */
  lemma ReleaseSparesOthers(s: State, id: RequestId, works: bool, outcome: Outcome)
    requires At(s, id, Releasing(outcome))
    ensures var key := s.requests[id].key;
      var next := Step(s, Release(id, works));
      && At(next, id, Done(outcome)) && next.results == s.results
      && next.locks == (if works && key in s.locks && s.locks[key] == id then s.locks - {key} else s.locks)
  {
  }

  predicate Leaves(event: Event, id: RequestId) {
    match event
    case Arrive(other, _, _) => other != id
    case Look(other, _) => other != id
    case Acquire(other, _, _) => other != id
    case Recheck(other, _) => other != id
    case Finish(other, _) => other != id
    case Panic(other) => other != id
    case Store(other, _) => other != id
    case Release(other, _) => other != id
    case _ => true
  }

  lemma StepLeavesRequest(s: State, event: Event, id: RequestId)
    requires Leaves(event, id) && id in s.requests
    ensures id in Step(s, event).requests && Step(s, event).requests[id] == s.requests[id]
  {
  }

  /** Which of one request's store calls work, and what its handler does. */
  datatype Luck = Luck(look: bool, acquire: bool, taken: bool, recheck: bool, store: bool, release: bool)
  datatype Handler = Responds(response: Response) | Panics

  /** A request that is done without having held the lock. */
  predicate IsEarly(pc: Pc) {
    pc.Done? && !HasRun(pc.outcome)
  }

  predicate HasRun(outcome: Outcome) {
    outcome.Ran? || outcome.Panicked?
  }

  /** What the handler and the storing of its response contribute to the request's steps. */
  function HandlerSteps(id: RequestId, handler: Handler, luck: Luck): seq<Event> {
    if handler.Panics? then [Panic(id)]
    else if Cacheable(handler.response) then [Finish(id, handler.response), Store(id, luck.store)]
    else [Finish(id, handler.response)]
  }

  lemma LookMoves(s: State, id: RequestId, works: bool)
    requires At(s, id, Looking)
    ensures var next := Step(s, Look(id, works));
      && id in next.requests && (next.requests[id].pc == Acquiring || IsEarly(next.requests[id].pc))
      && next.requests[id].key == s.requests[id].key && next.requests[id].fingerprint == s.requests[id].fingerprint
  {
  }

  /** The middleware with one request's statements in program order and any steps of
      other requests, or expirations, between them. */
  class Middleware {
    var state: State
    ghost var history: seq<Event>

    ghost predicate Valid()
      reads this
    {
      state == Run(EMPTY, history)
    }

    constructor ()
      ensures Valid() && state == EMPTY
    {
      state := EMPTY;
      history := [];
    }

    /** The request's own steps so far. */
    ghost function StepsOf(id: RequestId): seq<Event>
      reads this
    {
      Filter(history, event => !Leaves(event, id))
    }

    method Perform(event: Event)
      requires Valid()
      modifies this
      ensures Valid() && history == old(history) + [event]
      ensures state == Step(old(state), event)
      ensures forall id :: StepsOf(id) == old(StepsOf(id)) + if Leaves(event, id) then [] else [event]
    {
      forall id {
        FilterOne(history, event, other => !Leaves(other, id));
      }
      RunConcat(EMPTY, history, [event]);
      assert [event][1..] == [];
      state := Step(state, event);
      history := history + [event];
    }

    method Interfere(others: seq<Event>, id: RequestId)
      requires Valid() && id in state.requests
      requires forall event :: event in others ==> Leaves(event, id)
      modifies this
      ensures Valid() && StepsOf(id) == old(StepsOf(id))
      ensures id in state.requests && state.requests[id] == old(state).requests[id]
    {
      for i := 0 to |others|
        invariant Valid() && StepsOf(id) == old(StepsOf(id))
        invariant id in state.requests && state.requests[id] == old(state).requests[id]
      {
        assert others[i] in others;
        StepLeavesRequest(state, others[i], id);
        Perform(others[i]);
      }
    }

    method Begin(id: RequestId, key: Key, fingerprint: Fingerprint)
      requires Valid() && id !in state.requests
      modifies this
      ensures Valid() && StepsOf(id) == old(StepsOf(id)) + [Arrive(id, key, fingerprint)]
      ensures id in state.requests && state.requests[id] == Request(key, fingerprint, Looking)
    {
      Perform(Arrive(id, key, fingerprint));
    }

    method LookUp(id: RequestId, key: Key, fingerprint: Fingerprint, luck: Luck, others: seq<Event>)
      requires Valid() && id !in state.requests
      requires forall event :: event in others ==> Leaves(event, id)
      modifies this
      ensures Valid() && StepsOf(id) == old(StepsOf(id)) + [Arrive(id, key, fingerprint), Look(id, luck.look)]
      ensures id in state.requests && (state.requests[id].pc == Acquiring || IsEarly(state.requests[id].pc))
      ensures state.requests[id].key == key && state.requests[id].fingerprint == fingerprint
    {
      Begin(id, key, fingerprint);
      Interfere(others, id);
      LookMoves(state, id, luck.look);
      Perform(Look(id, luck.look));
    }

    /** Everything up to the lock: on return the request is done or holds the lock. */
    method Enter(id: RequestId, key: Key, fingerprint: Fingerprint, luck: Luck, others: nat -> seq<Event>)
      requires Valid() && id !in state.requests
      requires forall i, event :: event in others(i) ==> Leaves(event, id)
      modifies this
      ensures Valid()
      ensures id in state.requests && (state.requests[id].pc == Rechecking || IsEarly(state.requests[id].pc))
      ensures var opening := old(StepsOf(id)) + [Arrive(id, key, fingerprint), Look(id, luck.look)];
        StepsOf(id) == opening + [Acquire(id, luck.acquire, luck.taken)] || (StepsOf(id) == opening && IsEarly(state.requests[id].pc))
      ensures state.requests[id].key == key && state.requests[id].fingerprint == fingerprint
    {
      LookUp(id, key, fingerprint, luck, others(0));
      if state.requests[id].pc == Acquiring {
        Interfere(others(1), id);
        Perform(Acquire(id, luck.acquire, luck.taken));
      }
    }

    method RunHandler(id: RequestId, handler: Handler, luck: Luck, others: nat -> seq<Event>)
      requires Valid() && At(state, id, Running)
      requires forall i, event :: event in others(i) ==> Leaves(event, id)
      modifies this
      ensures Valid() && StepsOf(id) == old(StepsOf(id)) + HandlerSteps(id, handler, luck)
      ensures id in state.requests && state.requests[id].pc.Releasing?
      ensures state.requests[id].key == old(state).requests[id].key
      ensures state.requests[id].fingerprint == old(state).requests[id].fingerprint
    {
      if handler.Panics? {
        Perform(Panic(id));
      } else {
        Perform(Finish(id, handler.response));
        if state.requests[id].pc.Storing? {
          Interfere(others(4), id);
          Perform(Store(id, luck.store));
        }
      }
    }

    /** The part after the lock is taken; every path ends ready to release. */
    method RunLocked(id: RequestId, handler: Handler, luck: Luck, others: nat -> seq<Event>)
      requires Valid() && At(state, id, Rechecking)
      requires forall i, event :: event in others(i) ==> Leaves(event, id)
      modifies this
      ensures Valid()
      ensures id in state.requests && state.requests[id].pc.Releasing?
      ensures StepsOf(id) == old(StepsOf(id)) + [Recheck(id, luck.recheck)] + HandlerSteps(id, handler, luck)
              || (StepsOf(id) == old(StepsOf(id)) + [Recheck(id, luck.recheck)] && !HasRun(state.requests[id].pc.pending))
      ensures state.requests[id].key == old(state).requests[id].key
      ensures state.requests[id].fingerprint == old(state).requests[id].fingerprint
    {
      Interfere(others(2), id);
      Perform(Recheck(id, luck.recheck));
      if state.requests[id].pc == Running {
        Interfere(others(3), id);
        RunHandler(id, handler, luck, others);
      }
    }

    /** The request takes its own steps in program order, whatever happens between them: a
        lock that was taken is always released, and a cacheable response is stored before. */
    method Serve(
      id: RequestId, key: Key, fingerprint: Fingerprint, handler: Handler, luck: Luck, others: nat -> seq<Event>)
      returns (outcome: Outcome)
      requires Valid() && id !in state.requests
      requires forall i, event :: event in others(i) ==> Leaves(event, id)
      modifies this
      ensures Valid()
      ensures var opening := old(StepsOf(id)) + [Arrive(id, key, fingerprint), Look(id, luck.look)];
        var locked := opening + [Acquire(id, luck.acquire, luck.taken)];
        var checked := locked + [Recheck(id, luck.recheck)];
        StepsOf(id) == checked + HandlerSteps(id, handler, luck) + [Release(id, luck.release)]
        || (!HasRun(outcome) && StepsOf(id) in {opening, locked, checked + [Release(id, luck.release)]})
      ensures At(state, id, Done(outcome)) && state.requests[id].key == key && state.requests[id].fingerprint == fingerprint
      ensures QuietRun(EMPTY, history, key) ==> AnswerFits(fingerprint, outcome, Produced(state, key))
      ensures forall n :: 0 <= n < |history| && Finds(Run(EMPTY, history[..n]), history[n], id) ==>
        outcome == AnswerTo(Run(EMPTY, history[..n]), id)
    {
      Enter(id, key, fingerprint, luck, others);
      if state.requests[id].pc == Rechecking {
        RunLocked(id, handler, luck, others);
        Interfere(others(5), id);
        Perform(Release(id, luck.release));
      }
      outcome := state.requests[id].pc.outcome;
      forall n | 0 <= n < |history| && Finds(Run(EMPTY, history[..n]), history[n], id)
        ensures outcome == AnswerTo(Run(EMPTY, history[..n]), id)
      {
        FoundRecordIsAnswered(history, n, id);
      }
      if QuietRun(EMPTY, history, key) {
        AtMostOneCacheableRun(history, key, id);
      }
    }
  }
}
