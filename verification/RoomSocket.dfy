/** The reconnecting room socket client: one method for each thing that can happen to it, in any order.
    Its history, kept beside it, records what was sent, delivered, ready and settled. */
module RoomSocket {
  import opened Wrappers

  datatype RequestId = RequestId(name: string)
  datatype RoomUid = RoomUid(name: string)
  datatype Encoded = Encoded(text: string)

  // ---------------------------------------------------------------- retries

  const UNCERTAIN_RETRY_BASE_MS := 500
  const UNCERTAIN_RETRY_MAX_MS := 30000
  const UNCERTAIN_ATTEMPT_LIMIT := 8

  function Power(n: nat): nat { if n == 0 then 1 else 2 * Power(n - 1) }

  /** The wait before attempt `count + 1`, or nothing when the attempts are used up. */
  function RetryDelay(count: nat): Option<nat>
    requires count > 0
  {
    if count >= UNCERTAIN_ATTEMPT_LIMIT then None
    else
      var delay := UNCERTAIN_RETRY_BASE_MS * Power(if count - 1 < 6 then count - 1 else 6);
      Some(if delay < UNCERTAIN_RETRY_MAX_MS then delay else UNCERTAIN_RETRY_MAX_MS)
  }

  /** Waits start at half a second, double up to thirty seconds, and end at the eighth attempt. */
  lemma RetryDelays(count: nat)
    requires count > 0
    ensures RetryDelay(count).Some? <==> count < UNCERTAIN_ATTEMPT_LIMIT
    ensures RetryDelay(count).Some? ==> 500 <= RetryDelay(count).value <= 30000
    ensures RetryDelay(1) == Some(500)
    ensures RetryDelay(count + 1).Some? ==>
      var twice := 2 * RetryDelay(count).value;
      RetryDelay(count + 1).value == (if twice < 30000 then twice else 30000)
  {
    assert Power(3) == 8;
    assert Power(6) == 8 * Power(3);
  }

  datatype Decision = AlreadyCounted | Retry | Exhausted

  // ---------------------------------------------------------------- commands and their history

  datatype Command = Command(
    promise: nat,
    action: string,
    encoded: Encoded,
    roomUid: Option<RoomUid>,
    retryAttempt: nat,
    retryCounted: nat,
    retryNotBefore: nat,
    transmissionGeneration: nat,
    sent: bool,
    everSent: bool,
    timerArmed: bool,
    retryArmed: bool)

  /** One successful transmission. */
  datatype Sending = Sending(generation: nat, encoded: Encoded, roomUid: RoomUid, at: nat, notBefore: nat, attempt: nat)

  datatype Settlement = Committed | RejectedByServer | UnknownOutcome | NotSent

  /** What every command's transmissions are: the same bytes in the same room lifetime, one per
      connection, never early, and at most eight. */
  ghost predicate HistoryOk(s: seq<Sending>) {
    && |s| <= UNCERTAIN_ATTEMPT_LIMIT
    && (forall i, j | 0 <= i < j < |s| :: s[i].generation < s[j].generation)
    && (forall i | 0 <= i < |s| ::
          s[i].encoded == s[0].encoded && s[i].roomUid == s[0].roomUid && s[i].notBefore <= s[i].at)
  }

  function LastGeneration(s: seq<Sending>): nat
    requires s != []
  {
    s[|s| - 1].generation
  }

  /** What holds of a waiting command in a connection of this generation; `over` says that this
      connection can send nothing more. */
  ghost predicate CommandOk(c: Command, s: seq<Sending>, replayed: bool, generation: nat, accepted: Option<RoomUid>,
                            over: bool) {
    && (c.roomUid.None? || c.roomUid == accepted)
    && c.transmissionGeneration <= generation && c.retryCounted <= generation
    && c.retryAttempt < UNCERTAIN_ATTEMPT_LIMIT
    && (c.retryCounted == generation ==> over)
    && (c.everSent <==> replayed || s != [])
    && (c.sent ==> s != [] && LastGeneration(s) == generation && c.transmissionGeneration == generation)
    && (s != [] && !c.sent ==> LastGeneration(s) <= c.retryCounted)
    && (s != [] ==> LastGeneration(s) <= c.transmissionGeneration)
    && (forall i | 0 <= i < |s| :: s[i].encoded == c.encoded && c.roomUid == Some(s[i].roomUid))
    && |s| <= c.retryAttempt + (if s != [] && c.retryCounted < LastGeneration(s) then 1 else 0)
    && HistoryOk(s)
  }

  /** A send in a connection that is not over, of a command not yet sent in it, keeps its history in order. */
  lemma SendKeeps(c: Command, s: seq<Sending>, replayed: bool, generation: nat, accepted: Option<RoomUid>, now: nat)
    requires CommandOk(c, s, replayed, generation, accepted, false) && accepted.Some?
    requires c.transmissionGeneration != generation && c.retryNotBefore <= now
    ensures var uid := if c.roomUid.Some? then c.roomUid.value else accepted.value;
      CommandOk(c.(transmissionGeneration := generation, roomUid := Some(uid), sent := true, everSent := true,
        timerArmed := true, retryArmed := false),
                s + [Sending(generation, c.encoded, uid, now, c.retryNotBefore, c.retryAttempt)], replayed,
                  generation, accepted, false)
  {
  }

  /** The retry policy: an uncertain outcome is counted once per connection. */
  function ScheduleUncertain(c: Command, generation: nat, now: nat): (Command, Decision) {
    if c.retryCounted == generation then (c, AlreadyCounted)
    else
      var counted := c.(retryAttempt := c.retryAttempt + 1, retryCounted := generation);
      var delay := RetryDelay(counted.retryAttempt);
      if delay.Some? then (counted.(retryNotBefore := now + delay.value), Retry) else (counted, Exhausted)
  }

  /** Counting keeps a command in order in a connection that is over, whether it stays sent or goes idle. */
  lemma CountKeeps(c: Command, s: seq<Sending>, replayed: bool, generation: nat, accepted: Option<RoomUid>,
                   over: bool, now: nat)
    requires CommandOk(c, s, replayed, generation, accepted, over)
    ensures var (counted, decision) := ScheduleUncertain(c, generation, now);
      !decision.Exhausted? ==>
        && CommandOk(counted, s, replayed, generation, accepted, true)
        && CommandOk(counted.(timerArmed := false), s, replayed, generation, accepted, true)
        && CommandOk(counted.(sent := false, timerArmed := true), s, replayed, generation, accepted, true)
  {
    hide HistoryOk, Power;
  }

  ghost predicate Distinct(order: seq<RequestId>) { forall i, j | 0 <= i < j < |order| :: order[i] != order[j] }

  function Without(order: seq<RequestId>, id: RequestId): (r: seq<RequestId>)
    ensures forall x :: x in r <==> x in order && x != id
  {
    if order == [] then []
    else if order[0] == id then Without(order[1..], id)
    else [order[0]] + Without(order[1..], id)
  }

  lemma {:induction false} WithoutDistinct(order: seq<RequestId>, id: RequestId)
    requires Distinct(order)
    ensures Distinct(Without(order, id))
  {
    if order != [] {
      var rest := Without(order[1..], id);
      WithoutDistinct(order[1..], id);
      if order[0] != id {
        forall j | 0 <= j < |rest| ensures rest[j] != order[0] {
          assert rest[j] in rest;
          var k :| 0 <= k < |order[1..]| && order[1..][k] == rest[j];
          assert order[0] != order[k + 1];
        }
      }
    }
  }

  // ---------------------------------------------------------------- frames and connections

  datatype RawEvent = RawEvent(valid: bool, number: nat)

  datatype Frame =
    | TooLarge
    | Malformed
    | Resync(exact: bool, latestSeq: nat)
    | ReceiptFrame(valid: bool, cursor: nat, highWater: nat)
    | CatalogFrame(valid: bool)
    | RequestFrame(last: bool, valid: bool)
    | SnapshotFrame(roomUid: Option<RoomUid>, roomValid: bool, initial: bool, lastSeq: nat, schemaValid: bool,
      projected: bool)
    | EventFrame(wellFormed: bool, events: seq<RawEvent>, latestSeq: nat)
    | AckFrame(request: RequestId, contractOk: bool)
    | NackFrame(request: RequestId, contractOk: bool, unresolved: bool)
    | OtherFrame(allowed: bool)

  datatype Receipt = Receipt(cursor: nat, highWater: nat)

  datatype Connection = Connection(
    receipt: Option<Receipt>,
    catalog: bool,
    requestsComplete: bool,
    snapshotAccepted: bool,
    established: bool,
    failed: bool,
    leaveCommitted: bool)

  const NEW_CONNECTION := Connection(None, false, false, false, false, false, false)

  datatype Phase = Connecting | Open | Closing | Closed
  datatype Link = NoLink | Link(phase: Phase)

  /** The numbers from `first` up to `last`. */
  function Range(first: nat, last: nat): (r: seq<nat>)
    ensures |r| == if first <= last then last - first + 1 else 0
    ensures forall i | 0 <= i < |r| :: r[i] == first + i
    decreases last + 1 - first
  {
    if first > last then [] else [first] + Range(first + 1, last)
  }

  lemma RangeAppends(first: nat, middle: nat, last: nat)
    requires first <= middle + 1 && middle <= last
    ensures Range(first, middle) + Range(middle + 1, last) == Range(first, last)
  {
  }

  /** Where the cursor ends up after a frame's events, or nothing when the frame must be refused. */
  function Advance(events: seq<RawEvent>, next: nat, highWater: Option<nat>): Option<nat>
    decreases |events|
  {
    if events == [] then Some(next)
    else if !events[0].valid then None
    else if events[0].number <= next then (if highWater.Some? then None else Advance(events[1..], next, highWater))
    else if events[0].number != next + 1 || (highWater.Some? && events[0].number > highWater.value) then None
    else Advance(events[1..], next + 1, highWater)
  }

  /** A ready connection, as it was when the caller was told of it. */
  datatype Opening = Opening(generation: nat, cursor: nat, highWater: nat, delivered: seq<nat>)

  // ---------------------------------------------------------------- the books

  /** What became of every promise: who waits for it, how it settled, and what was sent for it. */
  datatype Books = Books(
    issued: nat,
    owner: map<nat, RequestId>,
    settled: map<nat, Settlement>,
    settlements: nat,
    sends: map<nat, seq<Sending>>,
    replays: set<nat>)

  ghost predicate Queued(order: seq<RequestId>, pending: map<RequestId, Command>, owner: map<nat, RequestId>) {
    && (forall id :: id in order <==> id in pending)
    && Distinct(order)
    && (forall id | id in pending :: pending[id].promise in owner && owner[pending[id].promise] == id)
    && (forall p | p in owner :: owner[p] in pending && pending[owner[p]].promise == p)
  }

  /** Every promise ever given is either waiting or settled, never both, and settled only once. */
  ghost predicate Promised(b: Books) {
    && (forall p: nat :: p < b.issued <==> p in b.owner || p in b.settled)
    && (forall p | p in b.owner :: p !in b.settled)
    && b.settlements == |b.settled|
    && (forall p: nat :: p < b.issued <==> p in b.sends)
    && (forall p | p in b.replays :: p < b.issued)
  }

  /** Whatever was sent for a promise was sent in order, and a caller told that nothing was sent was told
      the truth. */
  ghost predicate Truthful(b: Books) {
    && (forall p | p in b.sends :: HistoryOk(b.sends[p]))
    && (forall p | p in b.settled && b.settled[p].NotSent? && p in b.sends :: b.sends[p] == [] && p !in b.replays)
  }

  ghost predicate Waiting(pending: map<RequestId, Command>, b: Books, generation: nat, accepted: Option<RoomUid>,
                          over: bool) {
    forall id | id in pending :: pending[id].promise in b.sends &&
      CommandOk(pending[id], b.sends[pending[id].promise], pending[id].promise in b.replays, generation, accepted, over)
  }

  ghost predicate BooksOk(order: seq<RequestId>, pending: map<RequestId, Command>, b: Books, generation: nat,
                          accepted: Option<RoomUid>, over: bool) {
    Queued(order, pending, b.owner) && Promised(b) && Truthful(b) && Waiting(pending, b, generation, accepted, over)
  }

  function SettleIn(b: Books, p: nat, outcome: Settlement): Books {
    b.(owner := b.owner - {p}, settled := b.settled[p := outcome], settlements := b.settlements + 1)
  }

  lemma BookSettle(order: seq<RequestId>, pending: map<RequestId, Command>, b: Books, generation: nat,
                   accepted: Option<RoomUid>, over: bool, id: RequestId, outcome: Settlement)
    requires BooksOk(order, pending, b, generation, accepted, over) && id in pending
    requires outcome.NotSent? ==> !pending[id].everSent
    ensures pending[id].promise !in b.settled
    ensures BooksOk(Without(order, id), pending - {id}, SettleIn(b, pending[id].promise, outcome), generation,
      accepted, over)
  {
    hide Queued, Promised, Truthful, Waiting;
    var c := pending[id];
    WaitsFor(order, pending, b, generation, accepted, over, id);
    if outcome.NotSent? { NeverSent(c, b.sends[c.promise], c.promise in b.replays, generation, accepted, over); }
    SettleQueued(order, pending, b.owner, id);
    SettlePromised(b, c.promise, outcome);
    SettleTruthful(b, c.promise, outcome);
    SettleWaiting(pending, b, generation, accepted, over, id, outcome);
  }

  lemma NeverSent(c: Command, s: seq<Sending>, replayed: bool, generation: nat, accepted: Option<RoomUid>, over: bool)
    requires CommandOk(c, s, replayed, generation, accepted, over) && !c.everSent
    ensures s == [] && !replayed
  {
  }

  lemma WaitsFor(order: seq<RequestId>, pending: map<RequestId, Command>, b: Books, generation: nat,
                 accepted: Option<RoomUid>, over: bool, id: RequestId)
    requires BooksOk(order, pending, b, generation, accepted, over) && id in pending
    ensures pending[id].promise in b.owner && pending[id].promise in b.sends && pending[id].promise < b.issued
    ensures pending[id].promise !in b.settled
    ensures CommandOk(pending[id], b.sends[pending[id].promise], pending[id].promise in b.replays, generation,
      accepted, over)
  {
    hide HistoryOk, CommandOk, Truthful;
  }

  lemma SettleQueued(order: seq<RequestId>, pending: map<RequestId, Command>, owner: map<nat, RequestId>, id: RequestId)
    requires Queued(order, pending, owner) && id in pending
    ensures Queued(Without(order, id), pending - {id}, owner - {pending[id].promise})
  {
    hide Distinct;
    WithoutDistinct(order, id);
  }

  lemma SettlePromised(b: Books, p: nat, outcome: Settlement)
    requires Promised(b) && p in b.owner
    ensures Promised(SettleIn(b, p, outcome))
  {
  }

  lemma SettleTruthful(b: Books, p: nat, outcome: Settlement)
    requires Truthful(b) && (outcome.NotSent? && p in b.sends ==> b.sends[p] == [] && p !in b.replays)
    ensures Truthful(SettleIn(b, p, outcome))
  {
    hide HistoryOk;
  }

  lemma SettleWaiting(pending: map<RequestId, Command>, b: Books, generation: nat, accepted: Option<RoomUid>,
                      over: bool,
                      id: RequestId, outcome: Settlement)
    requires Waiting(pending, b, generation, accepted, over) && id in pending
    ensures Waiting(pending - {id}, SettleIn(b, pending[id].promise, outcome), generation, accepted, over)
  {
    hide CommandOk;
  }

  /** A waiting command may be replaced by any other state of itself that is in order. */
  lemma BookReplace(order: seq<RequestId>, pending: map<RequestId, Command>, b: Books, generation: nat,
                    accepted: Option<RoomUid>, over: bool, id: RequestId, c: Command)
    requires BooksOk(order, pending, b, generation, accepted, over) && id in pending
    requires c.promise == pending[id].promise && c.promise in b.sends
    requires CommandOk(c, b.sends[c.promise], c.promise in b.replays, generation, accepted, over)
    ensures BooksOk(order, pending[id := c], b, generation, accepted, over)
  {
    hide HistoryOk, CommandOk, Promised, Truthful;
  }

  function SendIn(b: Books, p: nat, sending: Sending): Books
    requires p in b.sends
  {
    b.(sends := b.sends[p := b.sends[p] + [sending]])
  }

  function UidOf(c: Command, accepted: Option<RoomUid>): RoomUid
    requires accepted.Some?
  {
    if c.roomUid.Some? then c.roomUid.value else accepted.value
  }

  function Transmitted(c: Command, generation: nat, accepted: Option<RoomUid>): Command
    requires accepted.Some?
  {
    c.(transmissionGeneration := generation, roomUid := Some(UidOf(c, accepted)), sent := true, everSent := true,
       timerArmed := true, retryArmed := false)
  }

  lemma BookSend(order: seq<RequestId>, pending: map<RequestId, Command>, b: Books, generation: nat,
                 accepted: Option<RoomUid>, id: RequestId, now: nat)
    requires BooksOk(order, pending, b, generation, accepted, false) && id in pending && accepted.Some?
    requires pending[id].transmissionGeneration != generation && pending[id].retryNotBefore <= now
    ensures pending[id].promise in b.sends
    ensures var c := pending[id];
      var sending := Sending(generation, c.encoded, UidOf(c, accepted), now, c.retryNotBefore, c.retryAttempt);
      BooksOk(order, pending[id := Transmitted(c, generation, accepted)], SendIn(b, c.promise, sending), generation,
        accepted, false)
  {
    hide HistoryOk, CommandOk, Queued, Promised, Truthful, Waiting;
    var c := pending[id];
    WaitsFor(order, pending, b, generation, accepted, false, id);
    SendKeeps(c, b.sends[c.promise], c.promise in b.replays, generation, accepted, now);
    var sending := Sending(generation, c.encoded, UidOf(c, accepted), now, c.retryNotBefore, c.retryAttempt);
    CommandHistory(Transmitted(c, generation, accepted), b.sends[c.promise] + [sending], c.promise in b.replays,
      generation, accepted, false);
    SendQueued(order, pending, b.owner, id, Transmitted(c, generation, accepted));
    SendPromised(b, c.promise, sending);
    SendTruthful(b, c.promise, sending);
    SendWaiting(order, pending, b, generation, accepted, id, Transmitted(c, generation, accepted), sending);
  }

  lemma SendQueued(order: seq<RequestId>, pending: map<RequestId, Command>, owner: map<nat, RequestId>, id: RequestId,
                   c: Command)
    requires Queued(order, pending, owner) && id in pending && c.promise == pending[id].promise
    ensures Queued(order, pending[id := c], owner)
  {
    hide Distinct;
  }

  lemma SendPromised(b: Books, p: nat, sending: Sending)
    requires Promised(b) && p in b.sends
    ensures Promised(SendIn(b, p, sending))
  {
  }

  lemma SendTruthful(b: Books, p: nat, sending: Sending)
    requires Truthful(b) && p in b.sends && p !in b.settled && HistoryOk(b.sends[p] + [sending])
    ensures Truthful(SendIn(b, p, sending))
  {
    hide HistoryOk;
  }

  lemma SendWaiting(order: seq<RequestId>, pending: map<RequestId, Command>, b: Books, generation: nat,
                    accepted: Option<RoomUid>, id: RequestId, c: Command, sending: Sending)
    requires Queued(order, pending, b.owner) && Waiting(pending, b, generation, accepted, false)
    requires id in pending && c.promise == pending[id].promise
    requires c.promise in b.sends &&
      CommandOk(c, b.sends[c.promise] + [sending], c.promise in b.replays, generation, accepted, false)
    ensures Waiting(pending[id := c], SendIn(b, c.promise, sending), generation, accepted, false)
  {
    hide CommandOk, Distinct;
  }

  lemma CommandHistory(c: Command, s: seq<Sending>, replayed: bool, generation: nat, accepted: Option<RoomUid>,
                       over: bool)
    requires CommandOk(c, s, replayed, generation, accepted, over)
    ensures HistoryOk(s)
  {
  }

  lemma CommandLater(c: Command, s: seq<Sending>, replayed: bool, generation: nat, accepted: Option<RoomUid>,
                     over: bool, later: nat)
    requires CommandOk(c, s, replayed, generation, accepted, over)
    ensures CommandOk(c, s, replayed, generation, accepted, true)
    ensures !c.sent && generation < later ==> CommandOk(c, s, replayed, later, accepted, false)
    ensures accepted.None? ==> forall uid :: CommandOk(c, s, replayed, generation, Some(uid), over)
  {
    hide HistoryOk;
  }

  /** A connection that ends keeps the books. */
  lemma BookOver(order: seq<RequestId>, pending: map<RequestId, Command>, b: Books, generation: nat,
                 accepted: Option<RoomUid>, over: bool)
    requires BooksOk(order, pending, b, generation, accepted, over)
    ensures BooksOk(order, pending, b, generation, accepted, true)
  {
    hide HistoryOk, CommandOk, Promised, Truthful, Queued;
    forall id | id in pending
      ensures CommandOk(pending[id], b.sends[pending[id].promise], pending[id].promise in b.replays, generation,
        accepted, true)
    {
      CommandLater(pending[id], b.sends[pending[id].promise], pending[id].promise in b.replays, generation, accepted,
        over, 0);
    }
  }

  /** A new connection keeps them once nothing waits on the old one. */
  lemma BookNext(order: seq<RequestId>, pending: map<RequestId, Command>, b: Books, generation: nat,
                 accepted: Option<RoomUid>,
                 over: bool, later: nat)
    requires BooksOk(order, pending, b, generation, accepted, over) && generation < later
    requires forall id | id in pending :: !pending[id].sent
    ensures BooksOk(order, pending, b, later, accepted, false)
  {
    hide HistoryOk, CommandOk, Promised, Truthful, Queued;
    forall id | id in pending
      ensures CommandOk(pending[id], b.sends[pending[id].promise], pending[id].promise in b.replays, later, accepted,
        false)
    {
      CommandLater(pending[id], b.sends[pending[id].promise], pending[id].promise in b.replays, generation, accepted,
        over, later);
    }
  }

  lemma BookAccept(order: seq<RequestId>, pending: map<RequestId, Command>, b: Books, generation: nat, over: bool,
                   uid: RoomUid)
    requires BooksOk(order, pending, b, generation, None, over)
    ensures BooksOk(order, pending, b, generation, Some(uid), over)
  {
    hide HistoryOk, CommandOk, Promised, Truthful, Queued;
    forall id | id in pending
      ensures CommandOk(pending[id], b.sends[pending[id].promise], pending[id].promise in b.replays, generation,
        Some(uid), over)
    {
      CommandLater(pending[id], b.sends[pending[id].promise], pending[id].promise in b.replays, generation, None,
        over, 0);
    }
  }

  lemma BookEmpty(order: seq<RequestId>, b: Books, generation: nat, accepted: Option<RoomUid>, over: bool,
                  otherGeneration: nat, otherAccepted: Option<RoomUid>, otherOver: bool)
    requires BooksOk(order, map[], b, generation, accepted, over)
    ensures BooksOk(order, map[], b, otherGeneration, otherAccepted, otherOver)
  {
    hide HistoryOk, CommandOk;
  }

  function IssueIn(b: Books, replayed: bool): Books {
    b.(issued := b.issued + 1, sends := b.sends[b.issued := []],
       replays := if replayed then b.replays + {b.issued} else b.replays)
  }

  /** A new promise that waits under a new request. */
  lemma BookIssue(order: seq<RequestId>, pending: map<RequestId, Command>, b: Books, generation: nat,
                  accepted: Option<RoomUid>,
                  over: bool, id: RequestId, c: Command, replayed: bool)
    requires BooksOk(order, pending, b, generation, accepted, over) && id !in pending && generation > 0
    requires c.promise == b.issued && (c.roomUid.None? || c.roomUid == accepted) && c.everSent == replayed && !c.sent
    requires c.transmissionGeneration == 0 && c.retryCounted == 0 && c.retryAttempt == 0
    ensures BooksOk(order + [id], pending[id := c], IssueIn(b, replayed).(owner := b.owner[b.issued := id]),
      generation, accepted, over)
  {
    hide Queued, Promised, Truthful, Waiting, CommandOk;
    NewCommand(c, replayed, generation, accepted, over);
    IssueQueued(order, pending, b, id, c);
    IssuePromised(b, id, replayed);
    IssueTruthful(b, replayed, b.owner[b.issued := id]);
    IssueWaiting(pending, b, generation, accepted, over, id, c, replayed);
  }

  lemma IssueQueued(order: seq<RequestId>, pending: map<RequestId, Command>, b: Books, id: RequestId, c: Command)
    requires Queued(order, pending, b.owner) && Promised(b) && id !in pending && c.promise == b.issued
    ensures Queued(order + [id], pending[id := c], b.owner[b.issued := id])
  {
    assert id !in order && b.issued !in b.owner;
  }

  lemma IssuePromised(b: Books, id: RequestId, replayed: bool)
    requires Promised(b)
    ensures Promised(IssueIn(b, replayed).(owner := b.owner[b.issued := id]))
  {
  }

  lemma IssueTruthful(b: Books, replayed: bool, owner: map<nat, RequestId>)
    requires Promised(b) && Truthful(b)
    ensures Truthful(IssueIn(b, replayed).(owner := owner))
  {
    hide HistoryOk;
    EmptyHistory();
    var after := IssueIn(b, replayed).(owner := owner);
    forall p | p in after.sends ensures HistoryOk(after.sends[p]) {
      if p != b.issued { assert p in b.sends; }
    }
  }

  lemma EmptyHistory()
    ensures HistoryOk([])
  {
  }

  lemma IssueWaiting(pending: map<RequestId, Command>, b: Books, generation: nat, accepted: Option<RoomUid>, over: bool,
                     id: RequestId, c: Command, replayed: bool)
    requires Waiting(pending, b, generation, accepted, over) && Promised(b) && c.promise == b.issued
    requires CommandOk(c, [], replayed, generation, accepted, over)
    ensures Waiting(pending[id := c], IssueIn(b, replayed).(owner := b.owner[b.issued := id]), generation, accepted,
      over)
  {
    hide CommandOk;
  }

  lemma NewCommand(c: Command, replayed: bool, generation: nat, accepted: Option<RoomUid>, over: bool)
    requires generation > 0 && (c.roomUid.None? || c.roomUid == accepted) && c.everSent == replayed && !c.sent
    requires c.transmissionGeneration == 0 && c.retryCounted == 0 && c.retryAttempt == 0
    ensures CommandOk(c, [], replayed, generation, accepted, over)
  {
  }

  /** A promise that is refused at once, with nothing sent. */
  lemma BookRefuse(order: seq<RequestId>, pending: map<RequestId, Command>, b: Books, generation: nat,
                   accepted: Option<RoomUid>, over: bool)
    requires BooksOk(order, pending, b, generation, accepted, over)
    ensures BooksOk(order, pending,
      IssueIn(b, false).(settled := b.settled[b.issued := NotSent], settlements := b.settlements + 1),
      generation, accepted, over)
  {
    hide Queued, Promised, Truthful, Waiting, CommandOk;
    RefusePromised(b);
    RefuseTruthful(b);
    RefuseWaiting(pending, b, generation, accepted, over);
  }

  lemma RefusePromised(b: Books)
    requires Promised(b)
    ensures Promised(IssueIn(b, false).(settled := b.settled[b.issued := NotSent], settlements := b.settlements + 1))
  {
  }

  lemma RefuseTruthful(b: Books)
    requires Promised(b) && Truthful(b)
    ensures Truthful(IssueIn(b, false).(settled := b.settled[b.issued := NotSent], settlements := b.settlements + 1))
  {
    IssueTruthful(b, false, b.owner);
    hide HistoryOk;
  }

  lemma RefuseWaiting(pending: map<RequestId, Command>, b: Books, generation: nat, accepted: Option<RoomUid>,
                      over: bool)
    requires Waiting(pending, b, generation, accepted, over) && Promised(b)
    ensures Waiting(pending, IssueIn(b, false).(settled := b.settled[b.issued := NotSent],
      settlements := b.settlements + 1),
                    generation, accepted, over)
  {
    hide CommandOk;
  }

  lemma FirstIsPending(order: seq<RequestId>, pending: map<RequestId, Command>, b: Books, generation: nat,
                       accepted: Option<RoomUid>, over: bool)
    requires BooksOk(order, pending, b, generation, accepted, over) && order != []
    ensures order[0] in pending
  {
  }

  lemma NonePending(pending: map<RequestId, Command>, b: Books, generation: nat, accepted: Option<RoomUid>, over: bool)
    requires BooksOk([], pending, b, generation, accepted, over)
    ensures pending == map[]
  {
    assert forall id :: id !in pending by { assert forall id :: id in [] <==> id in pending; }
  }

  /** A refused transmission leaves the command unsent in this connection. */
  lemma TriedKeeps(c: Command, s: seq<Sending>, replayed: bool, generation: nat, accepted: Option<RoomUid>)
    requires CommandOk(c, s, replayed, generation, accepted, false) && accepted.Some? &&
      c.transmissionGeneration != generation
    ensures CommandOk(c.(transmissionGeneration := generation, roomUid := Some(UidOf(c, accepted))), s, replayed,
      generation,
                      accepted, false)
  {
    hide HistoryOk;
  }

  /** A retry timer changes nothing about a command's history. */
  lemma TimerKeeps(c: Command, s: seq<Sending>, replayed: bool, generation: nat, accepted: Option<RoomUid>, over: bool,
                   armed: bool)
    requires CommandOk(c, s, replayed, generation, accepted, over)
    ensures CommandOk(c.(retryArmed := armed), s, replayed, generation, accepted, over)
  {
    hide HistoryOk;
  }

  /** A command may have its retry timer set or cleared. */
  lemma BookTimer(order: seq<RequestId>, pending: map<RequestId, Command>, b: Books, generation: nat,
                  accepted: Option<RoomUid>, over: bool, id: RequestId, armed: bool, clock: Option<nat>)
    requires BooksOk(order, pending, b, generation, accepted, over) && id in pending && Spacing(pending, b, clock)
    ensures BooksOk(order, pending[id := pending[id].(retryArmed := armed)], b, generation, accepted, over)
    ensures Spacing(pending[id := pending[id].(retryArmed := armed)], b, clock)
  {
    hide BooksOk, HistoryOk, CommandOk, Spacing;
    var c := pending[id];
    WaitsFor(order, pending, b, generation, accepted, over, id);
    TimerKeeps(c, b.sends[c.promise], c.promise in b.replays, generation, accepted, over, armed);
    BookReplace(order, pending, b, generation, accepted, over, id, c.(retryArmed := armed));
    TimerSpacing(pending, b, id, armed, clock);
  }

  lemma TimerSpacing(pending: map<RequestId, Command>, b: Books, id: RequestId, armed: bool, clock: Option<nat>)
    requires Spacing(pending, b, clock) && id in pending
    ensures Spacing(pending[id := pending[id].(retryArmed := armed)], b, clock)
  {
    SpacingReplace(pending, b, id, pending[id].(retryArmed := armed), clock);
  }

  // ---------------------------------------------------------------- how far apart transmissions lie

  /** Neighbouring transmissions lie at least the wait of the later one's attempt apart. */
  ghost predicate Apart(s: seq<Sending>) {
    forall i | 0 < i < |s| ::
      && s[i - 1].attempt < s[i].attempt && RetryDelay(s[i].attempt).Some?
      && s[i - 1].at + RetryDelay(s[i].attempt).value <= s[i].at
  }

  /** A command counted since its last transmission waits long enough for the next. */
  ghost predicate Primed(c: Command, s: seq<Sending>, clock: nat) {
    s != [] ==>
      var last := s[|s| - 1];
      && last.at <= clock && last.attempt <= c.retryAttempt
      && (last.generation <= c.retryCounted ==>
            && last.attempt < c.retryAttempt && RetryDelay(c.retryAttempt).Some?
            && last.at + RetryDelay(c.retryAttempt).value <= c.retryNotBefore)
  }

  /** The clock is the time of the last event, or nothing once an event came earlier than the one before. */
  ghost predicate Spacing(pending: map<RequestId, Command>, b: Books, clock: Option<nat>) {
    clock.Some? ==>
      && (forall p | p in b.sends :: Apart(b.sends[p]))
      && (forall id | id in pending && pending[id].promise in b.sends ::
            Primed(pending[id], b.sends[pending[id].promise], clock.value))
  }

  function Ticked(clock: Option<nat>, now: nat): Option<nat> {
    if clock.Some? && clock.value <= now then Some(now) else None
  }

  lemma SpacingTicks(pending: map<RequestId, Command>, b: Books, clock: Option<nat>, now: nat)
    requires Spacing(pending, b, clock)
    ensures Spacing(pending, b, Ticked(clock, now))
  {
    hide Apart;
  }

  lemma SpacingLess(pending: map<RequestId, Command>, b: Books, less: map<RequestId, Command>, after: Books,
                    clock: Option<nat>)
    requires Spacing(pending, b, clock) && after.sends == b.sends
    requires forall id | id in less :: id in pending && less[id] == pending[id]
    ensures Spacing(less, after, clock)
  {
    hide Apart, Primed;
  }

  lemma SpacingReplace(pending: map<RequestId, Command>, b: Books, id: RequestId, c: Command, clock: Option<nat>)
    requires Spacing(pending, b, clock) && id in pending && c.promise == pending[id].promise
    requires clock.Some? && c.promise in b.sends ==> Primed(c, b.sends[c.promise], clock.value)
    ensures Spacing(pending[id := c], b, clock)
  {
    hide Apart, Primed;
  }

  lemma TriedSpacing(pending: map<RequestId, Command>, b: Books, id: RequestId, c: Command, clock: Option<nat>)
    requires Spacing(pending, b, clock) && id in pending
    requires c == pending[id].(transmissionGeneration := c.transmissionGeneration, roomUid := c.roomUid)
    ensures Spacing(pending[id := c], b, clock)
  {
    SpacingReplace(pending, b, id, c, clock);
  }

  lemma IssueSpacing(order: seq<RequestId>, pending: map<RequestId, Command>, b: Books, generation: nat,
                     accepted: Option<RoomUid>, over: bool, id: RequestId, c: Command, replayed: bool,
                     owner: map<nat, RequestId>, clock: Option<nat>)
    requires BooksOk(order, pending, b, generation, accepted, over) && Spacing(pending, b, clock)
    requires c.promise == b.issued
    ensures Spacing(pending[id := c], IssueIn(b, replayed).(owner := owner), clock)
  {
    hide BooksOk, Apart, Primed;
    PromisesDiffer(order, pending, b, generation, accepted, over);
    FirstSpacing(c);
  }

  lemma RefuseSpacing(order: seq<RequestId>, pending: map<RequestId, Command>, b: Books, generation: nat,
                      accepted: Option<RoomUid>, over: bool, clock: Option<nat>)
    requires BooksOk(order, pending, b, generation, accepted, over) && Spacing(pending, b, clock)
    ensures Spacing(pending, IssueIn(b, false).(settled := b.settled[b.issued := NotSent],
                                                settlements := b.settlements + 1), clock)
  {
    hide BooksOk, Primed;
    PromisesDiffer(order, pending, b, generation, accepted, over);
  }

  lemma FirstSpacing(c: Command)
    ensures Apart([]) && forall clock :: Primed(c, [], clock)
  {
  }

  lemma SpacingCounts(c: Command, s: seq<Sending>, generation: nat, now: nat)
    requires Primed(c, s, now)
    ensures var (counted, decision) := ScheduleUncertain(c, generation, now);
      !decision.Exhausted? ==>
        && Primed(counted.(timerArmed := false), s, now)
        && Primed(counted.(sent := false, timerArmed := true), s, now)
  {
    hide Power;
  }

  lemma CountSpacing(pending: map<RequestId, Command>, b: Books, id: RequestId, generation: nat, now: nat,
                     clock: Option<nat>)
    requires Spacing(pending, b, clock) && (clock.None? || clock.value == now) && id in pending
    ensures var (counted, decision) := ScheduleUncertain(pending[id], generation, now);
      !decision.Exhausted? ==>
        && Spacing(pending[id := counted.(timerArmed := false)], b, clock)
        && Spacing(pending[id := counted.(sent := false, timerArmed := true)], b, clock)
  {
    hide Apart, Primed, Spacing, ScheduleUncertain;
    var (counted, decision) := ScheduleUncertain(pending[id], generation, now);
    Schedules(pending[id], generation, now);
    if !decision.Exhausted? {
      if clock.Some? && pending[id].promise in b.sends {
        PrimedOf(pending, b, id, now);
        SpacingCounts(pending[id], b.sends[pending[id].promise], generation, now);
      }
      SpacingReplace(pending, b, id, counted.(timerArmed := false), clock);
      SpacingReplace(pending, b, id, counted.(sent := false, timerArmed := true), clock);
    }
  }

  lemma PrimedOf(pending: map<RequestId, Command>, b: Books, id: RequestId, clock: nat)
    requires Spacing(pending, b, Some(clock)) && id in pending && pending[id].promise in b.sends
    ensures Primed(pending[id], b.sends[pending[id].promise], clock) && Apart(b.sends[pending[id].promise])
  {
  }

  /** A due command was counted since its last transmission, so the next one comes late enough. */
  lemma SpacingSends(pending: map<RequestId, Command>, b: Books, id: RequestId,
                     replayed: bool, generation: nat, accepted: Option<RoomUid>, now: nat, clock: Option<nat>)
    requires Spacing(pending, b, clock) && (clock.None? || clock.value == now) && accepted.Some?
    requires id in pending && pending[id].promise in b.sends && Due(pending[id], generation, now)
    requires CommandOk(pending[id], b.sends[pending[id].promise], replayed, generation, accepted, false)
    requires forall x | x in pending && x != id :: pending[x].promise != pending[id].promise
    ensures Spacing(pending[id := Transmitted(pending[id], generation, accepted)],
      SendIn(b, pending[id].promise, SendingOf(pending[id], generation, accepted, now)), clock)
  {
    hide HistoryOk, CommandOk, Apart, Primed, Transmitted, SendingOf;
    var c := pending[id];
    if clock.Some? {
      PrimedOf(pending, b, id, now);
      SendPrimes(c, b.sends[c.promise], replayed, generation, accepted, now);
    }
    assert Transmitted(c, generation, accepted).promise == c.promise by { TransmittedPromise(c, generation, accepted); }
  }

  lemma TransmittedPromise(c: Command, generation: nat, accepted: Option<RoomUid>)
    requires accepted.Some?
    ensures Transmitted(c, generation, accepted).promise == c.promise
  {
  }

  lemma SendPrimes(c: Command, s: seq<Sending>, replayed: bool, generation: nat, accepted: Option<RoomUid>, now: nat)
    requires CommandOk(c, s, replayed, generation, accepted, false) && accepted.Some? && Due(c, generation, now)
    requires Apart(s) && Primed(c, s, now)
    ensures var after := s + [SendingOf(c, generation, accepted, now)];
      Apart(after) && Primed(Transmitted(c, generation, accepted), after, now)
  {
    hide HistoryOk, RetryDelay;
  }

  // ---------------------------------------------------------------- what the books never forget

  /** Settlements are final, and what was sent stays sent; nothing is sent for a settled promise. */
  ghost predicate Grows(b: Books, c: Books) {
    && b.issued <= c.issued
    && (forall p | p in b.settled :: p in c.settled && c.settled[p] == b.settled[p])
    && (forall p | p in b.sends :: p in c.sends && b.sends[p] <= c.sends[p])
    && (forall p | p in b.settled && p in b.sends :: p in c.sends && c.sends[p] == b.sends[p])
  }

  lemma GrowsTrans(b: Books, c: Books, d: Books)
    requires Grows(b, c) && Grows(c, d)
    ensures Grows(b, d)
  {
  }

  lemma GrowsSame(b: Books)
    ensures Grows(b, b)
  {
  }

  lemma GrowsSettle(b: Books, p: nat, outcome: Settlement)
    requires p !in b.settled
    ensures Grows(b, SettleIn(b, p, outcome))
  {
  }

  lemma GrowsSend(b: Books, p: nat, sending: Sending)
    requires p in b.sends && p !in b.settled
    ensures Grows(b, SendIn(b, p, sending))
  {
  }

  lemma GrowsIssue(order: seq<RequestId>, pending: map<RequestId, Command>, b: Books, generation: nat,
                   accepted: Option<RoomUid>, over: bool, replay: bool, id: RequestId)
    requires BooksOk(order, pending, b, generation, accepted, over)
    ensures Grows(b, IssueIn(b, replay).(owner := b.owner[b.issued := id]))
    ensures Grows(b, IssueIn(b, false).(settled := b.settled[b.issued := NotSent], settlements := b.settlements + 1))
  {
    hide Queued, Truthful, Waiting;
  }

  // ---------------------------------------------------------------- working through the queue

  /** A command goes out on a connection if it has not yet and its retry time has come. */
  predicate Due(c: Command, generation: nat, now: nat) {
    c.transmissionGeneration != generation && c.retryNotBefore <= now
  }

  function Sent(c: Command, generation: nat, accepted: Option<RoomUid>, now: nat): Command
    requires accepted.Some?
  {
    if Due(c, generation, now) then Transmitted(c, generation, accepted)
    else if c.transmissionGeneration != generation then c.(retryArmed := true)
    else c
  }

  /** The first ids of a queue, up to the one the socket refuses. */
  function Taken(ids: seq<RequestId>, wire: RequestId -> bool): seq<RequestId> {
    if ids == [] || !wire(ids[0]) then [] else [ids[0]] + Taken(ids[1..], wire)
  }

  lemma {:induction false} TakenUpTo(ids: seq<RequestId>, wire: RequestId -> bool, n: nat)
    requires n <= |ids| && (forall i | 0 <= i < n :: wire(ids[i])) && (n < |ids| ==> !wire(ids[n]))
    ensures Taken(ids, wire) == ids[..n]
  {
    if n > 0 { TakenUpTo(ids[1..], wire, n - 1); }
  }

  /** A command sent at `at` whose outcome was counted as uncertain later is not sent again before its
      wait, half a second at least, is over. */
  lemma RetriesAreApart(c: Command, generation: nat, accepted: Option<RoomUid>, at: nat, countedAt: nat,
                        next: nat, now: nat)
    requires accepted.Some? && at <= countedAt
    requires ScheduleUncertain(Transmitted(c, generation, accepted), generation, countedAt).1.Retry?
    ensures var counted := ScheduleUncertain(Transmitted(c, generation, accepted), generation, countedAt).0;
      Due(counted, next, now) ==>
        RetryDelay(counted.retryAttempt).Some? && at + 500 <= at + RetryDelay(counted.retryAttempt).value <= now
  {
    RetryDelays(c.retryAttempt + 1);
  }

  /** The commands of a queue that are due, in its order. */
  function DueIn(order: seq<RequestId>, waiting: map<RequestId, Command>, generation: nat, now: nat): seq<RequestId>
    requires forall id | id in order :: id in waiting
  {
    if order == [] then []
    else
      var before, last := DueIn(order[..|order| - 1], waiting, generation, now), order[|order| - 1];
      if Due(waiting[last], generation, now) then before + [last] else before
  }

  lemma {:induction false} DueBefore(order: seq<RequestId>, waiting: map<RequestId, Command>, generation: nat,
                                     now: nat, i: nat)
    requires i <= |order| && forall id | id in order :: id in waiting
    ensures DueIn(order[..i], waiting, generation, now) <= DueIn(order, waiting, generation, now)
    decreases |order|
  {
    if i < |order| {
      assert order[..|order| - 1][..i] == order[..i];
      DueBefore(order[..|order| - 1], waiting, generation, now, i);
    } else {
      assert order[..i] == order;
    }
  }

  lemma {:induction false} DueWithin(order: seq<RequestId>, waiting: map<RequestId, Command>, generation: nat, now: nat)
    requires forall id | id in order :: id in waiting
    ensures forall id | id in DueIn(order, waiting, generation, now) :: id in order
    decreases |order|
  {
    if order != [] { DueWithin(order[..|order| - 1], waiting, generation, now); }
  }

  /** What is due of a queue are its commands not yet sent on this connection whose retry time has come; and a
      longer queue only adds to it what the rest has. */
  lemma {:induction false} DueMembers(order: seq<RequestId>, waiting: map<RequestId, Command>, generation: nat,
                                      now: nat)
    requires forall id | id in order :: id in waiting
    ensures forall id :: id in DueIn(order, waiting, generation, now) <==>
      id in order && waiting[id].transmissionGeneration != generation && waiting[id].retryNotBefore <= now
    decreases |order|
  {
    if order != [] {
      var last := order[|order| - 1];
      DueMembers(order[..|order| - 1], waiting, generation, now);
      assert forall id :: id in order <==> id in order[..|order| - 1] || id == last by {
        assert order == order[..|order| - 1] + [last];
      }
    }
  }

  lemma {:induction false} DueAppends(first: seq<RequestId>, rest: seq<RequestId>, waiting: map<RequestId, Command>,
                                      generation: nat, now: nat)
    requires forall id | id in first + rest :: id in waiting
    ensures (forall id | id in first :: id in waiting) && (forall id | id in rest :: id in waiting)
    ensures DueIn(first + rest, waiting, generation, now) ==
            DueIn(first, waiting, generation, now) + DueIn(rest, waiting, generation, now)
    decreases |rest|
  {
    assert (forall id | id in first :: id in first + rest) && (forall id | id in rest :: id in first + rest);
    if rest == [] {
      assert first + rest == first;
    } else {
      assert (first + rest)[..|first + rest| - 1] == first + rest[..|rest| - 1];
      DueAppends(first, rest[..|rest| - 1], waiting, generation, now);
    }
  }

  lemma DueNext(order: seq<RequestId>, waiting: map<RequestId, Command>, generation: nat, now: nat, i: nat)
    requires i < |order| && Distinct(order) && forall id | id in order :: id in waiting
    ensures var before, after := DueIn(order[..i], waiting, generation, now),
      DueIn(order[..i + 1], waiting, generation, now);
      && after == before + (if Due(waiting[order[i]], generation, now) then [order[i]] else [])
      && after <= DueIn(order, waiting, generation, now) && order[i] !in before
  {
    hide Due;
    assert order[..i + 1][..i] == order[..i];
    DueWithin(order[..i], waiting, generation, now);
    DueBefore(order, waiting, generation, now, i + 1);
  }

  function SendingOf(c: Command, generation: nat, accepted: Option<RoomUid>, now: nat): Sending
    requires accepted.Some?
  {
    Sending(generation, c.encoded, UidOf(c, accepted), now, c.retryNotBefore, c.retryAttempt)
  }

  /** One transmission for each command that went out, and none for the others. */
  ghost predicate SentExactly(wired: seq<RequestId>, waiting: map<RequestId, Command>, books: Books, b: Books,
                              generation: nat, accepted: Option<RoomUid>, now: nat)
    requires accepted.Some?
  {
    forall id | id in waiting :: waiting[id].promise in books.sends && waiting[id].promise in b.sends &&
      b.sends[waiting[id].promise] ==
        books.sends[waiting[id].promise] +
        if id in wired then [SendingOf(waiting[id], generation, accepted, now)] else []
  }

  lemma OneMoreSent(wired: seq<RequestId>, waiting: map<RequestId, Command>, books: Books, b: Books,
                    generation: nat, accepted: Option<RoomUid>, now: nat, id: RequestId)
    requires accepted.Some? && id in waiting && id !in wired
    requires forall x | x in waiting && x != id :: waiting[x].promise != waiting[id].promise
    requires SentExactly(wired, waiting, books, b, generation, accepted, now)
    ensures waiting[id].promise in b.sends
    ensures SentExactly(wired + [id], waiting, books,
      SendIn(b, waiting[id].promise, SendingOf(waiting[id], generation, accepted, now)), generation, accepted, now)
  {
    hide SendingOf;
  }

  lemma NoneSent(order: seq<RequestId>, waiting: map<RequestId, Command>, books: Books, generation: nat,
                 accepted: Option<RoomUid>, over: bool, now: nat)
    requires BooksOk(order, waiting, books, generation, accepted, over) && accepted.Some?
    ensures SentExactly([], waiting, books, books, generation, accepted, now)
    ensures DueIn(order[..0], waiting, generation, now) == []
    ensures forall x, y | x in waiting && y in waiting && x != y :: waiting[x].promise != waiting[y].promise
  {
    hide HistoryOk, CommandOk, Truthful, Distinct;
  }

  lemma SendOne(order: seq<RequestId>, waiting: map<RequestId, Command>, pending: map<RequestId, Command>, books: Books,
                b: Books, wired: seq<RequestId>, generation: nat, accepted: Option<RoomUid>, id: RequestId, now: nat,
                clock: Option<nat>)
    requires Spacing(pending, b, clock) && (clock.None? || clock.value == now)
    requires BooksOk(order, pending, b, generation, accepted, false) && accepted.Some? && Grows(books, b)
    requires id in pending && id in waiting && pending[id] == waiting[id] && Due(waiting[id], generation, now)
    requires id !in wired && SentExactly(wired, waiting, books, b, generation, accepted, now)
    requires forall x | x in waiting && x != id :: waiting[x].promise != waiting[id].promise
    ensures waiting[id].promise in b.sends
    ensures var after := SendIn(b, waiting[id].promise, SendingOf(waiting[id], generation, accepted, now));
      && BooksOk(order, pending[id := Transmitted(waiting[id], generation, accepted)], after, generation, accepted,
        false)
      && Grows(books, after) && after == b.(sends := after.sends)
      && SentExactly(wired + [id], waiting, books, after, generation, accepted, now)
      && Spacing(pending[id := Transmitted(waiting[id], generation, accepted)], after, clock)
  {
    hide BooksOk, Grows, SentExactly, Spacing, HistoryOk, CommandOk, Distinct;
    var c := waiting[id];
    var sending := SendingOf(c, generation, accepted, now);
    WaitsFor(order, pending, b, generation, accepted, false, id);
    BookSend(order, pending, b, generation, accepted, id, now);
    GrowsSend(b, c.promise, sending);
    GrowsTrans(books, b, SendIn(b, c.promise, sending));
    OneMoreSent(wired, waiting, books, b, generation, accepted, now, id);
    PromisesDiffer(order, pending, b, generation, accepted, false);
    SpacingSends(pending, b, id, c.promise in b.replays, generation, accepted, now, clock);
  }

  lemma PromisesDiffer(order: seq<RequestId>, pending: map<RequestId, Command>, b: Books, generation: nat,
                       accepted: Option<RoomUid>, over: bool)
    requires BooksOk(order, pending, b, generation, accepted, over)
    ensures forall x, y | x in pending && y in pending && x != y :: pending[x].promise != pending[y].promise
    ensures forall x | x in pending :: pending[x].promise < b.issued
  {
    hide HistoryOk, CommandOk, Truthful, Distinct;
  }

  /** A command the socket refused has been tried on this connection and stays unsent. */
  predicate Stopped(wired: seq<RequestId>, due: seq<RequestId>, waiting: map<RequestId, Command>,
                    pending: map<RequestId, Command>, generation: nat, accepted: Option<RoomUid>)
    requires accepted.Some?
  {
    |wired| < |due| ==>
      var id := due[|wired|];
      && id in waiting && id in pending
      && pending[id] == waiting[id].(transmissionGeneration := generation,
        roomUid := Some(UidOf(waiting[id], accepted)))
  }

  /** What was due of this queue went out once each, in its order, up to the first command the socket refused; what
      was not due has its retry timer set. `failed` says that the socket refused something. */
  ghost predicate QueueSent(queue: seq<RequestId>, waiting: map<RequestId, Command>, pending: map<RequestId, Command>,
                            was: Books, b: Books, generation: nat, accepted: Option<RoomUid>, now: nat,
                            wire: RequestId -> bool, failed: bool)
    requires accepted.Some?
  {
    && (forall id | id in queue :: id in waiting) && pending.Keys == waiting.Keys && b == was.(sends := b.sends)
    && var due := DueIn(queue, waiting, generation, now);
       var wired := Taken(due, wire);
       && SentExactly(wired, waiting, was, b, generation, accepted, now)
       && (forall id | id in wired :: id in pending && pending[id] == Transmitted(waiting[id], generation, accepted))
       && Stopped(wired, due, waiting, pending, generation, accepted)
       && (failed <==> wired != due)
       && (!failed ==> forall id | id in waiting :: pending[id] == Sent(waiting[id], generation, accepted, now))
  }

  lemma QueueIsSent(queue: seq<RequestId>, waiting: map<RequestId, Command>, pending: map<RequestId, Command>,
                    was: Books, b: Books, generation: nat, accepted: Option<RoomUid>, now: nat,
                    wire: RequestId -> bool, failed: bool, wired: seq<RequestId>)
    requires accepted.Some? && (forall id | id in queue :: id in waiting)
    requires pending.Keys == waiting.Keys && b == was.(sends := b.sends)
    requires wired <= DueIn(queue, waiting, generation, now) && forall j | 0 <= j < |wired| :: wire(wired[j])
    requires SentExactly(wired, waiting, was, b, generation, accepted, now)
    requires forall id | id in wired :: id in pending && pending[id] == Transmitted(waiting[id], generation, accepted)
    requires Stopped(wired, DueIn(queue, waiting, generation, now), waiting, pending, generation, accepted)
    requires var due := DueIn(queue, waiting, generation, now);
      if failed then |wired| < |due| && !wire(due[|wired|]) else wired == due
    requires !failed ==> forall id | id in waiting :: pending[id] == Sent(waiting[id], generation, accepted, now)
    ensures QueueSent(queue, waiting, pending, was, b, generation, accepted, now, wire, failed)
  {
    hide SentExactly, Sent, Transmitted, Stopped, DueIn, Taken;
    var due := DueIn(queue, waiting, generation, now);
    TakenUpTo(due, wire, |wired|);
    assert due[..|wired|] == wired;
  }

  /** A try that the socket refuses keeps the books. */
  lemma TryOne(order: seq<RequestId>, pending: map<RequestId, Command>, b: Books, generation: nat,
               accepted: Option<RoomUid>, id: RequestId, clock: Option<nat>)
    requires BooksOk(order, pending, b, generation, accepted, false) && accepted.Some? && Spacing(pending, b, clock)
    requires id in pending && pending[id].transmissionGeneration != generation
    ensures var tried :=
        pending[id].(transmissionGeneration := generation, roomUid := Some(UidOf(pending[id], accepted)));
      BooksOk(order, pending[id := tried], b, generation, accepted, false) && Spacing(pending[id := tried], b, clock)
  {
    hide BooksOk, Spacing, HistoryOk, CommandOk, UidOf;
    var c := pending[id];
    var tried := c.(transmissionGeneration := generation, roomUid := Some(UidOf(c, accepted)));
    WaitsFor(order, pending, b, generation, accepted, false, id);
    TriedKeeps(c, b.sends[c.promise], c.promise in b.replays, generation, accepted);
    BookReplace(order, pending, b, generation, accepted, false, id, tried);
    TriedSpacing(pending, b, id, tried, clock);
  }

  /** Sends everything that is due, in the order it was asked for, until the socket refuses something. */
  method SendQueue(order: seq<RequestId>, waiting: map<RequestId, Command>, ghost books: Books, generation: nat,
                   accepted: Option<RoomUid>, now: nat, ghost clock: Option<nat>, wire: RequestId -> bool)
    returns (pending: map<RequestId, Command>, ghost b: Books, failed: bool)
    requires BooksOk(order, waiting, books, generation, accepted, false) && accepted.Some?
    requires forall id | id in order :: id in waiting
    requires Spacing(waiting, books, clock) && (clock.None? || clock.value == now)
    ensures Spacing(pending, b, clock)
    ensures BooksOk(order, pending, b, generation, accepted, false) && pending.Keys == waiting.Keys
    ensures b == books.(sends := b.sends) && Grows(books, b)
    ensures QueueSent(order, waiting, pending, books, b, generation, accepted, now, wire, failed)
  {
    hide BooksOk, Grows, SentExactly, Spacing, HistoryOk, CommandOk, SendIn, SendingOf, DueIn, Distinct, Taken,
      QueueSent;
    pending, b, failed := waiting, books, false;
    ghost var wired := [];
    GrowsSame(books);
    NoneSent(order, waiting, books, generation, accepted, false, now);
    var i := 0;
    InOrder(order, waiting, books, generation, accepted, false);
    while i < |order|
      invariant 0 <= i <= |order|
      invariant Spacing(pending, b, clock)
      invariant BooksOk(order, pending, b, generation, accepted, false) && pending.Keys == waiting.Keys
      invariant b == books.(sends := b.sends) && Grows(books, b)
      invariant forall j | i <= j < |order| :: pending[order[j]] == waiting[order[j]]
      invariant forall j | 0 <= j < i :: pending[order[j]] == Sent(waiting[order[j]], generation, accepted, now)
      invariant wired == DueIn(order[..i], waiting, generation, now)
      invariant SentExactly(wired, waiting, books, b, generation, accepted, now)
      invariant forall j | 0 <= j < |wired| :: wire(wired[j])
      invariant forall id | id in wired ::
        id in pending && pending[id] == Transmitted(waiting[id], generation, accepted)
    {
      var id := order[i];
      var c := pending[id];
      DueNext(order, waiting, generation, now, i);
      if Due(c, generation, now) {
        WaitsFor(order, pending, b, generation, accepted, false, id);
        var tried := c.(transmissionGeneration := generation, roomUid := Some(UidOf(c, accepted)));
        if !wire(id) {
          TryOne(order, pending, b, generation, accepted, id, clock);
          pending := pending[id := tried];
          QueueIsSent(order, waiting, pending, books, b, generation, accepted, now, wire, true, wired);
          return pending, b, true;
        }
        SendOne(order, waiting, pending, books, b, wired, generation, accepted, id, now, clock);
        b := SendIn(b, c.promise, SendingOf(c, generation, accepted, now));
        wired := wired + [id];
        pending := pending[id := tried.(sent := true, everSent := true, timerArmed := true, retryArmed := false)];
      } else if c.transmissionGeneration != generation {
        BookTimer(order, pending, b, generation, accepted, false, id, true, clock);
        pending := pending[id := c.(retryArmed := true)];
      }
      i := i + 1;
    }
    assert order[..|order|] == order;
    Everyone(order, waiting, books, generation, accepted, false);
    QueueIsSent(order, waiting, pending, books, b, generation, accepted, now, wire, false, wired);
  }

  lemma InOrder(order: seq<RequestId>, pending: map<RequestId, Command>, b: Books, generation: nat,
                accepted: Option<RoomUid>, over: bool)
    requires BooksOk(order, pending, b, generation, accepted, over)
    ensures Distinct(order) && forall i | 0 <= i < |order| :: order[i] in pending
  {
  }

  lemma Everyone(order: seq<RequestId>, pending: map<RequestId, Command>, b: Books, generation: nat,
                 accepted: Option<RoomUid>, over: bool)
    requires BooksOk(order, pending, b, generation, accepted, over)
    ensures forall id | id in pending :: exists i :: 0 <= i < |order| && order[i] == id
  {
    forall id | id in pending ensures exists i :: 0 <= i < |order| && order[i] == id { assert id in order; }
  }

  /** Everything that waited was told the truth: an unknown outcome if it was ever sent, else that it was not. */
  ghost predicate AllRejected(waiting: map<RequestId, Command>, b: Books) {
    forall id | id in waiting :: waiting[id].promise in b.settled &&
      b.settled[waiting[id].promise] == if waiting[id].everSent then UnknownOutcome else NotSent
  }

  /** Rejects everything that waits: what was sent has an unknown outcome, what was not is told so. */
  method RejectQueue(queue: seq<RequestId>, waiting: map<RequestId, Command>, ghost books: Books, ghost generation: nat,
                     ghost accepted: Option<RoomUid>, ghost over: bool)
    returns (ghost b: Books)
    requires BooksOk(queue, waiting, books, generation, accepted, over)
    ensures BooksOk([], map[], b, generation, accepted, over)
    ensures b == books.(owner := b.owner, settled := b.settled, settlements := b.settlements) && Grows(books, b)
    ensures AllRejected(waiting, b)
  {
    hide BooksOk, Grows, AllRejected;
    var order, pending := queue, waiting;
    b := books;
    GrowsSame(books);
    NoneRejected(waiting, b);
    while order != []
      invariant BooksOk(order, pending, b, generation, accepted, over)
      invariant b == books.(owner := b.owner, settled := b.settled, settlements := b.settlements) && Grows(books, b)
      invariant forall id | id in pending :: id in waiting && pending[id] == waiting[id]
      invariant AllRejected(waiting - pending.Keys, b)
      decreases |pending|
    {
      var id := order[0];
      FirstIsPending(order, pending, b, generation, accepted, over);
      var outcome := if pending[id].everSent then UnknownOutcome else NotSent;
      BookSettle(order, pending, b, generation, accepted, over, id, outcome);
      OneMoreRejected(waiting, pending, b, id);
      GrowsSettle(b, pending[id].promise, outcome);
      GrowsTrans(books, b, SettleIn(b, pending[id].promise, outcome));
      b := SettleIn(b, pending[id].promise, outcome);
      pending := pending - {id};
      order := Without(order, id);
    }
    NonePending(pending, b, generation, accepted, over);
    assert waiting - pending.Keys == waiting;
  }

  lemma NoneRejected(waiting: map<RequestId, Command>, b: Books)
    ensures AllRejected(waiting - waiting.Keys, b)
  {
  }

  lemma OneMoreRejected(waiting: map<RequestId, Command>, pending: map<RequestId, Command>, b: Books, id: RequestId)
    requires id in pending && id in waiting && pending[id] == waiting[id] && waiting[id].promise !in b.settled
    requires AllRejected(waiting - pending.Keys, b)
    ensures AllRejected(waiting - (pending - {id}).Keys,
      SettleIn(b, waiting[id].promise, if waiting[id].everSent then UnknownOutcome else NotSent))
  {
    var after := SettleIn(b, waiting[id].promise, if waiting[id].everSent then UnknownOutcome else NotSent);
    forall x | x in waiting && x !in pending - {id}
      ensures waiting[x].promise in after.settled &&
        after.settled[waiting[x].promise] == if waiting[x].everSent then UnknownOutcome else NotSent
    {
      if x != id { assert x in waiting - pending.Keys; }
    }
  }

  /** The connection of generation `generation` is gone: each command that was sent on it is counted as
      uncertain and waits for the next one, or is given up when its attempts are used up. */
  method CloseQueue(queue: seq<RequestId>, waiting: map<RequestId, Command>, ghost books: Books, generation: nat,
                    accepted: Option<RoomUid>, now: nat, ghost clock: Option<nat>)
    returns (order: seq<RequestId>, pending: map<RequestId, Command>, ghost b: Books)
    requires BooksOk(queue, waiting, books, generation, accepted, true)
    requires Spacing(waiting, books, clock) && (clock.None? || clock.value == now)
    ensures Spacing(pending, b, clock)
    ensures BooksOk(order, pending, b, generation, accepted, true)
    ensures b == books.(owner := b.owner, settled := b.settled, settlements := b.settlements) && Grows(books, b)
    ensures forall id | id in pending :: id in waiting && !pending[id].sent
    ensures forall id | id in waiting && !waiting[id].sent :: id in pending && pending[id] == waiting[id]
    ensures forall id | id in waiting :: AfterClose(waiting, pending, b, id, generation, now)
  {
    hide BooksOk, ScheduleUncertain, Grows, Spacing, CommandOk;
    order, pending, b := queue, waiting, books;
    GrowsSame(books);
    InOrder(queue, waiting, books, generation, accepted, true);
    Everyone(queue, waiting, books, generation, accepted, true);
    SentHere(queue, waiting, books, generation, accepted, true);
    var i := 0;
    while i < |queue|
      invariant 0 <= i <= |queue| && BooksOk(order, pending, b, generation, accepted, true)
      invariant b == books.(owner := b.owner, settled := b.settled, settlements := b.settlements) && Grows(books, b)
      invariant forall id | id in pending :: id in waiting
      invariant Spacing(pending, b, clock)
      invariant forall j | i <= j < |queue| :: queue[j] in pending && pending[queue[j]] == waiting[queue[j]]
      invariant forall j | 0 <= j < i :: AfterClose(waiting, pending, b, queue[j], generation, now)
    {
      var id := queue[i];
      var c := pending[id];
      if c.transmissionGeneration == generation && c.sent {
        WaitsFor(order, pending, b, generation, accepted, true, id);
        CountKeeps(c, b.sends[c.promise], c.promise in b.replays, generation, accepted, true, now);
        Schedules(c, generation, now);
        var (counted, decision) := ScheduleUncertain(c, generation, now);
        if decision.Exhausted? {
          BookSettle(order, pending, b, generation, accepted, true, id, UnknownOutcome);
          GrowsSettle(b, c.promise, UnknownOutcome);
          GrowsTrans(books, b, SettleIn(b, c.promise, UnknownOutcome));
          SpacingLess(pending, b, pending - {id}, SettleIn(b, c.promise, UnknownOutcome), clock);
          b := SettleIn(b, c.promise, UnknownOutcome);
          order, pending := Without(order, id), pending - {id};
        } else {
          var idle := counted.(sent := false, timerArmed := true);
          BookReplace(order, pending, b, generation, accepted, true, id, idle);
          CountSpacing(pending, b, id, generation, now, clock);
          pending := pending[id := idle];
        }
      }
      i := i + 1;
    }
  }

  /** What closing the connection makes of one command. */
  ghost predicate AfterClose(waiting: map<RequestId, Command>, pending: map<RequestId, Command>, b: Books,
                             id: RequestId, generation: nat, now: nat)
    requires id in waiting
  {
    if !waiting[id].sent then id in pending && pending[id] == waiting[id]
    else
      var (counted, decision) := ScheduleUncertain(waiting[id], generation, now);
      if decision.Exhausted?
      then id !in pending && waiting[id].promise in b.settled && b.settled[waiting[id].promise] == UnknownOutcome
      else id in pending && pending[id] == counted.(sent := false, timerArmed := true)
  }

  lemma SentHere(order: seq<RequestId>, pending: map<RequestId, Command>, b: Books, generation: nat,
                 accepted: Option<RoomUid>, over: bool)
    requires BooksOk(order, pending, b, generation, accepted, over)
    ensures forall id | id in pending && pending[id].sent :: pending[id].transmissionGeneration == generation
  {
    hide HistoryOk, Queued, Promised, Truthful;
  }

  lemma SentBefore(order: seq<RequestId>, pending: map<RequestId, Command>, b: Books, generation: nat,
                   accepted: Option<RoomUid>, over: bool)
    requires BooksOk(order, pending, b, generation, accepted, over)
    ensures forall id | id in pending :: pending[id].transmissionGeneration <= generation
  {
    hide HistoryOk, Queued, Promised, Truthful;
  }

  lemma SentAttends(order: seq<RequestId>, waiting: map<RequestId, Command>, pending: map<RequestId, Command>,
                    was: Books, b: Books, generation: nat, accepted: Option<RoomUid>, now: nat,
                    wire: RequestId -> bool)
    requires accepted.Some? && QueueSent(order, waiting, pending, was, b, generation, accepted, now, wire, false)
    requires forall id | id in waiting && waiting[id].transmissionGeneration == generation :: waiting[id].sent
    ensures forall id | id in pending :: AttendedTo(pending[id], generation)
  {
    hide SentExactly, DueIn, Taken, Stopped;
  }

  predicate AttendedTo(c: Command, generation: nat) {
    if c.transmissionGeneration == generation then c.sent else c.retryArmed
  }

  ghost predicate Contiguous(base: nat, lastSeq: nat, delivered: seq<nat>) {
    base <= lastSeq && delivered == Range(base + 1, lastSeq)
  }

  lemma Delivers(base: nat, lastSeq: nat, delivered: seq<nat>, last: nat)
    requires Contiguous(base, lastSeq, delivered) && lastSeq <= last
    ensures Contiguous(base, last, delivered + Range(lastSeq + 1, last))
  {
    RangeAppends(base + 1, lastSeq, last);
  }

  /** The caller was told that the room is open at most once per connection, each time after exactly the
      events from the snapshot to the receipt's high-water mark; `spent` says this connection cannot be
      announced again. */
  ghost predicate Opened(openings: seq<Opening>, generation: nat, spent: bool) {
    && (forall i, j | 0 <= i < j < |openings| :: openings[i].generation < openings[j].generation)
    && (forall i | 0 <= i < |openings| ::
          openings[i].generation <= generation &&
            Contiguous(openings[i].cursor, openings[i].highWater, openings[i].delivered))
    && (openings != [] && openings[|openings| - 1].generation == generation ==> spent)
  }

  lemma OpenedLater(openings: seq<Opening>, generation: nat, spent: bool, later: nat)
    requires Opened(openings, generation, spent)
    ensures generation < later ==> forall any :: Opened(openings, later, any)
    ensures Opened(openings, generation, true)
  {
  }

  lemma OpenedNow(openings: seq<Opening>, generation: nat, o: Opening)
    requires Opened(openings, generation, false) && o.generation == generation
    requires Contiguous(o.cursor, o.highWater, o.delivered)
    ensures Opened(openings + [o], generation, true)
  {
  }

  /** The loop over a frame's events: old ones are skipped once the room is established, and refused
      while it is catching up. */
  method ScanEvents(events: seq<RawEvent>, lastSeq: nat, latest: nat, highWater: Option<nat>)
    returns (ok: bool, news: seq<nat>)
    ensures var end := Advance(events, lastSeq, highWater);
      ok <==> end.Some? && end.value > lastSeq && latest == end.value
    ensures news == if ok then Range(lastSeq + 1, latest) else []
    ensures ok && highWater.Some? ==> latest <= highWater.value
  {
    hide Range;
    news := [];
    var next := lastSeq;
    var i := 0;
    while i < |events|
      invariant 0 <= i <= |events| && lastSeq <= next && news == Range(lastSeq + 1, next)
      invariant Advance(events, lastSeq, highWater) == Advance(events[i..], next, highWater)
      invariant highWater.Some? && next > lastSeq ==> next <= highWater.value
    {
      var event := events[i];
      assert events[i..][1..] == events[i + 1..];
      if !event.valid || (highWater.Some? && event.number <= next) {
        return false, [];
      }
      if event.number > next {
        if event.number != next + 1 || (highWater.Some? && event.number > highWater.value) {
          return false, [];
        }
        RangeAppends(lastSeq + 1, next, next + 1);
        assert Range(next + 1, next + 1) == [next + 1];
        news := news + [event.number];
        next := event.number;
      }
      i := i + 1;
    }
    assert events[i..] == [];
    ok := news != [] && latest == next;
    if !ok { news := []; }
  }

  lemma StartOfRange(n: nat)
    ensures Contiguous(n, n, [])
  {
  }

  lemma Schedules(c: Command, generation: nat, now: nat)
    ensures ScheduleUncertain(c, generation, now).0.promise == c.promise
    ensures ScheduleUncertain(c, generation, now).0.sent == c.sent
    ensures ScheduleUncertain(c, generation, now).1.AlreadyCounted? <==> c.retryCounted == generation
  {
  }

  lemma AlreadyOver(c: Command, s: seq<Sending>, replayed: bool, generation: nat, accepted: Option<RoomUid>, over: bool)
    requires CommandOk(c, s, replayed, generation, accepted, over)
    ensures c.retryCounted == generation ==> over
  {
  }

  /** Counting a waiting command as uncertain keeps the books of a connection that is then over. */
  lemma BookCount(order: seq<RequestId>, pending: map<RequestId, Command>, b: Books, generation: nat,
                  accepted: Option<RoomUid>, over: bool, id: RequestId, now: nat)
    requires BooksOk(order, pending, b, generation, accepted, over) && id in pending
    ensures var (counted, decision) := ScheduleUncertain(pending[id], generation, now);
      && counted.sent == pending[id].sent && counted.promise == pending[id].promise
      && (decision.AlreadyCounted? ==> over)
      && (!decision.Exhausted? ==> BooksOk(order, pending[id := counted.(timerArmed := false)], b, generation,
        accepted, true))
  {
    hide BooksOk, ScheduleUncertain;
    var c := pending[id];
    WaitsFor(order, pending, b, generation, accepted, over, id);
    CountKeeps(c, b.sends[c.promise], c.promise in b.replays, generation, accepted, over, now);
    Schedules(c, generation, now);
    AlreadyOver(c, b.sends[c.promise], c.promise in b.replays, generation, accepted, over);
    BookOver(order, pending, b, generation, accepted, over);
    var (counted, decision) := ScheduleUncertain(c, generation, now);
    if !decision.Exhausted? {
      BookReplace(order, pending, b, generation, accepted, true, id, counted.(timerArmed := false));
    }
  }

  // ---------------------------------------------------------------- the client

  /** What an event finds and leaves of a client. */
  datatype ClientState = ClientState(
    closed: bool,
    lastSeq: nat,
    afresh: bool,
    accepted: Option<RoomUid>,
    transportReady: bool,
    generation: nat,
    reconnectArmed: bool,
    awaitingTicket: bool,
    link: Link,
    conn: Connection,
    pending: map<RequestId, Command>,
    order: seq<RequestId>,
    promises: nat,
    books: Books,
    base: nat,
    delivered: seq<nat>,
    openings: seq<Opening>)

  class Client {
    var closed: bool
    var lastSeq: nat
    var freshSnapshotRequested: bool
    var accepted: Option<RoomUid>
    var transportReady: bool
    var generation: nat
    var reconnectArmed: bool
    var awaitingTicket: bool
    var link: Link
    var conn: Connection
    var pending: map<RequestId, Command>
    var order: seq<RequestId>
    var promises: nat

    ghost var books: Books
    ghost var base: nat
    ghost var delivered: seq<nat>
    ghost var openings: seq<Opening>
    ghost var clock: Option<nat>

    ghost function State(): ClientState
      reads `closed, `lastSeq, `freshSnapshotRequested, `accepted, `transportReady, `generation, `reconnectArmed,
            `awaitingTicket, `link, `conn, `pending, `order, `promises, `books, `base, `delivered, `openings
    {
      ClientState(closed, lastSeq, freshSnapshotRequested, accepted, transportReady, generation, reconnectArmed,
        awaitingTicket, link, conn,
        pending, order, promises, books, base, delivered, openings)
    }

    // -------------------------------------------------------------- the invariant

    /** The current connection can send nothing any more. */
    predicate Over()
      reads `awaitingTicket, `link
    {
      !awaitingTicket && (link.NoLink? || link.phase in {Closing, Closed})
    }

    ghost predicate Kept()
      reads `order, `pending, `promises, `books, `generation, `accepted, `awaitingTicket, `link
    {
      BooksOk(order, pending, books, generation, accepted, Over()) && promises == books.issued
    }

    /** The events handed on since the last snapshot are exactly the ones after it, in order. */
    ghost predicate CursorOk()
      reads `base, `lastSeq, `delivered, `conn, `accepted
    {
      && Contiguous(base, lastSeq, delivered)
      && (conn.snapshotAccepted ==> conn.receipt.Some? && base == conn.receipt.value.cursor && accepted.Some?)
      && (conn.receipt.Some? ==> conn.receipt.value.cursor <= conn.receipt.value.highWater)
      && (conn.established ==> conn.snapshotAccepted)
      && (conn.snapshotAccepted ==> conn.catalog && conn.requestsComplete)
    }

    /** The caller was told that the room is open at most once per connection, and each time it had been
        handed exactly the events from the snapshot to the receipt's high-water mark. */
    ghost predicate OpeningsOk()
      reads `openings, `generation, `transportReady, `link, `awaitingTicket
    {
      Opened(openings, generation, transportReady || (link.NoLink? && !awaitingTicket))
    }

    ghost predicate LinkOk()
      reads `generation, `transportReady, `link, `conn, `awaitingTicket, `reconnectArmed, `closed, `pending
    {
      && generation > 0
      && (transportReady ==> link.Link? && !link.phase.Connecting? && conn.snapshotAccepted && conn.established)
      && (conn.established && link.Link? ==> transportReady)
      && (conn.failed ==> Over())
      && (awaitingTicket ==> link.NoLink? && !closed && conn == NEW_CONNECTION)
      && (reconnectArmed ==> link.NoLink? && !awaitingTicket && !closed)
      && (closed ==> link.NoLink? && pending == map[])
    }

    /** A command marked as sent waits on a connection that is still there. */
    ghost predicate SentOk()
      reads `pending, `link
    {
      forall id | id in pending && pending[id].sent :: link.Link?
    }

    /** As long as no event came earlier than the one before, retries keep their distance. */
    ghost predicate SpacingOk()
      reads `pending, `books, `clock
    {
      Spacing(pending, books, clock)
    }

    /** On a ready connection no command is forgotten: it was sent on it, or its retry timer will wake it; and
        before a connection is ready nothing is sent on it. */
    ghost predicate Attended()
      reads `pending, `link, `transportReady, `generation, `awaitingTicket
    {
      && (transportReady && link == Link(Open) ==> forall id | id in pending :: AttendedTo(pending[id], generation))
      && (!transportReady && !Over() ==> forall id | id in pending :: pending[id].transmissionGeneration != generation)
    }

    ghost predicate Steady()
      reads this
    {
      Kept() && CursorOk() && OpeningsOk() && LinkOk() && SentOk() && SpacingOk()
    }

    ghost predicate Valid()
      reads this
    {
      Steady() && Attended()
    }

    /** The event at hand happens now. */
    ghost predicate At(now: nat)
      reads `clock
    {
      clock.None? || clock.value == now
    }

    ghost method Tick(now: nat)
      requires Valid()
      modifies `clock
      ensures Valid() && clock == Ticked(old(clock), now) && At(now) && State() == old(State())
    {
      hide BooksOk, Contiguous, Opened, Spacing;
      SpacingTicks(pending, books, clock, now);
      clock := Ticked(clock, now);
    }

    constructor ()
      ensures Valid() && lastSeq == 0 && accepted.None? && pending == map[] && openings == [] && clock == Some(0)
    {
      closed, lastSeq, freshSnapshotRequested, accepted, transportReady := false, 0, false, None, false;
      generation, reconnectArmed, awaitingTicket, link, conn := 1, false, true, NoLink, NEW_CONNECTION;
      pending, order, promises := map[], [], 0;
      base, delivered, openings, clock := 0, [], [], Some(0);
      books := Books(0, map[], map[], 0, map[], {});
    }

    // -------------------------------------------------------------- sending

    /** The open connection fails: it is closed and hears no further frame. */
    method FailConnection()
      requires Steady() && !awaitingTicket
      modifies `conn, `link
      ensures Valid() && Over() && conn == old(conn).(failed := true)
      ensures link == if old(conn.failed || link.NoLink? || link.phase.Closed?) then old(link) else Link(Closing)
    {
      hide BooksOk, Grows, Contiguous, Opened, Spacing;
      BookOver(order, pending, books, generation, accepted, Over());
      if !conn.failed && link.Link? && !link.phase.Closed? {
        link := Link(Closing);
      }
      conn := conn.(failed := true);
    }

    /** What was due of this queue went out, and the connection failed if the socket refused something. */
    ghost predicate SendsDue(queue: seq<RequestId>, waiting: map<RequestId, Command>, was: Books, now: nat,
                             wire: RequestId -> bool)
      reads this
    {
      accepted.Some? &&
      QueueSent(queue, waiting, pending, was, books, generation, accepted, now, wire, link != Link(Open))
    }

    /** So with a socket that takes everything, each command not yet sent on this connection whose retry time has
        come is sent once more, as it is, and every other one waits for its retry timer. */
    lemma WhatGoesOut(queue: seq<RequestId>, waiting: map<RequestId, Command>, was: Books, now: nat,
                      wire: RequestId -> bool)
      requires SendsDue(queue, waiting, was, now, wire) && (forall id :: wire(id))
      requires forall id | id in waiting :: id in queue
      ensures forall id | id in waiting :: waiting[id].promise in was.sends && waiting[id].promise in books.sends
      ensures forall id | id in waiting ::
        var c := waiting[id];
        if c.transmissionGeneration != generation && c.retryNotBefore <= now then
          id in pending && pending[id].sent && books.sends[c.promise] == was.sends[c.promise] +
            [Sending(generation, c.encoded, if c.roomUid.Some? then c.roomUid.value else accepted.value, now,
                     c.retryNotBefore, c.retryAttempt)]
        else
          id in pending && books.sends[c.promise] == was.sends[c.promise] &&
          (c.transmissionGeneration != generation ==> pending[id].retryArmed && !(c.retryNotBefore <= now))
    {
      var due := DueIn(queue, waiting, generation, now);
      TakenUpTo(due, wire, |due|);
      DueMembers(queue, waiting, generation, now);
    }

    method SendPending(now: nat, wire: RequestId -> bool)
      requires Steady() && At(now)
      requires forall id | id in pending && pending[id].transmissionGeneration == generation && !Over() ::
        pending[id].sent
      requires !transportReady && !Over() ==>
        forall id | id in pending :: pending[id].transmissionGeneration != generation
      modifies `pending, `books, `link, `conn
      ensures Valid() && pending.Keys == old(pending.Keys) && books == old(books).(sends := books.sends)
      ensures conn == old(conn).(failed := conn.failed) && (link == old(link) || link == Link(Closing))
      ensures old(link != Link(Open) || !transportReady) ==>
        pending == old(pending) && books == old(books) && link == old(link) && conn == old(conn)
      ensures old(link == Link(Open) && transportReady) ==>
        SendsDue(order, old(pending), old(books), now, wire)
      ensures Grows(old(books), books)
    {
      hide BooksOk, Grows, Contiguous, Opened, Spacing, OpeningsOk, QueueSent, AttendedTo;
      GrowsSame(books);
      if link != Link(Open) || !transportReady {
        return;
      }
      InOrder(order, pending, books, generation, accepted, Over());
      var failed;
      pending, books, failed := SendQueue(order, pending, books, generation, accepted, now, clock, wire);
      if failed {
        FailConnection();
      } else {
        SentAttends(order, old(pending), pending, old(books), books, generation, accepted, now, wire);
      }
    }

    /** An open connection that has been handed exactly what its receipt promised, but not announced yet. */
    predicate CaughtUp()
      reads `closed, `link, `transportReady, `conn, `lastSeq
    {
      CanUseOpenSocket() && !transportReady && conn.snapshotAccepted && conn.receipt.Some? &&
      lastSeq == conn.receipt.value.highWater
    }

    /** The room is open once the snapshot and exactly the receipt's catch-up have been handed on. */
    method MarkReady(now: nat, wire: RequestId -> bool) returns (ready: bool)
      requires Valid() && At(now) && (conn.established || !transportReady)
      modifies this
      ensures Valid() && unchanged(`closed, `lastSeq, `accepted, `generation, `base, `delivered, `reconnectArmed,
        `awaitingTicket, `clock, `order, `freshSnapshotRequested)
      ensures ready == old(CaughtUp())
      ensures ready ==> transportReady && openings == old(openings) + [Opening(generation, base, lastSeq, delivered)]
      ensures ready ==> SendsDue(order, old(pending), old(books), now, wire)
      ensures !ready ==> unchanged(this)
      ensures conn.snapshotAccepted == old(conn.snapshotAccepted) && conn.receipt == old(conn.receipt)
      ensures Grows(old(books), books)
    {
      hide BooksOk, Grows, Contiguous, Opened, Spacing, SendsDue;
      GrowsSame(books);
      ready := CaughtUp();
      if ready {
        OpenedNow(openings, generation, Opening(generation, base, lastSeq, delivered));
        openings := openings + [Opening(generation, base, lastSeq, delivered)];
        conn := conn.(established := true);
        transportReady := true;
        SendPending(now, wire);
      }
    }

    predicate CanUseOpenSocket()
      reads `closed, `link
    {
      !closed && link == Link(Open)
    }

    // -------------------------------------------------------------- event frames

    /** Hands on the news events of a frame, all of them or none: a frame that repeats (while catching
        up), skips, overshoots or misstates its cursor delivers nothing. */
    method AcceptEventFrame(events: seq<RawEvent>, latest: nat, highWater: Option<nat>)
      returns (ok: bool, news: seq<nat>)
      requires Valid()
      modifies `lastSeq, `delivered
      ensures Valid()
      ensures var end := Advance(events, old(lastSeq), highWater);
        ok <==> end.Some? && end.value > old(lastSeq) && latest == end.value
      ensures ok ==> lastSeq == latest && news == Range(old(lastSeq) + 1, latest) && news != []
      ensures ok && highWater.Some? ==> latest <= highWater.value
      ensures delivered == old(delivered) + news
      ensures !ok ==> lastSeq == old(lastSeq) && news == []
    {
      hide BooksOk, Grows, Contiguous, Opened, Spacing;
      ok, news := ScanEvents(events, lastSeq, latest, highWater);
      if ok {
        Delivers(base, lastSeq, delivered, latest);
        lastSeq := latest;
        delivered := delivered + news;
      }
    }

    // -------------------------------------------------------------- frames

    /** What no frame does: it never moves anything into another room lifetime, and a refused one hands
        nothing on. */
    ghost predicate FrameKeeps(was: ClientState, ok: bool)
      reads this
    {
      && closed == was.closed && generation == was.generation && reconnectArmed == was.reconnectArmed
      && awaitingTicket == was.awaitingTicket && Grows(was.books, books)
      && (!ok && accepted == was.accepted ==> lastSeq == was.lastSeq && delivered == was.delivered)
      && (was.accepted.Some? && accepted != was.accepted ==>
            !ok && pending == map[] && lastSeq == 0 && delivered == [] && AllRejected(was.pending, books))
      && (was.conn.snapshotAccepted && conn.snapshotAccepted ==>
            accepted == was.accepted && base == was.base && was.delivered <= delivered)
    }

    method TakeReceipt(frame: Frame) returns (ok: bool)
      requires Valid() && conn.receipt.None?
      modifies `conn, `freshSnapshotRequested
      ensures Valid() && FrameKeeps(old(State()), ok)
      ensures ok <==> frame.ReceiptFrame? && frame.valid && frame.cursor <= frame.highWater
      ensures conn == (if ok && CanUseOpenSocket()
                       then old(conn).(receipt := Some(Receipt(frame.cursor, frame.highWater))) else old(conn))
      ensures freshSnapshotRequested ==
        (old(freshSnapshotRequested) || (frame.Resync? && frame.exact && frame.latestSeq < lastSeq))
    {
      hide BooksOk, Grows, Contiguous, Opened, Spacing;
      GrowsSame(books);
      match frame {
        case Resync(exact, latestSeq) =>
          if exact && latestSeq < lastSeq {
            freshSnapshotRequested := true;
          }
          return false;
        case ReceiptFrame(valid, cursor, highWater) =>
          if !valid || highWater < cursor {
            return false;
          }
          if CanUseOpenSocket() {
            conn := conn.(receipt := Some(Receipt(cursor, highWater)));
          }
          return true;
        case _ =>
          return false;
      }
    }

    /** What was sent has an unknown outcome; what was not is told so. */
    method RejectAll()
      requires Kept() && SpacingOk()
      modifies `order, `pending, `books
      ensures Kept() && SpacingOk() && pending == map[] && order == [] && AllRejected(old(pending), books)
      ensures books == old(books).(owner := books.owner, settled := books.settled, settlements := books.settlements)
      ensures Grows(old(books), books)
    {
      hide BooksOk, Grows, AllRejected, Spacing;
      ghost var told := RejectQueue(order, pending, books, generation, accepted, Over());
      SpacingLess(pending, books, map[], told, clock);
      books := told;
      order, pending := [], map[];
    }

    /** The name of the room now means another room: nothing that waits may reach it. */
    method SwitchRoom(uid: RoomUid)
      requires Valid() && !conn.snapshotAccepted
      modifies `accepted, `lastSeq, `base, `delivered, `order, `pending, `books
      ensures Valid() && accepted == Some(uid) && pending == map[] && lastSeq == 0 && delivered == []
      ensures Grows(old(books), books) && AllRejected(old(pending), books)
    {
      hide BooksOk, Grows, Contiguous, Opened, Spacing, AllRejected;
      RejectAll();
      BookEmpty(order, books, generation, accepted, Over(), generation, Some(uid), Over());
      accepted := Some(uid);
      lastSeq := 0;
      base, delivered := 0, [];
      StartOfRange(0);
    }

    /** Commands that wait for their first room are now bound to this one. */
    method AcceptRoom(uid: RoomUid)
      requires Valid() && (accepted.None? || accepted == Some(uid))
      modifies `accepted
      ensures Valid() && accepted == Some(uid)
    {
      hide BooksOk, Grows, Contiguous, Opened, Spacing, OpeningsOk, SentOk;
      if accepted.None? { BookAccept(order, pending, books, generation, Over(), uid); }
      accepted := Some(uid);
    }

    method AcceptSnapshot(uid: RoomUid, last: nat)
      requires Valid() && !conn.snapshotAccepted && !awaitingTicket && conn.catalog && conn.requestsComplete
      requires conn.receipt.Some? && last == conn.receipt.value.cursor && (accepted.None? || accepted == Some(uid))
      modifies `accepted, `lastSeq, `freshSnapshotRequested, `base, `delivered, `conn
      ensures Valid() && accepted == Some(uid) && lastSeq == base == last && delivered == [] && !freshSnapshotRequested
      ensures conn == old(conn).(snapshotAccepted := true)
    {
      hide BooksOk, Grows, Contiguous, Opened, Spacing, Kept, OpeningsOk, SentOk, SpacingOk, Attended;
      AcceptRoom(uid);
      lastSeq := last;
      freshSnapshotRequested := false;
      base, delivered := last, [];
      StartOfRange(last);
      conn := conn.(snapshotAccepted := true);
    }

    /** The snapshot of the room this client knows, or of its first one, at the receipt's cursor: the first
        snapshot of a room is the initial one, and none goes behind what was delivered. */
    predicate Accepts(frame: Frame)
      requires conn.receipt.Some?
      reads `conn, `accepted, `lastSeq
    {
      && frame.SnapshotFrame? && frame.lastSeq == conn.receipt.value.cursor
      && frame.roomUid.Some? && (accepted.None? || accepted == frame.roomUid)
      && frame.roomValid && frame.schemaValid && frame.projected
      && (frame.initial <==> lastSeq == 0) && lastSeq <= frame.lastSeq
    }

    /** A snapshot of another room: a valid one says that the name of the room has been given away. */
    method RefuseOtherRoom(frame: Frame)
      requires Valid() && frame.SnapshotFrame? && !conn.snapshotAccepted && accepted.Some? && frame.roomUid != accepted
      modifies `accepted, `lastSeq, `base, `delivered, `order, `pending, `books
      ensures Valid() && FrameKeeps(old(State()), false)
      ensures accepted == if frame.roomUid.Some? && frame.roomValid then frame.roomUid else old(accepted)
    {
      hide BooksOk, Grows, Contiguous, Opened, Spacing, AllRejected, Kept, CursorOk, OpeningsOk, SentOk, SpacingOk;
      GrowsSame(books);
      if frame.roomUid.Some? && frame.roomValid {
        SwitchRoom(frame.roomUid.value);
      }
    }

    /** What the caller is told of a connection and what is sent on it: it is announced once, as it is, and what is
        due goes out; or nothing happens to it. */
    ghost predicate Announces(was: ClientState, opens: bool, now: nat, wire: RequestId -> bool)
      reads this
    {
      && transportReady == (was.transportReady || opens) && order == was.order
      && if opens then
           && openings == was.openings + [Opening(generation, base, lastSeq, delivered)]
           && SendsDue(order, was.pending, was.books, now, wire)
         else openings == was.openings && pending == was.pending && books == was.books
    }

    method FollowSnapshot(uid: RoomUid, last: nat, now: nat, wire: RequestId -> bool)
      requires Valid() && At(now) && CanUseOpenSocket() && !conn.snapshotAccepted && conn.catalog &&
        conn.requestsComplete
      requires conn.receipt.Some? && last == conn.receipt.value.cursor && (accepted.None? || accepted == Some(uid))
      modifies this
      ensures Valid() && FrameKeeps(old(State()), true) && clock == old(clock) && conn.snapshotAccepted
      ensures accepted == Some(uid) && lastSeq == base == last && delivered == [] && !freshSnapshotRequested
      ensures Announces(old(State()), last == old(conn.receipt.value.highWater), now, wire)
      ensures conn.receipt == old(conn.receipt)
    {
      hide BooksOk, Grows, Contiguous, Opened, Spacing, AllRejected, Kept, CursorOk, OpeningsOk, SentOk, SpacingOk,
        SendsDue;
      AcceptSnapshot(uid, last);
      var _ := MarkReady(now, wire);
    }

    method TakeSnapshot(frame: Frame, now: nat, wire: RequestId -> bool) returns (ok: bool)
      requires Valid() && At(now) && !closed && !conn.snapshotAccepted
      requires conn.receipt.Some? && conn.catalog && conn.requestsComplete
      modifies this
      ensures Valid() && FrameKeeps(old(State()), ok) && clock == old(clock)
      ensures conn.snapshotAccepted <==> old(CanUseOpenSocket() && Accepts(frame))
      ensures ok <==> old(frame.SnapshotFrame? && frame.lastSeq == conn.receipt.value.cursor &&
                          (CanUseOpenSocket() ==> Accepts(frame)))
      ensures conn.snapshotAccepted ==>
        (ok && frame.SnapshotFrame? && accepted == frame.roomUid && lastSeq == base == frame.lastSeq && delivered == [])
      ensures conn.snapshotAccepted ==>
        conn.receipt == old(conn.receipt) && Announces(old(State()), lastSeq == conn.receipt.value.highWater, now, wire)
      ensures freshSnapshotRequested == (old(freshSnapshotRequested) && !conn.snapshotAccepted)
    {
      hide BooksOk, Grows, Contiguous, Opened, Spacing, AllRejected, Kept, CursorOk, OpeningsOk, SentOk, SpacingOk,
        Announces, LinkOk;
      GrowsSame(books);
      if !frame.SnapshotFrame? || frame.lastSeq != conn.receipt.value.cursor {
        return false;
      }
      if !CanUseOpenSocket() {
        return true;
      }
      if accepted.Some? && frame.roomUid != accepted {
        RefuseOtherRoom(frame);
        return false;
      }
      if frame.roomUid.None? || !frame.roomValid || !frame.schemaValid || (frame.initial && lastSeq != 0) ||
         (!frame.initial && lastSeq <= 0) || frame.lastSeq < lastSeq {
        return false;
      }
      if !frame.projected {
        return false;
      }
      FollowSnapshot(frame.roomUid.value, frame.lastSeq, now, wire);
      return true;
    }

    method SettleAnswer(id: RequestId, outcome: Settlement)
      requires Valid() && !closed && id in pending && !outcome.NotSent? && !awaitingTicket
      modifies `pending, `order, `books, `conn
      ensures Valid() && conn == old(conn).(leaveCommitted := old(conn.leaveCommitted) ||
        (outcome.Committed? && old(pending[id]).action == "participant.leave"))
      ensures pending == old(pending) - {id} && books == SettleIn(old(books), old(pending[id].promise), outcome)
      ensures Grows(old(books), books)
    {
      hide BooksOk, Grows, Contiguous, Opened, Spacing;
      if outcome.Committed? && pending[id].action == "participant.leave" {
        conn := conn.(leaveCommitted := true);
      }
      SettleNow(id, outcome);
    }

    /** An unresolved answer is counted as uncertain, once in a connection, and gives the connection up. */
    method CountAnswer(id: RequestId, now: nat)
      requires Valid() && At(now) && !closed && id in pending && conn.established && !conn.failed
      modifies `pending, `order, `books, `conn, `link
      ensures Valid()
      ensures conn == old(conn).(failed := ScheduleUncertain(old(pending[id]), generation, now).1.Retry?)
      ensures var (counted, decision) := ScheduleUncertain(old(pending[id]), generation, now);
        if decision.Exhausted?
        then pending == old(pending) - {id} && books == SettleIn(old(books), old(pending[id].promise), UnknownOutcome)
        else pending == old(pending)[id := counted.(timerArmed := false)] && books == old(books) && Over()
      ensures Grows(old(books), books)
    {
      hide BooksOk, Grows, Contiguous, Opened, Spacing, ScheduleUncertain;
      GrowsSame(books);
      BookCount(order, pending, books, generation, accepted, Over(), id, now);
      var (counted, decision) := ScheduleUncertain(pending[id], generation, now);
      if decision.Exhausted? {
        SettleAnswer(id, UnknownOutcome);
        return;
      }
      CountSpacing(pending, books, id, generation, now, clock);
      pending := pending[id := counted.(timerArmed := false)];
      if decision.Retry? {
        conn := conn.(failed := true);
        if link.Link? && !link.phase.Closed? {
          link := Link(Closing);
        }
      }
    }

    /** The answer to a command: committed or rejected it settles at once. */
    method TakeAnswer(id: RequestId, contractOk: bool, committed: bool, unresolved: bool, now: nat) returns (ok: bool)
      requires Valid() && At(now) && !closed && conn.established && !conn.failed
      modifies `pending, `order, `books, `conn, `link
      ensures Valid() && FrameKeeps(old(State()), ok)
      ensures ok <==> old(id in pending) && contractOk
      ensures !ok ==> pending == old(pending) && books == old(books)
      ensures ok ==> Answered(old(State()), id, committed, unresolved, now)
    {
      hide BooksOk, Grows, Contiguous, Opened, Spacing, ScheduleUncertain;
      GrowsSame(books);
      if id !in pending || !contractOk {
        return false;
      }
      if committed {
        SettleAnswer(id, Committed);
      } else if !unresolved {
        SettleAnswer(id, RejectedByServer);
      } else {
        CountAnswer(id, now);
      }
      return true;
    }

    /** The frames a connection takes, by how far it has come: receipt, catalog, requests, snapshot, catch-up,
        and then events, answers and what else is allowed. */
    predicate Takes(frame: Frame)
      reads `conn, `link, `closed, `pending, `lastSeq, `accepted
    {
      if frame.TooLarge? then false
      else if conn.receipt.None? then frame.ReceiptFrame? && frame.valid && frame.cursor <= frame.highWater
      else if !conn.catalog then frame.CatalogFrame? && frame.valid
      else if !conn.requestsComplete then frame.RequestFrame? && (frame.last || frame.valid)
      else if !conn.snapshotAccepted then
        frame.SnapshotFrame? && frame.lastSeq == conn.receipt.value.cursor && (CanUseOpenSocket() ==> Accepts(frame))
      else match frame
        case EventFrame(wellFormed, events, latestSeq) =>
          wellFormed &&
          Follows(events, latestSeq, if conn.established then None else Some(conn.receipt.value.highWater))
        case AckFrame(request, contractOk) => conn.established && request in pending && contractOk
        case NackFrame(request, contractOk, _) => conn.established && request in pending && contractOk
        case OtherFrame(allowed) => conn.established && allowed
        case _ => false
    }

    /** The fresh events of a frame lead from the cursor exactly to the one it advertises. */
    predicate Follows(events: seq<RawEvent>, latest: nat, highWater: Option<nat>)
      reads `lastSeq
    {
      var end := Advance(events, lastSeq, highWater);
      end.Some? && end.value > lastSeq && latest == end.value
    }

    /** A taken frame moves the handshake on by one step: the receipt, the catalog, the requests, and last the
        snapshot, which starts the log at its cursor. */
    ghost predicate Advances(was: Connection, frame: Frame)
      reads this
    {
      if was.receipt.None? then
        frame.ReceiptFrame? && conn == was.(receipt := Some(Receipt(frame.cursor, frame.highWater)))
      else if !was.catalog then conn == was.(catalog := true)
      else if !was.requestsComplete then frame.RequestFrame? && conn == was.(requestsComplete := frame.last)
      else !was.snapshotAccepted ==>
        && conn.snapshotAccepted && frame.SnapshotFrame? && accepted == frame.roomUid
        && lastSeq == base == frame.lastSeq && delivered == []
    }

    /** What a taken frame does to the handshake, the cursor and the command it answers; one that brings an open
        connection up to its high-water mark has it announced and everything due sent. */
    ghost predicate TakesEffect(was: ClientState, frame: Frame, now: nat, wire: RequestId -> bool)
      reads this
    {
      && Advances(was.conn, frame)
      && (if was.conn.snapshotAccepted && frame.EventFrame? then
            lastSeq == frame.latestSeq && delivered == was.delivered + Range(was.lastSeq + 1, frame.latestSeq)
          else was.conn.snapshotAccepted || !was.conn.requestsComplete ==>
            lastSeq == was.lastSeq && delivered == was.delivered)
      && if frame.AckFrame? then Answered(was, frame.request, true, false, now) && openings == was.openings
         else if frame.NackFrame? then
           Answered(was, frame.request, false, frame.unresolved, now) && openings == was.openings
         else
           Announces(was, !was.closed && was.link == Link(Open) && !was.transportReady && conn.snapshotAccepted &&
                          conn.receipt.Some? && lastSeq == conn.receipt.value.highWater, now, wire)
    }

    /** A committed or rejected command settles as such; an unresolved one is counted, or given up. */
    ghost predicate Answered(was: ClientState, id: RequestId, committed: bool, unresolved: bool, now: nat)
      reads this
    {
      id in was.pending &&
      var c := was.pending[id];
      if committed || !unresolved then
        && pending == was.pending - {id}
        && books == SettleIn(was.books, c.promise, if committed then Committed else RejectedByServer)
        && conn == was.conn.(leaveCommitted := was.conn.leaveCommitted ||
                                               (committed && c.action == "participant.leave"))
      else
        var (counted, decision) := ScheduleUncertain(c, generation, now);
        conn == was.conn.(failed := decision.Retry?) &&
        if decision.Exhausted?
        then pending == was.pending - {id} && books == SettleIn(was.books, c.promise, UnknownOutcome)
        else pending == was.pending[id := counted.(timerArmed := false)] && books == was.books && Over()
    }

    /** What taking or refusing a frame is. A server whose log ends before this client's asks it to start afresh,
        and the next snapshot is that start. */
    ghost predicate Handled(was: ClientState, frame: Frame, took: bool, ok: bool, now: nat, wire: RequestId -> bool)
      reads this
    {
      && FrameKeeps(was, ok) && ok == took && (ok ==> TakesEffect(was, frame, now, wire))
      && freshSnapshotRequested == AsksFresh(was, frame, conn.snapshotAccepted)
    }

    predicate AsksFresh(was: ClientState, frame: Frame, met: bool) {
      if met && !was.conn.snapshotAccepted then false
      else was.afresh ||
           (was.conn.receipt.None? && frame.Resync? && frame.exact && frame.latestSeq < was.lastSeq)
    }

    /** Receipt, catalog and requests, in this order. */
    method ShakeHands(frame: Frame, now: nat, wire: RequestId -> bool) returns (ok: bool)
      requires Valid() && !frame.TooLarge? && CanUseOpenSocket() && !conn.snapshotAccepted
      requires conn.receipt.None? || !conn.catalog || !conn.requestsComplete
      modifies `conn, `freshSnapshotRequested
      ensures Valid() && Handled(old(State()), frame, old(Takes(frame)), ok, now, wire)
    {
      hide BooksOk, Grows, Contiguous, Opened, Spacing, Accepts, SendsDue, AllRejected;
      GrowsSame(books);
      if conn.receipt.None? {
        ok := TakeReceipt(frame);
      } else if !conn.catalog {
        ok := frame.CatalogFrame? && frame.valid;
        if ok { conn := conn.(catalog := true); }
      } else {
        ok := frame.RequestFrame? && (frame.last || frame.valid);
        if ok && frame.last { conn := conn.(requestsComplete := true); }
      }
    }

    /** The events between the snapshot and the receipt's high-water mark. */
    method CatchUp(frame: Frame, now: nat, wire: RequestId -> bool) returns (ok: bool)
      requires Valid() && At(now) && !frame.TooLarge? && CanUseOpenSocket()
      requires conn.receipt.Some? && conn.catalog && conn.requestsComplete && conn.snapshotAccepted && !conn.established
      modifies this
      ensures Valid() && clock == old(clock) && Handled(old(State()), frame, old(Takes(frame)), ok, now, wire)
    {
      hide BooksOk, Grows, Contiguous, Opened, Spacing, Advance, Range, SendsDue, AllRejected, Kept, OpeningsOk, SentOk,
        SpacingOk, Attended;
      GrowsSame(books);
      ok := false;
      if frame.EventFrame? && frame.wellFormed {
        var news;
        ok, news := AcceptEventFrame(frame.events, frame.latestSeq, Some(conn.receipt.value.highWater));
        if ok { var _ := MarkReady(now, wire); }
      }
    }

    /** Events, answers and what else an established connection is sent. */
    method Live(frame: Frame, now: nat, wire: RequestId -> bool) returns (ok: bool)
      requires Valid() && At(now) && !frame.TooLarge? && !closed && !conn.failed
      requires conn.receipt.Some? && conn.catalog && conn.requestsComplete && conn.snapshotAccepted && conn.established
      modifies `lastSeq, `delivered, `pending, `order, `books, `conn, `link
      ensures Valid() && Handled(old(State()), frame, old(Takes(frame)), ok, now, wire)
    {
      hide BooksOk, Grows, Contiguous, Opened, Spacing, Answered, Advance, Range, SendsDue, AllRejected, Kept,
        OpeningsOk,
        SentOk, SpacingOk, Attended;
      GrowsSame(books);
      ok := false;
      match frame {
        case EventFrame(wellFormed, events, latestSeq) =>
          if wellFormed {
            var news;
            ok, news := AcceptEventFrame(events, latestSeq, None);
          }
        case AckFrame(request, contractOk) =>
          ok := TakeAnswer(request, contractOk, true, false, now);
        case NackFrame(request, contractOk, unresolved) =>
          ok := TakeAnswer(request, contractOk, false, unresolved, now);
        case OtherFrame(allowed) =>
          ok := allowed;
        case _ =>
      }
    }

    method ProcessFrame(frame: Frame, now: nat, wire: RequestId -> bool) returns (ok: bool)
      requires Valid() && At(now) && !closed && !conn.failed && (conn.established || CanUseOpenSocket())
      modifies this
      ensures Valid() && clock == old(clock) && Handled(old(State()), frame, old(Takes(frame)), ok, now, wire)
    {
      hide BooksOk, Grows, Contiguous, Opened, Spacing, Advance, Range, Accepts, SendsDue, AllRejected, Kept,
        OpeningsOk,
        SentOk, SpacingOk, Attended, Handled, Takes, State;
      if frame.TooLarge? {
        Refused(frame, now, wire);
        return false;
      }
      if conn.receipt.None? || !conn.catalog || !conn.requestsComplete {
        ok := ShakeHands(frame, now, wire);
      } else if !conn.snapshotAccepted {
        ok := MeetSnapshot(frame, now, wire);
      } else if !conn.established {
        ok := CatchUp(frame, now, wire);
      } else {
        ok := Live(frame, now, wire);
      }
    }

    /** A frame that is refused at once. */
    lemma Refused(frame: Frame, now: nat, wire: RequestId -> bool)
      requires frame.TooLarge?
      ensures Handled(State(), frame, Takes(frame), false, now, wire)
    {
      GrowsSame(books);
    }

    method MeetSnapshot(frame: Frame, now: nat, wire: RequestId -> bool) returns (ok: bool)
      requires Valid() && At(now) && !frame.TooLarge? && CanUseOpenSocket()
      requires conn.receipt.Some? && conn.catalog && conn.requestsComplete && !conn.snapshotAccepted
      modifies this
      ensures Valid() && clock == old(clock) && Handled(old(State()), frame, old(Takes(frame)), ok, now, wire)
    {
      hide BooksOk, Grows, Contiguous, Opened, Spacing, Accepts, SendsDue, AllRejected, Kept, OpeningsOk, SentOk,
        SpacingOk, Attended, FrameKeeps;
      ok := TakeSnapshot(frame, now, wire);
    }

    /** A frame of connection `g`: old, failed and closed connections are not listened to, and a refused
        frame fails the connection it came on. */
    method Frame(g: nat, frame: Frame, now: nat, wire: RequestId -> bool) returns (ok: bool)
      requires Valid()
      modifies this
      ensures Valid()
      ensures old(closed || g != generation || conn.failed || (!conn.established && !CanUseOpenSocket())) ==>
        ok && unchanged(this)
      ensures !old(closed || g != generation || conn.failed || (!conn.established && !CanUseOpenSocket())) ==>
        (ok <==> old(Takes(frame))) && (ok ==> TakesEffect(old(State()), frame, now, wire)) &&
        clock == Ticked(old(clock), now) &&
        freshSnapshotRequested == AsksFresh(old(State()), frame, conn.snapshotAccepted)
      ensures FrameKeeps(old(State()), ok) && (!ok ==> conn.failed)
    {
      hide BooksOk, Grows, Kept, CursorOk, OpeningsOk, SentOk, SpacingOk, ScheduleUncertain, Advance, Range, Accepts,
        Takes, TakesEffect, AllRejected;
      GrowsSame(books);
      if closed || g != generation || conn.failed || (!conn.established && !CanUseOpenSocket()) {
        return true;
      }
      Tick(now);
      ok := ProcessFrame(frame, now, wire);
      if !ok {
        FailConnection();
      }
    }

    // -------------------------------------------------------------- connecting and closing

    method ScheduleReconnect(g: nat)
      requires Valid() && (g == generation && !closed ==> link.NoLink? && !awaitingTicket)
      modifies `reconnectArmed
      ensures Valid() && reconnectArmed == (old(reconnectArmed) || (!closed && g == generation))
    {
      hide BooksOk, Grows, Contiguous, Opened, Spacing;
      if !closed && g == generation {
        reconnectArmed := true;
      }
    }

    /** The reconnect timer fires: a new connection of its own generation begins. */
    method ReconnectTimerFires()
      requires Valid()
      modifies `reconnectArmed, `generation, `awaitingTicket, `conn
      ensures Valid() && (old(reconnectArmed) <==> generation == old(generation) + 1) && !reconnectArmed
      ensures old(reconnectArmed) ==> awaitingTicket && conn == NEW_CONNECTION
      ensures !old(reconnectArmed) ==>
        generation == old(generation) && awaitingTicket == old(awaitingTicket) && conn == old(conn)
    {
      hide BooksOk, Grows, Contiguous, Opened, Spacing;
      if reconnectArmed {
        BookNext(order, pending, books, generation, accepted, Over(), generation + 1);
        SentBefore(order, pending, books, generation, accepted, Over());
        OpenedLater(openings, generation, transportReady || (link.NoLink? && !awaitingTicket), generation + 1);
        reconnectArmed, generation, awaitingTicket, conn := false, generation + 1, true, NEW_CONNECTION;
      }
    }

    /** The ticket for connection `g` came back, usable or not. */
    method TicketArrives(g: nat, usable: bool)
      requires Valid() && (g == generation && !closed ==> awaitingTicket)
      modifies `awaitingTicket, `link, `transportReady, `reconnectArmed
      ensures Valid() && (closed || g != generation ==> unchanged(this))
      ensures !closed && g == generation ==>
        !awaitingTicket && (if usable then link == Link(Connecting) else link.NoLink? && reconnectArmed)
    {
      hide BooksOk, Grows, Contiguous, Opened, Spacing;
      if closed || g != generation {
        return;
      }
      if usable {
        awaitingTicket, link, transportReady := false, Link(Connecting), false;
      } else {
        BookOver(order, pending, books, generation, accepted, Over());
        OpenedLater(openings, generation, transportReady || (link.NoLink? && !awaitingTicket), generation);
        awaitingTicket := false;
        ScheduleReconnect(g);
      }
    }

    /** The socket opens: subscribe from the verified cursor, or from nothing when a fresh snapshot is due. */
    method SocketOpens(g: nat) returns (resumeFrom: Option<nat>)
      requires Valid()
      modifies `link
      ensures Valid()
      ensures resumeFrom == if old(!closed && g == generation && link == Link(Connecting))
        then Some(if freshSnapshotRequested then 0 else lastSeq) else None
      ensures link == if resumeFrom.Some? then Link(Open) else old(link)
    {
      hide BooksOk, Grows, Contiguous, Opened, Spacing;
      if closed || g != generation || link != Link(Connecting) {
        return None;
      }
      link := Link(Open);
      return Some(if freshSnapshotRequested then 0 else lastSeq);
    }

    /** The network takes the socket down; its close event follows later. */
    method LinkDrops(g: nat, gone: bool)
      requires Valid()
      modifies `link
      ensures Valid() && link == if g != generation || old(link.NoLink?) then old(link)
                                 else Link(if gone || old(link.phase.Closed?) then Closed else Closing)
    {
      hide BooksOk, Grows, Contiguous, Opened, Spacing;
      if g == generation && link.Link? {
        BookOver(order, pending, books, generation, accepted, Over());
        link := Link(if gone || link.phase.Closed? then Closed else Closing);
      }
    }

    method LoseLink(now: nat)
      requires Valid() && At(now) && link.Link?
      modifies `link, `transportReady, `order, `pending, `books
      ensures Valid() && link.NoLink? && !transportReady
      ensures forall id | id in pending :: id in old(pending) && !pending[id].sent
      ensures forall id | id in old(pending) :: AfterClose(old(pending), pending, books, id, generation, now)
      ensures books == old(books).(owner := books.owner, settled := books.settled, settlements := books.settlements)
      ensures Grows(old(books), books)
    {
      hide BooksOk, Grows, Contiguous, Opened, Spacing, CursorOk, ScheduleUncertain, AfterClose, AttendedTo;
      BookOver(order, pending, books, generation, accepted, Over());
      OpenedLater(openings, generation, transportReady, generation);
      order, pending, books := CloseQueue(order, pending, books, generation, accepted, now, clock);
      link, transportReady := NoLink, false;
    }

    /** The socket of connection `g` is closed: what was sent on it waits for the next connection, counted
        once, or is given up. */
    method SocketCloses(g: nat, now: nat)
      requires Valid()
      modifies `link, `transportReady, `order, `pending, `books, `reconnectArmed, `clock
      ensures Valid() && (old(link.NoLink?) || g != generation ==> unchanged(this))
      ensures old(link.Link?) && g == generation ==>
        (link.NoLink? && !transportReady && (forall id | id in pending :: id in old(pending) && !pending[id].sent) &&
         (reconnectArmed <==> !conn.leaveCommitted) &&
         forall id | id in old(pending) :: AfterClose(old(pending), pending, books, id, generation, now))
      ensures books == old(books).(owner := books.owner, settled := books.settled, settlements := books.settlements)
      ensures Grows(old(books), books)
      ensures clock == if old(link.NoLink?) || g != generation then old(clock) else Ticked(old(clock), now)
    {
      hide BooksOk, Grows, Contiguous, Opened, Spacing, AfterClose;
      GrowsSame(books);
      if link.NoLink? || g != generation {
        return;
      }
      Tick(now);
      LoseLink(now);
      if !conn.leaveCommitted {
        ScheduleReconnect(g);
      }
    }

    // -------------------------------------------------------------- deadlines and commands

    /** A command's deadline fires. Unsent, it fails plainly; waiting again after a send, its outcome is
        unknown; sent and unanswered, it is counted as uncertain and the connection is given up. */
    method DeadlineFires(id: RequestId, promise: nat, now: nat)
      requires Valid()
      modifies `pending, `order, `books, `link, `clock
      ensures Valid() && (link == old(link) || link == Link(Closing))
      ensures old(id !in pending || pending[id].promise != promise || !pending[id].timerArmed) ==> unchanged(this)
      ensures old(id in pending && pending[id].promise == promise && pending[id].timerArmed) ==>
        (var c := old(pending[id]);
         if !c.everSent then pending == old(pending) - {id} && books == SettleIn(old(books), promise, NotSent)
         else if !c.sent || ScheduleUncertain(c, generation, now).1.Exhausted?
           then pending == old(pending) - {id} && books == SettleIn(old(books), promise, UnknownOutcome) &&
                (c.sent ==> Over())
           else books == old(books) && Over() &&
                pending == old(pending)[id := ScheduleUncertain(c, generation, now).0.(timerArmed := false)])
      ensures Grows(old(books), books)
      ensures clock == Ticked(old(clock), now) || unchanged(this)
    {
      hide BooksOk, Grows, Contiguous, Opened, Spacing, ScheduleUncertain;
      GrowsSame(books);
      if id !in pending || pending[id].promise != promise || !pending[id].timerArmed {
        return;
      }
      Tick(now);
      if !pending[id].everSent || !pending[id].sent {
        SettleNow(id, if pending[id].everSent then UnknownOutcome else NotSent);
      } else {
        GoesUnanswered(id, now);
      }
    }

    /** A sent command whose deadline has passed is counted as uncertain, or given up, with its connection. */
    method GoesUnanswered(id: RequestId, now: nat)
      requires Valid() && At(now) && id in pending && pending[id].sent && pending[id].everSent
      modifies `pending, `order, `books, `link
      ensures Valid() && (link == old(link) || link == Link(Closing))
      ensures var c := old(pending[id]);
        if ScheduleUncertain(c, generation, now).1.Exhausted?
        then pending == old(pending) - {id} && books == SettleIn(old(books), c.promise, UnknownOutcome)
        else books == old(books) &&
             pending == old(pending)[id := ScheduleUncertain(c, generation, now).0.(timerArmed := false)]
      ensures Over() && Grows(old(books), books)
    {
      hide BooksOk, Grows, Contiguous, Opened, Spacing, ScheduleUncertain, CursorOk;
      GrowsSame(books);
      var c := pending[id];
      BookCount(order, pending, books, generation, accepted, Over(), id, now);
      var (counted, decision) := ScheduleUncertain(c, generation, now);
      if decision.Exhausted? {
        SettleNow(id, UnknownOutcome);
        BookOver(order, pending, books, generation, accepted, Over());
      } else {
        CountSpacing(pending, books, id, generation, now, clock);
        pending := pending[id := counted.(timerArmed := false)];
      }
      if !link.phase.Closed? {
        link := Link(Closing);
      }
    }

    method SettleNow(id: RequestId, outcome: Settlement)
      requires Valid() && id in pending && (outcome.NotSent? ==> !pending[id].everSent)
      modifies `pending, `order, `books
      ensures Valid() && pending == old(pending) - {id}
      ensures books == SettleIn(old(books), old(pending[id].promise), outcome)
      ensures Grows(old(books), books)
    {
      hide BooksOk, Grows, Contiguous, Opened, Spacing;
      BookSettle(order, pending, books, generation, accepted, Over(), id, outcome);
      SpacingLess(pending, books, pending - {id}, SettleIn(books, pending[id].promise, outcome), clock);
      GrowsSettle(books, pending[id].promise, outcome);
      books := SettleIn(books, pending[id].promise, outcome);
      order, pending := Without(order, id), pending - {id};
    }

    /** A command taken on waits under its request with its own bytes, bound to the room lifetime at hand, and goes
        out at once on a ready connection; any other settles its promise at once, with nothing sent. */
    ghost predicate TakesOn(was: ClientState, action: string, allowed: bool, id: Option<RequestId>, encoded: Encoded,
                            replay: bool, now: nat, wire: RequestId -> bool)
      reads this
    {
      if was.closed || !allowed || id.None? || id.value in was.pending then
        && pending == was.pending && order == was.order
        && books.settled == was.books.settled[was.promises := NotSent]
        && books.sends == was.books.sends[was.promises := []]
      else
        var c := Command(was.promises, action, encoded, was.accepted, 0, 0, 0, 0, false, replay, true, false);
        TakenOn(was, id.value, c, replay, now, wire)
    }

    ghost predicate TakenOn(was: ClientState, id: RequestId, c: Command, replay: bool, now: nat,
                            wire: RequestId -> bool)
      reads this
    {
      var issued := IssueIn(was.books, replay).(owner := was.books.owner[was.promises := id]);
      && order == was.order + [id]
      && if was.link == Link(Open) && was.transportReady then SendsDue(order, was.pending[id := c], issued, now, wire)
         else pending == was.pending[id := c] && books == issued
    }

    /** Takes on a command. A replay carries the bytes and the room lifetime of the request whose outcome
        was unknown. Refusals settle the promise at once, with nothing sent. */
    method Enqueue(action: string, allowed: bool, id: Option<RequestId>, encoded: Encoded, replay: bool, now: nat,
                   wire: RequestId -> bool)
      returns (promise: nat)
      requires Valid() && (replay ==> accepted.Some?)
      modifies this
      ensures Valid() && promise == old(promises) && promises == promise + 1
      ensures unchanged(`closed, `generation, `accepted, `lastSeq, `delivered, `openings, `reconnectArmed,
        `awaitingTicket, `transportReady)
      ensures TakesOn(old(State()), action, allowed, id, encoded, replay, now, wire)
      ensures Grows(old(books), books) && clock == Ticked(old(clock), now)
    {
      hide BooksOk, Grows, Contiguous, Opened, Spacing, Kept, CursorOk, OpeningsOk, SentOk, SpacingOk, LinkOk,
        SendsDue;
      Tick(now);
      promise := promises;
      if closed || !allowed || id.None? || id.value in pending {
        RefuseNew();
        return;
      }
      TakeOn(id.value, Command(promise, action, encoded, accepted, 0, 0, 0, 0, false, replay, true, false), replay,
        now, wire);
    }

    method TakeOn(id: RequestId, c: Command, replay: bool, now: nat, wire: RequestId -> bool)
      requires Valid() && At(now) && !closed && id !in pending
      requires c.promise == promises && c.roomUid == accepted && c.everSent == replay && !c.sent
      requires c.transmissionGeneration == 0 && c.retryCounted == 0 && c.retryAttempt == 0
      modifies `pending, `order, `books, `promises, `link, `conn
      ensures Valid() && promises == old(promises) + 1 && TakenOn(old(State()), id, c, replay, now, wire)
      ensures Grows(old(books), books)
    {
      hide BooksOk, Grows, Contiguous, Opened, Spacing, Kept, CursorOk, OpeningsOk, SentOk, SpacingOk, SendsDue;
      Issue(id, c, replay);
      ghost var taken := books;
      SendPending(now, wire);
      GrowsTrans(old(books), taken, books);
    }

    /** The retry timer of a command fires: everything due goes out on a ready connection. */
    method RetryTimerFires(id: RequestId, promise: nat, now: nat, wire: RequestId -> bool)
      requires Valid()
      modifies `pending, `books, `link, `conn, `clock
      ensures Valid() && Grows(old(books), books)
      ensures old(id !in pending || pending[id].promise != promise || !pending[id].retryArmed) ==> unchanged(this)
      ensures old(id in pending && pending[id].promise == promise && pending[id].retryArmed) ==>
        var waiting := old(pending)[id := old(pending[id]).(retryArmed := false)];
        if old(link == Link(Open) && transportReady) then SendsDue(order, waiting, old(books), now, wire)
        else pending == waiting && books == old(books)
      ensures clock == Ticked(old(clock), now) || unchanged(this)
    {
      hide BooksOk, Grows, Contiguous, Opened, Spacing, SendsDue;
      GrowsSame(books);
      if id !in pending || pending[id].promise != promise || !pending[id].retryArmed {
        return;
      }
      Tick(now);
      BookTimer(order, pending, books, generation, accepted, Over(), id, false, clock);
      pending := pending[id := pending[id].(retryArmed := false)];
      SendPending(now, wire);
    }

    /** A command that is not taken on settles its promise at once, with nothing sent. */
    method RefuseNew()
      requires Valid()
      modifies `books, `promises
      ensures Valid() && promises == old(promises) + 1
      ensures books.settled == old(books.settled)[old(promises) := NotSent] && Grows(old(books), books)
      ensures books.sends == old(books.sends)[old(promises) := []]
    {
      hide BooksOk, Grows, Contiguous, Opened, Spacing;
      RefuseSpacing(order, pending, books, generation, accepted, Over(), clock);
      BookRefuse(order, pending, books, generation, accepted, Over());
      GrowsIssue(order, pending, books, generation, accepted, Over(), false, RequestId(""));
      books := IssueIn(books, false).(settled := books.settled[promises := NotSent],
        settlements := books.settlements + 1);
      promises := promises + 1;
    }

    method Issue(id: RequestId, c: Command, replay: bool)
      requires Valid() && !closed && id !in pending
      requires c.promise == promises && c.roomUid == accepted && c.everSent == replay && !c.sent
      requires c.transmissionGeneration == 0 && c.retryCounted == 0 && c.retryAttempt == 0
      modifies `pending, `order, `books, `promises
      ensures Steady() && pending == old(pending)[id := c] && order == old(order) + [id] &&
        promises == old(promises) + 1
      ensures books == IssueIn(old(books), replay).(owner := old(books.owner)[old(promises) := id])
      ensures Grows(old(books), books)
    {
      hide BooksOk, Grows, Contiguous, Opened, Spacing;
      IssueSpacing(order, pending, books, generation, accepted, Over(), id, c, replay, books.owner[promises := id],
        clock);
      BookIssue(order, pending, books, generation, accepted, Over(), id, c, replay);
      GrowsIssue(order, pending, books, generation, accepted, Over(), replay, id);
      books := IssueIn(books, replay).(owner := books.owner[promises := id]);
      pending := pending[id := c];
      order := order + [id];
      promises := promises + 1;
    }

    /** The resend offered with an unknown outcome: the same bytes under the same request, and only in the
        room lifetime the request was first sent in. */
    method ResendUnknown(c: Command, id: RequestId, allowed: bool, now: nat, wire: RequestId -> bool)
      returns (promise: Option<nat>)
      requires Valid()
      modifies this
      ensures Valid() && (promise.Some? <==> c.roomUid.Some? && c.roomUid == old(accepted))
      ensures promise.None? ==> unchanged(this)
      ensures promise.Some? ==> promises == promise.value + 1 && promise.value == old(promises)
      ensures promise.Some? ==> TakesOn(old(State()), c.action, allowed, Some(id), c.encoded, true, now, wire)
      ensures Grows(old(books), books)
      ensures promise.Some? ==> clock == Ticked(old(clock), now)
    {
      hide BooksOk, Grows, Contiguous, Opened, Spacing, TakesOn, Valid;
      GrowsSame(books);
      if c.roomUid.None? || c.roomUid != accepted {
        return None;
      }
      var p := Enqueue(c.action, allowed, Some(id), c.encoded, true, now, wire);
      return Some(p);
    }

    /** The user closes the room: everything that waits settles and nothing can wake the client again. */
    method Close()
      requires Valid()
      modifies this
      ensures Valid() && closed && pending == map[] && link.NoLink? && !transportReady && !reconnectArmed &&
        !awaitingTicket
      ensures lastSeq == old(lastSeq) && delivered == old(delivered) && openings == old(openings)
      ensures books.sends == old(books.sends) && clock == old(clock)
      ensures Grows(old(books), books) && AllRejected(old(pending), books)
    {
      hide BooksOk, Grows, Contiguous, Opened, Spacing, AllRejected;
      RejectAll();
      Silence();
    }

    method Silence()
      requires Valid() && pending == map[]
      modifies `closed, `generation, `transportReady, `link, `reconnectArmed, `awaitingTicket
      ensures Valid() && closed && link.NoLink? && !transportReady && !reconnectArmed && !awaitingTicket
    {
      hide BooksOk, Contiguous, Opened, Spacing;
      BookEmpty(order, books, generation, accepted, Over(), generation + 1, accepted, true);
      OpenedLater(openings, generation, transportReady || (link.NoLink? && !awaitingTicket), generation + 1);
      closed, generation, transportReady, link := true, generation + 1, false, NoLink;
      reconnectArmed, awaitingTicket := false, false;
    }

    // -------------------------------------------------------------- what this means

    /** After any events in any order: events reach the caller gap-free and once; every promise is waiting
        or settled, never both; and each command is sent at most once per connection and eight times in
        all, the same bytes in the same room lifetime, never before its retry time. */
    lemma WhatHolds()
      requires Valid()
      ensures |delivered| == lastSeq - base && forall i | 0 <= i < |delivered| :: delivered[i] == base + 1 + i
      ensures conn.snapshotAccepted ==> conn.receipt.Some? && base == conn.receipt.value.cursor && accepted.Some?
      ensures forall p: nat | p < promises :: p in books.settled <==> p !in books.owner
      ensures forall p | p in books.owner ::
        (books.owner[p] in pending && pending[books.owner[p]].promise == p)
      ensures forall p: nat | p < promises :: p in books.sends && |books.sends[p]| <= 8
      ensures forall p: nat, i, j | p < promises && 0 <= i < j < |books.sends[p]| ::
        books.sends[p][i].generation < books.sends[p][j].generation &&
        books.sends[p][i].encoded == books.sends[p][j].encoded && books.sends[p][i].roomUid == books.sends[p][j].roomUid
      ensures forall p: nat, i | p < promises && 0 <= i < |books.sends[p]| ::
        books.sends[p][i].notBefore <= books.sends[p][i].at
      ensures clock.Some? ==> forall p: nat, i | p < promises && 0 < i < |books.sends[p]| ::
        && books.sends[p][i - 1].attempt < books.sends[p][i].attempt && RetryDelay(books.sends[p][i].attempt).Some?
        && books.sends[p][i - 1].at + RetryDelay(books.sends[p][i].attempt).value <= books.sends[p][i].at
      ensures forall p: nat | p < promises && p in books.settled && books.settled[p].NotSent? :: books.sends[p] == []
      ensures forall id | id in pending :: pending[id].roomUid.None? || pending[id].roomUid == accepted
      ensures forall i | 0 <= i < |openings| ::
        (openings[i].cursor <= openings[i].highWater &&
         openings[i].delivered == Range(openings[i].cursor + 1, openings[i].highWater))
      ensures forall i, j | 0 <= i < j < |openings| :: openings[i].generation < openings[j].generation
      ensures transportReady && CanUseOpenSocket() ==>
        forall id | id in pending :: pending[id].sent || pending[id].retryArmed
    {
      hide Queued, Waiting, LinkOk, SentOk;
      QueueFacts(order, pending, books, generation, accepted, Over());
    }
  }

  lemma QueueFacts(order: seq<RequestId>, pending: map<RequestId, Command>, b: Books, generation: nat,
                   accepted: Option<RoomUid>, over: bool)
    requires BooksOk(order, pending, b, generation, accepted, over)
    ensures forall p | p in b.owner :: p !in b.settled && b.owner[p] in pending && pending[b.owner[p]].promise == p
    ensures forall id | id in pending :: pending[id].roomUid.None? || pending[id].roomUid == accepted
  {
    hide HistoryOk, Truthful;
  }
}
