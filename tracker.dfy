/** The task `receive_minutes` spawns: on every tick it advances a logical clock by the
    current interval, fetches the stop's departures, finds the chosen line and direction,
    works out how long is left, adapts the interval, and either ends the loop or replaces
    its status messages in the chat. Times are whole seconds; a timer tick is one
    iteration, and each iteration consumes the next fetched departure list. */
module Tracker {
  import opened Prelude
  import opened Rust
  import opened Structs
  import opened Telegram
  import opened TransitKey

  /** The outcome of one `get_departures` call. */
  datatype Poll = FetchFailed | Fetched(departures: seq<BusDeparture>)

  /** The variables the task reassigns from one iteration to the next: the logical clock
      `time_now` (seconds), `update_time` (minutes), the last status message
      `msg_clone`, and the two messages of the last position report. */
  datatype Tracking = Tracking(
    timeNow: int,
    updateTime: int,
    lastUpdate: MessageId,
    currLocMsg: Option<MessageId>,
    locMsg: Option<MessageId>)

  /** The state the task starts in: `time_now` one interval before the date of the
      message whose button was pressed, so that the first tick lands on that date, and
      that message as the one the first tick deletes. */
  function Init(date: int, minutes: int, prompt: MessageId): (s: Tracking)
    ensures s.timeNow + 60 * s.updateTime == date
    ensures s.updateTime == minutes && s.lastUpdate == prompt
    ensures s.currLocMsg.None? && s.locMsg.None?
  {
    Tracking(date - 60 * minutes, minutes, prompt, None, None)
  }

  /** What a status message says: "should arrive now" or "arrives in N minutes". */
  datatype Status = ArriveNow | ArrivesIn(minutes: int)

  /** The messages the task sends: a position report, a status, and the final
      "is departuring" message. */
  datatype StatusNotice = Position(at: Location) | Progress(status: Status) | Departing

  /** The index of the first departure with this line name and direction. */
  function FirstMatch(deps: seq<BusDeparture>, name: string, direction: string): (r: Option<nat>)
    ensures r.Some? ==> r.value < |deps| && deps[r.value].name == name && deps[r.value].direction == direction
    decreases |deps|
  {
    if deps == [] then None
    else if deps[0].name == name && deps[0].direction == direction then Some(0)
    else match FirstMatch(deps[1..], name, direction)
      case None => None
      case Some(i) => Some(i + 1)
  }

  /** The match found is the first one, and there is none exactly when no departure
      has both the name and the direction. */
  lemma {:induction false} FirstMatchIsFirst(deps: seq<BusDeparture>, name: string, direction: string)
    ensures var r := FirstMatch(deps, name, direction);
      && (r.Some? ==> forall j :: 0 <= j < r.value ==> !(deps[j].name == name && deps[j].direction == direction))
      && (r.None? <==> forall j :: 0 <= j < |deps| ==> !(deps[j].name == name && deps[j].direction == direction))
    decreases |deps|
  {
    if deps != [] {
      FirstMatchIsFirst(deps[1..], name, direction);
      forall j | 1 <= j < |deps|
        ensures deps[j] == deps[1..][j - 1]
      {
      }
    }
  }

  datatype Lookup = Missing | KeyPanic | Found(departure: BusDeparture)

  function TrackedDeparture(deps: seq<BusDeparture>, key: string): Lookup {
    if deps == [] then Missing
    else match ParseKey(key)
      case None => KeyPanic
      case Some((name, direction)) =>
        match FirstMatch(deps, name, direction)
        case None => Missing
        case Some(i) => Found(deps[i])
  }

  /** The search panics exactly when there are departures and the key cannot be split;
      it finds nothing when the list is empty or no departure has the key's line and
      direction; otherwise it finds the first one that has them. */
  lemma TrackedDepartureCases(deps: seq<BusDeparture>, key: string)
    ensures var r := TrackedDeparture(deps, key);
      && (r.KeyPanic? <==> deps != [] && ParseKey(key).None?)
      && (r.Missing? <==> deps == [] || (ParseKey(key).Some? && FirstMatch(deps, ParseKey(key).value.0, ParseKey(key).value.1).None?))
      && (r.Found? ==> r.departure == deps[FirstMatch(deps, ParseKey(key).value.0, ParseKey(key).value.1).value])
  {
  }


  /** The effective departure: the planned time plus the delay when there is one.
      `None` when the planned time is not a valid timestamp (the `unwrap` panics). */
  function DepartureTime(dep: BusDeparture, parseTime: string -> Option<int>): (r: Option<int>)
    ensures r.Some? <==> parseTime(dep.planned).Some?
    ensures r.Some? && dep.delay.None? ==> r.value == parseTime(dep.planned).value
    ensures r.Some? && dep.delay.Some? ==> r.value == parseTime(dep.planned).value + dep.delay.value
  {
    match parseTime(dep.planned)
    case None => None
    case Some(planned) => Some(planned + dep.delay.GetOr(0))
  }

  /** The interval after the shrink rule: the remaining whole minutes when the interval
      is not 1 and the remainder is positive but smaller than it. */
  function Shrunk(updateTime: int, remaining: int): int {
    if updateTime != 1 && 0 < remaining < updateTime then remaining else updateTime
  }

  /** Deleting last tick's status message and, when there are any, its two position
      messages; `None` when one of the deletions fails. */
  function ClearStatus(chat: Chat, s: Tracking): (r: Option<Chat>)
    ensures r.Some? ==> r.value.next == chat.next
  {
    match Delete(chat, s.lastUpdate)
    case None => None
    case Some(c1) =>
      var c2 := if s.currLocMsg.Some? then Delete(c1, s.currLocMsg.value) else Some(c1);
      if c2.None? then None
      else if s.locMsg.Some? then Delete(c2.value, s.locMsg.value) else c2
  }

  /** One iteration either goes on with new variables, a chat whose status messages were
      replaced and the messages it sent; or leaves the loop (the line is gone or has
      left); or ends the task with an error and no further message. */
  datatype TickOutcome =
    | Continue(next: Tracking, chat: Chat, sent: seq<StatusNotice>)
    | Leave(next: Tracking)
    | Die

  /** One iteration of the loop. With `clearStale` false it is the code as written: a
      tick without a position keeps the ids of the position messages it has just deleted.
      With `clearStale` true those ids are forgotten once deleted. */
  function Tick(key: string, s: Tracking, chat: Chat, poll: Poll, parseTime: string -> Option<int>, clearStale: bool): TickOutcome {
    var now := s.timeNow + 60 * s.updateTime;
    match poll
    case FetchFailed => Die
    case Fetched(deps) =>
      match TrackedDeparture(deps, key)
      case KeyPanic => Die
      case Missing => Leave(s.(timeNow := now))
      case Found(dep) =>
        match DepartureTime(dep, parseTime)
        case None => Die
        case Some(at) => Approach(s, chat, dep.currPosition, now, at, clearStale)
  }

  /** The part of an iteration after the departure time is known: the interval is
      shrunk, the loop is left once the clock is past the departure, and otherwise the
      old status messages are deleted and the new ones sent. */
  function Approach(s: Tracking, chat: Chat, position: Option<Location>, now: int, at: int, clearStale: bool): (t: TickOutcome)
    ensures t.Leave? <==> now > at
    ensures t.Leave? ==> t.next == s.(timeNow := now, updateTime := Shrunk(s.updateTime, Minutes(at - now)))
    ensures t.Die? <==> now <= at && ClearStatus(chat, s).None?
    ensures t.Continue? ==>
      t == Redraw(s, ClearStatus(chat, s).value, position, now, Minutes(at - now), Shrunk(s.updateTime, Minutes(at - now)), clearStale)
  {
    var remaining := Minutes(at - now);
    var interval := Shrunk(s.updateTime, remaining);
    if now > at then Leave(s.(timeNow := now, updateTime := interval))
    else
      match ClearStatus(chat, s)
      case None => Die
      case Some(cleared) => Redraw(s, cleared, position, now, remaining, interval, clearStale)
  }

  /** The end of an iteration that goes on, once the old status messages are deleted:
      a position report when there is a position, then the status. */
  function Redraw(s: Tracking, cleared: Chat, position: Option<Location>, now: int, remaining: int, interval: int,
                  clearStale: bool): (t: TickOutcome)
    ensures t.Continue?
    ensures t.next.timeNow == now && t.next.updateTime == if remaining == 0 then 1 else interval
    ensures t.sent == (if position.Some? then [Position(position.value)] else [])
                      + [Progress(if remaining == 0 then ArriveNow else ArrivesIn(remaining))]
    ensures position.Some? ==>
      && t.next.currLocMsg == Some(cleared.next) && t.next.locMsg == Some(cleared.next + 1)
      && t.next.lastUpdate == cleared.next + 2
      && t.chat == Chat(cleared.visible + {cleared.next, cleared.next + 1, cleared.next + 2}, cleared.next + 3)
    ensures position.None? ==>
      && t.next.currLocMsg == (if clearStale then None else s.currLocMsg)
      && t.next.locMsg == (if clearStale then None else s.locMsg)
      && t.next.lastUpdate == cleared.next
      && t.chat == Chat(cleared.visible + {cleared.next}, cleared.next + 1)
  {
    var (curr, loc, c1, shown) :=
      match position
      case Some(p) =>
        var (a, ca) := Send(cleared);
        var (b, cb) := Send(ca);
        (Some(a), Some(b), cb, [Position(p)])
      case None =>
        if clearStale then (None, None, cleared, [])
        else (s.currLocMsg, s.locMsg, cleared, []);
    var status := if remaining == 0 then ArriveNow else ArrivesIn(remaining);
    var (update, c2) := Send(c1);
    Continue(
      Tracking(now, if remaining == 0 then 1 else interval, update, curr, loc),
      c2,
      shown + [Progress(status)])
  }

  /** How the task ends or where it stands when the fetched lists run out: departed
      (the final message was sent and the conversation is back at its start), died
      without a final message, or still running. `sent` lists what it sent. */
  datatype RunOutcome =
    | Departed(chat: Chat, sent: seq<StatusNotice>)
    | Died(sent: seq<StatusNotice>)
    | Running(state: Tracking, chat: Chat, sent: seq<StatusNotice>)

  function Prefixed(log: seq<StatusNotice>, o: RunOutcome): RunOutcome {
    o.(sent := log + o.sent)
  }

  /** The code after the loop: delete the last status message, then send
      "is departuring". */
  function Finish(s: Tracking, chat: Chat): (o: RunOutcome)
    ensures o.Departed? <==> s.lastUpdate in chat.visible
    ensures o.Departed? ==> o.sent == [Departing]
    ensures o.Died? ==> o.sent == []
  {
    match Delete(chat, s.lastUpdate)
    case None => Died([])
    case Some(c) => Departed(Send(c).1, [Departing])
  }

  /** The loop run over the fetched lists `polls`, one per tick. */
  function Run(key: string, s: Tracking, chat: Chat, polls: seq<Poll>, parseTime: string -> Option<int>, clearStale: bool): RunOutcome
    decreases |polls|
  {
    if polls == [] then Running(s, chat, [])
    else match Tick(key, s, chat, polls[0], parseTime, clearStale)
      case Die => Died([])
      case Leave(next) => Finish(next, chat)
      case Continue(next, c, sent) => Prefixed(sent, Run(key, next, c, polls[1..], parseTime, clearStale))
  }

  /** The messages of the current status: the last status message and the position
      messages, if any. */
  function StatusIds(s: Tracking): set<MessageId> {
    {s.lastUpdate}
    + (if s.currLocMsg.Some? then {s.currLocMsg.value} else {})
    + (if s.locMsg.Some? then {s.locMsg.value} else {})
  }

  /** The status messages the task will delete next are distinct and all still there. */
  ghost predicate Shown(s: Tracking, chat: Chat) {
    && Valid(chat)
    && StatusIds(s) <= chat.visible
    && (s.currLocMsg.Some? ==> s.currLocMsg.value != s.lastUpdate)
    && (s.locMsg.Some? ==> s.locMsg.value != s.lastUpdate)
    && (s.currLocMsg.Some? && s.locMsg.Some? ==> s.currLocMsg.value != s.locMsg.value)
  }

  /** A poll on which the task ends with an error: the fetch failed, the button label
      cannot be split, or the chosen departure's planned time is not a timestamp. */
  ghost predicate Faulty(key: string, poll: Poll, parseTime: string -> Option<int>) {
    || poll.FetchFailed?
    || TrackedDeparture(poll.departures, key).KeyPanic?
    || (TrackedDeparture(poll.departures, key).Found?
        && DepartureTime(TrackedDeparture(poll.departures, key).departure, parseTime).None?)
  }

  /** Every tick that does not die moves the logical clock on by exactly the interval in
      force when it began. */
  lemma TickAdvancesClock(key: string, s: Tracking, chat: Chat, poll: Poll, parseTime: string -> Option<int>, clearStale: bool)
    ensures Tick(key, s, chat, poll, parseTime, clearStale).Continue? ==>
      Tick(key, s, chat, poll, parseTime, clearStale).next.timeNow == s.timeNow + 60 * s.updateTime
    ensures Tick(key, s, chat, poll, parseTime, clearStale).Leave? ==>
      Tick(key, s, chat, poll, parseTime, clearStale).next.timeNow == s.timeNow + 60 * s.updateTime
  {
  }

  /** The loop is left exactly when the chosen line and direction are not in the list,
      or when the clock is past the effective departure. */
  lemma TickExit(key: string, s: Tracking, chat: Chat, poll: Poll, parseTime: string -> Option<int>, clearStale: bool)
    ensures Tick(key, s, chat, poll, parseTime, clearStale).Leave? <==>
      && poll.Fetched?
      && (|| TrackedDeparture(poll.departures, key).Missing?
          || (&& TrackedDeparture(poll.departures, key).Found?
              && DepartureTime(TrackedDeparture(poll.departures, key).departure, parseTime).Some?
              && s.timeNow + 60 * s.updateTime > DepartureTime(TrackedDeparture(poll.departures, key).departure, parseTime).value))
  {
  }

  /** The interval rule on a tick that goes on, with `m` the whole minutes left: the
      interval becomes 1 when `m` is 0, becomes `m` when it was not 1 and `m` is below it,
      and stays as it was otherwise; so it never grows and never drops below 1. */
  lemma IntervalRule(key: string, s: Tracking, chat: Chat, deps: seq<BusDeparture>, dep: BusDeparture, at: int,
                     parseTime: string -> Option<int>, clearStale: bool)
    requires TrackedDeparture(deps, key) == Found(dep) && DepartureTime(dep, parseTime) == Some(at)
    requires Tick(key, s, chat, Fetched(deps), parseTime, clearStale).Continue?
    ensures var m := Minutes(at - (s.timeNow + 60 * s.updateTime));
      Tick(key, s, chat, Fetched(deps), parseTime, clearStale).next.updateTime ==
        if m == 0 then 1 else if s.updateTime != 1 && 0 < m < s.updateTime then m else s.updateTime
    ensures s.updateTime >= 1 ==>
      1 <= Tick(key, s, chat, Fetched(deps), parseTime, clearStale).next.updateTime <= s.updateTime
  {
  }

  /** A tick that goes on reports the departure as due now when less than a minute is
      left, and otherwise as due in the whole minutes left; a position report comes
      first when the API gives the vehicle's position. */
  lemma TickStatus(key: string, s: Tracking, chat: Chat, deps: seq<BusDeparture>, dep: BusDeparture, at: int,
                   parseTime: string -> Option<int>, clearStale: bool)
    requires TrackedDeparture(deps, key) == Found(dep) && DepartureTime(dep, parseTime) == Some(at)
    requires Tick(key, s, chat, Fetched(deps), parseTime, clearStale).Continue?
    ensures var left := at - (s.timeNow + 60 * s.updateTime);
      && 0 <= left
      && Tick(key, s, chat, Fetched(deps), parseTime, clearStale).sent ==
           (if dep.currPosition.Some? then [Position(dep.currPosition.value)] else [])
           + [Progress(if left < 60 then ArriveNow else ArrivesIn(Minutes(left)))]
  {
    var now := s.timeNow + 60 * s.updateTime;
    TickFound(key, s, chat, Fetched(deps), parseTime, clearStale);
    assert Minutes(at - now) == 0 <==> at - now < 60;
  }

  /** Deleting a shown status succeeds and removes exactly its messages. */
  lemma ClearShown(s: Tracking, chat: Chat)
    requires Shown(s, chat)
    ensures ClearStatus(chat, s).Some?
    ensures ClearStatus(chat, s).value.visible == chat.visible - StatusIds(s)
    ensures Valid(ClearStatus(chat, s).value)
  {
    var c1 := Delete(chat, s.lastUpdate);
    assert c1.Some?;
    var c2 := if s.currLocMsg.Some? then Delete(c1.value, s.currLocMsg.value) else c1;
    assert c2.Some?;
    var c3 := if s.locMsg.Some? then Delete(c2.value, s.locMsg.value) else c2;
    assert ClearStatus(chat, s) == c3 && c3.Some?;
  }

  /** A tick that finds the departure dies when its planned time does not parse, and
      is otherwise the approach to its effective departure time. */
  lemma TickFound(key: string, s: Tracking, chat: Chat, poll: Poll, parseTime: string -> Option<int>, clearStale: bool)
    requires poll.Fetched? && TrackedDeparture(poll.departures, key).Found?
    ensures var dep := TrackedDeparture(poll.departures, key).departure;
      Tick(key, s, chat, poll, parseTime, clearStale) ==
        if DepartureTime(dep, parseTime).None? then Die
        else Approach(s, chat, dep.currPosition, s.timeNow + 60 * s.updateTime, DepartureTime(dep, parseTime).value, clearStale)
  {
  }

  /** With stale ids forgotten, a tick never fails on a deletion, and one that goes on
      leaves the chat showing exactly the new status in place of the old one. */
  lemma TickReplacesStatus(key: string, s: Tracking, chat: Chat, poll: Poll, parseTime: string -> Option<int>)
    requires Shown(s, chat)
    ensures Tick(key, s, chat, poll, parseTime, true).Die? ==> Faulty(key, poll, parseTime)
    ensures Tick(key, s, chat, poll, parseTime, true).Continue? ==>
      var t := Tick(key, s, chat, poll, parseTime, true);
      && Shown(t.next, t.chat)
      && StatusIds(t.next) !! chat.visible
      && t.chat.visible == (chat.visible - StatusIds(s)) + StatusIds(t.next)
  {
    match poll
    case FetchFailed =>
    case Fetched(deps) =>
      match TrackedDeparture(deps, key)
      case KeyPanic =>
      case Missing =>
      case Found(dep) =>
        match DepartureTime(dep, parseTime)
        case None =>
        case Some(at) =>
          var now := s.timeNow + 60 * s.updateTime;
          var t := Approach(s, chat, dep.currPosition, now, at, true);
          assert Tick(key, s, chat, poll, parseTime, true) == t;
          ClearShown(s, chat);
          if t.Continue? {
            var cleared := ClearStatus(chat, s).value;
            RedrawReplaces(s, cleared, dep.currPosition, now, Minutes(at - now), Shrunk(s.updateTime, Minutes(at - now)));
          }
  }

  /** Redrawing with the stale ids forgotten shows a status of fresh messages. */
  lemma RedrawReplaces(s: Tracking, cleared: Chat, position: Option<Location>, now: int, remaining: int, interval: int)
    requires Valid(cleared)
    ensures var t := Redraw(s, cleared, position, now, remaining, interval, true);
      && Shown(t.next, t.chat)
      && (forall id :: id in StatusIds(t.next) ==> id >= cleared.next)
      && t.chat.visible == cleared.visible + StatusIds(t.next)
  {
    var t := Redraw(s, cleared, position, now, remaining, interval, true);
    if position.Some? {
      assert StatusIds(t.next) == {cleared.next, cleared.next + 1, cleared.next + 2};
    } else {
      assert StatusIds(t.next) == {cleared.next};
    }
  }

  /** As written, a tick after one with a position report whose own departure has no
      position keeps the ids of the position messages it deleted; the next tick that
      gets as far as redrawing deletes them again, and that deletion fails and ends the
      task. With the ids forgotten, the same tick goes on. */
  lemma StalePositionDeleteFails(key: string, s: Tracking, chat: Chat, deps1: seq<BusDeparture>, dep1: BusDeparture,
                                 deps2: seq<BusDeparture>, dep2: BusDeparture, at2: int, parseTime: string -> Option<int>)
    requires Shown(s, chat) && s.currLocMsg.Some?
    requires TrackedDeparture(deps1, key) == Found(dep1) && dep1.currPosition.None?
    requires Tick(key, s, chat, Fetched(deps1), parseTime, false).Continue?
    requires TrackedDeparture(deps2, key) == Found(dep2) && DepartureTime(dep2, parseTime) == Some(at2)
    requires var s1 := Tick(key, s, chat, Fetched(deps1), parseTime, false).next;
      s1.timeNow + 60 * s1.updateTime <= at2
    ensures var t1 := Tick(key, s, chat, Fetched(deps1), parseTime, false);
      Tick(key, t1.next, t1.chat, Fetched(deps2), parseTime, false) == Die
    ensures var u1 := Tick(key, s, chat, Fetched(deps1), parseTime, true);
      u1.Continue? && Tick(key, u1.next, u1.chat, Fetched(deps2), parseTime, true).Continue?
  {
    ClearShown(s, chat);
    var cleared := ClearStatus(chat, s).value;
    var now1 := s.timeNow + 60 * s.updateTime;
    var at1 := DepartureTime(dep1, parseTime).value;
    var m1 := Minutes(at1 - now1);
    TickFound(key, s, chat, Fetched(deps1), parseTime, false);
    TickFound(key, s, chat, Fetched(deps1), parseTime, true);
    var t1 := Redraw(s, cleared, None, now1, m1, Shrunk(s.updateTime, m1), false);
    var u1 := Redraw(s, cleared, None, now1, m1, Shrunk(s.updateTime, m1), true);
    assert Tick(key, s, chat, Fetched(deps1), parseTime, false) == t1;
    assert Tick(key, s, chat, Fetched(deps1), parseTime, true) == u1;
    StaleDeleteFails(s, cleared, t1.next, t1.chat);
    TickFound(key, t1.next, t1.chat, Fetched(deps2), parseTime, false);
    RedrawReplaces(s, cleared, None, now1, m1, Shrunk(s.updateTime, m1));
    TickReplacesStatus(key, u1.next, u1.chat, Fetched(deps2), parseTime);
    TickFound(key, u1.next, u1.chat, Fetched(deps2), parseTime, true);
  }

  /** Once the position messages are gone, deleting the status that still names them
      fails. */
  lemma StaleDeleteFails(s: Tracking, cleared: Chat, next: Tracking, chat: Chat)
    requires Valid(cleared)
    requires s.currLocMsg.Some? && s.currLocMsg.value !in cleared.visible && s.currLocMsg.value != cleared.next
    requires next.currLocMsg == s.currLocMsg && next.lastUpdate == cleared.next
    requires chat == Chat(cleared.visible + {cleared.next}, cleared.next + 1)
    ensures ClearStatus(chat, next).None?
  {
    var c1 := Delete(chat, next.lastUpdate);
    assert c1.Some? && c1.value.visible == cleared.visible;
  }

  /** A task still running has an interval between 1 and `bound`. */
  predicate IntervalWithin(o: RunOutcome, bound: int) {
    o.Running? ==> 1 <= o.state.updateTime <= bound
  }

  /** While the task runs, the interval stays between 1 and the one it started with. */
  lemma {:induction false} RunKeepsIntervalBounds(key: string, s: Tracking, chat: Chat, polls: seq<Poll>,
                                                  parseTime: string -> Option<int>, clearStale: bool)
    requires s.updateTime >= 1
    ensures IntervalWithin(Run(key, s, chat, polls, parseTime, clearStale), s.updateTime)
    decreases |polls|
  {
    if polls != [] {
      RunStep(key, s, chat, polls, parseTime, clearStale);
      TickKeepsInterval(key, s, chat, polls[0], parseTime, clearStale);
      var t := Tick(key, s, chat, polls[0], parseTime, clearStale);
      if t.Continue? {
        RunKeepsIntervalBounds(key, t.next, t.chat, polls[1..], parseTime, clearStale);
        var rest := Run(key, t.next, t.chat, polls[1..], parseTime, clearStale);
        assert Prefixed(t.sent, rest).Running? ==> Prefixed(t.sent, rest).state == rest.state;
      }
    }
  }

  /** A tick that goes on keeps the interval between 1 and the one in force. */
  lemma TickKeepsInterval(key: string, s: Tracking, chat: Chat, poll: Poll, parseTime: string -> Option<int>, clearStale: bool)
    requires s.updateTime >= 1
    ensures var t := Tick(key, s, chat, poll, parseTime, clearStale);
      t.Continue? ==> 1 <= t.next.updateTime <= s.updateTime
  {
    if poll.Fetched? && TrackedDeparture(poll.departures, key).Found? {
      var dep := TrackedDeparture(poll.departures, key).departure;
      if DepartureTime(dep, parseTime).Some? && Tick(key, s, chat, poll, parseTime, clearStale).Continue? {
        IntervalRule(key, s, chat, poll.departures, dep, DepartureTime(dep, parseTime).value, parseTime, clearStale);
      }
    }
  }

  /** "is departuring" is the last message sent and is sent once when the task departs,
      and is not sent otherwise. */
  predicate DepartingLast(o: RunOutcome) {
    if o.Departed? then o.sent != [] && o.sent[|o.sent| - 1] == Departing && Departing !in o.sent[..|o.sent| - 1]
    else Departing !in o.sent
  }

  /** The task sends "is departuring" only as its very last message, once, and only
      when it departs; a task that died or still runs has not sent it. */
  lemma {:induction false} RunTerminalNotice(key: string, s: Tracking, chat: Chat, polls: seq<Poll>,
                                             parseTime: string -> Option<int>, clearStale: bool)
    ensures DepartingLast(Run(key, s, chat, polls, parseTime, clearStale))
    decreases |polls|
  {
    if polls != [] {
      RunStep(key, s, chat, polls, parseTime, clearStale);
      TickSends(key, s, chat, polls[0], parseTime, clearStale);
      var t := Tick(key, s, chat, polls[0], parseTime, clearStale);
      if t.Continue? {
        RunTerminalNotice(key, t.next, t.chat, polls[1..], parseTime, clearStale);
        LastOnly(t.sent, Run(key, t.next, t.chat, polls[1..], parseTime, clearStale));
      }
    }
  }

  lemma LastOnly(sent: seq<StatusNotice>, o: RunOutcome)
    requires Departing !in sent && DepartingLast(o)
    ensures DepartingLast(Prefixed(sent, o))
  {
    if o.Departed? {
      assert (sent + o.sent)[..|sent + o.sent| - 1] == sent + o.sent[..|o.sent| - 1];
    }
  }

  /** A tick that goes on sends status messages only. */
  lemma TickSends(key: string, s: Tracking, chat: Chat, poll: Poll, parseTime: string -> Option<int>, clearStale: bool)
    ensures var t := Tick(key, s, chat, poll, parseTime, clearStale);
      t.Continue? ==> Departing !in t.sent
  {
    if poll.Fetched? && TrackedDeparture(poll.departures, key).Found? {
      var dep := TrackedDeparture(poll.departures, key).departure;
      if DepartureTime(dep, parseTime).Some? {
        TickFound(key, s, chat, poll, parseTime, clearStale);
      }
    }
  }

  /** A single list without the chosen line and direction ends the loop: the last
      status message is deleted and "is departuring" is sent. */
  lemma SingleMissEnds(key: string, s: Tracking, chat: Chat, polls: seq<Poll>, parseTime: string -> Option<int>,
                        clearStale: bool)
    requires s.lastUpdate in chat.visible
    requires polls != [] && polls[0].Fetched? && TrackedDeparture(polls[0].departures, key).Missing?
    ensures Run(key, s, chat, polls, parseTime, clearStale) ==
      Departed(Send(Chat(chat.visible - {s.lastUpdate}, chat.next)).1, [Departing])
  {
  }

  /** With stale ids forgotten, the task dies only on a faulty poll: a failed fetch, a
      label that cannot be split, or a planned time that is not a timestamp. */
  lemma {:induction false} RunDiesOnlyOnFault(key: string, s: Tracking, chat: Chat, polls: seq<Poll>,
                                              parseTime: string -> Option<int>)
    requires Shown(s, chat)
    requires forall i :: 0 <= i < |polls| ==> !Faulty(key, polls[i], parseTime)
    ensures !Run(key, s, chat, polls, parseTime, true).Died?
    decreases |polls|
  {
    if polls != [] {
      TickReplacesStatus(key, s, chat, polls[0], parseTime);
      var t := Tick(key, s, chat, polls[0], parseTime, true);
      if t.Continue? {
        RunDiesOnlyOnFault(key, t.next, t.chat, polls[1..], parseTime);
      } else if t.Leave? {
        assert t.next.lastUpdate == s.lastUpdate;
      }
    }
  }

  /** One iteration of the spawned task's loop, with the position ids forgotten once
      deleted. */
  method TrackingTick(key: string, s: Tracking, chat: Chat, poll: Poll, parseTime: string -> Option<int>,
                     clearStale: bool)
    returns (t: TickOutcome)
    ensures t == Tick(key, s, chat, poll, parseTime, clearStale)
  {
    var timeNow := s.timeNow + 60 * s.updateTime;
    if poll.FetchFailed? {
      return Die;
    }
    var found := TrackedDeparture(poll.departures, key);
    if found.KeyPanic? {
      t := Die;
    } else if found.Missing? {
      t := Leave(s.(timeNow := timeNow));
    } else {
      t := FoundStep(s, chat, found.departure, timeNow, parseTime, clearStale);
      TickFound(key, s, chat, poll, parseTime, clearStale);
    }
  }

  /** An iteration once the departure is found: its planned time is parsed and the
      delay added; a planned time that does not parse ends the task. */
  method FoundStep(s: Tracking, chat: Chat, dep: BusDeparture, timeNow: int, parseTime: string -> Option<int>,
                  clearStale: bool)
    returns (t: TickOutcome)
    ensures t == if DepartureTime(dep, parseTime).None? then Die
                 else Approach(s, chat, dep.currPosition, timeNow, DepartureTime(dep, parseTime).value, clearStale)
  {
    var planned := parseTime(dep.planned);
    if planned.None? {
      return Die;
    }
    var at := planned.value;
    if dep.delay.Some? {
      at := at + dep.delay.value;
    }
    t := ApproachStep(s, chat, dep.currPosition, timeNow, at, clearStale);
  }


  /** The part of an iteration after the departure time is known. */
  method ApproachStep(s: Tracking, chat: Chat, position: Option<Location>, timeNow: int, at: int,
                      clearStale: bool)
    returns (t: TickOutcome)
    ensures t == Approach(s, chat, position, timeNow, at, clearStale)
  {
    var remaining := Minutes(at - timeNow);
    var updateTime := s.updateTime;
    if updateTime != 1 && remaining > 0 && remaining < updateTime {
      updateTime := remaining;
    }
    if timeNow > at {
      return Leave(s.(timeNow := timeNow, updateTime := updateTime));
    }
    var cleared := DeleteStatus(s, chat);
    if cleared.None? {
      return Die;
    }
    t := SendStatus(s, cleared.value, position, timeNow, remaining, updateTime, clearStale);
  }

  /** Deleting last tick's status message, then the two position messages when there
      are any; `None` as soon as a deletion fails. */
  method DeleteStatus(s: Tracking, chat: Chat) returns (r: Option<Chat>)
    ensures r == ClearStatus(chat, s)
  {
    var deleted := Delete(chat, s.lastUpdate);
    if deleted.None? {
      return None;
    }
    var c := deleted.value;
    if s.currLocMsg.Some? {
      deleted := Delete(c, s.currLocMsg.value);
      if deleted.None? {
        return None;
      }
      c := deleted.value;
    }
    if s.locMsg.Some? {
      deleted := Delete(c, s.locMsg.value);
      if deleted.None? {
        return None;
      }
      c := deleted.value;
    }
    return Some(c);
  }

  /** Sending the position report when there is a position and then the status, and
      forgetting the old position messages otherwise; the interval is pinned to 1 when
      no whole minute is left. */
  method SendStatus(s: Tracking, cleared: Chat, position: Option<Location>, timeNow: int, remaining: int, interval: int,
                    clearStale: bool)
    returns (t: TickOutcome)
    ensures t == Redraw(s, cleared, position, timeNow, remaining, interval, clearStale)
  {
    var c := cleared;
    var currLocMsg, locMsg := s.currLocMsg, s.locMsg;
    if clearStale {
      currLocMsg, locMsg := None, None;
    }
    var shown: seq<StatusNotice> := [];
    if position.Some? {
      var (a, ca) := Send(c);
      var (b, cb) := Send(ca);
      currLocMsg, locMsg, c := Some(a), Some(b), cb;
      shown := [Position(position.value)];
    }
    var updateTime := interval;
    if remaining == 0 {
      updateTime := 1;
    }
    var status := if remaining == 0 then ArriveNow else ArrivesIn(remaining);
    var (update, cu) := Send(c);
    t := Continue(Tracking(timeNow, updateTime, update, currLocMsg, locMsg), cu, shown + [Progress(status)]);
  }

  lemma PrefixedTwice(log: seq<StatusNotice>, sent: seq<StatusNotice>, o: RunOutcome)
    ensures Prefixed(log, Prefixed(sent, o)) == Prefixed(log + sent, o)
  {
    assert log + (sent + o.sent) == (log + sent) + o.sent;
  }

  /** The loop unrolled by one iteration. */
  lemma RunStep(key: string, s: Tracking, chat: Chat, polls: seq<Poll>, parseTime: string -> Option<int>, clearStale: bool)
    requires polls != []
    ensures var t := Tick(key, s, chat, polls[0], parseTime, clearStale);
      && (t.Die? ==> Run(key, s, chat, polls, parseTime, clearStale) == Died([]))
      && (t.Leave? ==> Run(key, s, chat, polls, parseTime, clearStale) == Finish(t.next, chat))
      && (t.Continue? ==>
            Run(key, s, chat, polls, parseTime, clearStale) ==
            Prefixed(t.sent, Run(key, t.next, t.chat, polls[1..], parseTime, clearStale)))
  {
  }

  /** The spawned task, with the position ids forgotten once deleted: the logical clock
      starts one interval before the prompt's date, each iteration consumes one fetched
      list, and the code after the loop runs once the line is gone or has left. */
  method TrackDeparture(key: string, date: int, minutes: int, prompt: MessageId, chat: Chat, polls: seq<Poll>,
                        parseTime: string -> Option<int>, clearStale: bool)
    returns (outcome: RunOutcome)
    ensures outcome == Run(key, Init(date, minutes, prompt), chat, polls, parseTime, clearStale)
  {
    var s := Tracking(date - 60 * minutes, minutes, prompt, None, None);
    var c := chat;
    var log: seq<StatusNotice> := [];
    var rest := polls;
    while rest != []
      invariant Run(key, Init(date, minutes, prompt), chat, polls, parseTime, clearStale) ==
                Prefixed(log, Run(key, s, c, rest, parseTime, clearStale))
      decreases |rest|
    {
      RunStep(key, s, c, rest, parseTime, clearStale);
      var t := TrackingTick(key, s, c, rest[0], parseTime, clearStale);
      if t.Die? {
        return Died(log);
      } else if t.Leave? {
        var deleted := Delete(c, t.next.lastUpdate);
        if deleted.None? {
          return Died(log);
        }
        var (_, cd) := Send(deleted.value);
        return Departed(cd, log + [Departing]);
      }
      PrefixedTwice(log, t.sent, Run(key, t.next, t.chat, rest[1..], parseTime, clearStale));
      s, c, log, rest := t.next, t.chat, log + t.sent, rest[1..];
    }
    return Running(s, c, log);
  }
}
