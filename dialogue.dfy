/** The conversation of `main.rs`: the `State` of one chat, the updates it receives, the
    handlers that answer them and the routing that picks a handler for each pair of
    state and update. A handler's run is a `Step`: the state the dialogue is left in, the
    replies sent and what it asks of the profile store or the task registry. A handler
    that fails (an `Err` passed on by `?`, or a panic) leaves the state as it was. */
module Dialogue {
  import opened Prelude
  import opened Rust
  import opened Structs
  import opened Store
  import opened Keyboard
  import opened TransitKey
  import opened Telegram

  /** The `State` enum; `Start` is the default a dialogue is in before its first update
      and after `dialogue.exit()`. */
  datatype State =
    | Start
    | ReceiveCity
    | ReceiveAddress(city: string)
    | ReceiveStop(city: string, addr: string, stations: seq<Station>)
    | ReceiveTransit(city: string, addr: string, stations: seq<Station>, stop: string, stopId: string)
    | ReceiveMinutes(city: string, addr: string, stations: seq<Station>, stop: string, stopId: string, transit: string)
    | ReceiveCancel

  /** The `Command` enum: `/help`, `/start` and `/cancel`. */
  datatype Command = HelpCommand | StartCommand | CancelCommand

  /** What a message carries: a text that parses as one of the commands (the whole text
      is kept, since a handler reached by fall-through reads it as plain text), any other
      text, a location (its coordinates as `f64::to_string` renders them), or neither. */
  datatype Content =
    | CommandText(command: Command, text: string)
    | Text(text: string)
    | Place(lat: string, lon: string)
    | NoContent

  /** The message a callback's button belonged to: its id and its date in seconds. */
  datatype Prompt = Prompt(id: MessageId, date: int)

  /** An update from `user`: a message, or a button press with its callback data. */
  datatype Event =
    | Message(user: string, content: Content)
    | Callback(user: string, data: Option<string>, prompt: Prompt)

  /** One line of the departure overview: line, direction, planned time (shown as
      hours and minutes) and the delay label. */
  datatype DepartureLine = DepartureLine(name: string, direction: string, planned: int, delay: string)

  /** The kinds of message the handlers send or edit in. */
  datatype Notice =
    | HelpText
    | Unhandled
    | Cancelled
    | AskCity
    | CityMissing
    | AskAddress(city: string)
    | AddressMissing
    | LastAddress(addr: string, city: string)
    | AddressConfirmed(addr: string, city: string)
    | AskNewAddress
    | NoDepartures
    | DepartureInfo(stop: string, lines: seq<DepartureLine>)
    | SelectTransit
    | AskMinutes
    | TimerSet(minutes: int)

  datatype Reply = Reply(notice: Notice, keyboard: Markup)

  /** What `receive_minutes` hands to the task it spawns. */
  datatype Session = Session(user: string, stop: string, stopId: string, transit: string, minutes: int, prompt: Prompt)

  /** What a handler asks beyond the dialogue: store a profile, register a new tracking
      task for the user, or abort and remove the user's task. */
  datatype Effect = Keep | SaveProfile(profile: UserData) | Spawn(session: Session) | Abort(user: string)

  datatype Step = Step(next: State, replies: seq<Reply>, effect: Effect)

  /** The HTTP lookups and the timestamp parser, as the handlers see them:
      `get_nearby_stations(lat, lon)`, `get_departures(stop_id)`,
      `fetch_geocode(addr, city)`, `fetch_address(lat, lon)` and RFC 3339 parsing. */
  datatype Services = Services(
    nearby: (string, string) -> Result<seq<Station>>,
    departures: string -> Result<seq<BusDeparture>>,
    geocode: (string, string) -> Result<(string, string)>,
    address: (string, string) -> Result<string>,
    parseTime: string -> Option<int>)

  /** The label of the last station button. */
  const CHANGE_ADDRESS := "<< Change address"

  /** The labels of the interval buttons. */
  const MINUTE_CHOICES := ["1", "2", "3"]

  /** A failed handler: the state stays, nothing more is sent. */
  function Stay(s: State): (step: Step)
    ensures step.next == s && step.replies == [] && step.effect == Keep
  {
    Step(s, [], Keep)
  }

  function StationNames(stations: seq<Station>): (names: seq<string>)
    ensures |names| == |stations|
    ensures forall i :: 0 <= i < |stations| ==> names[i] == stations[i].name
  {
    seq(|stations|, i requires 0 <= i < |stations| => stations[i].name)
  }

  /** The station keyboard: the station names in order, then `<< Change address`, two
      per row. */
  function StationMenu(stations: seq<Station>): Markup {
    Layout(StationNames(stations) + [CHANGE_ADDRESS], 2)
  }

  /** The text of a message, `msg.text()`; a command is text too. */
  function TextOf(content: Content): (t: Option<string>)
    ensures t.Some? <==> content.CommandText? || content.Text?
  {
    match content
    case CommandText(_, text) => Some(text)
    case Text(text) => Some(text)
    case _ => None
  }

  /** The delay shown after a departure: nothing without a delay or with a zero delay,
      otherwise ` (+N)` with N the delay in seconds divided by 60 toward zero. */
  function DelayLabel(delay: Option<int>): (text: string)
    ensures text == "" <==> delay.None? || delay == Some(0)
  {
    match delay
    case None => ""
    case Some(d) => if d == 0 then "" else " (+" + DecimalString(TruncDiv(d, 60)) + ")"
  }

  /** A non-empty delay label reads back as the delay's whole minutes. */
  lemma DelayLabelMinutes(d: int)
    requires d != 0 && InI64(d)
    ensures var text := DelayLabel(Some(d));
      && |text| >= 4 && text[..3] == " (+" && text[|text| - 1] == ')'
      && ParseI64(text[3..|text| - 1]) == Some(TruncDiv(d, 60))
  {
    var m := TruncDiv(d, 60);
    assert InI64(m);
    DecimalRoundTrip(m);
    var text := DelayLabel(Some(d));
    assert text[3..|text| - 1] == DecimalString(m);
  }

  /** The overview lines of the departures, or `None` when a planned time does not
      parse (the `unwrap` panics). */
  function Lines(deps: seq<BusDeparture>, parseTime: string -> Option<int>): (r: Option<seq<DepartureLine>>)
    ensures r.Some? <==> forall i :: 0 <= i < |deps| ==> parseTime(deps[i].planned).Some?
    ensures r.Some? ==> |r.value| == |deps|
    ensures r.Some? ==> forall i :: 0 <= i < |deps| ==>
      r.value[i] == DepartureLine(deps[i].name, deps[i].direction, parseTime(deps[i].planned).value, DelayLabel(deps[i].delay))
    decreases |deps|
  {
    if deps == [] then Some([])
    else match parseTime(deps[0].planned)
      case None => None
      case Some(at) =>
        match Lines(deps[1..], parseTime)
        case None => None
        case Some(rest) =>
          Some([DepartureLine(deps[0].name, deps[0].direction, at, DelayLabel(deps[0].delay))] + rest)
  }

  /** The transit button labels, one key per departure in order. */
  function Keys(deps: seq<BusDeparture>): (keys: seq<string>)
    ensures |keys| == |deps|
    ensures forall i :: 0 <= i < |deps| ==> keys[i] == DepartureKey(deps[i].name, deps[i].direction)
  {
    seq(|deps|, i requires 0 <= i < |deps| => DepartureKey(deps[i].name, deps[i].direction))
  }

  /** The loop of `receive_stop` that builds the overview and the button labels,
      stopping at the first planned time that does not parse. */
  method FormatDepartures(deps: seq<BusDeparture>, parseTime: string -> Option<int>)
    returns (r: Option<(seq<DepartureLine>, seq<string>)>)
    ensures r.Some? <==> Lines(deps, parseTime).Some?
    ensures r.Some? ==> r.value.0 == Lines(deps, parseTime).value && r.value.1 == Keys(deps)
  {
    var info: seq<DepartureLine> := [];
    var names: seq<string> := [];
    for i := 0 to |deps|
      invariant |info| == i && |names| == i
      invariant forall k :: 0 <= k < i ==> parseTime(deps[k].planned).Some?
      invariant forall k :: 0 <= k < i ==>
        info[k] == DepartureLine(deps[k].name, deps[k].direction, parseTime(deps[k].planned).value, DelayLabel(deps[k].delay))
      invariant forall k :: 0 <= k < i ==> names[k] == DepartureKey(deps[k].name, deps[k].direction)
    {
      var time := parseTime(deps[i].planned);
      if time.None? {
        return None;
      }
      info := info + [DepartureLine(deps[i].name, deps[i].direction, time.value, DelayLabel(deps[i].delay))];
      names := names + [DepartureKey(deps[i].name, deps[i].direction)];
    }
    return Some((info, names));
  }

  /** The index of the first station whose name starts with `stop`. */
  function FirstWithPrefix(stations: seq<Station>, stop: string): (r: Option<nat>)
    ensures r.Some? ==> r.value < |stations| && StartsWith(stations[r.value].name, stop)
    ensures r.Some? ==> forall j :: 0 <= j < r.value ==> !StartsWith(stations[j].name, stop)
    ensures r.None? <==> forall j :: 0 <= j < |stations| ==> !StartsWith(stations[j].name, stop)
    decreases |stations|
  {
    if stations == [] then None
    else if StartsWith(stations[0].name, stop) then Some(0)
    else match FirstWithPrefix(stations[1..], stop)
      case None => None
      case Some(i) => Some(i + 1)
  }

  /** The station picked for a pressed button: the pressed station itself unless an
      earlier station's name starts with the pressed one's name. */
  lemma PressedStationChosen(stations: seq<Station>, k: nat)
    requires k < |stations|
    requires forall j :: 0 <= j < k ==> !StartsWith(stations[j].name, stations[k].name)
    ensures FirstWithPrefix(stations, stations[k].name) == Some(k)
  {
    var r := FirstWithPrefix(stations, stations[k].name);
    assert StartsWith(stations[k].name, stations[k].name);
    assert r.Some?;
    assert !(r.value < k) && !(k < r.value);
  }

  /** `help`: the command list; the state stays. */
  function Help(s: State): Step {
    Step(s, [Reply(HelpText, [])], Keep)
  }

  /** `invalid_state`: the hint to type /help; the state stays. */
  function InvalidState(s: State): Step {
    Step(s, [Reply(Unhandled, [])], Keep)
  }

  /** `cancel` and `receive_cancel`: the user's task is aborted and removed, a
      cancellation notice is sent, and the dialogue exits. */
  function CancelFor(user: string): (step: Step) {
    Step(Start, [Reply(Cancelled, [])], Abort(user))
  }

  /** `start`: with a stored profile, the stations near its coordinates are offered;
      without one, the city is asked for. */
  function HandleStart(s: State, user: string, users: UserFile, svc: Services): Step {
    match GetUserData(users, user)
    case Ok(data) =>
      (match svc.nearby(data.lat, data.lon)
       case Err(_) => Stay(s)
       case Ok(stations) =>
         Step(ReceiveStop(data.city, data.addr, stations), [Reply(LastAddress(data.addr, data.city), StationMenu(stations))], Keep))
    case Err(_) =>
      Step(ReceiveCity, [Reply(AskCity, [])], Keep)
  }

  /** `receive_city`: any text is taken as the city. */
  function HandleCity(s: State, content: Content): Step {
    match TextOf(content)
    case Some(city) => Step(ReceiveAddress(city), [Reply(AskAddress(city), [])], Keep)
    case None => Step(s, [Reply(CityMissing, [])], Keep)
  }

  /** `receive_address`: a location is turned into an address, a text into
      coordinates; then the nearby stations are fetched, the profile stored and the
      stations offered. */
  function HandleAddress(s: State, city: string, user: string, content: Content, svc: Services): Step {
    if content.NoContent? then Step(s, [Reply(AddressMissing, [])], Keep)
    else
      var located: Result<(string, (string, string))> :=
        if content.Place? then
          match svc.address(content.lat, content.lon)
          case Err(f) => Err(f)
          case Ok(addr) => Ok((addr, (content.lat, content.lon)))
        else
          var addr := TextOf(content).value;
          match svc.geocode(addr, city)
          case Err(f) => Err(f)
          case Ok(geocode) => Ok((addr, geocode));
      match located
      case Err(_) => Stay(s)
      case Ok((addr, (lat, lon))) =>
        match svc.nearby(lat, lon)
        case Err(_) => Stay(s)
        case Ok(stations) =>
          Step(ReceiveStop(city, addr, stations),
               [Reply(AddressConfirmed(addr, city), StationMenu(stations))],
               SaveProfile(UserData(user, city, addr, lat, lon)))
  }

  /** `receive_stop`: `<<` goes back to asking for an address; any other data picks the
      first station whose name starts with it (none: the `unwrap` panics), fetches its
      departures, and exits when there are none or shows them and offers one button per
      departure. */
  function HandleStop(s: State, data: Option<string>, svc: Services): Step
    requires s.ReceiveStop?
  {
    match data
    case None => Stay(s)
    case Some(stop) =>
      if StartsWith(stop, "<<") then Step(ReceiveAddress(s.city), [Reply(AskNewAddress, [])], Keep)
      else match FirstWithPrefix(s.stations, stop)
        case None => Stay(s)
        case Some(i) =>
          var stopId := s.stations[i].id;
          match svc.departures(stopId)
          case Err(_) => Stay(s)
          case Ok(deps) =>
            if deps == [] then Step(Start, [Reply(NoDepartures, [])], Keep)
            else match Lines(deps, svc.parseTime)
              case None => Stay(s)
              case Some(lines) =>
                Step(ReceiveTransit(s.city, s.addr, s.stations, stop, stopId),
                     [Reply(DepartureInfo(stop, lines), []), Reply(SelectTransit, Layout(Keys(deps), 2))],
                     Keep)
  }

  /** `receive_transit`: the pressed label is kept and the interval is asked for. */
  function HandleTransit(s: State, data: Option<string>): Step
    requires s.ReceiveTransit?
  {
    match data
    case None => Stay(s)
    case Some(transit) =>
      Step(ReceiveMinutes(s.city, s.addr, s.stations, s.stop, s.stopId, transit),
           [Reply(AskMinutes, Layout(MINUTE_CHOICES, 3))], Keep)
  }

  /** `receive_minutes`: the data is parsed as an `i64` (otherwise the `unwrap`
      panics) and announced; an interval below 1 then panics (`interval` of zero,
      `to_std` of a negative duration), any other spawns the tracking task. */
  function HandleMinutes(s: State, user: string, data: Option<string>, prompt: Prompt): Step
    requires s.ReceiveMinutes?
  {
    match data
    case None => Stay(s)
    case Some(text) =>
      match ParseI64(text)
      case None => Stay(s)
      case Some(m) =>
        if m < 1 then Step(s, [Reply(TimerSet(m), [])], Keep)
        else Step(ReceiveCancel, [Reply(TimerSet(m), [])], Spawn(Session(user, s.stop, s.stopId, s.transit, m, prompt)))
  }

  /** The dispatcher tree. A message first meets the command filter: `/help` and
      `/start` are taken only in `Start`, `/cancel` in every state. Anything else goes to
      `receive_city` or `receive_address` when the dialogue waits for one, and to
      `invalid_state` otherwise. A button press goes to the handler of the state that
      waits for one; in any other state no handler takes it. */
  function Route(s: State, ev: Event, users: UserFile, svc: Services): Step {
    match ev
    case Message(user, content) =>
      if content.CommandText? && content.command == HelpCommand && s.Start? then Help(s)
      else if content.CommandText? && content.command == StartCommand && s.Start? then HandleStart(s, user, users, svc)
      else if content.CommandText? && content.command == CancelCommand then CancelFor(user)
      else if s.ReceiveCity? then HandleCity(s, content)
      else if s.ReceiveAddress? then HandleAddress(s, s.city, user, content, svc)
      else InvalidState(s)
    case Callback(user, data, prompt) =>
      match s
      case ReceiveStop(_, _, _) => HandleStop(s, data, svc)
      case ReceiveTransit(_, _, _, _, _) => HandleTransit(s, data)
      case ReceiveMinutes(_, _, _, _, _, _) => HandleMinutes(s, user, data, prompt)
      case ReceiveCancel => CancelFor(user)
      case _ => Stay(s)
  }

  /** The transitions the handlers can make, read off the `State` enum and the
      handlers' `dialogue.update` calls: staying, exiting to `Start`, and one step
      forward along the conversation, carrying the data collected so far. */
  predicate Edge(s: State, t: State) {
    || t == s
    || t == Start
    || (s.Start? && (t.ReceiveCity? || t.ReceiveStop?))
    || (s.ReceiveCity? && t.ReceiveAddress?)
    || (s.ReceiveAddress? && t.ReceiveStop? && t.city == s.city)
    || (s.ReceiveStop? && t == ReceiveAddress(s.city))
    || (s.ReceiveStop? && t.ReceiveTransit? && t.city == s.city && t.addr == s.addr && t.stations == s.stations)
    || (&& s.ReceiveTransit? && t.ReceiveMinutes?
        && t.city == s.city && t.addr == s.addr && t.stations == s.stations && t.stop == s.stop && t.stopId == s.stopId)
    || (s.ReceiveMinutes? && t == ReceiveCancel)
  }

  /** Every update moves the dialogue along one of the transitions of `Edge`. */
  lemma RouteFollowsTable(s: State, ev: Event, users: UserFile, svc: Services)
    ensures Edge(s, Route(s, ev, users, svc).next)
  {
  }

  /** What the effects are tied to: a profile is stored only when an address was
      accepted, under the sender's id with the city asked before; a task is spawned only
      from `ReceiveMinutes`, for the sender, with the chosen stop and transit and an
      interval of at least 1; an abort is for the sender and ends the conversation. */
  lemma RouteEffects(s: State, ev: Event, users: UserFile, svc: Services)
    ensures var step := Route(s, ev, users, svc);
      step.effect.SaveProfile? ==>
        && s.ReceiveAddress? && step.next.ReceiveStop?
        && step.effect.profile.id == ev.user && step.effect.profile.city == s.city
        && step.effect.profile.addr == step.next.addr && step.next.city == s.city
    ensures var step := Route(s, ev, users, svc);
      step.effect.Spawn? ==>
        && s.ReceiveMinutes? && ev.Callback? && step.next == ReceiveCancel
        && step.effect.session.user == ev.user && step.effect.session.stop == s.stop
        && step.effect.session.stopId == s.stopId && step.effect.session.transit == s.transit
        && step.effect.session.prompt == ev.prompt && step.effect.session.minutes >= 1
    ensures var step := Route(s, ev, users, svc);
      step.effect.Abort? ==> step.effect.user == ev.user && step.next == Start
  {
  }

  /** `/start` in `Start`: with a stored profile and the nearby stations fetched, the
      dialogue waits for a stop of that profile and the buttons are the station names in
      order, then `<< Change address`; with no stored profile it asks for the city. */
  lemma StartOffersStations(user: string, text: string, users: UserFile, svc: Services)
    ensures var step := Route(Start, Message(user, CommandText(StartCommand, text)), users, svc);
      GetUserData(users, user).Err? ==> step.next == ReceiveCity && step.replies == [Reply(AskCity, [])]
    ensures var step := Route(Start, Message(user, CommandText(StartCommand, text)), users, svc);
      GetUserData(users, user).Ok? ==>
        var data := GetUserData(users, user).value;
        match svc.nearby(data.lat, data.lon)
        case Err(_) => step == Stay(Start)
        case Ok(stations) =>
          && step.next == ReceiveStop(data.city, data.addr, stations)
          && |step.replies| == 1 && step.replies[0].notice == LastAddress(data.addr, data.city)
          && Labels(step.replies[0].keyboard) == StationNames(stations) + [CHANGE_ADDRESS]
  {
    if GetUserData(users, user).Ok? {
      var data := GetUserData(users, user).value;
      if svc.nearby(data.lat, data.lon).Ok? {
        LayoutLabels(StationNames(svc.nearby(data.lat, data.lon).value) + [CHANGE_ADDRESS], 2);
      }
    }
  }

  /** In `ReceiveCity` any text, a command's included, becomes the city; a message
      without text leaves the state as it is; `/cancel` still cancels. */
  lemma CityStep(user: string, content: Content, users: UserFile, svc: Services)
    ensures var step := Route(ReceiveCity, Message(user, content), users, svc);
      if content.CommandText? && content.command == CancelCommand then step == CancelFor(user)
      else if TextOf(content).None? then step.next == ReceiveCity && step.replies == [Reply(CityMissing, [])]
      else step.next == ReceiveAddress(TextOf(content).value) && step.effect == Keep
  {
  }

  /** In `ReceiveAddress(city)`: a message with neither text nor location leaves the
      state as it is; a text is geocoded within the city and a location is looked up as
      an address; when the lookups succeed the dialogue waits for a stop, offering the
      stations near the coordinates, and the profile stored is the sender's with the
      city, the address and the coordinates. */
  lemma AddressStep(city: string, user: string, content: Content, users: UserFile, svc: Services)
    requires !content.CommandText? || content.command != CancelCommand
    ensures var step := Route(ReceiveAddress(city), Message(user, content), users, svc);
      content.NoContent? ==> step.next == ReceiveAddress(city) && step.replies == [Reply(AddressMissing, [])]
    ensures var step := Route(ReceiveAddress(city), Message(user, content), users, svc);
      content.Place? ==>
        match svc.address(content.lat, content.lon)
        case Err(_) => step == Stay(ReceiveAddress(city))
        case Ok(addr) =>
          match svc.nearby(content.lat, content.lon)
          case Err(_) => step == Stay(ReceiveAddress(city))
          case Ok(stations) =>
            && step.next == ReceiveStop(city, addr, stations)
            && step.effect == SaveProfile(UserData(user, city, addr, content.lat, content.lon))
    ensures var step := Route(ReceiveAddress(city), Message(user, content), users, svc);
      TextOf(content).Some? ==>
        var addr := TextOf(content).value;
        match svc.geocode(addr, city)
        case Err(_) => step == Stay(ReceiveAddress(city))
        case Ok((lat, lon)) =>
          match svc.nearby(lat, lon)
          case Err(_) => step == Stay(ReceiveAddress(city))
          case Ok(stations) =>
            && step.next == ReceiveStop(city, addr, stations)
            && step.effect == SaveProfile(UserData(user, city, addr, lat, lon))
  {
  }

  /** A profile stored by `receive_address` is what the next `/start` of the same user
      finds: the dialogue goes straight to choosing a stop for that address. */
  lemma ProfileRemembered(city: string, user: string, content: Content, users: UserFile, svc: Services, text: string)
    requires !content.CommandText? || content.command != CancelCommand
    requires Route(ReceiveAddress(city), Message(user, content), users, svc).effect.SaveProfile?
    ensures var profile := Route(ReceiveAddress(city), Message(user, content), users, svc).effect.profile;
      var stored := Records(Upsert(ParseUsers(users), profile));
      var step := Route(Start, Message(user, CommandText(StartCommand, text)), stored, svc);
      svc.nearby(profile.lat, profile.lon).Ok? ==>
        step.next == ReceiveStop(city, profile.addr, svc.nearby(profile.lat, profile.lon).value)
  {
    var profile := Route(ReceiveAddress(city), Message(user, content), users, svc).effect.profile;
    RouteEffects(ReceiveAddress(city), Message(user, content), users, svc);
    LastWriteWins(ParseUsers(users), profile);
  }

  /** In `ReceiveStop`: data starting with `<<` goes back to asking for an address in
      the same city; other data picks the first station whose name starts with it, and
      with its departures fetched the dialogue exits when there are none and otherwise
      waits for a transit at that stop, the buttons being the departures' keys. */
  lemma StopStep(city: string, addr: string, stations: seq<Station>, user: string, data: string,
                 prompt: Prompt, users: UserFile, svc: Services)
    ensures var s := ReceiveStop(city, addr, stations);
      var step := Route(s, Callback(user, Some(data), prompt), users, svc);
      if StartsWith(data, "<<") then step.next == ReceiveAddress(city) && step.replies == [Reply(AskNewAddress, [])]
      else match FirstWithPrefix(stations, data)
        case None => step == Stay(s)
        case Some(i) =>
          match svc.departures(stations[i].id)
          case Err(_) => step == Stay(s)
          case Ok(deps) =>
            if deps == [] then step.next == Start && step.replies == [Reply(NoDepartures, [])]
            else if Lines(deps, svc.parseTime).None? then step == Stay(s)
            else
              && step.next == ReceiveTransit(city, addr, stations, data, stations[i].id)
              && |step.replies| == 2 && step.replies[1].notice == SelectTransit
              && Labels(step.replies[1].keyboard) == Keys(deps)
  {
    if !StartsWith(data, "<<") && FirstWithPrefix(stations, data).Some? {
      var i := FirstWithPrefix(stations, data).value;
      if svc.departures(stations[i].id).Ok? {
        LayoutLabels(Keys(svc.departures(stations[i].id).value), 2);
      }
    }
  }

  /** In `ReceiveTransit`: the pressed transit key is recorded next to the collected
      data, the interval buttons are offered and nothing else happens; a press without
      data leaves everything as it is. */
  lemma TransitStep(s: State, user: string, data: Option<string>, prompt: Prompt, users: UserFile, svc: Services)
    requires s.ReceiveTransit?
    ensures var step := Route(s, Callback(user, data, prompt), users, svc);
      match data
      case None => step == Stay(s)
      case Some(transit) =>
        && step.next == ReceiveMinutes(s.city, s.addr, s.stations, s.stop, s.stopId, transit)
        && step.replies == [Reply(AskMinutes, Layout(MINUTE_CHOICES, 3))]
        && step.effect == Keep
  {
  }

  /** Each interval button that `receive_transit` offers, once pressed, spawns the task
      for the transit just chosen, at the collected stop, with that button's interval. */
  lemma OfferedIntervalSpawns(s: State, user: string, transit: string, prompt: Prompt, text: string, press: Prompt,
                              users: UserFile, svc: Services)
    requires s.ReceiveTransit?
    requires text in Labels(Layout(MINUTE_CHOICES, 3))
    ensures var offer := Route(s, Callback(user, Some(transit), prompt), users, svc);
      && |offer.replies| == 1 && text in Labels(offer.replies[0].keyboard)
      && var step := Route(offer.next, Callback(user, Some(text), press), users, svc);
         && ParseI64(text).Some? && 1 <= ParseI64(text).value <= 3
         && step.next == ReceiveCancel
         && step.effect == Spawn(Session(user, s.stop, s.stopId, transit, ParseI64(text).value, press))
  {
    TransitStep(s, user, Some(transit), prompt, users, svc);
    var next := ReceiveMinutes(s.city, s.addr, s.stations, s.stop, s.stopId, transit);
    MinuteButtonsParse(text);
    MinutesStep(next, user, text, press, users, svc);
  }

  /** The interval buttons read as the numbers 1 to 3. */
  lemma MinuteButtonsParse(text: string)
    requires text in Labels(Layout(MINUTE_CHOICES, 3))
    ensures ParseI64(text).Some? && 1 <= ParseI64(text).value <= 3
  {
    LayoutLabels(MINUTE_CHOICES, 3);
    assert text == "1" || text == "2" || text == "3";
    if text == "1" {
      assert ParseI64(text) == Some(1);
    } else if text == "2" {
      assert ParseI64(text) == Some(2);
    } else {
      assert ParseI64(text) == Some(3);
    }
  }

  /** In `ReceiveMinutes`: data that is not an `i64` leaves everything as it is; a
      number below 1 is announced but the handler then fails; a number of at least 1 is
      announced and spawns the task with the stop and transit collected. */
  lemma MinutesStep(s: State, user: string, data: string, prompt: Prompt, users: UserFile, svc: Services)
    requires s.ReceiveMinutes?
    ensures var step := Route(s, Callback(user, Some(data), prompt), users, svc);
      match ParseI64(data)
      case None => step == Stay(s)
      case Some(m) =>
        && step.replies == [Reply(TimerSet(m), [])]
        && (m < 1 ==> step.next == s && step.effect == Keep)
        && (m >= 1 ==> step.next == ReceiveCancel
                       && step.effect == Spawn(Session(user, s.stop, s.stopId, s.transit, m, prompt)))
  {
  }

  /** Pressing one of the interval buttons starts the task with an interval of 1 to 3
      minutes. */
  lemma MinuteButtonSpawns(s: State, user: string, text: string, prompt: Prompt, users: UserFile, svc: Services)
    requires s.ReceiveMinutes?
    requires text in Labels(Layout(MINUTE_CHOICES, 3))
    ensures var step := Route(s, Callback(user, Some(text), prompt), users, svc);
      && step.next == ReceiveCancel
      && step.effect.Spawn? && 1 <= step.effect.session.minutes <= 3
  {
    MinuteButtonsParse(text);
  }

  /** `/cancel` cancels in every state, and any button press in `ReceiveCancel` does
      the same: the user's task is aborted and the conversation is back at `Start`. */
  lemma CancelAlwaysEnds(s: State, user: string, text: string, data: Option<string>, prompt: Prompt,
                         users: UserFile, svc: Services)
    ensures Route(s, Message(user, CommandText(CancelCommand, text)), users, svc) == CancelFor(user)
    ensures Route(ReceiveCancel, Callback(user, data, prompt), users, svc) == CancelFor(user)
    ensures CancelFor(user).next == Start && CancelFor(user).effect == Abort(user)
  {
  }

  /** Updates no handler takes: a button press while no keyboard is awaited changes
      nothing and sends nothing; a message other than `/cancel` in a state that waits
      for a button (or any non-command in `Start`) gets the usage hint and changes
      nothing. */
  lemma UnroutedUpdates(s: State, ev: Event, users: UserFile, svc: Services)
    ensures ev.Callback? && (s.Start? || s.ReceiveCity? || s.ReceiveAddress?) ==>
      var step := Route(s, ev, users, svc);
      step.next == s && step.replies == [] && step.effect == Keep
    ensures && ev.Message? && !(ev.content.CommandText? && ev.content.command == CancelCommand)
            && !s.ReceiveCity? && !s.ReceiveAddress? && !(s.Start? && ev.content.CommandText?) ==>
      var step := Route(s, ev, users, svc);
      step.next == s && step.replies == [Reply(Unhandled, [])] && step.effect == Keep
  {
  }

  /** `/help` lists the commands and changes nothing, but only in `Start`; in
      `ReceiveCity` it is taken as the city, and in the states waiting for a button it
      only earns the usage hint. */
  lemma HelpStep(s: State, user: string, text: string, users: UserFile, svc: Services)
    ensures var step := Route(s, Message(user, CommandText(HelpCommand, text)), users, svc);
      && (s.Start? ==> step.next == Start && step.replies == [Reply(HelpText, [])] && step.effect == Keep)
      && (s.ReceiveCity? ==> step.next == ReceiveAddress(text))
      && (!s.Start? && !s.ReceiveCity? && !s.ReceiveAddress? ==>
            step.next == s && step.replies == [Reply(Unhandled, [])])
  {
  }

  /** The station a stop and stop id were taken from: the first whose name starts with
      the stop. */
  predicate ChosenStation(stations: seq<Station>, stop: string, stopId: string) {
    FirstWithPrefix(stations, stop).Some? && stations[FirstWithPrefix(stations, stop).value].id == stopId
  }

  /** The data a state carries fits together: the stop id is the id of the station the
      stop name selects. */
  predicate Consistent(s: State) {
    match s
    case ReceiveTransit(_, _, stations, stop, stopId) => ChosenStation(stations, stop, stopId)
    case ReceiveMinutes(_, _, stations, stop, stopId, _) => ChosenStation(stations, stop, stopId)
    case _ => true
  }

  /** Every update keeps the collected data consistent, so the task is always spawned
      for the stop id of the station the user picked. */
  lemma RouteKeepsConsistent(s: State, ev: Event, users: UserFile, svc: Services)
    requires Consistent(s)
    ensures Consistent(Route(s, ev, users, svc).next)
    ensures Route(s, ev, users, svc).effect.Spawn? ==>
      ChosenStation(s.stations, Route(s, ev, users, svc).effect.session.stop, Route(s, ev, users, svc).effect.session.stopId)
  {
    if ev.Callback? && s.ReceiveStop? {
      PickedStopIsChosen(s, ev.data, svc);
    }
  }

  /** The stop recorded by `receive_stop` is the one whose id the departures were
      fetched for. */
  lemma PickedStopIsChosen(s: State, data: Option<string>, svc: Services)
    requires s.ReceiveStop?
    ensures Consistent(HandleStop(s, data, svc).next)
  {
    if data.Some? && !StartsWith(data.value, "<<") && FirstWithPrefix(s.stations, data.value).Some? {
      var i := FirstWithPrefix(s.stations, data.value).value;
      assert ChosenStation(s.stations, data.value, s.stations[i].id);
    }
  }
}
