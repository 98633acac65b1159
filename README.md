# wimt-bot ("Where is my transit") in Dafny

A model of the Telegram bot that tracks a bus or train for a user. A user gives a city
and an address (or sends a location). The bot then offers the transit stations nearby,
shows the departures of the chosen station and asks which line and how often to report.
A background task then reports every few minutes how long is left before the departure,
along with the vehicle's position when the transit API gives one. At the end it sends a
final "is departuring" message.

The model covers:

- **The conversation** (`dialogue.dfy`, module `Dialogue`). The `State` enum, the
  handlers `help`, `invalid_state`, `cancel`, `start`, `receive_city`,
  `receive_address`, `receive_stop`, `receive_transit`, `receive_minutes` and
  `receive_cancel`, and the dispatcher tree that routes each update. Each handler is a
  total function from state and update to a `Step`: the next state, the replies sent,
  and one effect (store a profile, spawn a task, abort a task). A handler that fails,
  through `?` on an error or a panicking `unwrap`, leaves the state as it was. The HTTP
  lookups and the RFC 3339 timestamp parser are parameters (`Services`).
- **The tracking task** (`tracker.dfy`, module `Tracker`). One loop iteration is a
  function `Tick` over the task's variables. These are the logical clock `time_now` in
  seconds, `update_time` in minutes, and the ids of the last status message and of the
  two position messages. The chat is modelled as the set of message ids still visible.
  The loop is the method `TrackDeparture`, which consumes one fetched departure list per
  timer tick. It takes the flag `clearStale` and is proved equal to the specification
  function `Run` for the same flag. With `clearStale` false it is the loop as written,
  which keeps the ids of deleted position messages. With `clearStale` true it is the
  corrected loop of the second row under "## Findings", which forgets them.
- **The task registry** (`registry.dfy`, class `TaskRegistry`). A map from user id to
  task handle, plus a ghost set of aborted handles.
- **The bot process** (`bot.dfy`, class `Bot`). It holds the dialogue state, the profile
  file and the registry, and applies each step's effect. A profile is stored with the
  corrected upsert (`Store.StoreUserData`), not with the truncating store that `io.rs`
  performs as written (first row under "## Findings").
- **Supporting code.**
  - `make_inline_keyboard` (`keyboard.dfy`).
  - The departure key `"{name} ({direction})"` and how the task splits it
    (`transit_key.dfy`).
  - The profile store of `io.rs` at list level (`store.dfy`).
  - The response normalisation of `api.rs` (`api.dfy`), its loops as methods.
  - The Rust and serde_json behaviour these rely on (`rust.dfy`, `json.dfy`):
    truncating division, `num_minutes`, `i64` parsing and formatting, `str::find`,
    `starts_with`, and `Value` indexing.

Times are whole seconds. A button's callback data is its label. Message texts, HTML and
emoji are reduced to the kind of message (`Dialogue.Notice` for the conversation,
`Tracker.StatusNotice` for the tracking task).

## Model

| member | source | states |
|---|---|---|
| Rust.TruncDiv | src/main.rs:418 | Integer `/` rounds toward zero: for a non-negative dividend the quotient is the largest q with q·b ≤ a; for a negative one it is the smallest q with a ≤ q·b |
| Rust.Minutes | src/main.rs:569-572 | `num_minutes` of a duration is 0 exactly for −60 < d < 60, positive exactly for d ≥ 60, and then the whole minutes contained in d |
| Rust.ParseI64 | src/main.rs:516 | `parse::<i64>` succeeds only with a value in the `i64` range |
| Rust.DecimalRoundTrip | src/main.rs:418 | Formatting an `i64` in decimal and parsing it back gives the same number |
| Rust.Find | src/main.rs:550 | `find('(')` gives the character index of the first occurrence of the character, and `None` exactly when it does not occur |
| JsonValue.Index | src/api.rs:64 | `json[i]` is the i-th element of an array when i is in range, and `Null` otherwise |
| JsonValue.Get | src/api.rs:30 | `get(key)` finds a field only in an object that has it |
| JsonValue.AsStr | src/api.rs:38 | `as_str` succeeds exactly on strings, giving the string |
| JsonValue.AsI64 | src/api.rs:141 | `as_i64` succeeds exactly on integers in the `i64` range |
| JsonValue.AsF64 | src/api.rs:171 | `as_f64` succeeds exactly on numbers, giving the number |
| Api.CoordinateOf | src/api.rs:30-45 | A geocode coordinate is the field's string when there is one, otherwise "0" |
| Api.FetchGeocode | src/api.rs:29-48 | A body that is not JSON is an error; otherwise the coordinates are those of the first result, with "0" for a missing or non-string one |
| Api.GeocodeWithoutResults | src/api.rs:30-46 | With no result object, both coordinates are "0" and the call still succeeds |
| Api.BeforeComma | src/api.rs:72 | A station name is the longest comma-free prefix of the full name: all of it, or the text up to the first comma |
| Api.ObjectRun | src/api.rs:63-67 | The collected run is the longest prefix of objects: all objects, followed by a non-object or the end |
| Api.RunLength | src/api.rs:63-67 | A run of objects ended by a non-object or the end of the array has exactly that length |
| Api.CollectObjects | src/api.rs:63-67 | The `while json[i].is_object()` loop collects exactly the leading objects, in order, and stops at the first non-object |
| Api.StationFrom | src/api.rs:70-92 | A record gives a station exactly when every unwrapped field is present with the right kind; the id is copied, the name cut at the first comma, the distance taken as an integer |
| Api.GetNearbyStations | src/api.rs:57-95 | Succeeds exactly when every leading object is a valid station record, and then gives one station per object in order; a body that is not JSON panics |
| Api.DepartureFrom | src/api.rs:130-205 | A departure carries the queried stop id and a destination with distance −1; its delay is present exactly when a `delay` field holds an integer; it has a position exactly when `currentTripPosition` is present |
| Api.GetDepartures | src/api.rs:118-207 | Succeeds exactly when every leading object is a valid departure record, and then gives one departure per object in order, each with the stop id and destination distance −1 |
| Store.IndexOfId | src/io.rs:53 | The position found is the first profile with the id, and there is none exactly when no profile has it |
| Store.Upsert | src/io.rs:26-34 | The list-level store; what it does is stated by `Store.UpsertExisting`, `Store.UpsertNew`, `Store.LastWriteWins`, `Store.OthersUnchanged` and `Store.UpsertKeepsIdsUnique` |
| Store.FirstIndex | src/io.rs:53-54 | The lookup finds the first profile holding the id |
| Store.GetUserData | src/io.rs:42-56 | A lookup succeeds exactly when the file holds a profile list with that id, and then gives the first such profile; a missing file, unparsable content or an unknown id is an error |
| Store.UpsertExisting | src/io.rs:28-31 | Storing an existing id overwrites that profile in place; the length and the other profiles stay |
| Store.UpsertNew | src/io.rs:33 | Storing a new id appends the profile after all the others |
| Store.LastWriteWins | src/io.rs:26-34 | After a store, looking the id up gives the stored profile |
| Store.OthersUnchanged | src/io.rs:26-34 | A store does not change what any other id looks up to |
| Store.UpsertKeepsIdsUnique | src/io.rs:26-33 | Unique ids stay unique after a store |
| Store.StoreUserData | src/io.rs:20-34 | The file written holds the previous list (empty when it did not parse) with the profile upserted |
| Store.StoreUserDataAsWritten | src/io.rs:11-34 | As written, the file ends up holding only the stored profile |
| Store.TruncationLosesOtherProfiles | src/io.rs:11-34 | As written, storing one user's profile makes every other stored profile unfindable, where the upsert keeps it |
| Keyboard.Row | src/main.rs:725-728 | A row has one button per label, with the label as its callback data |
| Keyboard.Layout | src/main.rs:721-734 | The chunked keyboard; its shape is stated by `Keyboard.LayoutShape` and its labels by `Keyboard.LayoutLabels` |
| Keyboard.LayoutShape | src/main.rs:724-731 | No labels give no rows; every row but the last has `chunks` buttons and the last has 1 to `chunks`; each button's data is its label |
| Keyboard.LayoutLabels | src/main.rs:721-734 | Read row by row, the keyboard gives back the input list in order |
| Keyboard.MakeInlineKeyboard | src/main.rs:721-734 | The row-pushing loop builds exactly the chunked layout |
| TransitKey.ParseKey | src/main.rs:550-553 | A successful split never yields a name containing `(` |
| TransitKey.DepartureKey | src/main.rs:429 | The button label `"{name} ({direction})"`; `TransitKey.KeyRoundTrip` states when splitting it gives the parts back |
| TransitKey.KeyRoundTrip | src/main.rs:550-555 | Splitting `"{name} ({direction})"` gives back exactly name and direction if and only if the name contains no `(` |
| Telegram.Send | src/main.rs:622-632 | A sent message gets an id no visible message has, and becomes visible |
| Telegram.Delete | src/main.rs:588 | Deleting succeeds exactly when the message is still there, and removes it alone |
| Tracker.Init | src/main.rs:533 | `time_now` starts one interval before the prompt's date, so the first tick lands on that date; no position messages yet |
| Tracker.FirstMatch | src/main.rs:548-556 | A match found is a departure with that line and direction |
| Tracker.FirstMatchIsFirst | src/main.rs:548-556 | The match found is the first departure with that line and direction, and there is none exactly when no departure has both |
| Tracker.TrackedDepartureCases | src/main.rs:548-559 | The search panics exactly when there are departures and the key cannot be split; it finds nothing when the list is empty or no departure matches; otherwise it finds the first match |
| Tracker.DepartureTime | src/main.rs:562-567 | The effective departure is the planned time plus the delay in seconds when there is one; it is undefined exactly when the planned time does not parse |
| Tracker.Tick | src/main.rs:539-646 | One loop iteration; stated by `Tracker.TickFound`, `Tracker.TickExit`, `Tracker.TickAdvancesClock`, `Tracker.IntervalRule`, `Tracker.TickStatus` and `Tracker.TickReplacesStatus` |
| Tracker.TickFound | src/main.rs:548-567 | Once the departure is found, a tick dies when its planned time does not parse and otherwise approaches planned time plus delay |
| Tracker.Approach | src/main.rs:569-596 | With the departure time known, the loop is left exactly when the clock is past it, with the interval shrunk; otherwise a failed deletion ends the task and a successful one leads to the redraw |
| Tracker.Redraw | src/main.rs:599-646 | A redraw sends the position (when known) and then "arrives now" for 0 minutes left or "arrives in N minutes"; the interval is pinned to 1 at 0 minutes |
| Tracker.Finish | src/main.rs:649-660 | After the loop, the final message is sent exactly when the last status message can be deleted |
| Tracker.Run | src/main.rs:539-663 | The loop over the fetched lists and the code after it; stated by `Tracker.RunKeepsIntervalBounds`, `Tracker.RunTerminalNotice`, `Tracker.SingleMissEnds`, `Tracker.RunDiesOnlyOnFault`, and implemented by `Tracker.TrackDeparture` |
| Tracker.TickAdvancesClock | src/main.rs:540-542 | Every tick that does not die advances `time_now` by exactly the interval in force |
| Tracker.TickExit | src/main.rs:548-583 | The loop is left exactly when the line/direction is absent or `time_now` is past planned + delay |
| Tracker.IntervalRule | src/main.rs:572-620 | On a tick that goes on: 1 when 0 minutes are left; the remaining minutes when the interval is not 1 and they are positive and smaller; otherwise unchanged. Hence it never grows and never drops below 1 |
| Tracker.TickStatus | src/main.rs:599-646 | A tick that goes on has at least 0 seconds left; it reports "arrives now" under one minute and otherwise the whole minutes left, preceded by the position when the API gives one |
| Tracker.TickKeepsInterval | src/main.rs:572-620 | A tick that goes on keeps the interval between 1 and the one in force |
| Tracker.TickSends | src/main.rs:599-646 | A tick that goes on never sends "is departuring" |
| Tracker.ClearShown | src/main.rs:587-596 | Deleting a status whose messages are all still there succeeds and removes exactly those messages |
| Tracker.RedrawReplaces | src/main.rs:599-646 | With stale ids forgotten, a redraw shows a status made of new messages only, added to the chat |
| Tracker.TickReplacesStatus | src/main.rs:587-613 | With stale ids forgotten, a tick dies only on a faulty poll; one that goes on leaves the chat showing exactly the new status messages in place of the old ones |
| Tracker.StalePositionDeleteFails | src/main.rs:591-613 | As written, after a tick with a position, a tick without one keeps the deleted ids; the next redraw deletes them again and the task dies. With the ids forgotten the same tick goes on |
| Tracker.RunKeepsIntervalBounds | src/main.rs:539-647 | While the task runs, the interval stays between 1 and its starting value |
| Tracker.RunTerminalNotice | src/main.rs:649-660 | "Is departuring" is sent only by a task that departs, once, and as its last message |
| Tracker.SingleMissEnds | src/main.rs:556-660 | For either reading of the loop, a single list without the chosen line/direction ends the task while the last status is still visible: that status is deleted and "is departuring" sent |
| Tracker.RunDiesOnlyOnFault | src/main.rs:545-596 | With stale ids forgotten, the task dies only on a failed fetch, an unsplittable key or an unparsable planned time |
| Tracker.TrackingTick | src/main.rs:540-646 | The imperative loop body computes exactly the tick, as written or corrected |
| Tracker.FoundStep | src/main.rs:561-646 | Parsing the planned time, adding the delay and going on gives the tick for a found departure |
| Tracker.ApproachStep | src/main.rs:569-646 | The rest of the loop body computes exactly the approach to the departure time, as written or corrected |
| Tracker.DeleteStatus | src/main.rs:587-596 | The three deletions succeed or fail as `ClearStatus` says |
| Tracker.SendStatus | src/main.rs:599-646 | Sending the position and the status, and pinning the interval at 0 minutes left, is the redraw; stale position ids are kept as written or forgotten as corrected |
| Tracker.TrackDeparture | src/main.rs:533-664 | The spawned task, run over a sequence of fetched lists, ends exactly as `Run` from `Init` says, for the loop as written and for the corrected one |
| Dialogue.StationNames | src/main.rs:204-207 | One name per station, in order |
| Dialogue.TextOf | src/main.rs:251 | A message has text exactly when it is a command or plain text |
| Dialogue.DelayLabel | src/main.rs:412-421 | The delay label is empty exactly when there is no delay or a zero delay |
| Dialogue.DelayLabelMinutes | src/main.rs:418 | A non-empty label is ` (+N)` where N reads back as the delay divided by 60 toward zero |
| Dialogue.Lines | src/main.rs:401-426 | The overview exists exactly when every planned time parses, and then has one line per departure with its name, direction, time and delay label |
| Dialogue.Keys | src/main.rs:428-431 | One button label `"{name} ({direction})"` per departure, in order |
| Dialogue.FormatDepartures | src/main.rs:401-431 | The formatting loop gives the overview and the labels, or fails exactly when a planned time does not parse |
| Dialogue.FirstWithPrefix | src/main.rs:382-387 | The station chosen is the first whose name starts with the data, and there is none exactly when no name does |
| Dialogue.PressedStationChosen | src/main.rs:384 | The pressed station is chosen unless an earlier station's name starts with its name |
| Dialogue.Help | src/main.rs:158-165 | `help`: the command list, state unchanged; stated by `Dialogue.HelpStep` |
| Dialogue.InvalidState | src/main.rs:167-174 | `invalid_state`: the usage hint, state unchanged; stated by `Dialogue.UnroutedUpdates` |
| Dialogue.CancelFor | src/main.rs:176-192 | `cancel` and `receive_cancel`: abort the user's task and return to `Start`; stated by `Dialogue.CancelAlwaysEnds` |
| Dialogue.HandleStart | src/main.rs:194-248 | `start`; stated by `Dialogue.StartOffersStations` |
| Dialogue.HandleCity | src/main.rs:250-271 | `receive_city`; stated by `Dialogue.CityStep` |
| Dialogue.HandleAddress | src/main.rs:273-352 | `receive_address`; stated by `Dialogue.AddressStep` and `Dialogue.ProfileRemembered` |
| Dialogue.HandleStop | src/main.rs:354-461 | `receive_stop`; stated by `Dialogue.StopStep` and `Dialogue.PickedStopIsChosen` |
| Dialogue.HandleTransit | src/main.rs:463-497 | `receive_transit`; stated by `Dialogue.TransitStep` |
| Dialogue.HandleMinutes | src/main.rs:499-535 | `receive_minutes` up to the spawn; stated by `Dialogue.MinutesStep` and `Dialogue.MinuteButtonSpawns` |
| Dialogue.Route | src/main.rs:95-143 | The dispatcher tree; stated by `Dialogue.RouteFollowsTable`, `Dialogue.RouteEffects`, `Dialogue.CancelAlwaysEnds`, `Dialogue.UnroutedUpdates` and `Dialogue.HelpStep` |
| Dialogue.RouteFollowsTable | src/main.rs:95-143 | Every update moves the dialogue along the enum's transitions: stay, exit to `Start`, or one step forward keeping the data collected |
| Dialogue.RouteEffects | src/main.rs:95-143 | A profile is stored only on an accepted address, for the sender; a task is spawned only from `ReceiveMinutes`, for the sender, with the collected stop and transit and an interval of at least 1; an abort is the sender's and ends in `Start` |
| Dialogue.StartOffersStations | src/main.rs:194-248 | `/start` in `Start` waits for a stop of the stored profile, with the station names then "<< Change address" as buttons; without a profile it asks for the city; a failed station fetch changes nothing |
| Dialogue.CityStep | src/main.rs:250-271 | In `ReceiveCity`, any text (commands included) becomes the city, no text leaves the state, `/cancel` cancels |
| Dialogue.AddressStep | src/main.rs:273-352 | In `ReceiveAddress`, neither text nor location leaves the state; a text is geocoded, a location is reverse-looked-up; with the lookups done the dialogue waits for a stop and the sender's profile is stored; a failed lookup changes nothing |
| Dialogue.ProfileRemembered | src/main.rs:317-324 | A profile stored by `receive_address` is what the same user's next `/start` finds |
| Dialogue.StopStep | src/main.rs:354-461 | In `ReceiveStop`, `<<` data returns to `ReceiveAddress` with the same city; other data picks the first station with that prefix; no departures exit to `Start`; otherwise the dialogue waits for a transit at that stop, with the departure keys as buttons |
| Dialogue.TransitStep | src/main.rs:463-497 | In `ReceiveTransit`, a pressed key is recorded as the transit next to the stop, city, address and stations already collected, the interval buttons are offered and nothing else happens; a press without data changes nothing |
| Dialogue.OfferedIntervalSpawns | src/main.rs:463-535 | Every interval button offered by `receive_transit` parses as 1 to 3, and pressing it spawns the task for the chosen transit at the collected stop with that interval |
| Dialogue.MinuteButtonsParse | src/main.rs:470 | The interval buttons parse as 1, 2 and 3 |
| Dialogue.MinutesStep | src/main.rs:513-535 | Data that is not an `i64` changes nothing; below 1 it is announced but the handler fails; otherwise it is announced and a task is spawned with the collected stop and transit |
| Dialogue.MinuteButtonSpawns | src/main.rs:470-516 | Pressing an interval button spawns a task with an interval of 1 to 3 |
| Dialogue.CancelAlwaysEnds | src/main.rs:95-101 | `/cancel` in any state, and any button press in `ReceiveCancel`, aborts the user's task and returns to `Start` |
| Dialogue.UnroutedUpdates | src/main.rs:103-139 | A button press with no keyboard pending changes nothing and sends nothing; other messages outside the text-reading states get the usage hint and change nothing |
| Dialogue.HelpStep | src/main.rs:95-107 | `/help` lists the commands only in `Start`; in `ReceiveCity` it becomes the city; in the button states it gets the usage hint |
| Dialogue.PickedStopIsChosen | src/main.rs:382-458 | The stop recorded by `receive_stop` is the first station matching the pressed name, whose id was used for the departures |
| Dialogue.RouteKeepsConsistent | src/main.rs:382-458 | The stop id carried by the dialogue is always that of the first station matching the stop name, and so is the one a task is spawned for |
| Registry.AfterCancel | src/main.rs:178-184 | Cancelling removes the user's entry and aborts its handle when there is one; otherwise nothing changes |
| Registry.CancelIdempotent | src/main.rs:686-692 | Cancelling twice is the same as cancelling once |
| Registry.InsertOrphansPrevious | src/main.rs:668-672 | Inserting over an entry neither aborts the old handle nor keeps it where a cancel can reach it |
| Registry.TaskRegistry.constructor | src/main.rs:146-147 | The registry starts empty |
| Registry.TaskRegistry.Insert | src/main.rs:668-672 | The entry becomes the new handle; nothing is aborted |
| Registry.TaskRegistry.Cancel | src/main.rs:686-692 | The map and the aborted set change as `AfterCancel` says |
| BotProcess.Bot.constructor | src/main.rs:141-150 | A fresh bot is in `Start` with an empty registry |
| BotProcess.Bot.Deliver | src/main.rs:141-153 | An update sets the state and replies of the routed step, stores a requested profile with the upsert, and registers or cancels tasks as the step asks |
| BotProcess.Bot.FinishTracking | src/main.rs:649-663 | A departed task returns the dialogue to `Start`; a dead one leaves it; neither touches the profiles |
| BotProcess.PickedTransitIsTracked | src/main.rs:548-555 | The transit button a user presses is found by the task with the same line and direction, whenever the line name has no `(` |
| BotProcess.ButtonIntervalStaysSmall | src/main.rs:516-578 | A task started from an interval button keeps its interval between 1 and 3 minutes for as long as it runs |

## Where the intended design and the code differ

The model follows the code in each case.

- **Replacing a task.** Registering a task is meant to cancel the user's previous one.
  `t.insert` in `receive_minutes` only overwrites it, so the old task keeps running,
  out of reach (`Registry.InsertOrphansPrevious`).
- **Removing a finished task.** A task that ends is meant to remove its own registry
  entry. It does not (`BotProcess.Bot.FinishTracking`).
- **Failed fetches during tracking.** These are meant to be retried on the next tick.
  The `?` on `get_departures` ends the task without a final message
  (`Tracker.RunDiesOnlyOnFault`).
- **Failed lookups in the conversation.** These are meant to be reported to the user. A
  handler that fails sends nothing more and leaves the state as it was.
- **Ambiguous station prefixes.** Prefix matching picks the first station whose name
  starts with the pressed label, and so can pick another station than the pressed one
  (`Dialogue.PressedStationChosen` gives the condition under which it does not).

## Left out

- Message texts, HTML, emoji, keyboard edits and removals, and the deletion of the transit prompt are left out. Only the kind of message and the keyboard that goes with it are modelled. Sending, editing and deleting in the conversation are assumed to succeed.
- The dispatcher's command parsing (`filter_command`), bot-name suffixes and updates that are neither messages nor button presses are left out. A command arrives already parsed in `CommandText`.
- A `q.message` or `from` that is absent (`unwrap` on `None`) is left out. Every button press carries the message it belonged to.
- Concurrency and timers are left out: `tokio::spawn`, `JoinHandle::abort`, `tokio::time::interval` and the `Mutex`. A timer tick is one loop iteration, and an abort is an entry in a ghost set. The model does not capture a task being stopped in the middle of a tick.
- The dialogue storage is one `State` for one chat. Several chats of the same user share one registry key, which is how the overwrite in `t.insert` can happen; that interleaving is not modelled.
- HTTP requests, URLs and `fetch_address` are parameters of the model (`Services`). The `config` module holding `USER_DATA_PATH` is not part of this model. The response normalisation of `api.rs` is modelled on its own (`Api`) and is not wired into the handlers.
- RFC 3339 parsing and the `%H:%M` rendering are left out. Times are whole seconds, and parsing is the parameter `parseTime`.
- Floating point is left out. Coordinates are kept as the JSON values or strings they come from. `f64` parsing for `send_location` is not modelled, and neither is the string rendering of coordinates.
- File opening, reading and writing in `io.rs` are left out. The file's content is a `UserFile` value, and the failures of `expect` and of `to_writer` are not modelled. The debug print of the whole profile list to standard output before writing (src/io.rs:36) is left out as well: it changes no state.
- Dialogue.MinutesStep: does not model chrono's panic for an interval so large that `Duration::minutes` overflows; the interval buttons only offer 1 to 3.
- Tracker.DepartureTime: adds the delay in seconds to the planned time as an unbounded integer. It does not model chrono's panic when `Duration::seconds(del)` is out of range or when `dep_time += …` overflows the date range (src/main.rs:566). A delay of that size would be a broken API answer; the panic would end the task without a final message.
- `_make_keyboard` and `_make_reply_keyboard` are left out; they are unused copies of the chunking that `Keyboard.Layout` models.
- `tests.rs` is left out; it holds live-network and file-system tests.
- Rust.Find, TransitKey.ParseKey, Tracker.TrackedDepartureCases: strings are sequences of characters, so `Rust.Find` returns the character index of the first occurrence where Rust's `find('(')` returns a byte offset. When the character before the first `(` takes more than one byte (a line name such as `Zü(1)`), `transit_clone[0..first_parent - 1]` ends inside it and panics, ending the task without a final message; the model instead splits at character positions and goes on. Only line names without multi-byte characters are split exactly as the source splits them.
- Tracker.Redraw, Tracker.Finish, Tracker.RunDiesOnlyOnFault: the task's sends (`send_message`, `send_location`, each with `.await?`) are assumed to succeed, and no one but the task deletes its messages. A Telegram error on a send, or a user deleting the status message (which makes the next deletion fail), also ends the task in the source; with those, the task can die on a poll that is not faulty.

## Findings

| source | as written | input that shows it | evidently intended | confidence | as-written member | corrected member |
|---|---|---|---|---|---|---|
| src/io.rs:11-34 | The file is opened with `truncate(true)` before it is read, so both the read and the `get_user_data` check see an empty file, and the profile is written alone | A file holding profiles of users "1" and "2", then a store for user "1": user "2" can no longer be found | Read the stored list, upsert the profile and write the whole list back | high (not executed) | Store.TruncationLosesOtherProfiles | Store.StoreUserData |
| src/main.rs:591-613 | `curr_loc_msg` and `loc_msg` keep the ids of the position messages they deleted when the next departure has no position | Tick 1 reports a vehicle position; tick 2's departure has no position; tick 3 still lies before the departure and deletes the already deleted messages. The deletion fails and the task ends with no final message | Forget the position message ids once they are deleted | medium (not executed) | Tracker.StalePositionDeleteFails | Tracker.TickReplacesStatus |
