/** The bot as one running process: the dialogue of a chat, the profile file and the task
    registry, updated by the dispatcher for every update and by the tracking task when it
    ends. */
module BotProcess {
  import opened Prelude
  import opened Structs
  import opened Store
  import opened Keyboard
  import opened TransitKey
  import opened Dialogue
  import opened Registry
  import opened Tracker

  class Bot {
    var dialogue: State
    var users: UserFile
    const registry: TaskRegistry

    /** A bot that has not seen an update: the dialogue is at its default `Start`. */
    constructor (users: UserFile)
      ensures dialogue == Start && this.users == users
      ensures fresh(registry) && registry.tasks == map[] && registry.aborted == {}
    {
      dialogue := Start;
      this.users := users;
      registry := new TaskRegistry();
    }

    /** One update: the routed handler's step is applied, storing the profile it asks to
        store, registering the spawned task under the user's id as `handle`, or
        cancelling the user's entry. */
    method Deliver(ev: Event, svc: Services, handle: Handle) returns (replies: seq<Reply>)
      modifies this, registry
      ensures var step := Route(old(dialogue), ev, old(users), svc);
        && dialogue == step.next && replies == step.replies
        && users == (if step.effect.SaveProfile? then Records(Upsert(ParseUsers(old(users)), step.effect.profile))
                     else old(users))
        && (step.effect.Spawn? ==>
              registry.tasks == old(registry.tasks)[step.effect.session.user := handle]
              && registry.aborted == old(registry.aborted))
        && (step.effect.Abort? ==>
              (registry.tasks, registry.aborted) == AfterCancel(old(registry.tasks), old(registry.aborted), step.effect.user))
        && (step.effect.Keep? || step.effect.SaveProfile? ==>
              registry.tasks == old(registry.tasks) && registry.aborted == old(registry.aborted))
    {
      var step := Route(dialogue, ev, users, svc);
      match step.effect {
        case Keep =>
        case SaveProfile(profile) =>
          users := StoreUserData(users, profile);
        case Spawn(session) =>
          registry.Insert(session.user, handle);
        case Abort(user) =>
          registry.Cancel(user);
      }
      dialogue := step.next;
      replies := step.replies;
    }

    /** The end of the tracking task: after the final message it calls
        `dialogue.exit()`; a task that died leaves the dialogue alone. Neither removes
        the task's registry entry. */
    method FinishTracking(outcome: RunOutcome)
      modifies this
      ensures dialogue == if outcome.Departed? then Start else old(dialogue)
      ensures users == old(users)
    {
      if outcome.Departed? {
        dialogue := Start;
      }
    }
  }

  /** The transit the user picks from the keyboard of `receive_stop` is the one the task
      tracks: splitting the pressed key finds a departure with the same line and
      direction, as long as the line name contains no `(`. */
  lemma {:induction false} PickedTransitIsTracked(deps: seq<BusDeparture>, k: nat)
    requires k < |deps| && '(' !in deps[k].name
    ensures var found := TrackedDeparture(deps, Keys(deps)[k]);
      && found.Found?
      && found.departure.name == deps[k].name && found.departure.direction == deps[k].direction
  {
    KeyRoundTrip(deps[k].name, deps[k].direction);
    FirstMatchIsFirst(deps, deps[k].name, deps[k].direction);
    assert FirstMatch(deps, deps[k].name, deps[k].direction).Some?;
  }

  /** A task started from an interval button keeps its interval between 1 and 3
      minutes for as long as it runs. */
  lemma ButtonIntervalStaysSmall(s: State, user: string, text: string, prompt: Prompt, users: UserFile, svc: Services,
                                 chat: Telegram.Chat, polls: seq<Poll>)
    requires s.ReceiveMinutes? && text in Labels(Layout(MINUTE_CHOICES, 3))
    ensures var effect := Route(s, Callback(user, Some(text), prompt), users, svc).effect;
      && effect.Spawn?
      && var o := Run(effect.session.transit, Init(prompt.date, effect.session.minutes, prompt.id), chat, polls,
                      svc.parseTime, true);
         o.Running? ==> 1 <= o.state.updateTime <= 3
  {
    MinuteButtonSpawns(s, user, text, prompt, users, svc);
    var session := Route(s, Callback(user, Some(text), prompt), users, svc).effect.session;
    RunKeepsIntervalBounds(session.transit, Init(prompt.date, session.minutes, prompt.id), chat, polls, svc.parseTime, true);
  }
}
