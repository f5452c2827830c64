/** The optional value used for the fetched system information. */
module Wrappers {
  datatype Option<+T> = None | Some(value: T)
}

/** What the host (the windowing toolkit and the operating system) hands to the router. */
module Host {
  /** The system information record fetched once at start-up; opaque to the router. */
  type Info

  /** Modifier keys held during a key press; the router ignores them. */
  type Modifiers

  /** A named key; only Escape matters to the router, every other named key is lumped together. */
  datatype NamedKey = Escape | OtherNamed(name: string)

  /** A key as the keyboard listener reports it. */
  datatype Key = Named(named: NamedKey) | Character(text: string) | Unidentified
}

/** The assistant capability: a model to boot and the ready assistant it becomes. */
module Assistant {
  type Model
  type Assistant
}

/**
 * The Search screen, seen from the router: its state, messages, tasks and events are
 * opaque, and it reports the effect of each update as an Action.
 */
module SearchScreen {
  import Assistant

  type State
  type Message
  type Task
  type Subscription

  /** Stay, run a task for this screen, or ask to boot the chosen model. */
  datatype Action = None | Run(task: Task) | Boot(model: Assistant.Model)

  /**
   * The screen's operations: `init` is what constructing a fresh Search screen gives
   * (its state and its initial task); `update` returns the updated state and the action.
   */
  datatype Ops = Ops(
    init: (State, Task),
    update: (State, Message) -> (State, Action),
    title: State -> string,
    subscription: State -> Subscription)
}

/** The Boot screen: loads a model, then finishes with an assistant or aborts. */
module BootScreen {
  import opened Wrappers
  import Assistant
  import Host

  type State
  type Message
  type Task
  type Subscription

  /** Stay, run a task for this screen, hand over a ready assistant, or give up. */
  datatype Action = None | Run(task: Task) | Finish(assistant: Assistant.Assistant) | Abort

  /** Constructing a Boot screen needs the chosen model and whatever system information is known. */
  datatype Ops = Ops(
    init: (Assistant.Model, Option<Host.Info>) -> State,
    update: (State, Message) -> (State, Action),
    title: State -> string,
    subscription: State -> Subscription)
}

/** The Conversation screen: talks to a ready assistant until the user goes back. */
module ConversationScreen {
  import Assistant

  type State
  type Message
  type Task

  /** Stay, run a task for this screen, or go back to the search. */
  datatype Action = None | Run(task: Task) | Back

  /** Constructing a Conversation gives its state and an initial task; it has no subscription. */
  datatype Ops = Ops(
    init: Assistant.Assistant -> (State, Task),
    update: (State, Message) -> (State, Action),
    title: State -> string)
}
