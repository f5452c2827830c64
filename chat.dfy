/**
 * The top-level screen router of the chat client: one active screen (Search, Boot or
 * Conversation) plus the optional system information, a transition function over that
 * state, the pure projections (title, subscription, hotkey filter) and the `Chat` object
 * whose `Update` changes its fields in place.
 */
module App {
  import opened Wrappers
  import Host
  import SearchScreen
  import BootScreen
  import ConversationScreen

  /** Exactly one screen is alive at any time. */
  datatype Screen =
    | Search(search: SearchScreen.State)
    | Boot(boot: BootScreen.State)
    | Conversation(conversation: ConversationScreen.State)

  /** A message for one screen, the fetched system information, or the global Escape hotkey. */
  datatype Message =
    | Search(searchMessage: SearchScreen.Message)
    | Boot(bootMessage: BootScreen.Message)
    | Conversation(conversationMessage: ConversationScreen.Message)
    | SystemFetched(info: Host.Info)
    | Escape

  /**
   * Follow-up work handed back to the runtime. A screen task is tagged with the screen
   * kind its completion message is routed to; `FetchSystem` is the system-information
   * fetch whose result comes back as `SystemFetched`.
   */
  datatype Task =
    | NoTask
    | SearchTask(searchTask: SearchScreen.Task)
    | BootTask(bootTask: BootScreen.Task)
    | ConversationTask(conversationTask: ConversationScreen.Task)
    | FetchSystem
    | Batch(tasks: seq<Task>)

  /**
   * Standing event sources: a screen's own, the global key-press listener with the filter
   * that turns a key press into a message (or into nothing), or several.
   */
  datatype Subscription =
    | NoSubscription
    | SearchEvents(searchEvents: SearchScreen.Subscription)
    | BootEvents(bootEvents: BootScreen.Subscription)
    | KeyPresses(filter: (Host.Key, Host.Modifiers) -> Option<Message>)
    | Batch(subscriptions: seq<Subscription>)

  /** The three screens' operations, which the router only calls. */
  datatype Screens = Screens(
    search: SearchScreen.Ops,
    boot: BootScreen.Ops,
    conversation: ConversationScreen.Ops)

  /** The router's whole state, as a value. */
  datatype ChatState = ChatState(screen: Screen, system: Option<Host.Info>)

  /** The allowed screen changes: Search to Boot, Boot to Conversation, anything back to Search. */
  predicate Route(from: Screen, to: Screen) {
    match to
    case Search(_) => true
    case Boot(_) => from.Search? || from.Boot?
    case Conversation(_) => from.Boot? || from.Conversation?
  }

  /** The state the application starts in: a fresh Search screen and no system information. */
  function Initial(screens: Screens): ChatState {
    ChatState(Screen.Search(screens.search.init.0), None)
  }

  /** Going home: a freshly constructed Search screen and its initial task. */
  function Reset(screens: Screens, s: ChatState): (r: (ChatState, Task))
    ensures r.0.screen.Search? && r.0.system == s.system
    ensures r.0.screen.search == screens.search.init.0
    ensures r.1 == SearchTask(screens.search.init.1)
  {
    (s.(screen := Screen.Search(screens.search.init.0)), SearchTask(screens.search.init.1))
  }

  /**
   * Handling one message: a screen message reaches its screen only when that screen is
   * active, and the action it returns decides whether to stay, run a task or switch.
   */
  function Step(screens: Screens, s: ChatState, m: Message): (r: (ChatState, Task))
    ensures Route(s.screen, r.0.screen)
    ensures !m.SystemFetched? ==> r.0.system == s.system
    ensures m.SystemFetched? ==> r.0 == s.(system := Some(m.info)) && r.1 == NoTask
  {
    match m
    case Search(msg) =>
      if s.screen.Search? then
        var (next, action) := screens.search.update(s.screen.search, msg);
        match action
        case None => (s.(screen := Screen.Search(next)), NoTask)
        case Run(t) => (s.(screen := Screen.Search(next)), SearchTask(t))
        case Boot(model) => (s.(screen := Screen.Boot(screens.boot.init(model, s.system))), NoTask)
      else (s, NoTask)
    case Boot(msg) =>
      if s.screen.Boot? then
        var (next, action) := screens.boot.update(s.screen.boot, msg);
        match action
        case None => (s.(screen := Screen.Boot(next)), NoTask)
        case Run(t) => (s.(screen := Screen.Boot(next)), BootTask(t))
        case Finish(assistant) =>
          var (conversation, t) := screens.conversation.init(assistant);
          (s.(screen := Screen.Conversation(conversation)), ConversationTask(t))
        case Abort => Reset(screens, s)
      else (s, NoTask)
    case Conversation(msg) =>
      if s.screen.Conversation? then
        var (next, action) := screens.conversation.update(s.screen.conversation, msg);
        match action
        case None => (s.(screen := Screen.Conversation(next)), NoTask)
        case Run(t) => (s.(screen := Screen.Conversation(next)), ConversationTask(t))
        case Back => Reset(screens, s)
      else (s, NoTask)
    case SystemFetched(info) => (s.(system := Some(info)), NoTask)
    case Escape => if s.screen.Search? then (s, NoTask) else Reset(screens, s)
  }

  /** The state after handling `msgs` in order, starting from `s`. */
  function Run(screens: Screens, s: ChatState, msgs: seq<Message>): ChatState
  {
    if msgs == [] then s
    else Step(screens, Run(screens, s, msgs[..|msgs| - 1]), msgs[|msgs| - 1]).0
  }

  /** The window title is the active screen's own title. */
  function Title(screens: Screens, screen: Screen): (r: string)
    ensures screen.Search? ==> r == screens.search.title(screen.search)
    ensures screen.Boot? ==> r == screens.boot.title(screen.boot)
    ensures screen.Conversation? ==> r == screens.conversation.title(screen.conversation)
  {
    match screen
    case Search(search) => screens.search.title(search)
    case Boot(boot) => screens.boot.title(boot)
    case Conversation(conversation) => screens.conversation.title(conversation)
  }

  /** The global hotkey filter: only the named Escape key becomes a message. */
  function Hotkey(key: Host.Key, modifiers: Host.Modifiers): (r: Option<Message>)
    ensures r.Some? <==> key == Host.Named(Host.Escape)
    ensures r.Some? ==> r.value == Message.Escape
  {
    match key
    case Named(Escape) => Some(Message.Escape)
    case _ => None
  }

  /**
   * The event sources: the active screen's own (Conversation has none) merged with the
   * global key-press listener, whose filter is `Hotkey`.
   */
  function Subscriptions(screens: Screens, screen: Screen): (r: Subscription)
    ensures r.Batch? && |r.subscriptions| == 2 && r.subscriptions[1] == KeyPresses(Hotkey)
    ensures r.subscriptions[0] == NoSubscription <==> screen.Conversation?
    ensures screen.Search? ==> r.subscriptions[0] == SearchEvents(screens.search.subscription(screen.search))
    ensures screen.Boot? ==> r.subscriptions[0] == BootEvents(screens.boot.subscription(screen.boot))
  {
    var own := match screen
      case Search(search) => SearchEvents(screens.search.subscription(search))
      case Boot(boot) => BootEvents(screens.boot.subscription(boot))
      case Conversation(_) => NoSubscription;
    Subscription.Batch([own, KeyPresses(Hotkey)])
  }

  /** The application object: the active screen and the system information, updated in place. */
  class Chat {
    var screen: Screen
    var system: Option<Host.Info>

    function State(): ChatState
      reads this
    {
      ChatState(screen, system)
    }

    constructor (screen: Screen, system: Option<Host.Info>)
      ensures State() == ChatState(screen, system)
    {
      this.screen := screen;
      this.system := system;
    }

    /**
     * Start-up: a fresh Search screen, no system information yet, and a batch of the
     * system-information fetch and the Search screen's initial task.
     */
    static method New(screens: Screens) returns (chat: Chat, task: Task)
      ensures fresh(chat)
      ensures chat.State() == Initial(screens)
      ensures task == Task.Batch([FetchSystem, SearchTask(screens.search.init.1)])
    {
      var (search, t) := screens.search.init;
      chat := new Chat(Screen.Search(search), None);
      task := Task.Batch([FetchSystem, SearchTask(t)]);
    }

    /** Handles one message in place; the new state and the returned task are those of `Step`. */
    method Update(screens: Screens, message: Message) returns (task: Task)
      modifies this
      ensures (State(), task) == Step(screens, old(State()), message)
    {
      match message
      case Search(msg) =>
        if screen.Search? {
          var (next, action) := screens.search.update(screen.search, msg);
          screen := Screen.Search(next);
          match action
          case None =>
            task := NoTask;
          case Run(t) =>
            task := SearchTask(t);
          case Boot(model) =>
            screen := Screen.Boot(screens.boot.init(model, system));
            task := NoTask;
        } else {
          task := NoTask;
        }
      case Boot(msg) =>
        if screen.Boot? {
          var (next, action) := screens.boot.update(screen.boot, msg);
          screen := Screen.Boot(next);
          match action
          case None =>
            task := NoTask;
          case Run(t) =>
            task := BootTask(t);
          case Finish(assistant) =>
            var (conversation, t) := screens.conversation.init(assistant);
            screen := Screen.Conversation(conversation);
            task := ConversationTask(t);
          case Abort =>
            task := ResetSearch(screens);
        } else {
          task := NoTask;
        }
      case Conversation(msg) =>
        if screen.Conversation? {
          var (next, action) := screens.conversation.update(screen.conversation, msg);
          screen := Screen.Conversation(next);
          match action
          case None =>
            task := NoTask;
          case Run(t) =>
            task := ConversationTask(t);
          case Back =>
            task := ResetSearch(screens);
        } else {
          task := NoTask;
        }
      case SystemFetched(info) =>
        system := Some(info);
        task := NoTask;
      case Escape =>
        if screen.Search? {
          task := NoTask;
        } else {
          task := ResetSearch(screens);
        }
    }

    /** Replaces the active screen with a freshly constructed Search screen and returns its initial task. */
    method ResetSearch(screens: Screens) returns (task: Task)
      modifies this
      ensures (State(), task) == Reset(screens, old(State()))
    {
      var (search, t) := screens.search.init;
      screen := Screen.Search(search);
      task := SearchTask(t);
    }
  }
}
