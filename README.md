# Screen router of the icebreaker chat client

This project models `Chat`, the top-level coordinator of a desktop chat client for a local
AI assistant. The client has three screens: Search (choose a model), Boot (load it) and
Conversation (talk to the assistant). `Chat` owns exactly one active screen and, optionally,
the system information fetched at start-up. It routes each tagged message to its screen
only when that screen is active. It reads the `Action` the screen returns and then either
stays, hands back a follow-up task tagged for that screen, or replaces the screen with a
freshly built one. The routes are Search → Boot → Conversation. Escape, Boot's Abort and
Conversation's Back all lead back to a new Search screen.

Files:

- `collaborators.dfy`: what the router sees of its collaborators. The host's system
  information, keys and modifiers are in `Host`. The model and ready assistant are in
  `Assistant`. Each screen module (`SearchScreen`, `BootScreen`, `ConversationScreen`) has
  opaque state, message and task types (Search and Boot also a subscription type), its
  `Action` variants, and an `Ops` bundle of the screen's constructor, `update` and `title`
  (plus `subscription` for Search and Boot).
- `chat.dfy`: module `App`. It holds the `Screen`, `Message`, `Task` and `Subscription`
  datatypes and the transition function `Step` over a `ChatState` value. It also holds the
  pure projections `Title`, `Subscriptions` and `Hotkey`, and the class `Chat`. `Chat`'s
  fields `screen` and `system` are updated in place by `Update` and `ResetSearch`, and
  `Update` is proved to agree with `Step`.
- `properties.dfy`: module `ChatProperties`. It proves the transition table, the dropping
  of messages for an inactive screen, the Escape rule and the system-information record. It
  also proves facts about whole runs of messages (`Run` folds `Step` over a list).

The screens' `update` takes the screen by `&mut`, so the screen's own state changes even
when its action is `None` or `Run`. The model does the same: the screen is replaced by the
updated state the screen's `update` returns. On Search's `Boot` action, that updated Search
state is then discarded for the new Boot screen.

A task that the source maps with `Message::Search` (or `Boot`, `Conversation`) is the value
`SearchTask(t)` (or `BootTask`, `ConversationTask`). `Task::none()` is `NoTask`,
`Task::batch` is `Batch`, and the system-information fetch is `FetchSystem`.

The code has no set-once guard on the system information: every `SystemFetched` message
overwrites the value (src/main.rs:114-118). Only one fetch is started, at start-up
(src/main.rs:47): `StepNeverFetches` shows that no message handling schedules another. `SystemFetchedOverwrites` shows a second fetch replacing the first, and
`RunSystemIsLatestFetch` shows the value is always the latest delivered one.

## Model

| member | source | states |
|---|---|---|
| App.Step | src/main.rs:61-127 | every step follows the route table (Search→Boot, Boot→Conversation, anything→Search, or stay); only `SystemFetched` touches the system information, which it sets to the delivered value with no task |
| App.Chat.Update | src/main.rs:61-127 | the in-place update leaves exactly the state and returns exactly the task that `Step` gives for the old state and the message |
| App.Chat.New | src/main.rs:38-50 | start-up yields a new object on a fresh Search screen with no system information, and a batch of the system-information fetch and the Search screen's initial task tagged for Search |
| App.Chat.ResetSearch | src/main.rs:158-164 | the screen becomes the freshly constructed Search screen, the system information is unchanged, and the result is Search's initial task tagged for Search |
| App.Reset | src/main.rs:158-164 | going home gives the fresh Search screen, keeps the system information, and returns Search's initial task |
| App.Title | src/main.rs:53-59 | the title is the active screen's own title |
| App.Subscriptions | src/main.rs:137-152 | the subscription is a batch of the active screen's own events and the global key listener whose filter is `Hotkey`; the screen part is empty exactly on Conversation |
| App.Hotkey | src/main.rs:146-149 | a key yields a message exactly when it is the named Escape key, and that message is `Escape` |
| ChatProperties.InactiveScreenMessageDropped | src/main.rs:61-113 | a Search, Boot or Conversation message arriving while another screen is active changes nothing and returns no task |
| ChatProperties.SearchActions | src/main.rs:63-80 | on Search: `None` keeps the updated Search state with no task, `Run(t)` keeps it and returns `t` tagged for Search, `Boot(model)` switches to a Boot screen built from the model and the current system information with no task |
| ChatProperties.BootActions | src/main.rs:81-100 | on Boot: `None`/`Run(t)` keep the updated Boot state (returning `t` tagged for Boot), `Finish(a)` switches to the Conversation built from `a` and returns its initial task tagged for Conversation, `Abort` resets to a fresh Search and its initial task |
| ChatProperties.ConversationActions | src/main.rs:101-113 | on Conversation: `None`/`Run(t)` keep the updated Conversation state (returning `t` tagged for Conversation), `Back` resets to a fresh Search and its initial task |
| ChatProperties.EscapeOnSearchIsNoop | src/main.rs:119-121 | Escape on Search leaves the state as it is and returns no task |
| ChatProperties.EscapeElsewhereGoesHome | src/main.rs:119-125 | Escape on Boot or Conversation yields the fresh Search screen, keeps the system information and returns Search's initial task |
| ChatProperties.SystemFetchedOverwrites | src/main.rs:114-118 | a fetch result is recorded, and a second one replaces the first with nothing else changed |
| ChatProperties.EntersBootOnlyByModelChoice | src/main.rs:70-75 | a step enters Boot if and only if the active Search screen answers with `Boot(model)`, and then the Boot screen is built from that model and the current system information, with no task |
| ChatProperties.EntersConversationOnlyByFinish | src/main.rs:88-94 | a step enters Conversation if and only if the active Boot screen answers with `Finish(a)`, and then the screen and task are those of the Conversation built from `a` |
| ChatProperties.ReturnsHomeOnlyByEscapeAbortOrBack | src/main.rs:61-127 | a step goes from Boot or Conversation to Search if and only if it is Escape, Boot's `Abort` or Conversation's `Back`, and then it is exactly the reset to a fresh Search |
| ChatProperties.LateBootMessageDropped | src/main.rs:81-125 | after Escape leaves Boot for a fresh Search, a late message for the abandoned Boot screen is dropped with no task |
| ChatProperties.KeyListenerDeliversOnlyEscape | src/main.rs:146-151 | on every screen the subscribed key listener turns the named Escape key into `Escape` whatever the modifiers, and every other key into nothing |
| ChatProperties.StepNeverFetches | src/main.rs:61-127 | handling any message returns no task or a task tagged for one screen, never a system-information fetch |
| ChatProperties.RunSystemKnownIff | src/main.rs:114-118 | after any run, system information is known if and only if it was known at the start or some message of the run delivered it |
| ChatProperties.RunSystemIsLatestFetch | src/main.rs:114-118 | after any run, the system information is the one from the last `SystemFetched` message, or the starting value when there was none |
| ChatProperties.ConversationReachedThroughFinish | src/main.rs:88-94 | any run that ends on Conversation without starting there contains a step where the active Boot screen answered `Finish` |
| ChatProperties.BootReachedThroughModelChoice | src/main.rs:70-75 | any run that ends on Boot without starting there contains a step where the active Search screen answered `Boot(model)` |
| ChatProperties.SearchBootConversationBack | src/main.rs:61-127 | from start-up, choosing a model boots it with no system information, finishing opens the Conversation with the assistant, and going back restores the start-up state |

## Left out

- `main`, the application builder, font loading and the Windows subsystem attribute (src/main.rs:1, 15-21): framework bootstrapping with no behaviour of the router.
- `view` (src/main.rs:129-135): rendering; it only delegates to the active screen's view and tags its messages, like `Title`.
- `theme` (src/main.rs:154-156): a constant with no behaviour.
- How tasks and subscriptions are executed, and `system::fetch_information`: asynchronous runtime and host I/O in the UI toolkit. Tasks and subscriptions are opaque tagged values here, and the fetch is the marker `FetchSystem`.
- The internals of the Search, Boot and Conversation screens and of the assistant: they are not part of this model. They are parameters (the `Ops` bundles) that the router only calls.
- App.Hotkey: named keys other than Escape are not told apart (`OtherNamed`), since the filter treats them all alike.
- App.Subscriptions: `Subscription::batch` and `Task::batch` are lists that keep the order the source writes them in; the toolkit runs their members in no set order, and no property here depends on that order.
