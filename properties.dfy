/**
 * What the router promises: the transition table, the dropping of messages meant for an
 * inactive screen, the Escape rule, the system-information record, and what follows for
 * whole runs of messages.
 */
module ChatProperties {
  import opened Wrappers
  import Host
  import Assistant
  import SearchScreen
  import BootScreen
  import ConversationScreen
  import opened App

  /** A screen message whose screen is not the active one. */
  predicate ForInactiveScreen(s: ChatState, m: Message) {
    (m.Search? && !s.screen.Search?)
    || (m.Boot? && !s.screen.Boot?)
    || (m.Conversation? && !s.screen.Conversation?)
  }

  /** The active Search screen answers `m` with its Boot action. */
  predicate ChoosesModel(screens: Screens, s: ChatState, m: Message) {
    s.screen.Search? && m.Search?
    && screens.search.update(s.screen.search, m.searchMessage).1.Boot?
  }

  /** The active Boot screen answers `m` with its Finish action. */
  predicate FinishesBoot(screens: Screens, s: ChatState, m: Message) {
    s.screen.Boot? && m.Boot?
    && screens.boot.update(s.screen.boot, m.bootMessage).1.Finish?
  }

  /** `m` sends a non-Search screen home: Escape, Boot's Abort or Conversation's Back. */
  predicate GoesHome(screens: Screens, s: ChatState, m: Message) {
    (m.Escape? && !s.screen.Search?)
    || (s.screen.Boot? && m.Boot? && screens.boot.update(s.screen.boot, m.bootMessage).1.Abort?)
    || (s.screen.Conversation? && m.Conversation?
        && screens.conversation.update(s.screen.conversation, m.conversationMessage).1.Back?)
  }

  /** A message for a screen that is not active changes nothing and schedules nothing. */
  lemma InactiveScreenMessageDropped(screens: Screens, s: ChatState, m: Message)
    requires ForInactiveScreen(s, m)
    ensures Step(screens, s, m) == (s, NoTask)
  {
  }

  /** The Search screen's actions: stay with its updated state, run a task for it, or boot a model. */
  lemma SearchActions(screens: Screens, s: ChatState, msg: SearchScreen.Message)
    requires s.screen.Search?
    ensures var (next, action) := screens.search.update(s.screen.search, msg);
            var (s', task) := Step(screens, s, Message.Search(msg));
            s'.system == s.system &&
            match action
            case None => s'.screen == Screen.Search(next) && task == NoTask
            case Run(t) => s'.screen == Screen.Search(next) && task == SearchTask(t)
            case Boot(model) => s'.screen == Screen.Boot(screens.boot.init(model, s.system)) && task == NoTask
  {
  }

  /** The Boot screen's actions: stay, run a task, hand over to a Conversation, or go home. */
  lemma BootActions(screens: Screens, s: ChatState, msg: BootScreen.Message)
    requires s.screen.Boot?
    ensures var (next, action) := screens.boot.update(s.screen.boot, msg);
            var (s', task) := Step(screens, s, Message.Boot(msg));
            s'.system == s.system &&
            match action
            case None => s'.screen == Screen.Boot(next) && task == NoTask
            case Run(t) => s'.screen == Screen.Boot(next) && task == BootTask(t)
            case Finish(assistant) =>
              s'.screen == Screen.Conversation(screens.conversation.init(assistant).0)
              && task == ConversationTask(screens.conversation.init(assistant).1)
            case Abort =>
              s'.screen == Screen.Search(screens.search.init.0) && task == SearchTask(screens.search.init.1)
  {
  }

  /** The Conversation screen's actions: stay, run a task, or go home. */
  lemma ConversationActions(screens: Screens, s: ChatState, msg: ConversationScreen.Message)
    requires s.screen.Conversation?
    ensures var (next, action) := screens.conversation.update(s.screen.conversation, msg);
            var (s', task) := Step(screens, s, Message.Conversation(msg));
            s'.system == s.system &&
            match action
            case None => s'.screen == Screen.Conversation(next) && task == NoTask
            case Run(t) => s'.screen == Screen.Conversation(next) && task == ConversationTask(t)
            case Back =>
              s'.screen == Screen.Search(screens.search.init.0) && task == SearchTask(screens.search.init.1)
  {
  }

  /** Escape on the Search screen does nothing. */
  lemma EscapeOnSearchIsNoop(screens: Screens, s: ChatState)
    requires s.screen.Search?
    ensures Step(screens, s, Message.Escape) == (s, NoTask)
  {
  }

  /** Escape anywhere else brings up a freshly constructed Search screen and its initial task. */
  lemma EscapeElsewhereGoesHome(screens: Screens, s: ChatState)
    requires !s.screen.Search?
    ensures Step(screens, s, Message.Escape)
         == (ChatState(Screen.Search(screens.search.init.0), s.system), SearchTask(screens.search.init.1))
  {
  }

  /** Every fetch result is recorded, replacing any earlier one: there is no set-once guard. */
  lemma SystemFetchedOverwrites(screens: Screens, s: ChatState, first: Host.Info, second: Host.Info)
    ensures Run(screens, s, [Message.SystemFetched(first)]).system == Some(first)
    ensures Run(screens, s, [Message.SystemFetched(first), Message.SystemFetched(second)])
         == s.(system := Some(second))
  {
  }

  /** A Boot screen is entered only from Search, by its Boot action, and is built from the chosen model. */
  lemma EntersBootOnlyByModelChoice(screens: Screens, s: ChatState, m: Message)
    ensures (!s.screen.Boot? && Step(screens, s, m).0.screen.Boot?) <==> ChoosesModel(screens, s, m)
    ensures ChoosesModel(screens, s, m) ==>
      var model := screens.search.update(s.screen.search, m.searchMessage).1.model;
      Step(screens, s, m) == (s.(screen := Screen.Boot(screens.boot.init(model, s.system))), NoTask)
  {
  }

  /** A Conversation is entered only from Boot, by its Finish action, and is built from the assistant. */
  lemma EntersConversationOnlyByFinish(screens: Screens, s: ChatState, m: Message)
    ensures (!s.screen.Conversation? && Step(screens, s, m).0.screen.Conversation?) <==> FinishesBoot(screens, s, m)
    ensures FinishesBoot(screens, s, m) ==>
      var (conversation, t) := screens.conversation.init(screens.boot.update(s.screen.boot, m.bootMessage).1.assistant);
      Step(screens, s, m) == (s.(screen := Screen.Conversation(conversation)), ConversationTask(t))
  {
  }

  /**
   * Every other screen change lands on a fresh Search: leaving Boot or Conversation for
   * Search happens exactly by Escape, Abort or Back, and always yields the Search screen's
   * initial state and task.
   */
  lemma ReturnsHomeOnlyByEscapeAbortOrBack(screens: Screens, s: ChatState, m: Message)
    ensures (!s.screen.Search? && Step(screens, s, m).0.screen.Search?) <==> GoesHome(screens, s, m)
    ensures GoesHome(screens, s, m) ==> Step(screens, s, m) == Reset(screens, s)
  {
  }

  /** After Escape leaves Boot, a late message for the abandoned Boot screen is dropped. */
  lemma LateBootMessageDropped(screens: Screens, s: ChatState, msg: BootScreen.Message)
    requires s.screen.Boot?
    ensures var home := Step(screens, s, Message.Escape).0;
            home.screen == Screen.Search(screens.search.init.0)
            && Step(screens, home, Message.Boot(msg)) == (home, NoTask)
  {
  }

  /**
   * On every screen the global key listener turns the named Escape key into `Escape`,
   * whatever the modifiers, and every other key into nothing.
   */
  lemma KeyListenerDeliversOnlyEscape(screens: Screens, screen: Screen, key: Host.Key, modifiers: Host.Modifiers)
    ensures var listener := Subscriptions(screens, screen).subscriptions[1];
            listener.KeyPresses?
            && listener.filter(key, modifiers)
               == if key == Host.Named(Host.Escape) then Some(Message.Escape) else None
  {
  }

  /**
   * No message ever starts a system-information fetch: a step returns no task or a task
   * tagged for one screen, so the fetch issued at start-up is the only one.
   */
  lemma StepNeverFetches(screens: Screens, s: ChatState, m: Message)
    ensures var t := Step(screens, s, m).1;
            t.NoTask? || t.SearchTask? || t.BootTask? || t.ConversationTask?
  {
  }

  /**
   * Over any run, system information is known exactly when it was known at the start or
   * some message in the run delivered it.
   */
  lemma {:induction false} RunSystemKnownIff(screens: Screens, s: ChatState, msgs: seq<Message>)
    ensures Run(screens, s, msgs).system.Some?
        <==> s.system.Some? || exists i :: 0 <= i < |msgs| && msgs[i].SystemFetched?
  {
    if msgs != [] {
      var n := |msgs| - 1;
      var prefix := msgs[..n];
      RunSystemKnownIff(screens, s, prefix);
      if exists i :: 0 <= i < n && prefix[i].SystemFetched? {
        var i :| 0 <= i < n && prefix[i].SystemFetched?;
        assert msgs[i] == prefix[i];
      }
      if exists i :: 0 <= i < |msgs| && msgs[i].SystemFetched? {
        var i :| 0 <= i < |msgs| && msgs[i].SystemFetched?;
        if i < n {
          assert prefix[i] == msgs[i];
        }
      }
    }
  }

  /**
   * Over any run, the recorded system information is the one delivered by the last
   * `SystemFetched` message, or the starting value when no such message arrived.
   */
  lemma {:induction false} RunSystemIsLatestFetch(screens: Screens, s: ChatState, msgs: seq<Message>)
    ensures (forall i :: 0 <= i < |msgs| ==> !msgs[i].SystemFetched?) ==> Run(screens, s, msgs).system == s.system
    ensures forall i :: 0 <= i < |msgs| && msgs[i].SystemFetched?
              && (forall j :: i < j < |msgs| ==> !msgs[j].SystemFetched?)
              ==> Run(screens, s, msgs).system == Some(msgs[i].info)
  {
    if msgs != [] {
      var n := |msgs| - 1;
      var prefix := msgs[..n];
      var before := Run(screens, s, prefix);
      assert Run(screens, s, msgs) == Step(screens, before, msgs[n]).0;
      RunSystemIsLatestFetch(screens, s, prefix);
      forall i | 0 <= i < |msgs| && msgs[i].SystemFetched? && (forall j :: i < j < |msgs| ==> !msgs[j].SystemFetched?)
        ensures Run(screens, s, msgs).system == Some(msgs[i].info)
      {
        if i < n {
          assert !msgs[n].SystemFetched?;
          assert prefix[i] == msgs[i];
          forall j | i < j < n ensures !prefix[j].SystemFetched? {
            assert prefix[j] == msgs[j];
          }
        }
      }
      if forall i :: 0 <= i < |msgs| ==> !msgs[i].SystemFetched? {
        forall i | 0 <= i < n ensures !prefix[i].SystemFetched? {
          assert prefix[i] == msgs[i];
        }
      }
    }
  }

  /** Any run that ends in a Conversation but did not start in one passed through Boot's Finish. */
  lemma {:induction false} ConversationReachedThroughFinish(screens: Screens, s: ChatState, msgs: seq<Message>)
    requires !s.screen.Conversation? && Run(screens, s, msgs).screen.Conversation?
    ensures exists i :: 0 <= i < |msgs| && FinishesBoot(screens, Run(screens, s, msgs[..i]), msgs[i])
  {
    var n := |msgs| - 1;
    var prefix := msgs[..n];
    var before := Run(screens, s, prefix);
    if before.screen.Conversation? {
      ConversationReachedThroughFinish(screens, s, prefix);
      var i :| 0 <= i < n && FinishesBoot(screens, Run(screens, s, prefix[..i]), prefix[i]);
      assert prefix[..i] == msgs[..i];
      assert prefix[i] == msgs[i];
    } else {
      EntersConversationOnlyByFinish(screens, before, msgs[n]);
      assert FinishesBoot(screens, Run(screens, s, msgs[..n]), msgs[n]);
    }
  }

  /** Any run that ends on Boot but did not start there passed through Search's Boot action. */
  lemma {:induction false} BootReachedThroughModelChoice(screens: Screens, s: ChatState, msgs: seq<Message>)
    requires !s.screen.Boot? && Run(screens, s, msgs).screen.Boot?
    ensures exists i :: 0 <= i < |msgs| && ChoosesModel(screens, Run(screens, s, msgs[..i]), msgs[i])
  {
    var n := |msgs| - 1;
    var prefix := msgs[..n];
    var before := Run(screens, s, prefix);
    if before.screen.Boot? {
      BootReachedThroughModelChoice(screens, s, prefix);
      var i :| 0 <= i < n && ChoosesModel(screens, Run(screens, s, prefix[..i]), prefix[i]);
      assert prefix[..i] == msgs[..i];
      assert prefix[i] == msgs[i];
    } else {
      EntersBootOnlyByModelChoice(screens, before, msgs[n]);
      assert ChoosesModel(screens, Run(screens, s, msgs[..n]), msgs[n]);
    }
  }

  /**
   * The whole journey from start-up: choosing a model boots it with no system information
   * yet, finishing the boot opens a Conversation with the assistant, and going back
   * restores the start-up state.
   */
  lemma SearchBootConversationBack(
    screens: Screens,
    choose: SearchScreen.Message, finish: BootScreen.Message, back: ConversationScreen.Message,
    model: Assistant.Model, assistant: Assistant.Assistant)
    requires screens.search.update(screens.search.init.0, choose).1 == SearchScreen.Boot(model)
    requires screens.boot.update(screens.boot.init(model, None), finish).1 == BootScreen.Finish(assistant)
    requires screens.conversation.update(screens.conversation.init(assistant).0, back).1 == ConversationScreen.Back
    ensures var msgs := [Message.Search(choose), Message.Boot(finish), Message.Conversation(back)];
            Run(screens, Initial(screens), msgs[..1]).screen == Screen.Boot(screens.boot.init(model, None))
            && Run(screens, Initial(screens), msgs[..2]).screen
               == Screen.Conversation(screens.conversation.init(assistant).0)
            && Run(screens, Initial(screens), msgs) == Initial(screens)
  {
  }
}
