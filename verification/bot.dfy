/** The bot's event loop: startup picks the one channel the bot is in, then
    each incoming real-time event is handled in feed order. Command messages
    are tokenized, routed by the command framework to a handler whose printer
    posts to the message's channel, and the framework's own buffered text is
    posted fenced afterwards. */
module Bot {
  import opened Outcomes
  import opened Text
  import opened Channels
  import opened Commands

  /** An incoming real-time event: the connection greeting, a chat message,
      or anything else. */
  datatype Event =
    | Hello
    | Message(user: string, channel: string, text: string)
    | OtherEvent

  /** What the command framework makes of an argument vector: the action it
      runs, if any, and the text it writes to its output buffer (usage, help
      or flag errors). */
  datatype Routing = Routing(action: Option<Command>, written: string)

  /** The answers the outside world gives while one event is handled: the
      shell-word tokenizer, the command framework's routing, and the backends
      a command talks to. */
  datatype World = World(
    tokenize: string -> Result<seq<string>>,
    route: seq<string> -> Routing,
    backends: Backends)

  /** A chat message the bot sends. */
  datatype Post = Post(channel: string, text: string)

  /** Everything observable an event causes: messages sent and external
      calls issued, each in order. */
  datatype Effects = Effects(posts: seq<Post>, calls: seq<Call>)

  const NoEffects: Effects := Effects([], [])

  const CommandMarker: string := "!"
  const Greeting: string := "Hi there"
  /** The program name put in front of the tokens before routing. */
  const ProgramName: string := "foo"

  /** The printer a handler is adapted with: every message it is given is
      posted to `channel`. */
  function Deliver(channel: string, texts: seq<string>): (posts: seq<Post>)
    ensures |posts| == |texts|
    ensures forall i :: 0 <= i < |posts| ==> posts[i].channel == channel
    ensures forall i :: 0 <= i < |posts| ==> posts[i].text == texts[i]
  {
    if |texts| == 0 then [] else [Post(channel, texts[0])] + Deliver(channel, texts[1..])
  }

  /** The flush of the captured buffer: one fenced message, and only when
      the framework wrote something. */
  function Flush(buffer: string): (texts: seq<string>)
    ensures |texts| <= 1
    ensures texts == [] <==> buffer == ""
    ensures texts != [] ==> |texts[0]| >= 6 && Unfence(texts[0]) == buffer
    ensures texts != [] ==> texts[0][..3] == Backticks && texts[0][|texts[0]| - 3..] == Backticks
  {
    FenceRoundTrip(buffer);
    if |buffer| > 0 then [Fence(buffer)] else []
  }

  /** A message the event loop turns into a command: not the bot's own, and
      starting with the command marker. */
  predicate IsCommand(bot: string, ev: Event) {
    ev.Message? && ev.user != bot && HasPrefix(ev.text, CommandMarker)
  }

  /** The action the framework would run for a command message, if any. */
  function Action(ev: Event, w: World): Option<Command>
    requires ev.Message?
  {
    match w.tokenize(TrimPrefix(ev.text, CommandMarker))
    case Err(_) => None
    case Ok(tokens) => w.route([ProgramName] + tokens).action
  }

  /** What handling `ev` needs of the world: if it runs the deploy command,
      the first SHA present is long enough to shorten. */
  predicate Handleable(bot: string, ev: Event, w: World) {
    IsCommand(bot, ev) && Action(ev, w).Some? ==> Runnable(Action(ev, w).value, w.backends)
  }

  const NamespaceOption: string := "--namespace"

  /** A token the framework may read as an application-level flag (or the
      `--` that ends them) rather than as a command name. */
  predicate FlagLike(token: string) {
    |token| > 0 && token[0] == '-'
  }

  /** The command table the bot gives the framework: `deploy` runs the
      deploy action, `pods` the pods action with its `namespace` flag (empty
      when absent), a bare program name runs nothing (the framework shows
      help), and so does a first token that is neither a flag nor a table
      entry. Command lines led by application flags, other flag spellings
      and usage text are the framework's. */
  ghost predicate TableRouting(route: seq<string> -> Routing) {
    && route([ProgramName]).action.None?
    && route([ProgramName, "deploy"]).action == Some(Deploy)
    && route([ProgramName, "pods"]).action == Some(Pods(""))
    && (forall n :: route([ProgramName, "pods", NamespaceOption, n]).action == Some(Pods(n)))
    && (forall args :: |args| >= 2 && !FlagLike(args[1]) && args[1] != "pods" && args[1] != "deploy" ==>
          route(args).action.None?)
  }

  /** Handles one event of the feed. */
  function HandleEvent(bot: string, active: string, cfg: Config, ev: Event, w: World): (e: Effects)
    requires Handleable(bot, ev, w)
    // the greeting goes to the bot's channel; other events do nothing
    ensures ev.Hello? ==> e == Effects([Post(active, Greeting)], [])
    ensures ev.OtherEvent? ==> e == NoEffects
    // its own messages and plain chat cause nothing at all
    ensures ev.Message? && !IsCommand(bot, ev) ==> e == NoEffects
    // a command is answered in the channel it came from
    ensures ev.Message? ==> forall p :: p in e.posts ==> p.channel == ev.channel
    // nothing is called unless the framework runs a handler
    ensures e.calls != [] ==> IsCommand(bot, ev) && Action(ev, w).Some?
    ensures IsCommand(bot, ev) ==>
      match w.tokenize(TrimPrefix(ev.text, CommandMarker))
      case Err(msg) => e == Effects([Post(ev.channel, "error: " + msg)], [])
      case Ok(tokens) =>
        var routing := w.route([ProgramName] + tokens);
        var flush := Flush(routing.written);
        match routing.action
        case None => e == Effects(Deliver(ev.channel, flush), [])
        case Some(cmd) =>
          var run := Invoke(cmd, cfg, w.backends);
          e == Effects(Deliver(ev.channel, run.emitted + flush), run.calls)
  {
    match ev
    case Hello => Effects([Post(active, Greeting)], [])
    case OtherEvent => NoEffects
    case Message(user, channel, text) =>
      if user == bot || !HasPrefix(text, CommandMarker) then NoEffects
      else match w.tokenize(TrimPrefix(text, CommandMarker))
        case Err(msg) => Effects([Post(channel, "error: " + msg)], [])
        case Ok(tokens) =>
          var routing := w.route([ProgramName] + tokens);
          var run := match routing.action
            case None => Run([], [], None)
            case Some(cmd) => Invoke(cmd, cfg, w.backends);
          Effects(Deliver(channel, run.emitted + Flush(routing.written)), run.calls)
  }

  /** One step of the feed: an event and what the world answers while it
      is handled. */
  datatype Step = Step(ev: Event, world: World)

  /** Every event of the feed can be handled. */
  predicate FeedHandleable(bot: string, steps: seq<Step>) {
    |steps| == 0 || (Handleable(bot, steps[0].ev, steps[0].world) && FeedHandleable(bot, steps[1..]))
  }

  /** Composition of effects, one stretch of the feed after another. */
  function Then(e1: Effects, e2: Effects): Effects {
    Effects(e1.posts + e2.posts, e1.calls + e2.calls)
  }

  /** Some message of the feed came from `channel`. */
  ghost predicate SpokenIn(steps: seq<Step>, channel: string) {
    exists k :: 0 <= k < |steps| && steps[k].ev.Message? && steps[k].ev.channel == channel
  }

  /** The event loop over a finite prefix of the feed: events are handled
      one at a time, in order, and their effects follow one another. */
  function HandleFeed(bot: string, active: string, cfg: Config, steps: seq<Step>): (e: Effects)
    requires FeedHandleable(bot, steps)
    ensures forall p :: p in e.posts ==> p.channel == active || SpokenIn(steps, p.channel)
    decreases |steps|
  {
    if |steps| == 0 then NoEffects
    else
      var first := HandleEvent(bot, active, cfg, steps[0].ev, steps[0].world);
      var rest := HandleFeed(bot, active, cfg, steps[1..]);
      assert forall k :: 0 < k < |steps| ==> steps[k] == steps[1..][k - 1];
      Then(first, rest)
  }

  /** A feed that holds no command for the bot (its own messages, plain
      chat, events other than the greeting) causes nothing: the bot cannot
      trigger itself. */
  lemma {:induction false} QuietFeed(bot: string, active: string, cfg: Config, steps: seq<Step>)
    requires FeedHandleable(bot, steps)
    requires forall k :: 0 <= k < |steps| ==> !steps[k].ev.Hello? && !IsCommand(bot, steps[k].ev)
    ensures HandleFeed(bot, active, cfg, steps) == NoEffects
    decreases |steps|
  {
    if |steps| > 0 {
      assert forall k :: 0 < k < |steps| ==> steps[k] == steps[1..][k - 1];
      QuietFeed(bot, active, cfg, steps[1..]);
    }
  }

  lemma {:induction false} FeedHandleableSplit(bot: string, a: seq<Step>, b: seq<Step>)
    ensures FeedHandleable(bot, a + b) <==> FeedHandleable(bot, a) && FeedHandleable(bot, b)
    decreases |a|
  {
    if |a| == 0 {
      assert a + b == b;
    } else {
      assert (a + b)[0] == a[0];
      assert (a + b)[1..] == a[1..] + b;
      FeedHandleableSplit(bot, a[1..], b);
    }
  }

  /** One step of the loop: the first event's effects come first. */
  lemma FeedUnfold(bot: string, active: string, cfg: Config, steps: seq<Step>)
    requires |steps| > 0 && FeedHandleable(bot, steps)
    ensures FeedHandleable(bot, steps[1..])
    ensures HandleFeed(bot, active, cfg, steps) ==
      Then(HandleEvent(bot, active, cfg, steps[0].ev, steps[0].world), HandleFeed(bot, active, cfg, steps[1..]))
  {
  }

  /** The inductive step of `FeedAppend`. */
  lemma FeedAppendStep(bot: string, active: string, cfg: Config, a: seq<Step>, b: seq<Step>)
    requires |a| > 0 && FeedHandleable(bot, a + b)
    requires FeedHandleable(bot, a[1..]) && FeedHandleable(bot, b) && FeedHandleable(bot, a[1..] + b)
    requires HandleFeed(bot, active, cfg, a[1..] + b) ==
      Then(HandleFeed(bot, active, cfg, a[1..]), HandleFeed(bot, active, cfg, b))
    ensures FeedHandleable(bot, a)
    ensures HandleFeed(bot, active, cfg, a + b) ==
      Then(HandleFeed(bot, active, cfg, a), HandleFeed(bot, active, cfg, b))
  {
    FeedHandleableSplit(bot, a, b);
    FeedUnfoldAppend(bot, active, cfg, a, b);
    FeedUnfold(bot, active, cfg, a);
    ThenAssociative(HandleEvent(bot, active, cfg, a[0].ev, a[0].world),
                    HandleFeed(bot, active, cfg, a[1..]), HandleFeed(bot, active, cfg, b));
  }

  /** Unfolding the loop once over a concatenated feed. */
  lemma FeedUnfoldAppend(bot: string, active: string, cfg: Config, a: seq<Step>, b: seq<Step>)
    requires |a| > 0 && FeedHandleable(bot, a + b)
    ensures Handleable(bot, a[0].ev, a[0].world) && FeedHandleable(bot, a[1..] + b)
    ensures HandleFeed(bot, active, cfg, a + b) ==
      Then(HandleEvent(bot, active, cfg, a[0].ev, a[0].world), HandleFeed(bot, active, cfg, a[1..] + b))
  {
    var ab := a + b;
    assert ab[1..] == a[1..] + b;
    assert ab[0] == a[0];
  }

  lemma ThenAssociative(e1: Effects, e2: Effects, e3: Effects)
    ensures Then(e1, Then(e2, e3)) == Then(Then(e1, e2), e3)
  {
  }

  /** Feeds compose: handling two stretches of the feed one after the other
      is handling their concatenation. */
  lemma {:induction false} FeedAppend(bot: string, active: string, cfg: Config, a: seq<Step>, b: seq<Step>)
    requires FeedHandleable(bot, a + b)
    ensures FeedHandleable(bot, a) && FeedHandleable(bot, b)
    ensures HandleFeed(bot, active, cfg, a + b) ==
      Then(HandleFeed(bot, active, cfg, a), HandleFeed(bot, active, cfg, b))
    decreases |a|
  {
    FeedHandleableSplit(bot, a, b);
    if |a| == 0 {
      assert a + b == b;
    } else {
      assert (a + b)[1..] == a[1..] + b;
      FeedUnfold(bot, active, cfg, a + b);
      FeedAppend(bot, active, cfg, a[1..], b);
      FeedAppendStep(bot, active, cfg, a, b);
    }
  }

  /** The whole run: startup fails, before any event is handled, unless the
      bot is in exactly one listed channel; then the feed is handled with
      that channel as the active one. */
  function Start(bot: string, list: seq<Channel>, cfg: Config, steps: seq<Step>): (r: Result<Effects>)
    requires FeedHandleable(bot, steps)
    ensures r.Err? <==> |Joined(list, bot)| != 1
    ensures r.Err? ==> r.error == NotInOneChannel
    ensures r.Ok? ==>
      exists i :: OnlyMemberAt(list, bot, i) && r.value == HandleFeed(bot, list[i].id, cfg, steps)
  {
    match SelectChannel(list, bot)
    case Err(e) => Err(e)
    case Ok(active) => Ok(HandleFeed(bot, active, cfg, steps))
  }

  /** The text the command framework wrote to the buffer while handling a
      command message ("" when tokenizing failed and nothing was routed). */
  function Buffered(ev: Event, w: World): string
    requires ev.Message?
  {
    match w.tokenize(TrimPrefix(ev.text, CommandMarker))
    case Err(_) => ""
    case Ok(tokens) => w.route([ProgramName] + tokens).written
  }

  /** A failed commit listing or a missing revision is reported to nobody:
      the chat sees only the announcement, and the framework's buffered text
      if it wrote any, and no kubectl command runs. */
  lemma DeployErrorNotPosted(bot: string, active: string, cfg: Config, ev: Event, w: World)
    requires IsCommand(bot, ev) && Action(ev, w) == Some(Deploy) && Handleable(bot, ev, w)
    requires w.backends.commits.Err? || NoSha(w.backends.commits.value)
    ensures HandleEvent(bot, active, cfg, ev, w) ==
      Effects(Deliver(ev.channel, [AboutToDeploy] + Flush(Buffered(ev, w))),
              [ListCommits(cfg.githubOrg, cfg.githubRepo)])
  {
  }

  /** A command message the table routes to `cmd`: the handler's messages
      then the flushed buffer go to the message's channel, and the handler's
      calls are the event's calls. */
  lemma RoutedCommand(bot: string, active: string, cfg: Config, ev: Event, w: World, cmd: Command)
    requires IsCommand(bot, ev) && Action(ev, w) == Some(cmd) && Runnable(cmd, w.backends)
    ensures Handleable(bot, ev, w)
    ensures var run := Invoke(cmd, cfg, w.backends);
      HandleEvent(bot, active, cfg, ev, w) == Effects(Deliver(ev.channel, run.emitted + Flush(Buffered(ev, w))), run.calls)
  {
  }

  /** The table routes `!deploy` to the deploy action. */
  lemma TableRoutesDeploy(ev: Event, w: World)
    requires ev.Message? && TableRouting(w.route)
    requires w.tokenize(TrimPrefix(ev.text, CommandMarker)) == Ok(["deploy"])
    ensures Action(ev, w) == Some(Deploy)
  {
    assert [ProgramName] + ["deploy"] == [ProgramName, "deploy"];
  }

  /** The table routes `!pods` and `!pods --namespace n` to the pods action
      for "" and for `n`. */
  lemma TableRoutesPods(ev: Event, w: World, n: string)
    requires ev.Message? && TableRouting(w.route)
    requires w.tokenize(TrimPrefix(ev.text, CommandMarker)) in {Ok(["pods"]), Ok(["pods", NamespaceOption, n])}
    ensures Action(ev, w) ==
      Some(Pods(if w.tokenize(TrimPrefix(ev.text, CommandMarker)) == Ok(["pods"]) then "" else n))
  {
    assert [ProgramName] + ["pods"] == [ProgramName, "pods"];
    assert [ProgramName] + ["pods", NamespaceOption, n] == [ProgramName, "pods", NamespaceOption, n];
  }

  /** The table runs nothing for a bare `!` or for any other command name
      that is not a flag. */
  lemma TableRejectsOthers(ev: Event, w: World)
    requires ev.Message? && TableRouting(w.route)
    requires w.tokenize(TrimPrefix(ev.text, CommandMarker)).Ok?
    requires var tokens := w.tokenize(TrimPrefix(ev.text, CommandMarker)).value;
      |tokens| == 0 || (!FlagLike(tokens[0]) && tokens[0] != "pods" && tokens[0] != "deploy")
    ensures Action(ev, w).None?
  {
    var tokens := w.tokenize(TrimPrefix(ev.text, CommandMarker)).value;
    if |tokens| == 0 {
      assert [ProgramName] + tokens == [ProgramName];
    } else {
      assert ([ProgramName] + tokens)[1] == tokens[0];
    }
  }

  /** A command message the framework runs nothing for: no external call,
      and the chat sees only the framework's buffer, fenced, if it wrote any. */
  lemma UnroutedCommand(bot: string, active: string, cfg: Config, ev: Event, w: World)
    requires IsCommand(bot, ev) && w.tokenize(TrimPrefix(ev.text, CommandMarker)).Ok? && Action(ev, w).None?
    ensures Handleable(bot, ev, w)
    ensures HandleEvent(bot, active, cfg, ev, w) == Effects(Deliver(ev.channel, Flush(Buffered(ev, w))), [])
  {
  }

  /** `!deploy` from someone else runs the deploy command, with every
      message it sends posted to the message's channel, followed by the
      framework's buffer if it wrote any. */
  lemma DeployMessageDeploys(bot: string, active: string, cfg: Config, ev: Event, w: World)
    requires IsCommand(bot, ev) && TableRouting(w.route)
    requires w.tokenize(TrimPrefix(ev.text, CommandMarker)) == Ok(["deploy"])
    requires w.backends.commits.Ok? ==> ShaSliceable(w.backends.commits.value)
    ensures Action(ev, w) == Some(Deploy) && Handleable(bot, ev, w)
    ensures var run := DeployCmd(cfg, w.backends.commits, w.backends.cluster);
      HandleEvent(bot, active, cfg, ev, w) == Effects(Deliver(ev.channel, run.emitted + Flush(Buffered(ev, w))), run.calls)
  {
    TableRoutesDeploy(ev, w);
    RoutedCommand(bot, active, cfg, ev, w, Deploy);
    assert Invoke(Deploy, cfg, w.backends) == DeployCmd(cfg, w.backends.commits, w.backends.cluster);
  }

  /** `!pods`, with or without `--namespace n`, runs the pods command for
      that namespace ("" when the flag is absent). */
  lemma PodsMessageListsPods(bot: string, active: string, cfg: Config, ev: Event, w: World, n: string)
    requires IsCommand(bot, ev) && TableRouting(w.route)
    requires w.tokenize(TrimPrefix(ev.text, CommandMarker)) in {Ok(["pods"]), Ok(["pods", NamespaceOption, n])}
    ensures var namespace := if w.tokenize(TrimPrefix(ev.text, CommandMarker)) == Ok(["pods"]) then "" else n;
      && Action(ev, w) == Some(Pods(namespace))
      && Handleable(bot, ev, w)
      && var run := PodsCmd(namespace, w.backends.cluster);
         HandleEvent(bot, active, cfg, ev, w) == Effects(Deliver(ev.channel, run.emitted + Flush(Buffered(ev, w))), run.calls)
  {
    var namespace := if w.tokenize(TrimPrefix(ev.text, CommandMarker)) == Ok(["pods"]) then "" else n;
    TableRoutesPods(ev, w, n);
    RoutedCommand(bot, active, cfg, ev, w, Pods(namespace));
    assert Invoke(Pods(namespace), cfg, w.backends) == PodsCmd(namespace, w.backends.cluster);
  }

  /** A bare `!`, or any other command name that is not a flag, runs no
      handler. */
  lemma UnknownCommandRunsNothing(bot: string, active: string, cfg: Config, ev: Event, w: World)
    requires IsCommand(bot, ev) && TableRouting(w.route)
    requires w.tokenize(TrimPrefix(ev.text, CommandMarker)).Ok?
    requires var tokens := w.tokenize(TrimPrefix(ev.text, CommandMarker)).value;
      |tokens| == 0 || (!FlagLike(tokens[0]) && tokens[0] != "pods" && tokens[0] != "deploy")
    ensures Action(ev, w).None? && Handleable(bot, ev, w)
    ensures HandleEvent(bot, active, cfg, ev, w) == Effects(Deliver(ev.channel, Flush(Buffered(ev, w))), [])
  {
    TableRejectsOthers(ev, w);
    UnroutedCommand(bot, active, cfg, ev, w);
  }
}
