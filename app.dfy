/**
 * The update-dispatch pipeline of `base/app.py`: an `Application` holds a
 * command registry, one handler slot per kind of update, an exception
 * handler and an ordered list of middleware. `HandleUpdate` starts the
 * per-update context, parses a leading command from the message, runs every
 * middleware's before-hook, calls at most one handler chosen by a fixed
 * priority, turns exceptions into calls of the exception handler, and then
 * (in a `finally`) runs every after-hook and releases the context.
 *
 * User code is opaque: every handler, hook and callback is an `Fn`, and an
 * `Env` says what calling it does in the update at hand (return normally,
 * raise the end-of-update signal, or raise any other exception). The
 * pipeline's observable behaviour is the trace of `Event`s it produces.
 */
module Pipeline {
  import opened Wrappers
  import opened Strings
  import opened CommandSyntax
  import opened UserCode

  /** The function of a registry entry: the built-in `do_help` or a user function. */
  datatype Func = DoHelp | Py(fn: Fn)

  /** `CommandHandler(name, func, help)`. */
  datatype CommandEntry = CommandEntry(name: string, func: Func, help: Option<string>)

  /** One item of the `commands` dict, keyed by what the decorator was given (possibly `None`). */
  datatype Registered = Registered(key: Option<string>, entry: CommandEntry)

  /**
   * A `Middleware` with its two hooks, or a `CallbackMiddleware` wrapping a
   * callback. `id` is the identity of the `CallbackMiddleware` object: the
   * same instance added twice has the same `id`.
   */
  datatype Middleware = Hooks(before: Fn, after: Fn) | CallbackMiddleware(id: nat, callback: Fn)

  type Payload = nat

  /** A message: its text is `None` for messages without text (a photo, a sticker). */
  datatype Message = Message(text: Option<string>)

  /** An update: which of the eight kinds of content it carries. */
  datatype Update = Update(
    message: Option<Message>,
    editedMessage: Option<Payload>,
    inlineQuery: Option<Payload>,
    chosenInlineResult: Option<Payload>,
    callbackQuery: Option<Payload>,
    channelPost: Option<Payload>,
    editedChannelPost: Option<Payload>)

  /** The kinds of update that have a handler slot. */
  datatype Kind =
    | MessageKind | EditedMessageKind | InlineQueryKind | ChosenInlineResultKind
    | CallbackQueryKind | ChannelPostKind | EditedChannelPostKind

  /** The position of a kind in the order `handle_update` tests them, after a command. */
  function Rank(k: Kind): nat
  {
    match k
    case MessageKind => 0
    case EditedMessageKind => 1
    case InlineQueryKind => 2
    case ChosenInlineResultKind => 3
    case CallbackQueryKind => 4
    case ChannelPostKind => 5
    case EditedChannelPostKind => 6
  }

  predicate Has(u: Update, k: Kind)
  {
    match k
    case MessageKind => u.message.Some?
    case EditedMessageKind => u.editedMessage.Some?
    case InlineQueryKind => u.inlineQuery.Some?
    case ChosenInlineResultKind => u.chosenInlineResult.Some?
    case CallbackQueryKind => u.callbackQuery.Some?
    case ChannelPostKind => u.channelPost.Some?
    case EditedChannelPostKind => u.editedChannelPost.Some?
  }

  /** The handler slots `message_handler` … `edited_channel_post_handler`. */
  datatype Handlers = Handlers(
    message: Option<Fn>,
    editedMessage: Option<Fn>,
    inlineQuery: Option<Fn>,
    chosenInlineResult: Option<Fn>,
    callbackQuery: Option<Fn>,
    channelPost: Option<Fn>,
    editedChannelPost: Option<Fn>)
  {
    function Slot(k: Kind): Option<Fn>
    {
      match k
      case MessageKind => message
      case EditedMessageKind => editedMessage
      case InlineQueryKind => inlineQuery
      case ChosenInlineResultKind => chosenInlineResult
      case CallbackQueryKind => callbackQuery
      case ChannelPostKind => channelPost
      case EditedChannelPostKind => editedChannelPost
    }
  }

  /** What an `Application` holds when an update arrives. */
  datatype Config = Config(
    debug: bool,
    middleware: seq<Middleware>,
    commands: seq<Registered>,
    handlers: Handlers,
    exceptionHandler: Option<Fn>)

  /** The per-update context of `init_local`: the update, the parsed command and the callback results. */
  datatype Context = Context(update: Update, command: Option<Command>, results: map<nat, Fn>)

  /** What the pipeline does, in order, as seen from outside. */
  datatype Event =
    | Init                  // init_local
    | Before(index: nat)    // before-hook of the middleware at this position
    | Handle(func: Func)    // the one handler called for the update
    | Reply(text: string)   // the reply sent by the built-in do_help
    | ExceptionHandler(fn: Fn)
    | LogException
    | ReplyTraceback        // only when debug is set
    | After(index: nat)     // after-hook of the middleware at this position
    | Release               // release_local

  // ---------------------------------------------------------------------------
  // The command registry: an insertion-ordered dict from keys to entries.

  predicate DistinctKeys(cmds: seq<Registered>)
  {
    forall i, j :: 0 <= i < j < |cmds| ==> cmds[i].key != cmds[j].key
  }

  /** Position of `key` in the registry, or `|cmds|` when absent. */
  function IndexOf(cmds: seq<Registered>, key: Option<string>): (i: nat)
    ensures i <= |cmds|
    ensures i < |cmds| ==> cmds[i].key == key
    ensures forall j :: 0 <= j < i ==> cmds[j].key != key
  {
    if cmds == [] then 0
    else if cmds[0].key == key then 0
    else 1 + IndexOf(cmds[1..], key)
  }

  /** `commands.get(key)`. */
  function Lookup(cmds: seq<Registered>, key: Option<string>): (r: Option<CommandEntry>)
    ensures r.Some? <==> exists i :: 0 <= i < |cmds| && cmds[i].key == key
  {
    var i := IndexOf(cmds, key);
    if i < |cmds| then Some(cmds[i].entry) else None
  }

  /**
   * `commands[key] = entry`: the key now maps to the entry, every other key
   * keeps its entry, and the dict grows only when the key is new.
   */
  function Assign(cmds: seq<Registered>, key: Option<string>, entry: CommandEntry): (r: seq<Registered>)
    requires DistinctKeys(cmds)
    ensures DistinctKeys(r)
    ensures Lookup(r, key) == Some(entry)
    ensures forall k :: k != key ==> Lookup(r, k) == Lookup(cmds, k)
    ensures |r| == if Lookup(cmds, key).Some? then |cmds| else |cmds| + 1
  {
    var i := IndexOf(cmds, key);
    var r := if i < |cmds| then cmds[i := Registered(key, entry)] else cmds + [Registered(key, entry)];
    assert r[i].key == key;
    forall k | k != key ensures Lookup(r, k) == Lookup(cmds, k) {
      var j := IndexOf(cmds, k);
      if j < |cmds| {
        assert r[j] == cmds[j];
        assert IndexOf(r, k) == j;
      } else {
        assert forall m :: 0 <= m < |r| ==> r[m].key != k;
      }
    }
    r
  }

  /** The entry the registry starts with. */
  const HelpEntry: CommandEntry := CommandEntry("help", DoHelp, Some("Show this help."))

  /** One line of the help listing. */
  function HelpLine(e: CommandEntry): string
  {
    "/" + e.name + (if Truthy(e.help) then " -- " + e.help.value else "")
  }

  function HelpLines(cmds: seq<Registered>): (lines: seq<string>)
    ensures |lines| == |cmds|
    ensures forall i :: 0 <= i < |cmds| ==> lines[i] == HelpLine(cmds[i].entry)
  {
    if cmds == [] then [] else [HelpLine(cmds[0].entry)] + HelpLines(cmds[1..])
  }

  const HelpHeader: string := "Available commands:"

  /** The text `do_help` replies with. */
  function HelpText(cmds: seq<Registered>): string
  {
    Join([HelpHeader] + Sort(HelpLines(cmds)), "\n")
  }

  /**
   * The help listing is the header followed by one line per registered
   * command, in ascending order; two registries holding the same entries in
   * any order give the same listing.
   */
  lemma {:induction false} HelpListing(cmds: seq<Registered>, others: seq<Registered>)
    requires multiset(others) == multiset(cmds)
    ensures var body := Sort(HelpLines(cmds));
      && Sorted(body)
      && multiset(body) == multiset(HelpLines(cmds))
      && |body| == |cmds|
      && HelpText(others) == HelpText(cmds)
  {
    var body := Sort(HelpLines(cmds));
    assert |body| == |multiset(body)| == |multiset(HelpLines(cmds))| == |cmds|;
    LinesFollowEntries(cmds, others);
    SortIgnoresOrder(HelpLines(others), HelpLines(cmds));
  }

  lemma {:induction false} LinesFollowEntries(a: seq<Registered>, b: seq<Registered>)
    requires multiset(a) == multiset(b)
    ensures multiset(HelpLines(a)) == multiset(HelpLines(b))
    decreases |a|
  {
    if a == [] {
      assert |b| == |multiset(b)| == 0;
    } else {
      LinesFront(a);
      assert a[0] in multiset(b);
      var j :| 0 <= j < |b| && b[j] == a[0];
      RemoveAt(b, j);
      LinesFollowEntries(a[1..], b[..j] + b[j + 1..]);
      LinesRemoveAt(b, j);
    }
  }

  lemma LinesFront(a: seq<Registered>)
    requires a != []
    ensures multiset(HelpLines(a)) == multiset(HelpLines(a[1..])) + multiset{HelpLine(a[0].entry)}
    ensures multiset(a[1..]) == multiset(a) - multiset{a[0]}
  {
    assert a == [a[0]] + a[1..];
    assert HelpLines(a) == [HelpLine(a[0].entry)] + HelpLines(a[1..]);
  }

  lemma LinesRemoveAt(s: seq<Registered>, j: nat)
    requires j < |s|
    ensures multiset(HelpLines(s)) == multiset(HelpLines(s[..j] + s[j + 1..])) + multiset{HelpLine(s[j].entry)}
  {
    LinesDropAt(s, j);
    RemoveAt(HelpLines(s), j);
  }

  lemma LinesDropAt(s: seq<Registered>, j: nat)
    requires j < |s|
    ensures HelpLines(s[..j] + s[j + 1..]) == HelpLines(s)[..j] + HelpLines(s)[j + 1..]
  {
    var l := HelpLines(s);
    var t := s[..j] + s[j + 1..];
    var m := HelpLines(t);
    forall i | 0 <= i < |t| ensures m[i] == (l[..j] + l[j + 1..])[i] {
      if i < j { assert t[i] == s[i]; } else { assert t[i] == s[i + 1]; }
    }
  }

  lemma {:induction false} LinesOfConcat(a: seq<Registered>, b: seq<Registered>)
    ensures HelpLines(a + b) == HelpLines(a) + HelpLines(b)
  {
    assert |HelpLines(a + b)| == |HelpLines(a) + HelpLines(b)|;
    forall i | 0 <= i < |a| + |b| ensures HelpLines(a + b)[i] == (HelpLines(a) + HelpLines(b))[i] {
      assert (a + b)[i] == if i < |a| then a[i] else b[i - |a|];
    }
  }

  // ---------------------------------------------------------------------------
  // Routing.

  /** Which handler `handle_update` heads for, by its `if`/`elif` chain. */
  datatype Route = RunCommand(command: Command) | RunKind(kind: Kind) | Idle

  function Select(u: Update, command: Option<Command>): Route
  {
    if command.Some? then RunCommand(command.value)
    else if u.message.Some? then RunKind(MessageKind)
    else if u.editedMessage.Some? then RunKind(EditedMessageKind)
    else if u.inlineQuery.Some? then RunKind(InlineQueryKind)
    else if u.chosenInlineResult.Some? then RunKind(ChosenInlineResultKind)
    else if u.callbackQuery.Some? then RunKind(CallbackQueryKind)
    else if u.channelPost.Some? then RunKind(ChannelPostKind)
    else if u.editedChannelPost.Some? then RunKind(EditedChannelPostKind)
    else Idle
  }

  /** The command `handle_update` parses: only from a message, and only when it has text. */
  function CommandOf(u: Update): Option<Command>
  {
    if u.message.Some? && u.message.value.text.Some? then ParseCommand(u.message.value.text.value) else None
  }

  /** A message without text makes `parse_command` raise before the `try` statement. */
  predicate CrashesEarly(u: Update)
  {
    u.message.Some? && u.message.value.text.None?
  }

  /**
   * A command, which only a message can carry, goes first; otherwise the
   * update goes to the kind of highest priority (lowest `Rank`) that it
   * carries, and to nothing exactly when it carries none.
   */
  lemma SelectFollowsPriority(u: Update)
    ensures CommandOf(u).Some? ==> u.message.Some? && Select(u, CommandOf(u)) == RunCommand(CommandOf(u).value)
    ensures Select(u, CommandOf(u)).RunKind? ==>
      var k := Select(u, CommandOf(u)).kind;
      Has(u, k) && forall k' :: Rank(k') < Rank(k) ==> !Has(u, k')
    ensures Select(u, CommandOf(u)).Idle? <==> forall k :: !Has(u, k)
  {
    var r := Select(u, CommandOf(u));
    if r.RunKind? {
      forall k' | Rank(k') < Rank(r.kind) ensures !Has(u, k') {
        match k'
        case MessageKind =>
        case EditedMessageKind =>
        case InlineQueryKind =>
        case ChosenInlineResultKind =>
        case CallbackQueryKind =>
        case ChannelPostKind =>
        case EditedChannelPostKind =>
      }
    }
    if !r.Idle? {
      assert Has(u, if r.RunKind? then r.kind else MessageKind);
    }
  }

  /** `handle_command` and the `handle_*` slot methods: the function that ends up being called, if any. */
  function Target(cfg: Config, route: Route): Option<Func>
  {
    match route
    case RunCommand(c) =>
      (match Lookup(cfg.commands, Some(c.name))
       case Some(e) => Some(e.func)
       case None => MessageTarget(cfg))
    case RunKind(k) =>
      if cfg.handlers.Slot(k).Some? then Some(Py(cfg.handlers.Slot(k).value)) else None
    case Idle => None
  }

  function MessageTarget(cfg: Config): Option<Func>
  {
    if cfg.handlers.message.Some? then Some(Py(cfg.handlers.message.value)) else None
  }

  /** A parsed name that is a key of the registry runs exactly that key's entry. */
  lemma CommandRouting(cfg: Config, c: Command, e: CommandEntry)
    requires DistinctKeys(cfg.commands)
    requires Registered(Some(c.name), e) in cfg.commands
    ensures Target(cfg, RunCommand(c)) == Some(e.func)
  {
    var i :| 0 <= i < |cfg.commands| && cfg.commands[i] == Registered(Some(c.name), e);
    assert IndexOf(cfg.commands, Some(c.name)) == i;
  }

  /**
   * Any other name runs the message handler, if there is one. An entry
   * registered under the key `None` is therefore never run as a command.
   */
  lemma UnknownCommandIsAMessage(cfg: Config, c: Command)
    requires forall r :: r in cfg.commands ==> r.key != Some(c.name)
    ensures Target(cfg, RunCommand(c)) == MessageTarget(cfg)
  {
    assert Lookup(cfg.commands, Some(c.name)).None?;
  }

  // ---------------------------------------------------------------------------
  // The middleware phases.

  function BeforeFn(m: Middleware): Fn
  {
    match m
    case Hooks(b, _) => b
    case CallbackMiddleware(_, cb) => cb
  }

  /**
   * `callback_middleware_result[self] = self.callback()`, keyed by the
   * middleware's identity. A result that is not callable is recorded as no
   * entry, since the after-hook ignores it; it still replaces an earlier one.
   */
  function Stash(m: Middleware, env: Env, results: map<nat, Fn>): map<nat, Fn>
  {
    match m
    case Hooks(_, _) => results
    case CallbackMiddleware(id, cb) =>
      match env.result(cb)
      case Some(f) => results[id := f]
      case None => results - {id}
  }

  /** The after-hook of a middleware: a `CallbackMiddleware` calls what its callback returned, if callable. */
  function AfterOutcome(m: Middleware, env: Env, results: map<nat, Fn>): Outcome
  {
    match m
    case Hooks(_, a) => env.call(a)
    case CallbackMiddleware(id, _) => if id in results then env.call(results[id]) else Returned
  }

  /** An identity that no `CallbackMiddleware` already added has, as a newly created object's. */
  function NewIdentity(mws: seq<Middleware>): (id: nat)
    ensures forall k :: 0 <= k < |mws| && mws[k].CallbackMiddleware? ==> mws[k].id < id
  {
    if mws == [] then 0
    else
      var rest := NewIdentity(mws[1..]);
      var id := if mws[0].CallbackMiddleware? && mws[0].id >= rest then mws[0].id + 1 else rest;
      assert forall k :: 1 <= k < |mws| ==> mws[k] == mws[1..][k - 1];
      id
  }

  /** One `CallbackMiddleware` added twice keeps one result, which both of its after-hooks call. */
  lemma SharedInstanceSharesResult(m: Middleware, env: Env, f: Fn)
    requires m.CallbackMiddleware? && env.call(m.callback).Returned? && env.result(m.callback) == Some(f)
    ensures var b := RunBefore([m, m], env, 0, map[]);
      && b.results == map[m.id := f]
      && AfterOutcome(m, env, b.results) == env.call(f)
  {
    var once := Stash(m, env, map[]);
    assert once == map[m.id := f];
    assert Stash(m, env, once) == once;
    assert [m, m][0] == m && [m, m][1] == m;
    assert RunBefore([m, m], env, 0, map[]) == RunBefore([m, m], env, 1, once);
    assert RunBefore([m, m], env, 1, once) == RunBefore([m, m], env, 2, once);
  }

  /** How many before-hooks ran, what they stashed, and whether the last one raised. */
  datatype BeforeRun = BeforeRun(ran: nat, results: map<nat, Fn>, outcome: Outcome)

  /** How many before-hooks ran and returned: all that ran, except one that raised. */
  function Stashed(r: BeforeRun): nat
  {
    if r.outcome.Raised? && r.ran > 0 then r.ran - 1 else r.ran
  }

  /** One identity is one object: two `CallbackMiddleware` with the same identity are the same. */
  predicate OneObjectPerIdentity(mws: seq<Middleware>)
  {
    forall j, k ::
      0 <= j < |mws| && 0 <= k < |mws| && mws[j].CallbackMiddleware? && mws[k].CallbackMiddleware? && mws[j].id == mws[k].id
      ==> mws[j] == mws[k]
  }

  /** `@app.middleware` creates a new object, so identities stay one per object. */
  lemma NewMiddlewareKeepsIdentities(mws: seq<Middleware>, f: Fn)
    requires OneObjectPerIdentity(mws)
    ensures OneObjectPerIdentity(mws + [CallbackMiddleware(NewIdentity(mws), f)])
  {
  }

  /** Later stashes of the same object write the same result again. */
  lemma {:induction false} ResultKept(mws: seq<Middleware>, env: Env, i: nat, results: map<nat, Fn>, p: nat)
    requires OneObjectPerIdentity(mws)
    requires i <= |mws| && p < |mws| && mws[p].CallbackMiddleware?
    requires results == Stash(mws[p], env, results)
    ensures var r := RunBefore(mws, env, i, results).results;
      && (mws[p].id in r <==> mws[p].id in results)
      && (mws[p].id in r ==> r[mws[p].id] == results[mws[p].id])
    decreases |mws| - i
  {
    if i < |mws| && env.call(BeforeFn(mws[i])).Returned? {
      var next := Stash(mws[i], env, results);
      if mws[i].CallbackMiddleware? && mws[i].id == mws[p].id {
        assert mws[i] == mws[p];
      }
      assert next == Stash(mws[p], env, next);
      ResultKept(mws, env, i + 1, next, p);
    }
  }

  /** Once a `CallbackMiddleware`'s before-hook returned, the run ends with what its callback returned. */
  lemma {:induction false} StashedFrom(mws: seq<Middleware>, env: Env, i: nat, results: map<nat, Fn>, p: nat)
    requires OneObjectPerIdentity(mws)
    requires i <= p < |mws| && mws[p].CallbackMiddleware?
    requires p < Stashed(RunBefore(mws, env, i, results))
    ensures var r := RunBefore(mws, env, i, results).results;
      && (mws[p].id in r <==> env.result(mws[p].callback).Some?)
      && (mws[p].id in r ==> r[mws[p].id] == env.result(mws[p].callback).value)
    decreases |mws| - i
  {
    var next := Stash(mws[i], env, results);
    assert env.call(BeforeFn(mws[i])).Returned?;
    if i < p {
      StashedFrom(mws, env, i + 1, next, p);
    } else {
      assert Stash(mws[p], env, next) == next;
      ResultKept(mws, env, i + 1, next, p);
    }
  }

  /**
   * `@app.middleware`: when the before-hook of a `CallbackMiddleware` has
   * returned, its after-hook calls what the callback returned if that is
   * callable, and otherwise returns, wherever the middleware sits in the list.
   */
  lemma CallbackResultReachesAfter(mws: seq<Middleware>, env: Env, p: nat)
    requires OneObjectPerIdentity(mws)
    requires p < |mws| && mws[p].CallbackMiddleware?
    requires p < Stashed(RunBefore(mws, env, 0, map[]))
    ensures AfterOutcome(mws[p], env, RunBefore(mws, env, 0, map[]).results)
      == match env.result(mws[p].callback)
         case Some(f) => env.call(f)
         case None => Returned
  {
    StashedFrom(mws, env, 0, map[], p);
  }

  /** Nothing is stashed for an identity whose before-hooks did not return. */
  lemma {:induction false} NothingStashedFrom(mws: seq<Middleware>, env: Env, i: nat, results: map<nat, Fn>, id: nat)
    requires i <= |mws| && id !in results
    requires forall q :: i <= q < Stashed(RunBefore(mws, env, i, results)) && mws[q].CallbackMiddleware? ==> mws[q].id != id
    ensures id !in RunBefore(mws, env, i, results).results
    decreases |mws| - i
  {
    if i < |mws| && env.call(BeforeFn(mws[i])).Returned? {
      NothingStashedFrom(mws, env, i + 1, Stash(mws[i], env, results), id);
    }
  }

  /** A `CallbackMiddleware` none of whose occurrences got through its before-hook calls nothing after. */
  lemma CallbackNotRunIsSilent(mws: seq<Middleware>, env: Env, p: nat)
    requires p < |mws| && mws[p].CallbackMiddleware?
    requires forall q :: 0 <= q < Stashed(RunBefore(mws, env, 0, map[])) && mws[q].CallbackMiddleware? ==> mws[q].id != mws[p].id
    ensures AfterOutcome(mws[p], env, RunBefore(mws, env, 0, map[]).results) == Returned
  {
    NothingStashedFrom(mws, env, 0, map[], mws[p].id);
  }

  /** The before-hooks from position `i` on, in order, stopping at the first that raises. */
  function RunBefore(mws: seq<Middleware>, env: Env, i: nat, results: map<nat, Fn>): (r: BeforeRun)
    requires i <= |mws|
    ensures i <= r.ran <= |mws|
    ensures r.outcome.Returned? <==> r.ran == |mws| && forall j :: i <= j < |mws| ==> env.call(BeforeFn(mws[j])).Returned?
    ensures r.outcome.Raised? ==> i < r.ran && env.call(BeforeFn(mws[r.ran - 1])) == r.outcome
    ensures forall j :: i <= j < r.ran - 1 ==> env.call(BeforeFn(mws[j])).Returned?
    decreases |mws| - i
  {
    if i == |mws| then BeforeRun(i, results, Returned)
    else
      var o := env.call(BeforeFn(mws[i]));
      if o.Raised? then BeforeRun(i + 1, results, o)
      else RunBefore(mws, env, i + 1, Stash(mws[i], env, results))
  }

  datatype AfterRun = AfterRun(ran: nat, outcome: Outcome)

  /** The after-hooks from position `i` on, in order, stopping at the first that raises. */
  function RunAfter(mws: seq<Middleware>, env: Env, results: map<nat, Fn>, i: nat): (r: AfterRun)
    requires i <= |mws|
    ensures i <= r.ran <= |mws|
    ensures r.outcome.Returned? <==> r.ran == |mws| && forall j :: i <= j < |mws| ==> AfterOutcome(mws[j], env, results).Returned?
    ensures r.outcome.Raised? ==> i < r.ran && AfterOutcome(mws[r.ran - 1], env, results) == r.outcome
    ensures forall j :: i <= j < r.ran - 1 ==> AfterOutcome(mws[j], env, results).Returned?
    decreases |mws| - i
  {
    if i == |mws| then AfterRun(i, Returned)
    else
      var o := AfterOutcome(mws[i], env, results);
      if o.Raised? then AfterRun(i + 1, o)
      else RunAfter(mws, env, results, i + 1)
  }

  /** The phase each event belongs to. */
  function Phase(e: Event): nat
  {
    match e
    case Init => 0
    case Before(_) => 1
    case Handle(_) => 2
    case Reply(_) => 2
    case ExceptionHandler(_) => 3
    case LogException => 3
    case ReplyTraceback => 3
    case After(_) => 4
    case Release => 5
  }

  predicate InPhase(s: seq<Event>, k: nat)
  {
    forall i :: 0 <= i < |s| ==> Phase(s[i]) == k
  }

  function Befores(n: nat): (r: seq<Event>)
    ensures |r| == n && InPhase(r, 1)
    ensures forall i :: 0 <= i < n ==> r[i] == Before(i)
  {
    seq(n, i requires 0 <= i < n => Before(i))
  }

  function Afters(n: nat): (r: seq<Event>)
    ensures |r| == n && InPhase(r, 4)
    ensures forall i :: 0 <= i < n ==> r[i] == After(i)
  {
    seq(n, i requires 0 <= i < n => After(i))
  }

  // ---------------------------------------------------------------------------
  // One update, end to end.

  function HandlerEvents(cfg: Config, f: Func): (s: seq<Event>)
    ensures InPhase(s, 2)
  {
    [Handle(f)] + if f == DoHelp then [Reply(HelpText(cfg.commands))] else []
  }

  function HandlerOutcome(env: Env, f: Func): Outcome
  {
    match f
    case DoHelp => Returned
    case Py(g) => env.call(g)
  }

  /** What happens inside the `try` block: the before-hooks, then at most one handler. */
  datatype Body = Body(hooks: BeforeRun, target: Option<Func>, outcome: Outcome)

  function RunBody(cfg: Config, u: Update, env: Env): Body
  {
    var hooks := RunBefore(cfg.middleware, env, 0, map[]);
    var target := if hooks.outcome.Returned? then Target(cfg, Select(u, CommandOf(u))) else None;
    var outcome := if hooks.outcome.Raised? then hooks.outcome
      else if target.Some? then HandlerOutcome(env, target.value) else Returned;
    Body(hooks, target, outcome)
  }

  function TargetEvents(cfg: Config, target: Option<Func>): (s: seq<Event>)
    ensures InPhase(s, 2)
  {
    if target.Some? then HandlerEvents(cfg, target.value) else []
  }

  /** The events of the `except` clauses and the outcome they leave pending. */
  datatype Caught = Caught(events: seq<Event>, pending: Outcome)

  /** `except EndUpdateException: return` / `except BaseException: self.handle_exception(exc)`. */
  function Except(cfg: Config, env: Env, body: Outcome): (c: Caught)
    ensures InPhase(c.events, 3)
  {
    match body
    case Returned => Caught([], Returned)
    case Raised(EndUpdate) => Caught([], Returned)
    case Raised(Error) =>
      match cfg.exceptionHandler
      case Some(h) => Caught([ExceptionHandler(h)], env.call(h))
      case None => Caught([LogException] + (if cfg.debug then [ReplyTraceback] else []), Returned)
  }

  /** The result of handling one update: its events, how it ends, and whether the context was released. */
  datatype Run = Run(events: seq<Event>, outcome: Outcome, released: bool)

  /** `Application.handle_update` as a function of the application, the update and user code. */
  function HandleUpdateSpec(cfg: Config, u: Update, env: Env): Run
  {
    if CrashesEarly(u) then Run([Init], Raised(Error), false)
    else
      var b := RunBody(cfg, u, env);
      var c := Except(cfg, env, b.outcome);
      var a := RunAfter(cfg.middleware, env, b.hooks.results, 0);
      Run([Init] + Befores(b.hooks.ran) + TargetEvents(cfg, b.target) + c.events + Afters(a.ran) + [Release],
          if a.outcome.Raised? then a.outcome else c.pending,
          true)
  }

  // ---------------------------------------------------------------------------
  // Properties of one update.

  function CountHandles(s: seq<Event>): nat
  {
    if s == [] then 0 else (if s[0].Handle? then 1 else 0) + CountHandles(s[1..])
  }

  lemma {:induction false} CountHandlesConcat(a: seq<Event>, b: seq<Event>)
    ensures CountHandles(a + b) == CountHandles(a) + CountHandles(b)
  {
    if a == [] {
      assert a + b == b;
    } else {
      assert (a + b)[1..] == a[1..] + b;
      CountHandlesConcat(a[1..], b);
    }
  }

  lemma {:induction false} NoHandles(s: seq<Event>, k: nat)
    requires InPhase(s, k) && k != 2
    ensures CountHandles(s) == 0
  {
    if s != [] {
      assert Phase(s[0]) == k;
      NoHandles(s[1..], k);
    }
  }

  /**
   * At most one handler runs per update, and one runs exactly when the
   * update reaches the `try` statement, every before-hook returns, and the
   * route leads to a function.
   */
  lemma AtMostOneHandler(cfg: Config, u: Update, env: Env)
    ensures var r := HandleUpdateSpec(cfg, u, env);
      CountHandles(r.events) == if !CrashesEarly(u)
        && RunBefore(cfg.middleware, env, 0, map[]).outcome.Returned?
        && Target(cfg, Select(u, CommandOf(u))).Some? then 1 else 0
  {
    if !CrashesEarly(u) {
      var b := RunBody(cfg, u, env);
      var c := Except(cfg, env, b.outcome);
      var a := RunAfter(cfg.middleware, env, b.hooks.results, 0);
      var h := TargetEvents(cfg, b.target);
      NoHandles([Init], 0);
      NoHandles(Befores(b.hooks.ran), 1);
      NoHandles(c.events, 3);
      NoHandles(Afters(a.ran), 4);
      NoHandles([Release], 5);
      if b.target.Some? {
        assert h == [Handle(b.target.value)] + h[1..];
        assert InPhase(h[1..], 2);
        assert forall i :: 0 <= i < |h[1..]| ==> h[1..][i].Reply?;
        NoReplyHandles(h[1..]);
        CountHandlesConcat([Handle(b.target.value)], h[1..]);
      }
      CountHandlesConcat([Init], Befores(b.hooks.ran));
      CountHandlesConcat([Init] + Befores(b.hooks.ran), h);
      CountHandlesConcat([Init] + Befores(b.hooks.ran) + h, c.events);
      CountHandlesConcat([Init] + Befores(b.hooks.ran) + h + c.events, Afters(a.ran));
      CountHandlesConcat([Init] + Befores(b.hooks.ran) + h + c.events + Afters(a.ran), [Release]);
    }
  }

  lemma {:induction false} NoReplyHandles(s: seq<Event>)
    requires forall i :: 0 <= i < |s| ==> s[i].Reply?
    ensures CountHandles(s) == 0
  {
    if s != [] {
      NoReplyHandles(s[1..]);
    }
  }

  predicate Ordered(s: seq<Event>)
  {
    forall p, q :: 0 <= p < q < |s| ==> Phase(s[p]) <= Phase(s[q])
  }

  predicate PhasesAtMost(s: seq<Event>, k: nat)
  {
    forall i :: 0 <= i < |s| ==> Phase(s[i]) <= k
  }

  lemma Chain(a: seq<Event>, b: seq<Event>, k: nat)
    requires Ordered(a) && PhasesAtMost(a, k) && InPhase(b, k)
    ensures Ordered(a + b) && PhasesAtMost(a + b, k)
  {
    forall p, q | 0 <= p < q < |a + b| ensures Phase((a + b)[p]) <= Phase((a + b)[q]) {
      if q < |a| {
        assert (a + b)[p] == a[p] && (a + b)[q] == a[q];
      } else if p < |a| {
        assert (a + b)[p] == a[p] && (a + b)[q] == b[q - |a|];
      } else {
        assert (a + b)[p] == b[p - |a|] && (a + b)[q] == b[q - |a|];
      }
    }
    forall i | 0 <= i < |a + b| ensures Phase((a + b)[i]) <= k {
      if i < |a| { assert (a + b)[i] == a[i]; } else { assert (a + b)[i] == b[i - |a|]; }
    }
  }

  lemma Regroup(s: seq<Event>, a: seq<Event>, b: seq<Event>, c: seq<Event>, d: seq<Event>)
    ensures s + [Init] + a + b + c + d + [Release] == s + ([Init] + a + b + c + d + [Release])
  {
  }

  lemma Widen(s: seq<Event>, k: nat, k': nat)
    requires PhasesAtMost(s, k) && k <= k'
    ensures PhasesAtMost(s, k')
  {
  }

  /**
   * The phases never interleave: the context is set up first, then the
   * before-hooks, then the handler, then the exception handling, then the
   * after-hooks, and the context is released last.
   */
  lemma PhasesInOrder(cfg: Config, u: Update, env: Env)
    requires !CrashesEarly(u)
    ensures var r := HandleUpdateSpec(cfg, u, env);
      && r.events[0] == Init
      && r.events[|r.events| - 1] == Release
      && Ordered(r.events)
  {
    var b := RunBody(cfg, u, env);
    var c := Except(cfg, env, b.outcome);
    var a := RunAfter(cfg.middleware, env, b.hooks.results, 0);
    var s1 := [Init] + Befores(b.hooks.ran);
    var s2 := s1 + TargetEvents(cfg, b.target);
    var s3 := s2 + c.events;
    var s4 := s3 + Afters(a.ran);
    Chain([Init], Befores(b.hooks.ran), 1);
    Widen(s1, 1, 2);
    Chain(s1, TargetEvents(cfg, b.target), 2);
    Widen(s2, 2, 3);
    Chain(s2, c.events, 3);
    Widen(s3, 3, 4);
    Chain(s3, Afters(a.ran), 4);
    Widen(s4, 4, 5);
    Chain(s4, [Release], 5);
  }

  /**
   * The before-hooks run in registration order, first thing after the
   * context is set up: the event at position `p + 1` is the before-hook of
   * the middleware at position `p`, and no before-hook runs anywhere else.
   */
  lemma BeforeHooksInOrder(cfg: Config, u: Update, env: Env)
    requires !CrashesEarly(u)
    ensures var r := HandleUpdateSpec(cfg, u, env);
      forall p :: 0 <= p < |r.events| && r.events[p].Before? ==> r.events[p] == Before(p - 1)
  {
    var r := HandleUpdateSpec(cfg, u, env);
    var b := RunBody(cfg, u, env);
    var c := Except(cfg, env, b.outcome);
    var a := RunAfter(cfg.middleware, env, b.hooks.results, 0);
    var front := [Init] + Befores(b.hooks.ran);
    var h, x := TargetEvents(cfg, b.target), c.events;
    var rest := h + x + Afters(a.ran) + [Release];
    assert r.events == front + rest;
    RestNoBefore(h, x, a.ran);
    BeforesFirst(b.hooks.ran, rest);
  }

  /** Nothing after the before-hooks is a before-hook. */
  lemma RestNoBefore(h: seq<Event>, x: seq<Event>, n: nat)
    requires InPhase(h, 2) && InPhase(x, 3)
    ensures NoBefore(h + x + Afters(n) + [Release])
  {
    PhaseNoBefore(h, 2);
    PhaseNoBefore(x, 3);
    PhaseNoBefore(Afters(n), 4);
    PhaseNoBefore([Release], 5);
    NoBeforeConcat(h, x);
    NoBeforeConcat(h + x, Afters(n));
    NoBeforeConcat(h + x + Afters(n), [Release]);
  }

  /** After the context is set up, `n` before-hooks in order, then no before-hook. */
  lemma BeforesFirst(n: nat, rest: seq<Event>)
    requires NoBefore(rest)
    ensures var s := [Init] + Befores(n) + rest;
      forall p :: 0 <= p < |s| && s[p].Before? ==> s[p] == Before(p - 1)
  {
    var front := [Init] + Befores(n);
    var s := front + rest;
    forall p | 0 <= p < |s| ensures s[p].Before? ==> s[p] == Before(p - 1) {
      if p < |front| {
        assert s[p] == front[p];
      } else {
        assert s[p] == rest[p - |front|];
      }
    }
  }

  predicate NoBefore(s: seq<Event>)
  {
    forall i :: 0 <= i < |s| ==> !s[i].Before?
  }

  lemma PhaseNoBefore(s: seq<Event>, k: nat)
    requires InPhase(s, k) && k != 1
    ensures NoBefore(s)
  {
    forall i | 0 <= i < |s| ensures !s[i].Before? {
      assert Phase(s[i]) == k;
    }
  }

  lemma NoBeforeConcat(a: seq<Event>, b: seq<Event>)
    requires NoBefore(a) && NoBefore(b)
    ensures NoBefore(a + b)
  {
    forall i | 0 <= i < |a + b| ensures !(a + b)[i].Before? {
      if i < |a| { assert (a + b)[i] == a[i]; } else { assert (a + b)[i] == b[i - |a|]; }
    }
  }

  /**
   * The after-hooks run on every path that reaches the `try` statement,
   * whatever the before-hooks and the handler did: the events end with the
   * after-hooks that ran, in registration order, and the release; every
   * after-hook runs unless one raises; one that raises stops those after it
   * and its exception is the outcome; the context is released all the same.
   */
  lemma AfterHooksAlwaysRun(cfg: Config, u: Update, env: Env)
    requires !CrashesEarly(u)
    ensures var r := HandleUpdateSpec(cfg, u, env);
      var a := RunAfter(cfg.middleware, env, RunBefore(cfg.middleware, env, 0, map[]).results, 0);
      && r.released
      && |r.events| >= a.ran + 1
      && r.events[|r.events| - 1 - a.ran..] == Afters(a.ran) + [Release]
      && (a.ran == |cfg.middleware| || a.outcome.Raised?)
      && (a.outcome.Raised? ==> r.outcome == a.outcome)
  {
    var r := HandleUpdateSpec(cfg, u, env);
    var b := RunBody(cfg, u, env);
    var c := Except(cfg, env, b.outcome);
    var a := RunAfter(cfg.middleware, env, b.hooks.results, 0);
    var front := [Init] + Befores(b.hooks.ran) + TargetEvents(cfg, b.target) + c.events;
    assert r.events == front + (Afters(a.ran) + [Release]);
  }

  /**
   * The end-of-update signal is not an error: wherever it is raised before
   * the after-hooks, the exception handler is not called, nothing is logged,
   * and the update ends normally unless an after-hook raises.
   */
  lemma EndSignalIsNotAnError(cfg: Config, u: Update, env: Env)
    requires !CrashesEarly(u)
    requires RunBody(cfg, u, env).outcome == Raised(EndUpdate)
    ensures var r := HandleUpdateSpec(cfg, u, env);
      && (forall e :: e in r.events ==> Phase(e) != 3)
      && (r.outcome.Raised? <==>
          RunAfter(cfg.middleware, env, RunBefore(cfg.middleware, env, 0, map[]).results, 0).outcome.Raised?)
  {
    var r := HandleUpdateSpec(cfg, u, env);
    var b := RunBody(cfg, u, env);
    var a := RunAfter(cfg.middleware, env, b.hooks.results, 0);
    var front := [Init] + Befores(b.hooks.ran) + TargetEvents(cfg, b.target);
    assert r.events == front + (Afters(a.ran) + [Release]);
    forall e | e in r.events ensures Phase(e) != 3 {
      var p :| 0 <= p < |r.events| && r.events[p] == e;
      if p < |front| {
        assert r.events[p] == front[p];
        if p >= 1 + b.hooks.ran { assert front[p] == TargetEvents(cfg, b.target)[p - 1 - b.hooks.ran]; }
      } else {
        assert r.events[p] == (Afters(a.ran) + [Release])[p - |front|];
      }
    }
  }

  /**
   * Any other exception from a before-hook or the handler goes to the
   * exception handler when one is set; otherwise it is logged, and the
   * traceback is replied only in debug mode.
   */
  lemma ErrorsReachTheExceptionHandler(cfg: Config, u: Update, env: Env)
    requires !CrashesEarly(u)
    requires RunBody(cfg, u, env).outcome == Raised(Error)
    ensures var r := HandleUpdateSpec(cfg, u, env);
      && (cfg.exceptionHandler.Some? ==>
            ExceptionHandler(cfg.exceptionHandler.value) in r.events
            && LogException !in r.events && ReplyTraceback !in r.events)
      && (cfg.exceptionHandler.None? ==>
            LogException in r.events && (ReplyTraceback in r.events <==> cfg.debug))
  {
    var r := HandleUpdateSpec(cfg, u, env);
    var b := RunBody(cfg, u, env);
    var c := Except(cfg, env, Raised(Error));
    var a := RunAfter(cfg.middleware, env, b.hooks.results, 0);
    var front := [Init] + Befores(b.hooks.ran) + TargetEvents(cfg, b.target);
    var back := Afters(a.ran) + [Release];
    assert r.events == front + c.events + back;
    forall e | e in front + back ensures Phase(e) != 3 {
      var p :| 0 <= p < |front + back| && (front + back)[p] == e;
      if p < |front| {
        if p >= 1 + b.hooks.ran { assert front[p] == TargetEvents(cfg, b.target)[p - 1 - b.hooks.ran]; }
      } else {
        assert e == back[p - |front|];
      }
    }
    assert LogException !in front + back && ReplyTraceback !in front + back;
  }

  /** A message without text ends the update at once: no hook runs and the context is not released. */
  lemma TextlessMessageCrashes(cfg: Config, u: Update, env: Env)
    requires CrashesEarly(u)
    ensures HandleUpdateSpec(cfg, u, env) == Run([Init], Raised(Error), false)
  {
  }
  class Application {
    const name: string
    const debug: bool
    var middleware: seq<Middleware>
    var commands: seq<Registered>
    var messageHandler: Option<Fn>
    var editedMessageHandler: Option<Fn>
    var inlineQueryHandler: Option<Fn>
    var chosenInlineResultHandler: Option<Fn>
    var callbackQueryHandler: Option<Fn>
    var channelPostHandler: Option<Fn>
    var editedChannelPostHandler: Option<Fn>
    var exceptionHandler: Option<Fn>
    /** The instance attribute `callback_query` that the decorator of that name sets. */
    var callbackQueryAttribute: Option<Fn>
    /** The per-update context (`g`), present between `init_local` and `release_local`. */
    var local: Option<Context>
    /** What the application has done so far, one event per step. */
    var trace: seq<Event>

    ghost predicate Valid()
      reads this
    {
      && DistinctKeys(commands)
      && callbackQueryHandler.None?
    }

    function Snapshot(): Config
      reads this`middleware, this`commands, this`messageHandler, this`editedMessageHandler,
        this`inlineQueryHandler, this`chosenInlineResultHandler, this`callbackQueryHandler,
        this`channelPostHandler, this`editedChannelPostHandler, this`exceptionHandler
    {
      Config(debug, middleware, commands,
        Handlers(messageHandler, editedMessageHandler, inlineQueryHandler,
          chosenInlineResultHandler, callbackQueryHandler, channelPostHandler,
          editedChannelPostHandler),
        exceptionHandler)
    }

    /** `Application(name, debug)`: no middleware, no handlers, and a registry holding only `help`. */
    constructor (name: string, debug: bool)
      ensures Valid()
      ensures this.name == name && this.debug == debug
      ensures middleware == [] && commands == [Registered(Some("help"), HelpEntry)]
      ensures Lookup(commands, Some("help")) == Some(HelpEntry)
      ensures Snapshot().handlers == Handlers(None, None, None, None, None, None, None)
      ensures exceptionHandler.None? && callbackQueryAttribute.None?
      ensures local.None? && trace == []
    {
      this.name := name;
      this.debug := debug;
      middleware := [];
      commands := [Registered(Some("help"), HelpEntry)];
      messageHandler, editedMessageHandler, inlineQueryHandler := None, None, None;
      chosenInlineResultHandler, callbackQueryHandler := None, None;
      channelPostHandler, editedChannelPostHandler := None, None;
      exceptionHandler, callbackQueryAttribute := None, None;
      local := None;
      trace := [];
      new;
      assert IndexOf(commands, Some("help")) == 0;
    }

    /** `@app.command` applied to a function: registered under the function's name, with its docstring as help. */
    method CommandOfFunction(func: Fn, funcName: string, doc: Option<string>)
      requires Valid()
      modifies this`commands
      ensures Valid()
      ensures commands == Assign(old(commands), Some(funcName), CommandEntry(funcName, Py(func), doc))
    {
      commands := Assign(commands, Some(funcName), CommandEntry(funcName, Py(func), doc));
    }

    /**
     * `@app.command(name, help)`: registered under the key `name` exactly as
     * given (`None` included); the entry is named `name`, or the function's
     * name when `name` is falsy, and its help is `help`, or the docstring
     * when `help` is falsy.
     */
    method CommandNamed(key: Option<string>, help: Option<string>, func: Fn, funcName: string, doc: Option<string>)
      requires Valid()
      modifies this`commands
      ensures Valid()
      ensures commands == Assign(old(commands), key,
        CommandEntry(if Truthy(key) then key.value else funcName, Py(func), if Truthy(help) then help else doc))
    {
      var entryName := if Truthy(key) then key.value else funcName;
      var entryHelp := if Truthy(help) then help else doc;
      commands := Assign(commands, key, CommandEntry(entryName, Py(func), entryHelp));
    }

    method OnMessage(f: Fn)
      modifies this`messageHandler
      ensures messageHandler == Some(f)
    {
      messageHandler := Some(f);
    }

    method OnEditedMessage(f: Fn)
      modifies this`editedMessageHandler
      ensures editedMessageHandler == Some(f)
    {
      editedMessageHandler := Some(f);
    }

    method OnInlineQuery(f: Fn)
      modifies this`inlineQueryHandler
      ensures inlineQueryHandler == Some(f)
    {
      inlineQueryHandler := Some(f);
    }

    method OnChosenInlineResult(f: Fn)
      modifies this`chosenInlineResultHandler
      ensures chosenInlineResultHandler == Some(f)
    {
      chosenInlineResultHandler := Some(f);
    }

    /**
     * `@app.callback_query` stores the function in the attribute
     * `callback_query`, not in the slot `callback_query_handler`, which stays
     * `None`: callback-query updates reach no handler. The attribute then
     * shadows the method, so a second use calls the function stored first
     * (with the new one as its argument) and stores nothing.
     */
    method OnCallbackQuery(f: Fn, env: Env) returns (outcome: Outcome)
      requires Valid()
      modifies this`callbackQueryAttribute
      ensures Valid()
      ensures old(callbackQueryAttribute).None? ==> callbackQueryAttribute == Some(f) && outcome == Returned
      ensures old(callbackQueryAttribute).Some? ==>
        callbackQueryAttribute == old(callbackQueryAttribute) && outcome == env.call(old(callbackQueryAttribute).value)
      ensures Target(Snapshot(), RunKind(CallbackQueryKind)).None?
    {
      match callbackQueryAttribute
      case None =>
        callbackQueryAttribute := Some(f);
        outcome := Returned;
      case Some(stored) =>
        outcome := env.call(stored);
    }

    method OnChannelPost(f: Fn)
      modifies this`channelPostHandler
      ensures channelPostHandler == Some(f)
    {
      channelPostHandler := Some(f);
    }

    method OnEditedChannelPost(f: Fn)
      modifies this`editedChannelPostHandler
      ensures editedChannelPostHandler == Some(f)
    {
      editedChannelPostHandler := Some(f);
    }

    method OnException(f: Fn)
      modifies this`exceptionHandler
      ensures exceptionHandler == Some(f)
    {
      exceptionHandler := Some(f);
    }

    /** `add_middleware`: appended, so hooks run in registration order. */
    method AddMiddleware(m: Middleware)
      modifies this`middleware
      ensures middleware == old(middleware) + [m]
    {
      middleware := middleware + [m];
    }

    /** `@app.middleware`: the function becomes the callback of a new `CallbackMiddleware`. */
    method MiddlewareOfFunction(f: Fn)
      modifies this`middleware
      ensures middleware == old(middleware) + [CallbackMiddleware(NewIdentity(old(middleware)), f)]
    {
      AddMiddleware(CallbackMiddleware(NewIdentity(middleware), f));
    }

    /** `do_help`: the header, then one line per registered command, sorted. */
    method DoHelp() returns (text: string)
      ensures text == HelpText(commands)
    {
      var lines: seq<string> := [];
      for k := 0 to |commands|
        invariant lines == HelpLines(commands[..k])
      {
        assert commands[..k + 1] == commands[..k] + [commands[k]];
        LinesOfConcat(commands[..k], [commands[k]]);
        lines := lines + [HelpLine(commands[k].entry)];
      }
      assert commands[..|commands|] == commands;
      lines := Sort(lines);
      lines := [HelpHeader] + lines;
      text := Join(lines, "\n");
    }

    /** The `for` loop over the before-hooks, inside the `try` block. */
    method RunBeforeHooks(env: Env) returns (hooks: BeforeRun)
      modifies this`trace
      ensures hooks == RunBefore(middleware, env, 0, map[])
      ensures trace == old(trace) + Befores(hooks.ran)
    {
      var results: map<nat, Fn> := map[];
      var outcome: Outcome := Returned;
      var i := 0;
      while i < |middleware| && outcome.Returned?
        invariant 0 <= i <= |middleware|
        invariant trace == old(trace) + Befores(i)
        invariant outcome.Returned? ==> RunBefore(middleware, env, 0, map[]) == RunBefore(middleware, env, i, results)
        invariant outcome.Raised? ==> RunBefore(middleware, env, 0, map[]) == BeforeRun(i, results, outcome)
        decreases |middleware| - i
      {
        assert Befores(i) + [Before(i)] == Befores(i + 1);
        trace := trace + [Before(i)];
        outcome := env.call(BeforeFn(middleware[i]));
        if outcome.Returned? {
          results := Stash(middleware[i], env, results);
        }
        i := i + 1;
      }
      hooks := BeforeRun(i, results, outcome);
    }

    /** `handle_message` … `handle_edited_channel_post`: call the slot's function, if it is set. */
    method HandleKind(k: Kind, env: Env) returns (target: Option<Func>, outcome: Outcome)
      modifies this`trace
      ensures target == Target(Snapshot(), RunKind(k))
      ensures trace == old(trace) + TargetEvents(Snapshot(), target)
      ensures outcome == if target.Some? then HandlerOutcome(env, target.value) else Returned
    {
      var slot := match k
        case MessageKind => messageHandler
        case EditedMessageKind => editedMessageHandler
        case InlineQueryKind => inlineQueryHandler
        case ChosenInlineResultKind => chosenInlineResultHandler
        case CallbackQueryKind => callbackQueryHandler
        case ChannelPostKind => channelPostHandler
        case EditedChannelPostKind => editedChannelPostHandler;
      target, outcome := None, Returned;
      if slot.Some? {
        target := Some(Py(slot.value));
        trace := trace + [Handle(target.value)];
        outcome := env.call(slot.value);
      }
    }

    /** `handle_command`: the registered function of that name, or else `handle_message`. */
    method HandleCommand(c: Command, env: Env) returns (target: Option<Func>, outcome: Outcome)
      modifies this`trace
      ensures target == Target(Snapshot(), RunCommand(c))
      ensures trace == old(trace) + TargetEvents(Snapshot(), target)
      ensures outcome == if target.Some? then HandlerOutcome(env, target.value) else Returned
    {
      var entry := Lookup(commands, Some(c.name));
      if entry.Some? {
        target := Some(entry.value.func);
        trace := trace + [Handle(entry.value.func)];
        match entry.value.func
        case DoHelp =>
          var text := DoHelp();
          trace := trace + [Reply(text)];
          outcome := Returned;
        case Py(f) =>
          outcome := env.call(f);
      } else {
        target, outcome := HandleKind(MessageKind, env);
      }
    }

    /** `handle_exception`: the exception handler if one is set, else a log entry and, in debug mode, the traceback as a reply. */
    method HandleException(env: Env) returns (pending: Outcome)
      modifies this`trace
      ensures var c := Except(Snapshot(), env, Raised(Error));
        trace == old(trace) + c.events && pending == c.pending
    {
      pending := Returned;
      match exceptionHandler
      case Some(h) =>
        trace := trace + [ExceptionHandler(h)];
        pending := env.call(h);
      case None =>
        trace := trace + [LogException];
        if debug {
          trace := trace + [ReplyTraceback];
        }
    }

    /** The `for` loop over the after-hooks, inside the `finally` clause. */
    method RunAfterHooks(env: Env, results: map<nat, Fn>) returns (after: AfterRun)
      modifies this`trace
      ensures after == RunAfter(middleware, env, results, 0)
      ensures trace == old(trace) + Afters(after.ran)
    {
      var outcome: Outcome := Returned;
      var j := 0;
      while j < |middleware| && outcome.Returned?
        invariant 0 <= j <= |middleware|
        invariant trace == old(trace) + Afters(j)
        invariant outcome.Returned? ==> RunAfter(middleware, env, results, 0) == RunAfter(middleware, env, results, j)
        invariant outcome.Raised? ==> RunAfter(middleware, env, results, 0) == AfterRun(j, outcome)
        decreases |middleware| - j
      {
        assert Afters(j) + [After(j)] == Afters(j + 1);
        trace := trace + [After(j)];
        outcome := AfterOutcome(middleware[j], env, results);
        j := j + 1;
      }
      after := AfterRun(j, outcome);
    }

    /** The `if`/`elif` chain of `handle_update`: at most one of the `handle_*` methods. */
    method Dispatch(route: Route, env: Env) returns (target: Option<Func>, outcome: Outcome)
      modifies this`trace
      ensures target == Target(Snapshot(), route)
      ensures trace == old(trace) + TargetEvents(Snapshot(), target)
      ensures outcome == if target.Some? then HandlerOutcome(env, target.value) else Returned
    {
      match route
      case RunCommand(c) =>
        target, outcome := HandleCommand(c, env);
      case RunKind(k) =>
        target, outcome := HandleKind(k, env);
      case Idle =>
        target, outcome := None, Returned;
    }

    /** The `try` block of `handle_update`: the before-hooks, then the dispatch if they all returned. */
    method TryBlock(u: Update, command: Option<Command>, env: Env) returns (b: Body)
      requires command == CommandOf(u)
      modifies this`trace
      ensures b == RunBody(Snapshot(), u, env)
      ensures trace == old(trace) + Befores(b.hooks.ran) + TargetEvents(Snapshot(), b.target)
    {
      var hooks := RunBeforeHooks(env);
      var target: Option<Func> := None;
      var outcome := hooks.outcome;
      if outcome.Returned? {
        target, outcome := Dispatch(Select(u, command), env);
      }
      b := Body(hooks, target, outcome);
    }

    /** The `except` clauses of `handle_update`. */
    method ExceptClauses(body: Outcome, env: Env) returns (pending: Outcome)
      modifies this`trace
      ensures trace == old(trace) + Except(Snapshot(), env, body).events
      ensures pending == Except(Snapshot(), env, body).pending
    {
      pending := Returned;
      if body == Raised(Error) {
        pending := HandleException(env);
      }
    }

    /** `handle_update`: the pipeline for one update, as `HandleUpdateSpec` describes it. */
    method HandleUpdate(u: Update, env: Env) returns (outcome: Outcome)
      modifies this`trace, this`local
      ensures var r := HandleUpdateSpec(old(Snapshot()), u, env);
        && trace == old(trace) + r.events
        && outcome == r.outcome
        && local == if r.released then None else Some(Context(u, None, map[]))
    {
      trace := trace + [Init];
      local := Some(Context(u, None, map[]));
      var command: Option<Command> := None;
      if u.message.Some? {
        if u.message.value.text.None? {
          // the regular expression match on a missing text raises before the `try` statement
          outcome := Raised(Error);
          return;
        }
        command := ParseCommand(u.message.value.text.value);
        local := Some(local.value.(command := command));
      }
      var b := TryBlock(u, command, env);
      local := Some(local.value.(results := b.hooks.results));
      var pending := ExceptClauses(b.outcome, env);
      // finally
      var after := RunAfterHooks(env, b.hooks.results);
      local := None;
      trace := trace + [Release];
      outcome := if after.outcome.Raised? then after.outcome else pending;
      Regroup(old(trace), Befores(b.hooks.ran), TargetEvents(Snapshot(), b.target),
        Except(Snapshot(), env, b.outcome).events, Afters(after.ran));
    }
  }
}
