/**
 * The earlier pipeline of `base/handler.py`. A `CommandHandler` maps a
 * command `/name` to its own callable attribute `do_name`; a
 * `MiddlewareHandler` picks the first of its handlers that accepts an
 * update, stashes it on the update, and later runs the middleware
 * before-hooks, that handler, and the after-hooks in reverse order, with no
 * `try`/`finally`: whatever raises stops everything after it.
 */
module LegacyHandlers {
  import opened Wrappers
  import opened Strings
  import opened CommandSyntax
  import opened UserCode

  // ---------------------------------------------------------------------------
  // CommandHandler

  /** An attribute of a `CommandHandler` object as `getattr` finds it: the inherited `do_help`, a method with its docstring, or something not callable. */
  datatype Attr = BuiltinHelp | Method(fn: Fn, doc: Option<string>) | Plain

  /** The docstring of `do_help`, spaces included. */
  const HelpDoc: string := " Show this help. "

  function Doc(a: Attr): Option<string>
  {
    match a
    case BuiltinHelp => Some(HelpDoc)
    case Method(_, d) => d
    case Plain => None
  }

  predicate DistinctNames(attrs: seq<(string, Attr)>)
  {
    forall i, j :: 0 <= i < j < |attrs| ==> attrs[i].0 != attrs[j].0
  }

  /** `getattr(self, name, None)`. */
  function GetAttr(attrs: seq<(string, Attr)>, name: string): (r: Option<Attr>)
    ensures r.Some? <==> exists i :: 0 <= i < |attrs| && attrs[i].0 == name
    ensures r.Some? ==> (name, r.value) in attrs
  {
    if attrs == [] then None
    else if attrs[0].0 == name then Some(attrs[0].1)
    else
      var r := GetAttr(attrs[1..], name);
      assert forall i :: 0 < i < |attrs| ==> attrs[i] == attrs[1..][i - 1];
      r
  }

  /** The help line of the attribute `key`: only callable attributes whose name starts with `do_` have one. */
  function HelpLine(key: string, a: Attr): Option<string>
  {
    if StartsWith(key, "do_") && !a.Plain? then
      Some("/" + key[3..] + (if Truthy(Doc(a)) then Doc(a).value else ""))
    else None
  }

  /** The help lines in the order of `attrs`. */
  function HelpLines(attrs: seq<(string, Attr)>): seq<string>
  {
    if attrs == [] then []
    else
      var rest := HelpLines(attrs[1..]);
      if HelpLine(attrs[0].0, attrs[0].1).Some? then [HelpLine(attrs[0].0, attrs[0].1).value] + rest else rest
  }

  /** What `do_help` replies. */
  function HelpText(attrs: seq<(string, Attr)>): string
  {
    "Available commands:\n" + Join(Sort(HelpLines(attrs)), "\n")
  }

  /**
   * A string is one of the listing's lines if and only if it is the help
   * line of one of the attributes; `HelpLinesOnePerAttribute` says how often.
   */
  lemma {:induction false} HelpLinesComplete(attrs: seq<(string, Attr)>, line: string)
    ensures line in HelpLines(attrs) <==> exists i :: 0 <= i < |attrs| && HelpLine(attrs[i].0, attrs[i].1) == Some(line)
  {
    if attrs != [] {
      HelpLinesComplete(attrs[1..], line);
      if exists i :: 0 <= i < |attrs| && HelpLine(attrs[i].0, attrs[i].1) == Some(line) {
        var i :| 0 <= i < |attrs| && HelpLine(attrs[i].0, attrs[i].1) == Some(line);
        if i > 0 {
          assert attrs[1..][i - 1] == attrs[i];
        }
      }
      if line in HelpLines(attrs[1..]) {
        var i :| 0 <= i < |attrs[1..]| && HelpLine(attrs[1..][i].0, attrs[1..][i].1) == Some(line);
        assert attrs[i + 1] == attrs[1..][i];
      }
    }
  }

  /** The positions of the attributes that have a help line, in increasing order. */
  function LinePositions(attrs: seq<(string, Attr)>): (ps: seq<nat>)
    ensures forall k :: 0 <= k < |ps| ==> ps[k] < |attrs| && HelpLine(attrs[ps[k]].0, attrs[ps[k]].1).Some?
    ensures forall k, l :: 0 <= k < l < |ps| ==> ps[k] < ps[l]
    ensures forall i :: 0 <= i < |attrs| && HelpLine(attrs[i].0, attrs[i].1).Some? ==> i in ps
  {
    if attrs == [] then []
    else
      var n := |attrs| - 1;
      var front := attrs[..n];
      var ps := LinePositions(front);
      assert forall i :: 0 <= i < n ==> front[i] == attrs[i];
      ps + if HelpLine(attrs[n].0, attrs[n].1).Some? then [n] else []
  }

  /**
   * The listing holds one line per callable `do_` attribute: its `k`-th line
   * is the help line of the `k`-th attribute that has one, so two attributes
   * with the same line give it twice.
   */
  lemma {:induction false} HelpLinesOnePerAttribute(attrs: seq<(string, Attr)>)
    ensures var ps := LinePositions(attrs);
      && |HelpLines(attrs)| == |ps|
      && forall k :: 0 <= k < |ps| ==> HelpLines(attrs)[k] == HelpLine(attrs[ps[k]].0, attrs[ps[k]].1).value
  {
    if attrs != [] {
      var n := |attrs| - 1;
      var front := attrs[..n];
      HelpLinesOnePerAttribute(front);
      assert attrs == front + [attrs[n]];
      HelpLinesOfConcat(front, [attrs[n]]);
      assert forall i :: 0 <= i < n ==> front[i] == attrs[i];
    }
  }

  lemma {:induction false} HelpLinesOfConcat(a: seq<(string, Attr)>, b: seq<(string, Attr)>)
    ensures HelpLines(a + b) == HelpLines(a) + HelpLines(b)
  {
    if a == [] {
      assert a + b == b;
    } else {
      assert (a + b)[1..] == a[1..] + b;
      HelpLinesOfConcat(a[1..], b);
    }
  }

  lemma {:induction false} HelpLinesFollowAttrs(a: seq<(string, Attr)>, b: seq<(string, Attr)>)
    requires multiset(a) == multiset(b)
    ensures multiset(HelpLines(a)) == multiset(HelpLines(b))
    decreases |a|
  {
    if a == [] {
      assert |b| == |multiset(b)| == 0;
    } else {
      assert a[0] in multiset(b);
      var j :| 0 <= j < |b| && b[j] == a[0];
      SameAfterRemoval(a, b, j);
      HelpLinesFollowAttrs(a[1..], b[..j] + b[j + 1..]);
      HelpLinesRemoveAt(b, j);
      HelpLinesRemoveAt(a, 0);
      assert a[..0] + a[1..] == a[1..];
    }
  }

  lemma {:induction false} HelpLinesRemoveAt(s: seq<(string, Attr)>, j: nat)
    requires j < |s|
    ensures multiset(HelpLines(s)) == multiset(HelpLines(s[..j] + s[j + 1..])) + multiset(HelpLines([s[j]]))
  {
    var front, x, back := s[..j], [s[j]], s[j + 1..];
    assert s == front + (x + back);
    HelpLinesOfConcat(front, x + back);
    HelpLinesOfConcat(x, back);
    HelpLinesOfConcat(front, back);
    var f, m, k := HelpLines(front), HelpLines(x), HelpLines(back);
    assert HelpLines(s) == f + (m + k);
    assert multiset(f + (m + k)) == multiset(f) + multiset(m) + multiset(k);
  }

  /**
   * The reply lists its lines sorted, and it does not depend on the order in
   * which `dir` reports the attributes.
   */
  lemma HelpIgnoresAttributeOrder(attrs: seq<(string, Attr)>, others: seq<(string, Attr)>)
    requires multiset(others) == multiset(attrs)
    ensures Sorted(Sort(HelpLines(attrs)))
    ensures HelpText(others) == HelpText(attrs)
  {
    HelpLinesFollowAttrs(attrs, others);
    SortIgnoresOrder(HelpLines(attrs), HelpLines(others));
  }

  /** A telegram message as a `CommandHandler` sees it: its text, the `command` attribute it gets, and the replies sent to its chat. */
  class Message {
    var text: string
    var command: Option<string>
    var replies: seq<string>

    constructor (text: string)
      ensures this.text == text && command.None? && replies == []
    {
      this.text := text;
      command := None;
      replies := [];
    }
  }

  class CommandHandler {
    /** The object's attributes, as `dir` lists them and `getattr` finds them. */
    const attrs: seq<(string, Attr)>
    /** The `do_` methods called so far. */
    var calls: seq<Fn>

    constructor (attrs: seq<(string, Attr)>)
      requires DistinctNames(attrs)
      ensures this.attrs == attrs && calls == []
    {
      this.attrs := attrs;
      calls := [];
    }

    /** `do_help`: one line per callable `do_` attribute, sorted, under a header. */
    method DoHelp(msg: Message)
      modifies msg`replies
      ensures msg.replies == old(msg.replies) + [HelpText(attrs)]
    {
      var lines: seq<string> := [];
      for k := 0 to |attrs|
        invariant lines == HelpLines(attrs[..k])
        invariant msg.replies == old(msg.replies)
      {
        var (key, value) := attrs[k];
        assert attrs[..k + 1] == attrs[..k] + [attrs[k]];
        HelpLinesOfConcat(attrs[..k], [attrs[k]]);
        assert [attrs[k]][1..] == [];
        assert HelpLines([attrs[k]]) == if HelpLine(key, value).Some? then [HelpLine(key, value).value] else [];
        if StartsWith(key, "do_") && !value.Plain? {
          var line := "/" + key[3..];
          if Truthy(Doc(value)) {
            line := line + Doc(value).value;
          } else {
            assert line == line + "";
          }
          assert line == HelpLine(key, value).value;
          lines := lines + [line];
        }
      }
      assert attrs[..|attrs|] == attrs;
      lines := Sort(lines);
      msg.replies := msg.replies + ["Available commands:\n" + Join(lines, "\n")];
    }

    /**
     * `handle_command`: calls `do_<command>` and answers true exactly when
     * that attribute exists and is callable; otherwise calls nothing.
     */
    method HandleCommand(msg: Message, env: Env) returns (found: bool, outcome: Outcome)
      requires msg.command.Some?
      modifies this`calls, msg`replies
      ensures var a := GetAttr(attrs, "do_" + msg.command.value);
        && (found <==> a.Some? && !a.value.Plain?)
        && (found ==> ("do_" + msg.command.value, a.value) in attrs)
        && calls == old(calls) + (if found && a.value.Method? then [a.value.fn] else [])
        && msg.replies == old(msg.replies) + (if found && a.value.BuiltinHelp? then [HelpText(attrs)] else [])
        && outcome == if found && a.value.Method? then env.call(a.value.fn) else Returned
    {
      var a := GetAttr(attrs, "do_" + msg.command.value);
      found, outcome := false, Returned;
      if a.Some? {
        match a.value
        case BuiltinHelp =>
          DoHelp(msg);
          found := true;
        case Method(f, _) =>
          calls := calls + [f];
          outcome := env.call(f);
          found := true;
        case Plain =>
      }
    }

    /**
     * `handle_update`: acts only when the text starts with a command; it then
     * sets the message's `command` to the name and its text to the rest,
     * left-stripped, and runs `handle_command`.
     */
    method HandleUpdate(msg: Message, env: Env) returns (outcome: Outcome)
      modifies this`calls, msg
      ensures var p := ParseCommand(old(msg.text));
        && (p.None? ==>
              (msg.text == old(msg.text) && msg.command == old(msg.command)
               && msg.replies == old(msg.replies) && calls == old(calls) && outcome == Returned))
        && (p.Some? ==>
              var a := GetAttr(attrs, "do_" + p.value.name);
              && msg.command == Some(p.value.name) && msg.text == p.value.text
              && calls == old(calls) + (if a.Some? && a.value.Method? then [a.value.fn] else [])
              && msg.replies == old(msg.replies) + (if a.Some? && a.value.BuiltinHelp? then [HelpText(attrs)] else [])
              && outcome == if a.Some? && a.value.Method? then env.call(a.value.fn) else Returned)
    {
      var p := ParseCommand(msg.text);
      outcome := Returned;
      if p.Some? {
        msg.command := Some(p.value.name);
        msg.text := p.value.text;
        var _, o := HandleCommand(msg, env);
        outcome := o;
      }
    }
  }

  // ---------------------------------------------------------------------------
  // MiddlewareHandler

  /** A middleware object with its `before_handle_update` and `after_handle_update`. */
  datatype Hooks = Hooks(before: Fn, after: Fn)

  /** The first handler, in registration order, whose `check_update` accepts the update. */
  function FirstAccepting(handlers: seq<Fn>, accepts: Fn -> bool): (r: Option<nat>)
    ensures r.Some? ==> r.value < |handlers| && accepts(handlers[r.value])
    ensures r.Some? ==> forall j :: 0 <= j < r.value ==> !accepts(handlers[j])
    ensures r.None? <==> forall j :: 0 <= j < |handlers| ==> !accepts(handlers[j])
  {
    if handlers == [] then None
    else if accepts(handlers[0]) then Some(0)
    else
      var r := FirstAccepting(handlers[1..], accepts);
      assert forall j :: 0 < j < |handlers| ==> handlers[j] == handlers[1..][j - 1];
      if r.Some? then Some(r.value + 1) else None
  }

  /** What the `MiddlewareHandler` does, one step per call of user code. */
  datatype Step = BeforeHook(index: nat) | Handled(handler: Fn) | AfterHook(index: nat)

  datatype Ran = Ran(count: nat, outcome: Outcome)

  /** The before-hooks from position `i` on, in order, stopping at the first that raises. */
  function RunBefores(mws: seq<Hooks>, env: Env, i: nat): (r: Ran)
    requires i <= |mws|
    ensures i <= r.count <= |mws|
    ensures r.outcome.Returned? <==> r.count == |mws| && forall j :: i <= j < |mws| ==> env.call(mws[j].before).Returned?
    ensures r.outcome.Raised? ==> i < r.count && env.call(mws[r.count - 1].before) == r.outcome
    ensures forall j :: i <= j < r.count - 1 ==> env.call(mws[j].before).Returned?
    decreases |mws| - i
  {
    if i == |mws| then Ran(i, Returned)
    else if env.call(mws[i].before).Raised? then Ran(i + 1, env.call(mws[i].before))
    else RunBefores(mws, env, i + 1)
  }

  /** The after-hooks of positions `k - 1` down to 0, stopping at the first that raises. */
  function RunAftersReversed(mws: seq<Hooks>, env: Env, k: nat): (r: Ran)
    requires k <= |mws|
    ensures r.count <= k
    ensures r.outcome.Returned? <==> r.count == k && forall j :: 0 <= j < k ==> env.call(mws[j].after).Returned?
    ensures r.outcome.Raised? ==> 0 < r.count && env.call(mws[k - r.count].after) == r.outcome
  {
    if k == 0 then Ran(0, Returned)
    else if env.call(mws[k - 1].after).Raised? then Ran(1, env.call(mws[k - 1].after))
    else
      var r := RunAftersReversed(mws, env, k - 1);
      Ran(r.count + 1, r.outcome)
  }

  /** The reversed run stops at the first after-hook that raises: every hook it ran before that one returned. */
  lemma {:induction false} AftersStopAtFirstRaise(mws: seq<Hooks>, env: Env, k: nat)
    requires k <= |mws|
    ensures var r := RunAftersReversed(mws, env, k);
      forall j :: k - r.count < j < k ==> env.call(mws[j].after).Returned?
    decreases k
  {
    if k > 0 && env.call(mws[k - 1].after).Returned? {
      AftersStopAtFirstRaise(mws, env, k - 1);
    }
  }

  /** One step of the reversed run: the hook at `k - 1`, then the rest if it returned. */
  lemma AfterStep(mws: seq<Hooks>, env: Env, k: nat)
    requires 0 < k <= |mws|
    ensures var o := env.call(mws[k - 1].after);
      RunAftersReversed(mws, env, k) ==
        if o.Raised? then Ran(1, o)
        else Ran(RunAftersReversed(mws, env, k - 1).count + 1, RunAftersReversed(mws, env, k - 1).outcome)
  {
  }

  function BeforeSteps(n: nat): (s: seq<Step>)
    ensures |s| == n && forall i :: 0 <= i < n ==> s[i] == BeforeHook(i)
  {
    seq(n, i requires 0 <= i < n => BeforeHook(i))
  }

  /** The first `n` after-hooks of a reversed run over `m` middlewares. */
  function AfterSteps(m: nat, n: nat): (s: seq<Step>)
    requires n <= m
    ensures |s| == n && forall t :: 0 <= t < n ==> s[t] == AfterHook(m - 1 - t)
  {
    seq(n, t requires 0 <= t < n => AfterHook(m - 1 - t))
  }

  lemma AfterStepsGrow(m: nat, n: nat)
    requires n < m
    ensures AfterSteps(m, n) + [AfterHook(m - 1 - n)] == AfterSteps(m, n + 1)
  {
  }

  datatype Handling = Handling(steps: seq<Step>, outcome: Outcome)

  /** `MiddlewareHandler.handle_update` given the stashed handler. */
  function HandleSpec(mws: seq<Hooks>, stash: Option<Fn>, env: Env): Handling
  {
    match stash
    case None => Handling([], Raised(Error))
    case Some(h) =>
      var b := RunBefores(mws, env, 0);
      if b.outcome.Raised? then Handling(BeforeSteps(b.count), b.outcome)
      else if env.call(h).Raised? then Handling(BeforeSteps(|mws|) + [Handled(h)], env.call(h))
      else
        var a := RunAftersReversed(mws, env, |mws|);
        Handling(BeforeSteps(|mws|) + [Handled(h)] + AfterSteps(|mws|, a.count), a.outcome)
  }

  /**
   * The handler runs, once, exactly when an update has a stashed handler and
   * every before-hook returns; after-hooks run only when the handler too
   * returned, and then all of them, last registered first, unless one raises.
   */
  lemma HandlerBetweenHooks(mws: seq<Hooks>, h: Fn, env: Env)
    ensures var r := HandleSpec(mws, Some(h), env);
      && (Handled(h) in r.steps <==> forall j :: 0 <= j < |mws| ==> env.call(mws[j].before).Returned?)
      && ((exists t :: 0 <= t < |r.steps| && r.steps[t].AfterHook?) ==>
            && (forall j :: 0 <= j < |mws| ==> env.call(mws[j].before).Returned?)
            && env.call(h).Returned?
            && r.steps[..|mws| + 1] == BeforeSteps(|mws|) + [Handled(h)])
      && (forall t :: 0 <= t < |r.steps| && r.steps[t].AfterHook? ==>
            r.steps[t] == AfterHook(|mws| - 1 - (t - |mws| - 1)))
  {
    var r := HandleSpec(mws, Some(h), env);
    var b := RunBefores(mws, env, 0);
    if b.outcome.Raised? {
      assert forall t :: 0 <= t < |r.steps| ==> r.steps[t].BeforeHook?;
      assert Handled(h) !in r.steps;
    } else if env.call(h).Raised? {
      assert r.steps == BeforeSteps(|mws|) + [Handled(h)];
      assert r.steps[|mws|] == Handled(h);
      assert forall t :: 0 <= t < |r.steps| ==> !r.steps[t].AfterHook?;
    } else {
      var a := RunAftersReversed(mws, env, |mws|);
      var front := BeforeSteps(|mws|) + [Handled(h)];
      assert r.steps == front + AfterSteps(|mws|, a.count);
      assert r.steps[|mws|] == Handled(h);
      assert r.steps[..|mws| + 1] == front;
      forall t | 0 <= t < |r.steps|
        ensures r.steps[t].AfterHook? ==> r.steps[t] == AfterHook(|mws| - 1 - (t - |mws| - 1))
      {
        if t < |front| {
          assert r.steps[t] == front[t];
        } else {
          assert r.steps[t] == AfterSteps(|mws|, a.count)[t - |front|];
        }
      }
    }
  }

  /** A before-hook or a handler that raises leaves every after-hook unrun, and its exception is the outcome. */
  lemma NoAfterHooksOnFailure(mws: seq<Hooks>, h: Fn, env: Env)
    requires RunBefores(mws, env, 0).outcome.Raised? || env.call(h).Raised?
    ensures var r := HandleSpec(mws, Some(h), env);
      && (forall t :: 0 <= t < |r.steps| ==> !r.steps[t].AfterHook?)
      && r.outcome.Raised?
  {
    var r := HandleSpec(mws, Some(h), env);
    if RunBefores(mws, env, 0).outcome.Returned? {
      assert r.steps == BeforeSteps(|mws|) + [Handled(h)];
      assert r.steps[|mws|] == Handled(h);
    }
  }

  /** Without a stashed handler, `del update.__handler` raises before any hook. */
  lemma MissingStashRaises(mws: seq<Hooks>, env: Env)
    ensures HandleSpec(mws, None, env) == Handling([], Raised(Error))
  {
  }

  /** The update object, with the attribute `__handler` that `check_update` stashes on it. */
  class Update {
    var stash: Option<Fn>

    constructor ()
      ensures stash.None?
    {
      stash := None;
    }
  }

  class MiddlewareHandler {
    var middlewares: seq<Hooks>
    var handlers: seq<Fn>
    var trace: seq<Step>

    constructor ()
      ensures middlewares == [] && handlers == [] && trace == []
    {
      middlewares := [];
      handlers := [];
      trace := [];
    }

    /** `add_handler`: appended, so earlier handlers keep precedence. */
    method AddHandler(h: Fn)
      modifies this`handlers
      ensures handlers == old(handlers) + [h]
    {
      handlers := handlers + [h];
    }

    /** `add_middleware`: appended, so hooks keep registration order. */
    method AddMiddleware(m: Hooks)
      modifies this`middlewares
      ensures middlewares == old(middlewares) + [m]
    {
      middlewares := middlewares + [m];
    }

    /**
     * `check_update`: stashes the first accepting handler on the update and
     * answers true; when none accepts, answers false (the `None` that falls
     * off the end) and leaves the update alone.
     */
    method CheckUpdate(u: Update, accepts: Fn -> bool) returns (accepted: bool)
      modifies u
      ensures var f := FirstAccepting(handlers, accepts);
        && accepted == f.Some?
        && u.stash == if f.Some? then Some(handlers[f.value]) else old(u.stash)
    {
      accepted := false;
      var i := 0;
      while i < |handlers|
        invariant 0 <= i <= |handlers|
        invariant forall j :: 0 <= j < i ==> !accepts(handlers[j])
        invariant u.stash == old(u.stash)
      {
        if accepts(handlers[i]) {
          u.stash := Some(handlers[i]);
          accepted := true;
          return;
        }
        i := i + 1;
      }
    }

    /** The `for` loop over the before-hooks, in registration order. */
    method RunBeforeHooks(env: Env) returns (r: Ran)
      modifies this`trace
      ensures r == RunBefores(middlewares, env, 0)
      ensures trace == old(trace) + BeforeSteps(r.count)
    {
      var i := 0;
      while i < |middlewares|
        invariant 0 <= i <= |middlewares|
        invariant trace == old(trace) + BeforeSteps(i)
        invariant RunBefores(middlewares, env, 0) == RunBefores(middlewares, env, i)
      {
        assert BeforeSteps(i) + [BeforeHook(i)] == BeforeSteps(i + 1);
        trace := trace + [BeforeHook(i)];
        var o := env.call(middlewares[i].before);
        if o.Raised? {
          return Ran(i + 1, o);
        }
        i := i + 1;
      }
      r := Ran(i, Returned);
    }

    /** The `for` loop over `reversed(self.middlewares)`. */
    method RunAfterHooks(env: Env) returns (r: Ran)
      modifies this`trace
      ensures r == RunAftersReversed(middlewares, env, |middlewares|)
      ensures trace == old(trace) + AfterSteps(|middlewares|, r.count)
    {
      var k := |middlewares|;
      while k > 0
        invariant 0 <= k <= |middlewares|
        invariant trace == old(trace) + AfterSteps(|middlewares|, |middlewares| - k)
        invariant RunAftersReversed(middlewares, env, |middlewares|) ==
          var r := RunAftersReversed(middlewares, env, k);
          Ran(r.count + |middlewares| - k, r.outcome)
      {
        AfterStepsGrow(|middlewares|, |middlewares| - k);
        trace := trace + [AfterHook(k - 1)];
        var o := env.call(middlewares[k - 1].after);
        AfterStep(middlewares, env, k);
        if o.Raised? {
          return Ran(|middlewares| - k + 1, o);
        }
        k := k - 1;
      }
      r := Ran(|middlewares|, Returned);
    }

    /**
     * `handle_update`: takes the stashed handler off the update, runs the
     * before-hooks in order, the handler, and the after-hooks in reverse
     * order; an exception anywhere stops the rest.
     */
    method HandleUpdate(u: Update, env: Env) returns (outcome: Outcome)
      modifies u, this`trace
      ensures var r := HandleSpec(middlewares, old(u.stash), env);
        && trace == old(trace) + r.steps
        && outcome == r.outcome
        && u.stash.None?
    {
      if u.stash.None? {
        outcome := Raised(Error);
        return;
      }
      var h := u.stash.value;
      u.stash := None;
      var b := RunBeforeHooks(env);
      if b.outcome.Raised? {
        outcome := b.outcome;
        return;
      }
      trace := trace + [Handled(h)];
      outcome := env.call(h);
      if outcome.Raised? {
        return;
      }
      var a := RunAfterHooks(env);
      outcome := a.outcome;
      assert trace == old(trace) + (BeforeSteps(|middlewares|) + [Handled(h)] + AfterSteps(|middlewares|, a.count));
    }
  }
}
