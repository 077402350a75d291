# kwittbot in Dafny

A model of the core of kwittbot, a Telegram bot that keeps a small money
ledger between its users. The model has two parts.

- **The update-dispatch pipeline** (`base/app.py`, with the older
  `base/handler.py` beside it). An `Application` holds a command registry
  that starts with `help`, one handler slot per kind of update, an exception
  handler and an ordered list of middleware. For each update it sets up the
  per-update context, parses a leading `/name` command from the message, runs
  the middleware before-hooks, calls at most one handler chosen by a fixed
  priority, turns exceptions into calls of the exception handler, and then,
  in a `finally`, runs the after-hooks and releases the context. The older
  `CommandHandler` maps `/name` to its own `do_name` method, and the older
  `MiddlewareHandler` picks the first accepting handler and runs the
  after-hooks in reverse order with no `finally`.
- **The ledger** (`db.py`, with the `/start`, `/send` and `/credit` commands
  of `main.py`). Users carry a cached balance. Transactions go between two
  users or from a payment gateway to a user. `Transaction.clean` validates
  every saved transaction, and `update_balance` recomputes a cached balance
  from the log.

User code is opaque. Every handler, hook and callback is an `Fn`, and an
`Env` says what calling it does in the update at hand: return, raise the
end-of-update signal, or raise any other exception. The pipeline is
specified by the function `HandleUpdateSpec`, which gives the trace of
events, the outcome and whether the context was released. The `Application`
class's methods are proved to append exactly that trace. The ledger is a
`Store` class whose fields are the three collections. Its invariants are the
unique indexes, every stored transaction passing `clean`, and every cached
balance agreeing with the log. The bot commands are methods on the store
that return the messages they send.

Files:

- `wrappers.dfy`: `Option` and `Result`.
- `strings.dfy`: Python's whitespace, `strip`/`lstrip`/`split`, `join`,
  string order and `list.sort()`.
- `command_syntax.dfy`: `parse_command`, which both pipelines share.
- `user_code.dfy`: opaque callables and their outcomes.
- `app.dfy`: `base/app.py`.
- `handler.dfy`: `base/handler.py`.
- `amounts.dfy`: `Decimal` amounts as integer cents.
- `ledger.dfy`: `db.py`.
- `bot.dfy`: the commands of `main.py`.

Notes on what the code does, which the model follows:

- `update_balance` tests the receiver first, so a transfer to oneself would
  add its amount rather than cancel out (`Ledger.NetIsReceivedMinusSent`).
  `clean` keeps such transfers out of the log.
- `send` splits its arguments on whitespace and demands exactly two words.
  `/send 30 @bob for lunch` is therefore "Invalid syntax"; a `/send` carries
  only an amount and a name.
- Users without a username all share the null username under the unique
  index, so the second one fails to save.
- A `/credit` amount that is not a number raises `InvalidOperation`. Only
  `ValueError` is caught, so the exception escapes the handler.
- `@app.callback_query` assigns the instance attribute `callback_query`,
  which shadows the method: the slot `callback_query_handler` is never set,
  and a second use of the decorator calls the function stored by the first.

## Model

| member | source | states |
|---|---|---|
| `CommandSyntax.WordRun` | base/app.py:242-242 | the name `\w+` matches is a maximal run of word characters |
| `CommandSyntax.ParseCommand` | base/app.py:241-246 | a command is recognised exactly when the text starts with `/` and a word character |
| `CommandSyntax.ParseCommandName` | base/app.py:241-245 | the command's name is non-empty, made of word characters, maximal, and `/` + name is a prefix of the text |
| `CommandSyntax.ParseCommandArgs` | base/app.py:244-245 | the argument text is a suffix of the text; only whitespace lies between it and the name; it has no leading whitespace |
| `CommandSyntax.ParseFormatted` | base/handler.py:19-24 | parsing `/name`, whitespace and arguments gives back the name and the arguments (round trip) |
| `Strings.SplitKeepsText` | main.py:65-65 | the words of `split()` are non-empty and whitespace-free, and together they are exactly the non-whitespace characters of the text |
| `Strings.Split` | main.py:65-65 | every word of `split()` is non-empty and holds no whitespace |
| `Strings.SplitOfWords` | main.py:65-65 | words without whitespace joined by single spaces split back into exactly those words, so `split()` cuts at whitespace and nowhere else |
| `Strings.SortIgnoresOrder` | base/app.py:293-293 | sorting a list gives the same result for any order of the same lines; `Sort` itself is sorted and a permutation |
| `Pipeline.Lookup` | base/app.py:130-131 | a name is found exactly when it is a key of the registry |
| `Pipeline.Assign` | base/app.py:182-183 | registering maps the key to the new entry, replaces an earlier entry with the same key, keeps every other key, and grows the registry only for a new key |
| `Pipeline.HelpListing` | base/app.py:282-295 | the help body is sorted, holds one line per registered command, and does not depend on the registry's order |
| `Pipeline.LinesFollowEntries` | base/app.py:288-292 | the same entries in any order give the same multiset of help lines |
| `Pipeline.SelectFollowsPriority` | base/app.py:96-117 | a command, which only a message can carry, goes first; otherwise the kind of highest priority present is chosen; nothing is chosen exactly when no kind is present |
| `Pipeline.CommandRouting` | base/app.py:129-131 | a parsed name that is a key of the registry runs exactly that key's function |
| `Pipeline.UnknownCommandIsAMessage` | base/app.py:129-137 | any other name runs the message handler, if one is set |
| `Pipeline.Select` | base/app.py:102-117 | the `if`/`elif` chain: a parsed command first, then the kinds of update in the order of the chain (its properties are in `SelectFollowsPriority`) |
| `Pipeline.Target` | base/app.py:129-161 | the function a route leads to: the registered entry of a known command, otherwise the message handler, or the slot of the kind; none when that slot is empty (see `CommandRouting`, `UnknownCommandIsAMessage`) |
| `Pipeline.RunBefore` | base/app.py:99-101 | before-hooks run in order from the first; the run stops at the first hook that raises, whose exception is the outcome, and every hook before it returned; the outcome is a return exactly when all of them ran and returned |
| `Pipeline.RunAfter` | base/app.py:123-125 | after-hooks run in registration order; the run stops at the first hook that raises, whose exception is the outcome, and every hook before it returned; the outcome is a return exactly when all of them ran and returned |
| `Pipeline.CallbackResultReachesAfter` | base/app.py:53-59 | for any middleware list in which an identity is one object: once a callback middleware's before-hook has returned, its after-hook calls what the callback returned if that is callable, and otherwise returns |
| `Pipeline.CallbackNotRunIsSilent` | base/app.py:56-59 | a callback middleware none of whose occurrences got through its before-hook calls nothing at after-time |
| `Pipeline.NewMiddlewareKeepsIdentities` | base/app.py:223-231 | registering a function as middleware keeps one object per identity, the condition `CallbackResultReachesAfter` needs |
| `Pipeline.SharedInstanceSharesResult` | base/app.py:53-59 | one callback middleware added twice keeps one result under its identity, and both of its after-hooks call it |
| `Pipeline.Except` | base/app.py:118-121 | the `except` clauses: a return passes through, the end-of-update signal is swallowed with no events, any other exception runs `handle_exception`; its events all belong to exception handling |
| `Pipeline.HandleUpdateSpec` | base/app.py:94-127 | the whole of `handle_update` as a trace, an outcome and whether the context is released; its properties are the trace lemmas that follow |
| `Pipeline.AtMostOneHandler` | base/app.py:94-121 | exactly one handler runs when the before-hooks all return and the route leads to a function; otherwise none runs |
| `Pipeline.PhasesInOrder` | base/app.py:94-127 | the trace starts with setting up the context and ends with its release; before-hooks, handler, exception handling and after-hooks never interleave |
| `Pipeline.BeforeHooksInOrder` | base/app.py:99-101 | the before-hook of the middleware at position p is event p + 1, and no before-hook runs anywhere else |
| `Pipeline.AfterHooksAlwaysRun` | base/app.py:122-127 | every path that reaches the `try` ends with the after-hooks in order and the release; a raising after-hook stops the rest and becomes the outcome; the context is released anyway |
| `Pipeline.EndSignalIsNotAnError` | base/app.py:118-119 | the end-of-update signal calls no exception handler, logs nothing, and ends normally unless an after-hook raises |
| `Pipeline.ErrorsReachTheExceptionHandler` | base/app.py:163-170 | another exception goes to the exception handler when one is set; otherwise it is logged, and the traceback is replied exactly in debug mode |
| `Pipeline.TextlessMessageCrashes` | base/app.py:95-97 | a message without text raises before the `try`: no hook runs and the context is not released |
| `Pipeline.Application.constructor` | base/app.py:68-82 | a new application has no middleware, no handlers, and a registry holding only `help` |
| `Pipeline.Application.CommandOfFunction` | base/app.py:186-188 | a bare decorator registers the function under its own name, with its docstring as help |
| `Pipeline.Application.CommandNamed` | base/app.py:179-185 | a decorator with arguments registers under the key as given (`None` included), named by the key or the function, with the help or the docstring |
| `Pipeline.Application.OnMessage` | base/app.py:191-193 | sets the message handler |
| `Pipeline.Application.OnEditedMessage` | base/app.py:195-197 | sets the edited-message handler |
| `Pipeline.Application.OnInlineQuery` | base/app.py:199-201 | sets the inline-query handler |
| `Pipeline.Application.OnChosenInlineResult` | base/app.py:203-205 | sets the chosen-inline-result handler |
| `Pipeline.Application.OnCallbackQuery` | base/app.py:207-209 | the first use stores the function in the attribute `callback_query`; a later use calls the stored function, gives its outcome and stores nothing; the handler slot stays empty, so callback queries reach no handler |
| `Pipeline.Application.OnChannelPost` | base/app.py:211-213 | sets the channel-post handler |
| `Pipeline.Application.OnEditedChannelPost` | base/app.py:215-217 | sets the edited-channel-post handler |
| `Pipeline.Application.OnException` | base/app.py:219-221 | sets the exception handler |
| `Pipeline.Application.AddMiddleware` | base/app.py:233-238 | appends the middleware, so hooks keep registration order |
| `Pipeline.Application.MiddlewareOfFunction` | base/app.py:223-231 | appends a new callback middleware wrapping the function, with an identity no middleware already added has |
| `Pipeline.Application.DoHelp` | base/app.py:282-295 | the loop builds the reply that `HelpText` specifies: the header, then the sorted help lines |
| `Pipeline.Application.RunBeforeHooks` | base/app.py:100-101 | the loop runs and traces the before-hooks as `RunBefore` specifies |
| `Pipeline.Application.HandleKind` | base/app.py:135-161 | calls the slot's function if it is set, and nothing otherwise |
| `Pipeline.Application.HandleCommand` | base/app.py:129-133 | runs the registered entry, or falls back to the message handler |
| `Pipeline.Application.HandleException` | base/app.py:163-170 | the exception handler, or a log entry and, in debug mode, the traceback |
| `Pipeline.Application.RunAfterHooks` | base/app.py:123-125 | the loop runs and traces the after-hooks as `RunAfter` specifies |
| `Pipeline.Application.Dispatch` | base/app.py:102-117 | the `if`/`elif` chain calls the target of the route and nothing else |
| `Pipeline.Application.TryBlock` | base/app.py:99-117 | the before-hooks, then the dispatch only if they all returned |
| `Pipeline.Application.ExceptClauses` | base/app.py:118-121 | only a non-end exception reaches `handle_exception` |
| `Pipeline.Application.HandleUpdate` | base/app.py:94-127 | appends exactly the trace of `HandleUpdateSpec`, returns its outcome, and clears the context when the spec releases it |
| `LegacyHandlers.GetAttr` | base/handler.py:28-28 | an attribute is found exactly when the object has one of that name |
| `LegacyHandlers.HelpLinesComplete` | base/handler.py:37-45 | a line is in the listing exactly when it is the help line of a callable `do_` attribute |
| `LegacyHandlers.LinePositions` | base/handler.py:38-41 | the positions of exactly the callable `do_` attributes, in increasing order |
| `LegacyHandlers.HelpLinesOnePerAttribute` | base/handler.py:37-45 | one line per callable `do_` attribute: the `k`-th line is the help line of the `k`-th such attribute, so equal lines are kept as often as they occur |
| `LegacyHandlers.HelpIgnoresAttributeOrder` | base/handler.py:46-47 | the listing is sorted and does not depend on the order of the attributes |
| `LegacyHandlers.CommandHandler.DoHelp` | base/handler.py:34-47 | the loop replies with the header and the sorted lines that `HelpText` specifies |
| `LegacyHandlers.CommandHandler.HandleCommand` | base/handler.py:27-32 | answers true exactly when `do_<command>` exists and is callable, calls it then, and otherwise calls nothing |
| `LegacyHandlers.CommandHandler.HandleUpdate` | base/handler.py:17-32 | a text that starts with a command sets the message's command to the name and its text to the rest, left-stripped, then calls `do_<name>` if it is a method (its outcome is the result), replies the help text if it is `do_help`, and does nothing else; any other text changes nothing |
| `LegacyHandlers.FirstAccepting` | base/handler.py:56-60 | the chosen handler accepts the update and no earlier one does; none is chosen exactly when none accepts |
| `LegacyHandlers.RunBefores` | base/handler.py:66-67 | before-hooks run in order until one raises |
| `LegacyHandlers.RunAftersReversed` | base/handler.py:69-70 | after-hooks run last registered first; the outcome is a return exactly when all of them ran and returned, and a raising hook is the one the run stopped at |
| `LegacyHandlers.AftersStopAtFirstRaise` | base/handler.py:69-70 | every after-hook the reversed run passed before the one that raised returned |
| `LegacyHandlers.HandleSpec` | base/handler.py:62-70 | the whole of `MiddlewareHandler.handle_update` as steps and an outcome; its properties are `HandlerBetweenHooks`, `NoAfterHooksOnFailure` and `MissingStashRaises` |
| `LegacyHandlers.HandlerBetweenHooks` | base/handler.py:62-70 | the handler runs exactly when every before-hook returns; after-hooks run only after it returned, in reverse order |
| `LegacyHandlers.NoAfterHooksOnFailure` | base/handler.py:66-70 | a raising before-hook or handler leaves every after-hook unrun, and the outcome is that exception |
| `LegacyHandlers.MissingStashRaises` | base/handler.py:63-64 | an update without a stashed handler raises before any hook |
| `LegacyHandlers.MiddlewareHandler.AddHandler` | base/handler.py:72-73 | appends the handler |
| `LegacyHandlers.MiddlewareHandler.AddMiddleware` | base/handler.py:75-76 | appends the middleware |
| `LegacyHandlers.MiddlewareHandler.CheckUpdate` | base/handler.py:56-60 | stashes the first accepting handler and answers true; answers false and leaves the update alone when none accepts |
| `LegacyHandlers.MiddlewareHandler.RunBeforeHooks` | base/handler.py:66-67 | the loop runs and traces the before-hooks as `RunBefores` specifies |
| `LegacyHandlers.MiddlewareHandler.RunAfterHooks` | base/handler.py:69-70 | the loop over the reversed list runs and traces the after-hooks as `RunAftersReversed` specifies |
| `LegacyHandlers.MiddlewareHandler.HandleUpdate` | base/handler.py:62-70 | appends exactly the steps of `HandleSpec` and removes the stash |
| `Amounts.FormatThenParse` | main.py:69-73 | every amount in cents reads back as itself from its two-place decimal form |
| `Amounts.ParseAmount` | main.py:69-73 | an amount is read only from non-empty text, and a negative one only from text that starts with `-`; `FormatThenParse`, `WholeAmount` and `OneFractionDigit` give its value on the two-place, whole and one-place forms, and `AmountChars` what any accepted text is made of |
| `Amounts.WholeAmount` | main.py:69-73 | a whole number, with or without a minus sign, reads as that many hundred cents |
| `Amounts.OneFractionDigit` | main.py:69-73 | one fraction digit counts tens of cents |
| `Amounts.AmountChars` | main.py:69-73 | only an optional sign, digits and at most one point, with at least one digit, can be read as an amount, so text with a letter or a space is rejected |
| `Amounts.EmptyIsNoAmount` | main.py:163-165 | `/credit` with nothing after it has no amount |
| `Ledger.FindByTelegramId` | main.py:24-24 | finds the first user with that telegram id, and none exactly when no user has it |
| `Ledger.FindByUsername` | main.py:75-75 | finds the first user whose username equals the name up to case, and none exactly when there is none |
| `Ledger.FromTelegramUser` | db.py:36-38 | a user made from a Telegram chat and sender, with a balance of zero (used by `Bot.Start` and `Bot.StartOnce`) |
| `Ledger.Clean` | db.py:107-119 | accepts exactly a transaction that has a sender or a gateway, is not a negative transfer from a sender, and has distinct parties; an accepted one gets a date and nothing else changes, and a present date is kept |
| `Ledger.CleanErrors` | db.py:110-119 | the errors come in the order `clean` tests them: missing source, then a negative transfer, then the same party |
| `Ledger.CleanIdempotent` | db.py:108-109 | cleaning a cleaned transaction again, at any time, changes nothing |
| `Ledger.TransactionsOf` | db.py:58-64 | selects exactly the transactions in which the user is receiver or sender, each as often as it occurs in the log |
| `Ledger.Net` | db.py:47-55 | the sum `update_balance` computes over the log; its meaning is stated by `NetIsReceivedMinusSent` and `NetIgnoresOrder` |
| `Ledger.NetIsReceivedMinusSent` | db.py:47-54 | the balance is the sum received minus the sum sent, plus any self-transfers, which count once as received; without self-transfers it is received minus sent |
| `Ledger.NetIgnoresOrder` | db.py:47-54 | the balance does not depend on the order of the log |
| `Ledger.NetOfTransactionsOf` | db.py:48-48 | summing over the selected transactions gives the balance over the whole log |
| `Ledger.NetAppendUninvolved` | db.py:48-54 | a transaction that does not involve the user leaves the balance alone |
| `Ledger.NetOfStranger` | db.py:47-55 | a user that no transaction names has a balance of zero |
| `Ledger.Store.SaveUser` | db.py:18-24 | a new user is refused exactly when they clash with a stored user on chat id, telegram id or username; otherwise they are appended |
| `Ledger.Store.SaveGateway` | db.py:67-74 | appends a gateway record |
| `Ledger.Store.SaveTransaction` | db.py:107-119 | the saved result is the cleaned transaction; the log grows by it exactly when cleaning succeeds; the invariants hold |
| `Ledger.Store.UpdateBalance` | db.py:40-56 | the loop sets the user's balance to the net over the log, so the invariant holds again; nothing else changes; the `RuntimeError` branch is unreachable |
| `Bot.EscapeMarkdown` | main.py:14-17 | no special character of the result lacks a backslash before it |
| `Bot.UnescapeEscape` | main.py:14-17 | escaping loses nothing: the original text is recovered |
| `Bot.EscapeConcat` | main.py:17-17 | the escape works character by character |
| `Bot.Start` | main.py:20-37 | a known sender is told so and nothing changes; a new sender is welcomed and saved with balance zero, unless saving clashes |
| `Bot.StartOnce` | main.py:24-31 | after registering, the sender is found by telegram id as the new zero-balance user, so a second `/start` changes nothing |
| `Bot.SendCheck` | main.py:60-87 | a transfer that passes every check comes from the registered sender, goes to a stored user, is covered by the cached balance, and goes to oneself only if the configuration allows it |
| `Bot.SendCheckOrder` | main.py:60-87 | each reply of `send` and the condition that selects it, in the order the checks run: unknown sender, then wrong syntax, then an amount that does not parse, then an unknown `@name`, then a transfer to oneself the configuration forbids, then an amount above the balance; a message that passes them all books the parsed first word from the sender to the user named by the second |
| `Bot.FormattedSendWords` | main.py:65-65 | the words of `/send`, an amount in two-place form and `@name` are exactly that amount and `@name` |
| `Bot.SendOfFormatted` | main.py:60-89 | `/send` with an amount in two-place form and `@name` sends exactly that amount to that user when the checks pass |
| `Bot.SendStoresOnlyValidTransfers` | main.py:80-91 | whatever `send` stores is neither a self-transfer nor negative, and is covered by the cached balance |
| `Bot.SelfSendFailsAtSave` | db.py:115-119 | a self-transfer that the configuration allows is rejected when saved |
| `Bot.TransferMovesAmount` | main.py:89-94 | a stored transfer lowers the sender's net by the amount and raises the receiver's by it |
| `Bot.Book` | main.py:89-97 | a rejected save changes nothing; otherwise one transaction is appended, the sender's balance falls and the receiver's rises by the amount, and every other user is untouched |
| `Bot.Send` | main.py:56-97 | a failed check replies and changes nothing; otherwise it books as `Book` states |
| `Bot.CreditAlwaysSaves` | db.py:110-119 | a credit passes validation whatever the sign of its amount |
| `Bot.CreditCheck` | main.py:158-168 | an unregistered sender is reported exactly when the sender has no user; a deposit goes to the registered sender |
| `Bot.CreditCheckAmount` | main.py:163-168 | a registered sender whose argument does not parse gets nothing booked, exactly; a deposit is the parsed argument |
| `Bot.CreditOfFormattedAmount` | main.py:163-165 | `/credit` followed by an amount in two-place form credits exactly that amount |
| `Bot.BookCredit` | main.py:170-176 | appends one gateway record and one sender-less transaction to the user; the user's balance rises by the amount; no other user changes |
| `Bot.Credit` | main.py:154-177 | an unregistered sender is told so; an unparsable amount raises with nothing stored; otherwise the credit is booked |

## Left out

- Python's `\w` is Unicode-aware. The model's word characters are ASCII letters, digits and `_`.
- `username__iexact` folds case across Unicode. The model lower-cases ASCII letters only.
- `Decimal` parsing is restricted to an optional sign, digits, and an optional point with at most two digits after it. That leaves out exponents, `NaN`/`Infinity`, underscores, non-ASCII digits, surrounding whitespace inside the token, and amounts with more than two decimal places, which would need a representation finer than cents.
- Amounts are printed in two-place form only. `Decimal`'s own printing of other exponents is not modelled.
- The rounding of the `DecimalField` on save is not modelled. Amounts are exact cents throughout.
- Reply texts are constructors of `Reply`, not formatted strings.
- `send_chat_action`, `chat_action`, `reply_text`'s chat lookup, logging and traceback text are I/O and are left out.
- The Telegram transport (`Updater`, polling, `sendMessage`) is network I/O and is left out. An outgoing message is a record in the returned list.
- `Application.handle_error`, which has no setter for its handler and only logs, is left out as logging. So is `check_update`, which always answers true.
- The `help`, `balance`, `transactions`, `request` and `debit` commands of `main.py` are left out. They render text or are empty.
- The werkzeug `Local` proxies become an explicit per-update `Context` field that is set and cleared.
- `base/middleware.py` and `middleware.py` become opaque middleware hooks.
- Mongo I/O is left out: documents are records in sequences, an id is a position, and the unique indexes are an invariant of the store.
- `LegacyHandlers.Message`: the text is always a string. The handler's filter only admits text and command messages.
- Concurrency between updates is left out; every update is handled alone.
- `Pipeline.Application.OnCallbackQuery`: on a second use, only the outcome of calling the stored function is modelled, not the argument it receives or the value the decorator then returns.
- The identity of a `CallbackMiddleware` object is a number carried in the value; the callback results are keyed by it, as the source keys them by the object.
- `Bot.Send` takes the configuration flag `allowSendToSelf` and the current time as parameters instead of reading `config.json` and the clock; `Bot.Credit` takes the current time.
