/**
 * The ledger commands of `main.py`: `/start` registers the sender once,
 * `/send <amount> @<user>` moves money from the sender's balance to another
 * user after a fixed series of checks, and `/credit <amount>` books money
 * from a development gateway. Each runs against a `Store` and answers with
 * the messages it sends; `escape_markdown` is the string escape its
 * listings use.
 */
module Bot {
  import opened Wrappers
  import opened Strings
  import opened Amounts
  import opened Ledger

  // ---------------------------------------------------------------------------
  // escape_markdown

  /** The characters Telegram's Markdown gives a meaning to. */
  predicate Special(c: char)
  {
    c == '*' || c == '_' || c == '`' || c == '['
  }

  /**
   * `escape_markdown`: a backslash before every special character, every
   * other character as it was. No special character of the result is left
   * without a backslash before it.
   */
  function EscapeMarkdown(s: string): (r: string)
    ensures |r| >= |s|
    ensures |r| > 0 ==> !Special(r[0])
    ensures forall i :: 0 < i < |r| && Special(r[i]) ==> r[i - 1] == '\\'
  {
    if s == [] then []
    else
      var head := if Special(s[0]) then ['\\', s[0]] else [s[0]];
      var tail := EscapeMarkdown(s[1..]);
      assert forall i :: |head| < i < |head + tail| ==> (head + tail)[i] == tail[i - |head|];
      head + tail
  }

  /** Undoes `EscapeMarkdown`: drops a backslash that stands before a special character. */
  function Unescape(s: string): string
  {
    if s == [] then []
    else if |s| >= 2 && s[0] == '\\' && Special(s[1]) then [s[1]] + Unescape(s[2..])
    else [s[0]] + Unescape(s[1..])
  }

  /** Escaping loses nothing: the original text is recovered from the escaped one. */
  lemma {:induction false} UnescapeEscape(s: string)
    ensures Unescape(EscapeMarkdown(s)) == s
  {
    if s != [] {
      UnescapeEscape(s[1..]);
      var tail := EscapeMarkdown(s[1..]);
      if Special(s[0]) {
        assert EscapeMarkdown(s) == ['\\', s[0]] + tail;
        assert (['\\', s[0]] + tail)[2..] == tail;
      } else {
        assert EscapeMarkdown(s) == [s[0]] + tail;
        assert ([s[0]] + tail)[1..] == tail;
      }
    }
  }

  /** The escape works character by character. */
  lemma {:induction false} EscapeConcat(a: string, b: string)
    ensures EscapeMarkdown(a + b) == EscapeMarkdown(a) + EscapeMarkdown(b)
  {
    if a != [] {
      assert (a + b)[0] == a[0];
      assert (a + b)[1..] == a[1..] + b;
      EscapeConcat(a[1..], b);
    } else {
      assert a + b == b;
    }
  }

  // ---------------------------------------------------------------------------
  // Messages

  /** The parts of an incoming command message that the handlers read. */
  datatype Incoming = Incoming(text: string, chat: Chat, from: TelegramUser)

  /** What the bot says, one constructor per message text of `main.py`. */
  datatype Reply =
    | NotKnown                                          // /send by an unregistered user
    | InvalidSyntax
    | InvalidAmount
    | NoSuchUser(name: string)
    | NoSelfSend
    | InsufficientBalance(balance: int, amount: int)
    | Sent(amount: int, receiver: Option<string>, balance: int)
    | Received(amount: int, sender: Option<string>)    // to the receiver's chat
    | NotFound                                          // /credit by an unregistered user
    | Credited(amount: int)
    | Welcome(name: string)
    | Done
    | HelpListing
    | AlreadyRegistered

  /** A message sent to a chat. */
  datatype Outgoing = Outgoing(chat: int, reply: Reply)

  /** An exception that escapes a handler. */
  datatype Failure = Validation(error: CleanError) | NotUnique | InvalidOperation

  datatype Ending = Completed | Failed(failure: Failure)

  // ---------------------------------------------------------------------------
  // /start

  /**
   * `start`: welcome a sender without a user and create one with a balance
   * of zero; a sender that has one is told so and nothing changes.
   */
  method Start(db: Store, msg: Incoming) returns (out: seq<Outgoing>, ending: Ending)
    requires db.Valid() && db.Consistent()
    modifies db
    ensures db.Valid() && db.Consistent()
    ensures db.log == old(db.log) && db.gateways == old(db.gateways)
    ensures FindByTelegramId(old(db.users), msg.from.id).Some? ==>
      db.users == old(db.users) && out == [Outgoing(msg.chat.id, AlreadyRegistered)] && ending == Completed
    ensures FindByTelegramId(old(db.users), msg.from.id).None? ==>
      var newcomer := FromTelegramUser(msg.chat, msg.from);
      if exists i :: 0 <= i < |old(db.users)| && Clash(old(db.users)[i], newcomer) then
        db.users == old(db.users) && out == [Outgoing(msg.chat.id, Welcome(msg.from.name))]
        && ending == Failed(NotUnique)
      else
        db.users == old(db.users) + [newcomer] && ending == Completed
        && out == [Outgoing(msg.chat.id, Welcome(msg.from.name)), Outgoing(msg.chat.id, Done),
                   Outgoing(msg.chat.id, HelpListing)]
  {
    var found := FindByTelegramId(db.users, msg.from.id);
    if found.Some? {
      return [Outgoing(msg.chat.id, AlreadyRegistered)], Completed;
    }
    out := [Outgoing(msg.chat.id, Welcome(msg.from.name))];
    var user := FromTelegramUser(msg.chat, msg.from);
    ghost var before := db.users;
    // Every stored transaction names only users that exist already.
    forall t | t in db.log
      ensures !Involves(t, |before|)
    {
      var i :| 0 <= i < |db.log| && db.log[i] == t;
      assert Stored(t, |db.users|, |db.gateways|);
    }
    var saved := db.SaveUser(user);
    if saved.None? {
      return out, Failed(NotUnique);
    }
    NetOfStranger(db.log, |before|);
    assert forall u :: 0 <= u < |before| ==> db.users[u] == before[u];
    out := out + [Outgoing(msg.chat.id, Done), Outgoing(msg.chat.id, HelpListing)];
    ending := Completed;
  }

  /**
   * Registering is done once: after a successful `/start` the sender is
   * found by telegram id, as the new user with a balance of zero, so a
   * second `/start` changes nothing.
   */
  lemma StartOnce(users: seq<User>, chat: Chat, from: TelegramUser)
    requires FindByTelegramId(users, from.id).None?
    ensures var after := users + [FromTelegramUser(chat, from)];
      && FindByTelegramId(after, from.id) == Some(|users|)
      && after[|users|].balance == 0
      && after[|users|].chatId == chat.id
  {
    var after := users + [FromTelegramUser(chat, from)];
    var r := FindByTelegramId(after, from.id);
    assert after[|users|].telegramId == from.id;
    assert r.Some?;
    if r.value < |users| {
      assert false;
    }
  }

  // ---------------------------------------------------------------------------
  // /send

  /** What a `/send` that passes every check books: who pays, who is paid, and how much. */
  datatype Transfer = Transfer(sender: UserId, receiver: UserId, amount: int)

  /** The transaction `send` saves for a transfer. */
  function Record(tr: Transfer): Transaction
  {
    Transaction(tr.amount, None, Some(tr.receiver), Some(tr.sender), None)
  }

  /**
   * The checks of `send`, in order, against the stored users: the sender
   * must be registered, the text after the command must be exactly an
   * amount and an `@name`, the amount must parse, the name must belong to
   * a user up to case, a transfer to oneself must be allowed by the
   * configuration, and the amount must not exceed the sender's cached
   * balance.
   */
  function SendCheck(users: seq<User>, msg: Incoming, allowSendToSelf: bool): (r: Result<Transfer, Reply>)
    ensures r.Ok? ==>
      && Some(r.value.sender) == FindByTelegramId(users, msg.from.id)
      && r.value.receiver < |users|
      && r.value.amount <= users[r.value.sender].balance
      && (r.value.sender == r.value.receiver ==> allowSendToSelf)
  {
    match FindByTelegramId(users, msg.from.id)
    case None => Err(NotKnown)
    case Some(s) =>
      var parts := SendWords(msg.text);
      if !AmountAndName(parts) then Err(InvalidSyntax)
      else
        match ParseAmount(parts[0])
        case None => Err(InvalidAmount)
        case Some(amount) =>
          var name := parts[1][1..];
          match FindByUsername(users, name)
          case None => Err(NoSuchUser(name))
          case Some(r) =>
            if r == s && !allowSendToSelf then Err(NoSelfSend)
            else if amount > users[s].balance then Err(InsufficientBalance(users[s].balance, amount))
            else Ok(Transfer(s, r, amount))
  }

  /** The words after the command: the text from its sixth character on, stripped and split. */
  function SendWords(text: string): seq<string>
  {
    Split(Strip(Drop(text, 5)))
  }

  /** The shape `send` accepts: exactly two words, the second starting with `@`. */
  predicate AmountAndName(words: seq<string>)
  {
    |words| == 2 && StartsWith(words[1], "@")
  }

  /**
   * Each answer of `send` and the condition that selects it, in the order
   * the checks run; a message that passes them all books the parsed amount
   * from the sender to the user named after the `@`.
   */
  lemma SendCheckOrder(users: seq<User>, msg: Incoming, allowSendToSelf: bool)
    ensures var r := SendCheck(users, msg, allowSendToSelf);
      var sender := FindByTelegramId(users, msg.from.id);
      var words := SendWords(msg.text);
      && (sender.None? ==> r == Err(NotKnown))
      && (sender.Some? && !AmountAndName(words) ==> r == Err(InvalidSyntax))
      && (sender.Some? && AmountAndName(words) && ParseAmount(words[0]).None? ==> r == Err(InvalidAmount))
      && (sender.Some? && AmountAndName(words) && ParseAmount(words[0]).Some? ==>
            var amount := ParseAmount(words[0]).value;
            var name := words[1][1..];
            var receiver := FindByUsername(users, name);
            var balance := users[sender.value].balance;
            && (receiver.None? ==> r == Err(NoSuchUser(name)))
            && (receiver == sender && !allowSendToSelf ==> r == Err(NoSelfSend))
            && (receiver.Some? && (receiver != sender || allowSendToSelf) && amount > balance ==>
                  r == Err(InsufficientBalance(balance, amount)))
            && (receiver.Some? && (receiver != sender || allowSendToSelf) && amount <= balance ==>
                  r == Ok(Transfer(sender.value, receiver.value, amount))))
  {
  }

  /** The two-place form of an amount is one word. */
  lemma FormattedAmountIsWord(c: int)
    ensures var f := FormatCents(c);
      f != [] && NoSpace(f)
  {
    FormatCentsEnds(c);
    FormatCentsChars(c);
  }

  /** The text after `/send` and a space, when it is words joined by spaces, splits into them. */
  lemma SendWordsOfJoined(words: seq<string>)
    requires |words| > 0
    requires forall k :: 0 <= k < |words| ==> words[k] != [] && NoSpace(words[k])
    ensures SendWords("/send " + Join(words, " ")) == words
  {
    var j := Join(words, " ");
    JoinStart(words, " ");
    JoinEnd(words, " ");
    SendArgument(j);
    SplitOfWords(words);
  }

  /** The argument `send` reads from `/send` and text without whitespace at either end is that text. */
  lemma SendArgument(j: string)
    requires j != [] && !IsSpace(j[0]) && !IsSpace(j[|j| - 1])
    ensures Strip(Drop("/send " + j, 5)) == j
  {
    assert Drop("/send " + j, 5) == " " + j;
    StripOfPadded(" ", j);
  }

  /** The words of `/send`, an amount written with two places and `@name` are those two. */
  lemma FormattedSendWords(text: string, c: int, name: string)
    requires text == "/send " + FormatCents(c) + " @" + name
    requires NoSpace(name)
    ensures SendWords(text) == [FormatCents(c), "@" + name]
  {
    var f := FormatCents(c);
    var at := "@" + name;
    FormattedAmountIsWord(c);
    assert NoSpace(at);
    var words := [f, at];
    assert text == "/send " + Join(words, " ");
    SendWordsOfJoined(words);
  }

  /**
   * `/send`, an amount written with two places and `@name` reads as exactly
   * that amount and that name, so a sender with enough balance sends it.
   */
  lemma SendOfFormatted(users: seq<User>, msg: Incoming, allowSendToSelf: bool, c: int, name: string)
    requires msg.text == "/send " + FormatCents(c) + " @" + name
    requires NoSpace(name)
    ensures var sender := FindByTelegramId(users, msg.from.id);
      var receiver := FindByUsername(users, name);
      sender.Some? && receiver.Some? && (receiver != sender || allowSendToSelf)
      && c <= users[sender.value].balance ==>
        SendCheck(users, msg, allowSendToSelf) == Ok(Transfer(sender.value, receiver.value, c))
  {
    FormattedSendWords(msg.text, c, name);
    var words := SendWords(msg.text);
    assert AmountAndName(words) && words[1][1..] == name;
    FormatThenParse(c);
    SendCheckOrder(users, msg, allowSendToSelf);
  }

  /**
   * Nothing `send` stores is a transfer to oneself or a negative one: what
   * its own checks let through, saving rejects. Every stored transfer is
   * covered by the sender's cached balance.
   */
  lemma SendStoresOnlyValidTransfers(users: seq<User>, msg: Incoming, allowSendToSelf: bool, now: Date)
    requires SendCheck(users, msg, allowSendToSelf).Ok?
    requires Clean(Record(SendCheck(users, msg, allowSendToSelf).value), now).Ok?
    ensures var tr := SendCheck(users, msg, allowSendToSelf).value;
      tr.sender != tr.receiver && 0 <= tr.amount <= users[tr.sender].balance
  {
  }

  /**
   * A transfer to oneself that the configuration allows still fails when it
   * is saved: as a negative transfer when the amount is negative, and
   * otherwise because sender and receiver are the same.
   */
  lemma SelfSendFailsAtSave(tr: Transfer, now: Date)
    requires tr.sender == tr.receiver
    ensures Clean(Record(tr), now) == Err(if tr.amount < 0 then NegativeTransfer else SameParty)
  {
  }

  /** A booked transfer takes the amount off the sender's balance and adds it to the receiver's. */
  lemma TransferMovesAmount(log: seq<Transaction>, t: Transaction, s: UserId, r: UserId)
    requires t.sender == Some(s) && t.receiver == Some(r) && s != r
    ensures Net(log + [t], s) == Net(log, s) - t.amount
    ensures Net(log + [t], r) == Net(log, r) + t.amount
  {
    assert (log + [t])[..|log|] == log;
  }

  /** The checks at the head of `send`, run one after the other against the store. */
  method CheckSend(db: Store, msg: Incoming, allowSendToSelf: bool) returns (r: Result<Transfer, Reply>)
    ensures r == SendCheck(db.users, msg, allowSendToSelf)
  {
    var found := FindByTelegramId(db.users, msg.from.id);
    if found.None? {
      return Err(NotKnown);
    }
    var user := found.value;
    var parts := SendWords(msg.text);
    if !AmountAndName(parts) {
      return Err(InvalidSyntax);
    }
    var amount := ParseAmount(parts[0]);
    if amount.None? {
      return Err(InvalidAmount);
    }
    var name := parts[1][1..];
    var receiver := FindByUsername(db.users, name);
    if receiver.None? {
      return Err(NoSuchUser(name));
    } else if receiver.value == user && !allowSendToSelf {
      return Err(NoSelfSend);
    }
    if amount.value > db.users[user].balance {
      return Err(InsufficientBalance(db.users[user].balance, amount.value));
    }
    r := Ok(Transfer(user, receiver.value, amount.value));
  }

  /**
   * The tail of `send`: save the transaction, recompute both balances, and
   * tell both parties. Saving can fail, and then nothing changes.
   */
  method Book(db: Store, tr: Transfer, chat: int, now: Date) returns (out: seq<Outgoing>, ending: Ending)
    requires db.Valid() && db.Consistent()
    requires tr.sender < |db.users| && tr.receiver < |db.users|
    modifies db
    ensures db.Valid() && db.Consistent()
    ensures db.gateways == old(db.gateways)
    ensures match Clean(Record(tr), now)
      case Err(e) =>
        db.users == old(db.users) && db.log == old(db.log) && out == [] && ending == Failed(Validation(e))
      case Ok(t) =>
        && db.log == old(db.log) + [t]
        && |db.users| == |old(db.users)|
        && db.users[tr.sender].balance == old(db.users)[tr.sender].balance - tr.amount
        && db.users[tr.receiver].balance == old(db.users)[tr.receiver].balance + tr.amount
        && (forall u :: 0 <= u < |db.users| && u != tr.sender && u != tr.receiver ==> db.users[u] == old(db.users)[u])
        && (forall u :: 0 <= u < |db.users| ==> db.users[u] == old(db.users)[u].(balance := db.users[u].balance))
        && ending == Completed
        && out == [Outgoing(chat, Sent(tr.amount, db.users[tr.receiver].username, db.users[tr.sender].balance)),
                   Outgoing(db.users[tr.receiver].chatId, Received(tr.amount, db.users[tr.sender].username))]
  {
    var saved := db.SaveTransaction(Record(tr), now);
    if saved.Err? {
      return [], Failed(Validation(saved.error));
    }
    ghost var log0 := old(db.log);
    TransferMovesAmount(log0, saved.value, tr.sender, tr.receiver);
    db.UpdateBalance(tr.sender);
    db.UpdateBalance(tr.receiver);
    forall u | 0 <= u < |db.users| && u != tr.sender && u != tr.receiver
      ensures db.users[u].balance == Net(db.log, u)
    {
      NetAppendUninvolved(log0, saved.value, u);
    }
    out := [Outgoing(chat, Sent(tr.amount, db.users[tr.receiver].username, db.users[tr.sender].balance)),
            Outgoing(db.users[tr.receiver].chatId, Received(tr.amount, db.users[tr.sender].username))];
    ending := Completed;
  }

  /**
   * `send`. A rejected command answers and leaves the store alone; a
   * transfer that saving rejects raises and leaves it alone; otherwise one
   * transaction is appended and the two balances are recomputed, the
   * sender's going down by the amount and the receiver's going up.
   */
  method Send(db: Store, msg: Incoming, allowSendToSelf: bool, now: Date) returns (out: seq<Outgoing>, ending: Ending)
    requires db.Valid() && db.Consistent()
    modifies db
    ensures db.Valid() && db.Consistent()
    ensures db.gateways == old(db.gateways)
    ensures match SendCheck(old(db.users), msg, allowSendToSelf)
      case Err(reply) =>
        db.users == old(db.users) && db.log == old(db.log)
        && out == [Outgoing(msg.chat.id, reply)] && ending == Completed
      case Ok(tr) =>
        match Clean(Record(tr), now)
        case Err(e) =>
          db.users == old(db.users) && db.log == old(db.log) && out == [] && ending == Failed(Validation(e))
        case Ok(t) =>
          && db.log == old(db.log) + [t]
          && |db.users| == |old(db.users)|
          && db.users[tr.sender].balance == old(db.users)[tr.sender].balance - tr.amount
          && db.users[tr.receiver].balance == old(db.users)[tr.receiver].balance + tr.amount
          && (forall u :: 0 <= u < |db.users| && u != tr.sender && u != tr.receiver ==> db.users[u] == old(db.users)[u])
          && (forall u :: 0 <= u < |db.users| ==> db.users[u] == old(db.users)[u].(balance := db.users[u].balance))
          && ending == Completed
          && out == [Outgoing(msg.chat.id, Sent(tr.amount, db.users[tr.receiver].username, db.users[tr.sender].balance)),
                     Outgoing(db.users[tr.receiver].chatId, Received(tr.amount, db.users[tr.sender].username))]
  {
    var check := CheckSend(db, msg, allowSendToSelf);
    match check
    case Err(reply) =>
      out, ending := [Outgoing(msg.chat.id, reply)], Completed;
    case Ok(tr) =>
      out, ending := Book(db, tr, msg.chat.id, now);
  }

  // ---------------------------------------------------------------------------
  // /credit

  /** The provider of the gateway record `credit` books against. */
  const DevProvider: string := "telegram_dev_command"

  /** The transaction `credit` saves: no sender, the user as receiver, and the new gateway record. */
  function CreditRecord(amount: int, u: UserId, gateway: GatewayId): Transaction
  {
    Transaction(amount, None, Some(u), None, Some(gateway))
  }

  /** Saving a credit never fails, whatever the sign of the amount. */
  lemma CreditAlwaysSaves(amount: int, u: UserId, gateway: GatewayId, now: Date)
    ensures Clean(CreditRecord(amount, u, gateway), now) == Ok(CreditRecord(amount, u, gateway).(date := Some(now)))
  {
  }

  /** What `credit` makes of a message: who is credited and by how much, or why nothing is booked. */
  datatype CreditPlan = UnknownSender | UnparsedAmount | Deposit(user: UserId, amount: int)

  /**
   * The checks at the head of `credit`: the sender must be registered, and
   * the text after the command, stripped, must parse as an amount. Any
   * amount is accepted, negative ones included.
   */
  function CreditCheck(users: seq<User>, msg: Incoming): (p: CreditPlan)
    ensures p.UnknownSender? <==> FindByTelegramId(users, msg.from.id).None?
    ensures p.Deposit? ==> Some(p.user) == FindByTelegramId(users, msg.from.id) && p.user < |users|
  {
    match FindByTelegramId(users, msg.from.id)
    case None => UnknownSender
    case Some(u) =>
      match ParseAmount(Strip(Drop(msg.text, 7)))
      case None => UnparsedAmount
      case Some(amount) => Deposit(u, amount)
  }

  /**
   * A registered sender whose amount does not parse gets nothing booked,
   * and one whose amount parses is credited exactly that amount.
   */
  lemma CreditCheckAmount(users: seq<User>, msg: Incoming)
    ensures var p := CreditCheck(users, msg);
      && (p.UnparsedAmount? <==> FindByTelegramId(users, msg.from.id).Some? && ParseAmount(Strip(Drop(msg.text, 7))).None?)
      && (p.Deposit? ==> Some(p.amount) == ParseAmount(Strip(Drop(msg.text, 7))))
  {
  }

  /** `/credit` followed by any amount written with two places books exactly that amount. */
  lemma CreditOfFormattedAmount(users: seq<User>, msg: Incoming, c: int)
    requires FindByTelegramId(users, msg.from.id).Some?
    requires msg.text == "/credit " + FormatCents(c)
    ensures CreditCheck(users, msg) == Deposit(FindByTelegramId(users, msg.from.id).value, c)
  {
    var f := FormatCents(c);
    FormatCentsEnds(c);
    CreditArgument(f);
    FormatThenParse(c);
  }

  /** The argument `credit` reads from `/credit` and a word is that word. */
  lemma CreditArgument(f: string)
    requires f != [] && !IsSpace(f[0]) && !IsSpace(f[|f| - 1])
    ensures Strip(Drop("/credit " + f, 7)) == f
  {
    assert Drop("/credit " + f, 7) == " " + f;
    StripOfPadded(" ", f);
  }

  /** The checks at the head of `credit`, run against the store. */
  method CheckCredit(db: Store, msg: Incoming) returns (p: CreditPlan)
    ensures p == CreditCheck(db.users, msg)
  {
    var found := FindByTelegramId(db.users, msg.from.id);
    if found.None? {
      return UnknownSender;
    }
    var amount := ParseAmount(Strip(Drop(msg.text, 7)));
    if amount.None? {
      return UnparsedAmount;
    }
    p := Deposit(found.value, amount.value);
  }

  /**
   * The tail of `credit`: a new gateway record, a transaction from it to
   * the user, and the user's balance recomputed.
   */
  method BookCredit(db: Store, u: UserId, amount: int, now: Date)
    requires db.Valid() && db.Consistent()
    requires u < |db.users|
    modifies db
    ensures db.Valid() && db.Consistent()
    ensures db.gateways == old(db.gateways) + [DevProvider]
    ensures db.log == old(db.log) + [CreditRecord(amount, u, |old(db.gateways)|).(date := Some(now))]
    ensures db.users == old(db.users)[u := old(db.users)[u].(balance := old(db.users)[u].balance + amount)]
  {
    var gateway := db.SaveGateway(DevProvider);
    ghost var log0 := db.log;
    CreditAlwaysSaves(amount, u, gateway, now);
    var saved := db.SaveTransaction(CreditRecord(amount, u, gateway), now);
    assert saved.Ok?;
    assert (log0 + [saved.value])[..|log0|] == log0;
    db.UpdateBalance(u);
    forall v | 0 <= v < |db.users| && v != u ensures db.users[v].balance == Net(db.log, v) {
      NetAppendUninvolved(log0, saved.value, v);
    }
  }

  /**
   * `credit`. An unregistered sender is told so. An amount that does not
   * parse raises, since only `ValueError` is caught. Otherwise a gateway
   * record and a transaction to the sender are appended and the sender's
   * balance goes up by the amount.
   */
  method Credit(db: Store, msg: Incoming, now: Date) returns (out: seq<Outgoing>, ending: Ending)
    requires db.Valid() && db.Consistent()
    modifies db
    ensures db.Valid() && db.Consistent()
    ensures match CreditCheck(old(db.users), msg)
      case UnknownSender =>
        && db.users == old(db.users) && db.log == old(db.log) && db.gateways == old(db.gateways)
        && out == [Outgoing(msg.chat.id, NotFound)] && ending == Completed
      case UnparsedAmount =>
        && db.users == old(db.users) && db.log == old(db.log) && db.gateways == old(db.gateways)
        && out == [] && ending == Failed(InvalidOperation)
      case Deposit(u, amount) =>
        && db.gateways == old(db.gateways) + [DevProvider]
        && db.log == old(db.log) + [CreditRecord(amount, u, |old(db.gateways)|).(date := Some(now))]
        && db.users == old(db.users)[u := old(db.users)[u].(balance := old(db.users)[u].balance + amount)]
        && out == [Outgoing(msg.chat.id, Credited(amount))] && ending == Completed
  {
    var plan := CheckCredit(db, msg);
    match plan
    case UnknownSender =>
      out, ending := [Outgoing(msg.chat.id, NotFound)], Completed;
    case UnparsedAmount =>
      out, ending := [], Failed(InvalidOperation);
    case Deposit(u, amount) =>
      BookCredit(db, u, amount, now);
      out, ending := [Outgoing(msg.chat.id, Credited(amount))], Completed;
  }
}
