/**
 * The ledger of `db.py`: users with a cached balance, transactions between
 * two users or between a user and a payment gateway, and the gateway
 * records. Amounts are whole cents: `Decimal` arithmetic is exact, and the
 * context given to the constructor does not round what it builds.
 *
 * The MongoDB collections become the fields of a `Store`; a document's id is
 * its position in its collection, and a query's `.first()` is the first
 * match in insertion order.
 */
module Ledger {
  import opened Wrappers
  import opened Strings

  type UserId = nat
  type GatewayId = nat
  /** A point in time, as `datetime.now()` returns it. */
  type Date = nat

  /** A `User` document. `username` and `languageCode` are `None` when Telegram gives none. */
  datatype User = User(
    chatId: int,
    telegramId: int,
    username: Option<string>,
    name: string,
    languageCode: Option<string>,
    balance: int)

  /** The parts of a Telegram chat and user that `from_telegram_user` reads. */
  datatype Chat = Chat(id: int)
  datatype TelegramUser = TelegramUser(id: int, username: Option<string>, name: string, languageCode: Option<string>)

  /** `User.from_telegram_user`: the chat and user ids, the user's names, and a balance of zero. */
  function FromTelegramUser(chat: Chat, from: TelegramUser): User
  {
    User(chat.id, from.id, from.username, from.name, from.languageCode, 0)
  }

  /**
   * Two users that the unique indexes on `chat_id`, `telegram_id` and
   * `username` keep apart. A missing username is indexed as null, so two
   * users without a username clash as well.
   */
  predicate Clash(a: User, b: User)
  {
    a.chatId == b.chatId || a.telegramId == b.telegramId || a.username == b.username
  }

  predicate UniqueFields(users: seq<User>)
  {
    forall i, j :: 0 <= i < j < |users| ==> !Clash(users[i], users[j])
  }

  /** `User.objects(telegram_id=id).first()`. */
  function FindByTelegramId(users: seq<User>, id: int): (r: Option<UserId>)
    ensures r.Some? ==> r.value < |users| && users[r.value].telegramId == id
    ensures r.Some? ==> forall j :: 0 <= j < r.value ==> users[j].telegramId != id
    ensures r.None? <==> forall j :: 0 <= j < |users| ==> users[j].telegramId != id
  {
    if users == [] then None
    else if users[0].telegramId == id then Some(0)
    else
      var r := FindByTelegramId(users[1..], id);
      assert forall j :: 0 < j < |users| ==> users[j] == users[1..][j - 1];
      if r.Some? then Some(r.value + 1) else None
  }

  /** `username__iexact`: equal up to case; a user without a username never matches. */
  predicate SameName(username: Option<string>, name: string)
  {
    username.Some? && Lower(username.value) == Lower(name)
  }

  /** `User.objects(username__iexact=name).first()`. */
  function FindByUsername(users: seq<User>, name: string): (r: Option<UserId>)
    ensures r.Some? ==> r.value < |users| && SameName(users[r.value].username, name)
    ensures r.Some? ==> forall j :: 0 <= j < r.value ==> !SameName(users[j].username, name)
    ensures r.None? <==> forall j :: 0 <= j < |users| ==> !SameName(users[j].username, name)
  {
    if users == [] then None
    else if SameName(users[0].username, name) then Some(0)
    else
      var r := FindByUsername(users[1..], name);
      assert forall j :: 0 < j < |users| ==> users[j] == users[1..][j - 1];
      if r.Some? then Some(r.value + 1) else None
  }

  // ---------------------------------------------------------------------------
  // Transactions

  /** A `Transaction` document; a missing reference is `None`. */
  datatype Transaction = Transaction(
    amount: int,
    date: Option<Date>,
    receiver: Option<UserId>,
    sender: Option<UserId>,
    gateway: Option<GatewayId>)

  /** The three `ValidationError`s of `Transaction.clean`. */
  datatype CleanError = MissingSource | NegativeTransfer | SameParty

  /**
   * `Transaction.clean` as run by `save`: fills in a missing date, then
   * rejects a transaction with neither a sender nor gateway details, a
   * negative amount sent by a user, and a sender equal to the receiver.
   */
  function Clean(t: Transaction, now: Date): (r: Result<Transaction, CleanError>)
    ensures r.Ok? <==>
      && (t.sender.Some? || t.gateway.Some?)
      && (t.sender.Some? ==> t.amount >= 0)
      && t.sender != t.receiver
    ensures r.Ok? ==> r.value.date.Some? && r.value == t.(date := r.value.date)
    ensures r.Ok? && t.date.Some? ==> r.value == t
  {
    var dated := if t.date.None? then t.(date := Some(now)) else t;
    if t.sender.None? && t.gateway.None? then Err(MissingSource)
    else if t.sender.Some? && t.amount < 0 then Err(NegativeTransfer)
    else if t.sender == t.receiver then Err(SameParty)
    else Ok(dated)
  }

  /**
   * The checks run in the order `clean` tests them: the missing source is
   * reported before the sign, and the sign before the parties. A gateway
   * transaction gets no sign check, and a zero amount passes.
   */
  lemma CleanErrors(t: Transaction, now: Date)
    ensures t.sender.None? && t.gateway.None? ==> Clean(t, now) == Err(MissingSource)
    ensures t.sender.Some? && t.amount < 0 ==> Clean(t, now) == Err(NegativeTransfer)
    ensures (t.sender.Some? || t.gateway.Some?) && (t.sender.Some? ==> t.amount >= 0) && t.sender == t.receiver
      ==> Clean(t, now) == Err(SameParty)
  {
  }

  /** Cleaning is idempotent: a cleaned transaction keeps its date and passes again unchanged, whenever it is cleaned. */
  lemma CleanIdempotent(t: Transaction, now: Date, later: Date)
    requires Clean(t, now).Ok?
    ensures Clean(Clean(t, now).value, later) == Clean(t, now)
  {
  }

  /** The transaction concerns the user, as the query of `get_transactions` selects it. */
  predicate Involves(t: Transaction, u: UserId)
  {
    t.receiver == Some(u) || t.sender == Some(u)
  }

  /** `User.get_transactions`: the transactions the user receives or sends, in log order. */
  function TransactionsOf(log: seq<Transaction>, u: UserId): (r: seq<Transaction>)
    ensures |r| <= |log|
    ensures forall t :: t in r <==> t in log && Involves(t, u)
    ensures forall t :: multiset(r)[t] == if Involves(t, u) then multiset(log)[t] else 0
  {
    if log == [] then []
    else
      var r := TransactionsOf(log[..|log| - 1], u);
      assert log == log[..|log| - 1] + [log[|log| - 1]];
      r + if Involves(log[|log| - 1], u) then [log[|log| - 1]] else []
  }

  /** What one transaction adds to a user's balance in `update_balance`; the receiver is tested first. */
  function Contribution(t: Transaction, u: UserId): int
  {
    if t.receiver == Some(u) then t.amount
    else if t.sender == Some(u) then -t.amount
    else 0
  }

  /** The balance `update_balance` computes over a sequence of transactions. */
  function Net(log: seq<Transaction>, u: UserId): int
  {
    if log == [] then 0 else Net(log[..|log| - 1], u) + Contribution(log[|log| - 1], u)
  }

  /** The sum of the amounts the user receives. */
  function Received(log: seq<Transaction>, u: UserId): int
  {
    if log == [] then 0
    else Received(log[..|log| - 1], u) + (if log[|log| - 1].receiver == Some(u) then log[|log| - 1].amount else 0)
  }

  /** The sum of the amounts the user sends. */
  function Sent(log: seq<Transaction>, u: UserId): int
  {
    if log == [] then 0
    else Sent(log[..|log| - 1], u) + (if log[|log| - 1].sender == Some(u) then log[|log| - 1].amount else 0)
  }

  predicate SelfTransfer(t: Transaction, u: UserId)
  {
    t.receiver == Some(u) && t.sender == Some(u)
  }

  /** The sum of the amounts the user sends to themself. */
  function SentToSelf(log: seq<Transaction>, u: UserId): int
  {
    if log == [] then 0
    else SentToSelf(log[..|log| - 1], u) + (if SelfTransfer(log[|log| - 1], u) then log[|log| - 1].amount else 0)
  }

  /**
   * The balance is the sum received minus the sum sent, except that a
   * transfer to oneself counts once, as received, because the receiver is
   * tested first. The log never holds one (`Clean` rejects it), and then the
   * balance is exactly received minus sent.
   */
  lemma {:induction false} NetIsReceivedMinusSent(log: seq<Transaction>, u: UserId)
    ensures Net(log, u) == Received(log, u) - Sent(log, u) + SentToSelf(log, u)
    ensures (forall t :: t in log ==> !SelfTransfer(t, u)) ==> Net(log, u) == Received(log, u) - Sent(log, u)
  {
    if log != [] {
      var init := log[..|log| - 1];
      NetIsReceivedMinusSent(init, u);
      if forall t :: t in log ==> !SelfTransfer(t, u) {
        NoSelfTransfers(log, u);
      }
    }
  }

  lemma {:induction false} NoSelfTransfers(log: seq<Transaction>, u: UserId)
    requires forall t :: t in log ==> !SelfTransfer(t, u)
    ensures SentToSelf(log, u) == 0
  {
    if log != [] {
      assert log[|log| - 1] in log;
      assert forall t :: t in log[..|log| - 1] ==> t in log;
      NoSelfTransfers(log[..|log| - 1], u);
    }
  }

  lemma {:induction false} NetConcat(a: seq<Transaction>, b: seq<Transaction>, u: UserId)
    ensures Net(a + b, u) == Net(a, u) + Net(b, u)
    decreases |b|
  {
    if b == [] {
      assert a + b == a;
    } else {
      assert (a + b)[..|a + b| - 1] == a + b[..|b| - 1];
      NetConcat(a, b[..|b| - 1], u);
    }
  }

  lemma NetRemoveAt(s: seq<Transaction>, j: nat, u: UserId)
    requires j < |s|
    ensures Net(s, u) == Net(s[..j] + s[j + 1..], u) + Contribution(s[j], u)
  {
    var front, x, back := s[..j], [s[j]], s[j + 1..];
    assert s == front + x + back;
    NetConcat(front + x, back, u);
    NetConcat(front, x, u);
    NetConcat(front, back, u);
    assert x[..0] == [];
  }

  lemma NetFront(a: seq<Transaction>, u: UserId)
    requires a != []
    ensures Net(a, u) == Contribution(a[0], u) + Net(a[1..], u)
    ensures multiset(a[1..]) == multiset(a) - multiset{a[0]}
  {
    assert a == [a[0]] + a[1..];
    NetConcat([a[0]], a[1..], u);
    assert [a[0]][..0] == [];
  }

  /** The balance does not depend on the order in which the log lists the transactions. */
  lemma {:induction false} NetIgnoresOrder(a: seq<Transaction>, b: seq<Transaction>, u: UserId)
    requires multiset(a) == multiset(b)
    ensures Net(a, u) == Net(b, u)
    decreases |a|
  {
    if a == [] {
      assert |b| == |multiset(b)| == 0;
    } else {
      NetFront(a, u);
      assert a[0] in multiset(b);
      var j :| 0 <= j < |b| && b[j] == a[0];
      RemoveAt(b, j);
      NetIgnoresOrder(a[1..], b[..j] + b[j + 1..], u);
      NetRemoveAt(b, j, u);
    }
  }

  /** Summing over the transactions `get_transactions` selects gives the balance over the whole log. */
  lemma {:induction false} NetOfTransactionsOf(log: seq<Transaction>, u: UserId)
    ensures Net(TransactionsOf(log, u), u) == Net(log, u)
  {
    if log != [] {
      var init, last := log[..|log| - 1], log[|log| - 1];
      NetOfTransactionsOf(init, u);
      var tail := if Involves(last, u) then [last] else [];
      NetConcat(TransactionsOf(init, u), tail, u);
      assert [last][..0] == [];
    }
  }

  /** A transaction that does not involve the user leaves the balance alone. */
  lemma NetAppendUninvolved(log: seq<Transaction>, t: Transaction, u: UserId)
    requires !Involves(t, u)
    ensures Net(log + [t], u) == Net(log, u)
  {
    assert (log + [t])[..|log|] == log;
  }

  /** A user that no transaction names has a balance of zero. */
  lemma {:induction false} NetOfStranger(log: seq<Transaction>, u: UserId)
    requires forall t :: t in log ==> !Involves(t, u)
    ensures Net(log, u) == 0
  {
    if log != [] {
      assert log[|log| - 1] in log;
      assert forall t :: t in log[..|log| - 1] ==> t in log;
      NetOfStranger(log[..|log| - 1], u);
    }
  }

  // ---------------------------------------------------------------------------
  // The store

  /** A transaction as the log holds it: dated, passing `clean`, and naming only documents that exist. */
  predicate Stored(t: Transaction, users: nat, gateways: nat)
  {
    && t.date.Some? && Clean(t, t.date.value) == Ok(t)
    && (t.receiver.Some? ==> t.receiver.value < users)
    && (t.sender.Some? ==> t.sender.value < users)
    && (t.gateway.Some? ==> t.gateway.value < gateways)
  }

  /** The `User`, `Transaction` and `GatewayTransactionDetails` collections. */
  class Store {
    var users: seq<User>
    var log: seq<Transaction>
    /** The `provider` of each `GatewayTransactionDetails` document. */
    var gateways: seq<string>

    /** What the database enforces: the unique indexes, and validation on every saved transaction. */
    ghost predicate Valid()
      reads this
    {
      && UniqueFields(users)
      && forall i :: 0 <= i < |log| ==> Stored(log[i], |users|, |gateways|)
    }

    /** Every cached balance agrees with the log. */
    ghost predicate Consistent()
      reads this
    {
      forall u :: 0 <= u < |users| ==> users[u].balance == Net(log, u)
    }

    constructor ()
      ensures Valid() && Consistent()
      ensures users == [] && log == [] && gateways == []
    {
      users, log, gateways := [], [], [];
    }

    /** `user.save()` for a new user: refused with `NotUniqueError` when it clashes with a stored user. */
    method SaveUser(u: User) returns (r: Option<UserId>)
      requires Valid()
      modifies this`users
      ensures Valid()
      ensures r.None? <==> exists i :: 0 <= i < |old(users)| && Clash(old(users)[i], u)
      ensures r.None? ==> users == old(users)
      ensures r.Some? ==> r.value == |old(users)| && users == old(users) + [u]
    {
      var i := 0;
      while i < |users|
        invariant 0 <= i <= |users|
        invariant forall j :: 0 <= j < i ==> !Clash(users[j], u)
      {
        if Clash(users[i], u) {
          return None;
        }
        i := i + 1;
      }
      r := Some(|users|);
      users := users + [u];
      forall k | 0 <= k < |log| ensures Stored(log[k], |users|, |gateways|) {
        assert Stored(log[k], |users| - 1, |gateways|);
      }
    }

    /** `details.save()`: a new gateway record. */
    method SaveGateway(provider: string) returns (id: GatewayId)
      requires Valid()
      modifies this`gateways
      ensures Valid()
      ensures id == |old(gateways)| && gateways == old(gateways) + [provider]
    {
      id := |gateways|;
      gateways := gateways + [provider];
      forall k | 0 <= k < |log| ensures Stored(log[k], |users|, |gateways|) {
        assert Stored(log[k], |users|, |gateways| - 1);
      }
    }

    /** `transaction.save()`: cleaned, then appended to the log, or refused with the `ValidationError`. */
    method SaveTransaction(t: Transaction, now: Date) returns (r: Result<Transaction, CleanError>)
      requires Valid()
      requires t.receiver.Some? ==> t.receiver.value < |users|
      requires t.sender.Some? ==> t.sender.value < |users|
      requires t.gateway.Some? ==> t.gateway.value < |gateways|
      modifies this`log
      ensures Valid()
      ensures r == Clean(t, now)
      ensures log == if r.Ok? then old(log) + [r.value] else old(log)
    {
      r := Clean(t, now);
      if r.Ok? {
        CleanIdempotent(t, now, r.value.date.value);
        log := log + [r.value];
      }
    }

    /**
     * `User.update_balance`: the sum over the user's transactions, received
     * amounts added and sent amounts subtracted, stored as the user's
     * balance. The `RuntimeError` branch is unreachable.
     */
    method UpdateBalance(u: UserId)
      requires u < |users|
      modifies this`users
      ensures users == old(users)[u := old(users)[u].(balance := Net(log, u))]
    {
      var txs := TransactionsOf(log, u);
      var balance := 0;
      for k := 0 to |txs|
        invariant balance == Net(txs[..k], u)
      {
        var t := txs[k];
        assert txs[..k + 1][..k] == txs[..k];
        assert t in txs;
        if t.receiver == Some(u) {
          balance := balance + t.amount;
        } else if t.sender == Some(u) {
          balance := balance - t.amount;
        } else {
          assert false;
        }
      }
      assert txs[..|txs|] == txs;
      NetOfTransactionsOf(log, u);
      users := users[u := users[u].(balance := balance)];
    }
  }
}
