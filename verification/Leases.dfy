/** The account lease table: one row per account, changed only by
    compare-and-set statements that run one at a time. */
module Leases {
  import opened Texts

  datatype Provider = Codex | Claude | Devin

  datatype Key = Key(provider: Provider, accountId: Text)

  datatype Lease = Lease(key: Key, owner: Text, generation: nat, expiresAt: nat)

  datatype Row = Row(owner: Option<Text>, generation: nat, expiresAt: nat)

  type Table = map<Key, Row>

  const MIN_TTL := 1_000
  const MAX_TTL := 3_600_000

  datatype Op =
    | Acquire(key: Key, owner: Text, now: int, ttl: int)
    | Renew(lease: Lease, now: int, ttl: int)
    | Release(lease: Lease)

  datatype Reason = InvalidInput | Busy | Stale | OutOfGenerations

  datatype Reply =
    | Granted(lease: Lease) | Renewed(lease: Lease) | Released(key: Key) | NotReleased | Refused(reason: Reason)

  predicate ValidTimes(now: int, ttl: int) {
    0 <= now <= MAX_SAFE - MAX_TTL && MIN_TTL <= ttl <= MAX_TTL
  }

  predicate ValidLease(l: Lease) {
    && Identifier(l.key.accountId) && Identifier(l.owner)
    && 1 <= l.generation <= MAX_SAFE && l.expiresAt <= MAX_SAFE
  }

  /** The condition of every update: the row still is exactly what the token says. */
  predicate Current(table: Table, l: Lease) {
    l.key in table && table[l.key] == Row(Some(l.owner), l.generation, l.expiresAt)
  }

  datatype Served = Served(table: Table, reply: Reply)

  function Serve(table: Table, op: Op): Served {
    match op
    case Acquire(key, owner, now, ttl) =>
      if !(Identifier(key.accountId) && Identifier(owner) && ValidTimes(now, ttl))
          then Served(table, Refused(InvalidInput))
      else if key in table && table[key].owner.Some? then Served(table, Refused(Busy))
      else
        var row := Row(Some(owner), if key in table then table[key].generation + 1 else 1, now + ttl);
        Served(table[key := row],
               if row.generation <= MAX_SAFE then Granted(Lease(key, owner, row.generation, row.expiresAt))
                   else Refused(OutOfGenerations))
    case Renew(l, now, ttl) =>
      if !(ValidLease(l) && ValidTimes(now, ttl)) then Served(table, Refused(InvalidInput))
      else if !Current(table, l) then Served(table, Refused(Stale))
      else Served(table[l.key := table[l.key].(expiresAt := now + ttl)], Renewed(l.(expiresAt := now + ttl)))
    case Release(l) =>
      if !ValidLease(l) then Served(table, Refused(InvalidInput))
      else if !Current(table, l) then Served(table, NotReleased)
      else Served(table[l.key := Row(None, l.generation, 0)], Released(l.key))
  }

  // ------------------------------------------------------------- all runs

  /** The table and every reply so far, in order. */
  datatype State = State(table: Table, log: seq<Reply>)

  const EMPTY := State(map[], [])

  function Next(s: State, op: Op): State {
    var served := Serve(s.table, op);
    State(served.table, s.log + [served.reply])
  }

  function Run(s: State, ops: seq<Op>): State
    decreases |ops|
  {
    if ops == [] then s else Run(Next(s, ops[0]), ops[1..])
  }

  predicate GrantOf(r: Reply, key: Key) {
    r.Granted? && r.lease.key == key
  }

  function Grants(log: seq<Reply>, key: Key): nat {
    if log == [] then 0 else Grants(log[..|log| - 1], key) + if GrantOf(log[|log| - 1], key) then 1 else 0
  }

  function Releases(log: seq<Reply>, key: Key): nat {
    if log == [] then 0 else Releases(log[..|log| - 1], key) + if log[|log| - 1] == Released(key) then 1 else 0
  }

  /** A grant comes when every earlier grant has been released and takes the
      next number; a release ends the one grant that is out. */
  predicate InTurn(log: seq<Reply>, i: nat)
    requires i < |log|
  {
    match log[i]
    case Granted(l) => l.generation == Grants(log[..i], l.key) + 1 &&
        Releases(log[..i], l.key) == Grants(log[..i], l.key)
    case Released(key) => Releases(log[..i], key) + 1 == Grants(log[..i], key)
    case _ => true
  }

  predicate RowInv(table: Table, log: seq<Reply>, key: Key) {
    if key !in table then Grants(log, key) == 0 && Releases(log, key) == 0
    else if table[key].generation > MAX_SAFE then
      table[key].owner.Some? && Grants(log, key) == MAX_SAFE && Releases(log, key) == MAX_SAFE
    else
      && Grants(log, key) == table[key].generation >= 1
      && Releases(log, key) == Grants(log, key) - if table[key].owner.Some? then 1 else 0
  }

  ghost predicate Inv(s: State) {
    && (forall key :: RowInv(s.table, s.log, key))
    && (forall i :: 0 <= i < |s.log| ==> InTurn(s.log, i))
  }

  lemma Extend(log: seq<Reply>, r: Reply, key: Key)
    ensures Grants(log + [r], key) == Grants(log, key) + if GrantOf(r, key) then 1 else 0
    ensures Releases(log + [r], key) == Releases(log, key) + if r == Released(key) then 1 else 0
  {
    assert (log + [r])[..|log|] == log;
  }

  lemma NextKeeps(s: State, op: Op)
    requires Inv(s)
    ensures Inv(Next(s, op))
  {
    hide Identifier, ValidTimes, Grants, Releases;
    var t := Next(s, op);
    var reply := t.log[|s.log|];
    forall key ensures RowInv(t.table, t.log, key) {
      Extend(s.log, reply, key);
      assert RowInv(s.table, s.log, key);
    }
    forall i | 0 <= i < |t.log| ensures InTurn(t.log, i) {
      if i < |s.log| {
        assert InTurn(s.log, i);
        assert t.log[..i] == s.log[..i];
      } else {
        assert t.log[..i] == s.log;
        assert RowInv(s.table, s.log, if op.Acquire? then op.key else op.lease.key);
      }
    }
  }

  lemma {:induction false} RunKeeps(s: State, ops: seq<Op>)
    requires Inv(s)
    ensures Inv(Run(s, ops))
    decreases |ops|
  {
    hide Inv, Next;
    if ops != [] {
      NextKeeps(s, ops[0]);
      RunKeeps(Next(s, ops[0]), ops[1..]);
    }
  }

  lemma EmptyFine()
    ensures Inv(EMPTY)
  {
  }

  /** The n-th grant of an account carries generation n. */
  lemma NthGrant(ops: seq<Op>, i: nat)
    requires i < |Run(EMPTY, ops).log| && Run(EMPTY, ops).log[i].Granted?
    ensures var log := Run(EMPTY, ops).log; log[i].lease.generation == Grants(log[..i + 1], log[i].lease.key)
  {
    EmptyFine();
    RunKeeps(EMPTY, ops);
    var log := Run(EMPTY, ops).log;
    assert InTurn(log, i);
    assert log[..i + 1] == log[..i] + [log[i]];
    Extend(log[..i], log[i], log[i].lease.key);
  }

  /** Between two consecutive grants of an account lies exactly one release. */
  lemma OneReleaseBetween(ops: seq<Op>, i: nat, j: nat, key: Key)
    requires i < j < |Run(EMPTY, ops).log|
    requires GrantOf(Run(EMPTY, ops).log[i], key) && GrantOf(Run(EMPTY, ops).log[j], key)
    requires Grants(Run(EMPTY, ops).log[..j], key) == Grants(Run(EMPTY, ops).log[..i + 1], key)
    ensures var log := Run(EMPTY, ops).log; Releases(log[..j], key) == Releases(log[..i + 1], key) + 1
  {
    EmptyFine();
    RunKeeps(EMPTY, ops);
    var log := Run(EMPTY, ops).log;
    assert InTurn(log, i) && InTurn(log, j);
    assert log[..i + 1] == log[..i] + [log[i]];
    Extend(log[..i], log[i], key);
  }

  /** A token of an earlier grant, or of a grant already released, changes
      nothing: neither renewal nor release nor recovery with it has an effect. */
  lemma OldTokensAreDead(ops: seq<Op>, l: Lease, now: int, ttl: int)
    requires var log := Run(EMPTY, ops).log;
             l.generation < Grants(log, l.key) || l.generation <= Releases(log, l.key)
    ensures var s := Run(EMPTY, ops);
            && Serve(s.table, Renew(l, now, ttl)).table == s.table && Serve(s.table, Renew(l, now, ttl)).reply.Refused?
            && Serve(s.table, Release(l)).table == s.table && !Serve(s.table, Release(l)).reply.Released?
  {
    EmptyFine();
    RunKeeps(EMPTY, ops);
    var s := Run(EMPTY, ops);
    assert RowInv(s.table, s.log, l.key);
  }

  /** Only the token of the grant that is out works, and it works exactly
      while the row still carries its expiry. */
  lemma OnlyCurrentTokenReleases(ops: seq<Op>, l: Lease)
    requires Serve(Run(EMPTY, ops).table, Release(l)).reply.Released?
    ensures var log := Run(EMPTY, ops).log;
            l.generation == Grants(log, l.key) == Releases(log, l.key) + 1
  {
    EmptyFine();
    RunKeeps(EMPTY, ops);
    var s := Run(EMPTY, ops);
    assert RowInv(s.table, s.log, l.key);
  }

  // ---------------------------------------------------- which token works

  /** A reply that hands out a token for `key` or takes the one that is out. */
  predicate Concerns(r: Reply, key: Key) {
    (r.Granted? && r.lease.key == key) || (r.Renewed? && r.lease.key == key) || r == Released(key)
  }

  /** `l` was handed out at `i`, and nothing concerned its account since. */
  predicate NewestAt(log: seq<Reply>, i: nat, l: Lease) {
    && i < |log| && (log[i] == Granted(l) || log[i] == Renewed(l))
    && forall j :: i < j < |log| ==> !Concerns(log[j], l.key)
  }

  ghost predicate Newest(log: seq<Reply>, l: Lease) {
    exists i: nat :: NewestAt(log, i, l)
  }

  /** A row that is held within the generations shows the newest token, and
      otherwise there is none. */
  ghost predicate TokenInv(s: State, key: Key) {
    forall l: Lease :: l.key == key ==> (Newest(s.log, l) <==> Current(s.table, l) && l.generation <= MAX_SAFE)
  }

  lemma NewestMore(log: seq<Reply>, r: Reply, l: Lease)
    ensures Newest(log + [r], l) <==>
              if Concerns(r, l.key) then r == Granted(l) || r == Renewed(l) else Newest(log, l)
  {
    var longer := log + [r];
    assert longer[|log|] == r;
    if Newest(longer, l) {
      var i: nat :| NewestAt(longer, i, l);
      if i < |log| {
        assert forall j :: i <= j < |log| ==> longer[j] == log[j];
        assert NewestAt(log, i, l);
      }
    }
    if r == Granted(l) || r == Renewed(l) {
      assert NewestAt(longer, |log|, l);
    } else if !Concerns(r, l.key) && Newest(log, l) {
      var i: nat :| NewestAt(log, i, l);
      assert NewestAt(longer, i, l);
    }
  }

  lemma TokenNext(s: State, op: Op, key: Key)
    requires Inv(s) && TokenInv(s, key)
    ensures TokenInv(Next(s, op), key)
  {
    hide Identifier, ValidTimes, Newest, Inv, InTurn;
    var t := Next(s, op);
    var reply := t.log[|s.log|];
    assert RowInv(s.table, s.log, if op.Acquire? then op.key else op.lease.key) by {
      RowOf(s, if op.Acquire? then op.key else op.lease.key);
    }
    forall l: Lease | l.key == key ensures Newest(t.log, l) <==> Current(t.table, l) && l.generation <= MAX_SAFE {
      NewestMore(s.log, reply, l);
      assert Newest(s.log, l) <==> Current(s.table, l) && l.generation <= MAX_SAFE;
    }
  }

  lemma RowOf(s: State, key: Key)
    requires Inv(s)
    ensures RowInv(s.table, s.log, key)
  {
  }

  lemma {:induction false} TokenRun(s: State, ops: seq<Op>, key: Key)
    requires Inv(s) && TokenInv(s, key)
    ensures TokenInv(Run(s, ops), key)
    decreases |ops|
  {
    hide Inv, TokenInv, Next;
    if ops != [] {
      TokenNext(s, ops[0], key);
      NextKeeps(s, ops[0]);
      TokenRun(Next(s, ops[0]), ops[1..], key);
    }
  }

  /** In every run a well-formed token renews and releases exactly if it is the
      newest one handed out for its account and nothing was released since. */
  lemma NewestTokenWorks(ops: seq<Op>, l: Lease, now: int, ttl: int)
    requires ValidLease(l) && ValidTimes(now, ttl)
    ensures var s := Run(EMPTY, ops);
            && (Serve(s.table, Renew(l, now, ttl)).reply == Renewed(l.(expiresAt := now + ttl)) <==> Newest(s.log, l))
            && (Serve(s.table, Release(l)).reply == Released(l.key) <==> Newest(s.log, l))
  {
    hide Run, Inv, Newest, Identifier, ValidTimes;
    EmptyFine();
    assert TokenInv(EMPTY, l.key) by {
      NoneNewest(l.key);
    }
    TokenRun(EMPTY, ops, l.key);
  }

  lemma NoneNewest(key: Key)
    ensures TokenInv(EMPTY, key)
  {
  }

  /** The reply to each operation is the one its table gives. */
  lemma {:induction false} RepliesInOrder(s: State, ops: seq<Op>, i: nat)
    requires i < |ops|
    ensures |Run(s, ops).log| == |s.log| + |ops|
    ensures Run(s, ops).log[|s.log| + i] == Serve(Run(s, ops[..i]).table, ops[i]).reply
    decreases |ops|
  {
    hide Serve;
    var t := Next(s, ops[0]);
    LogGrows(t, ops[1..]);
    if i > 0 {
      RepliesInOrder(t, ops[1..], i - 1);
      assert ops[1..][..i - 1] == ops[..i][1..];
    } else {
      assert ops[..0] == [];
    }
  }

  lemma {:induction false} LogGrows(s: State, ops: seq<Op>)
    ensures s.log <= Run(s, ops).log && |Run(s, ops).log| == |s.log| + |ops|
    decreases |ops|
  {
    hide Serve;
    if ops != [] {
      LogGrows(Next(s, ops[0]), ops[1..]);
    }
  }

  /** The arguments of an acquire: a time, and a term from a second to an hour
      that ends within the exactly represented integers whatever its length. */
  predicate WellAsked(op: Op)
    requires op.Acquire?
  {
    && Identifier(op.key.accountId) && Identifier(op.owner)
    && 0 <= op.now <= 9_007_199_254_740_991 - 3_600_000 && 1_000 <= op.ttl <= 3_600_000
  }

  /** A grant answers an acquire of that account by that owner, in every run
      exactly when the arguments are valid, the account is not held and a
      generation is left; it lasts for the time asked for. */
  lemma GrantedExactly(ops: seq<Op>, i: nat)
    requires i < |ops| && ops[i].Acquire?
    ensures |Run(EMPTY, ops).log| == |ops|
    ensures var s, reply, op := Run(EMPTY, ops[..i]), Run(EMPTY, ops).log[i], ops[i];
            && (reply.Granted? <==>
                  && WellAsked(op) && Grants(s.log, op.key) < 9_007_199_254_740_991
                  && Grants(s.log, op.key) == Releases(s.log, op.key))
            && (reply == Refused(InvalidInput) <==> !WellAsked(op))
            && (WellAsked(op) && Grants(s.log, op.key) > Releases(s.log, op.key) ==> reply == Refused(Busy))
            && (reply.Granted? ==>
                  reply.lease == Lease(op.key, op.owner, Grants(s.log, op.key) + 1, op.now + op.ttl))
  {
    hide Run, Identifier, Inv;
    RepliesInOrder(EMPTY, ops, i);
    EmptyFine();
    RunKeeps(EMPTY, ops[..i]);
    RowOf(Run(EMPTY, ops[..i]), ops[i].key);
  }

  /** An operation leaves the rows of all other accounts alone. */
  lemma OtherRowsStay(table: Table, op: Op, key: Key)
    requires key != if op.Acquire? then op.key else op.lease.key
    ensures (key in Serve(table, op).table <==> key in table) &&
        (key in table ==> Serve(table, op).table[key] == table[key])
  {
    hide Identifier, ValidTimes;
  }

  // ------------------------------------------------ the end of generations

  const ACCOUNT := Key(Codex, [97])
  const HOLDER: Text := [98]

  /** The acquire on a free row at the last generation: refused, and yet the
      row is taken, at a generation no token can carry. */
  lemma LastGenerationIsLost()
    ensures Serve(map[ACCOUNT := Row(None, MAX_SAFE, 0)], Acquire(ACCOUNT, HOLDER, 0, MIN_TTL))
         == Served(map[ACCOUNT := Row(Some(HOLDER), MAX_SAFE + 1, MIN_TTL)], Refused(OutOfGenerations))
  {
    var table := map[ACCOUNT := Row(None, MAX_SAFE, 0)];
    var lost := Row(Some(HOLDER), MAX_SAFE + 1, MIN_TTL);
    assert table[ACCOUNT := lost] == map[ACCOUNT := lost];
  }

  /** What an acquire is asked with. */
  predicate ValidAcquire(key: Key, owner: Text, now: int, ttl: int) {
    Identifier(key.accountId) && Identifier(owner) && ValidTimes(now, ttl)
  }

  /** A refused acquire changes the table exactly when its arguments are valid
      and it finds the row free at the last generation or beyond. */
  lemma RefusedYetTaken(table: Table, key: Key, owner: Text, now: int, ttl: int)
    ensures var served := Serve(table, Acquire(key, owner, now, ttl));
            served.reply.Refused? && served.table != table
            <==> ValidAcquire(key, owner, now, ttl) && key in table && table[key].owner.None?
                 && table[key].generation >= MAX_SAFE
  {
    var served := Serve(table, Acquire(key, owner, now, ttl));
    if ValidAcquire(key, owner, now, ttl) && (key in table ==> table[key].owner.None?) {
      assert served.table[key].owner == Some(owner);
    }
  }

  /** In a run the bound is met exactly, and it is met after as many grants as
      there are generations, all of them released. */
  lemma RefusedYetTakenInRuns(ops: seq<Op>, key: Key, owner: Text, now: int, ttl: int)
    ensures var s := Run(EMPTY, ops);
            var served := Serve(s.table, Acquire(key, owner, now, ttl));
            && (served.reply.Refused? && served.table != s.table
                <==> && ValidAcquire(key, owner, now, ttl) && key in s.table
                     && s.table[key].owner.None? && s.table[key].generation == MAX_SAFE)
            && (served.reply.Refused? && served.table != s.table ==>
                  Grants(s.log, key) == MAX_SAFE && Releases(s.log, key) == MAX_SAFE)
  {
    hide Serve, Run, ValidAcquire;
    EmptyFine();
    RunKeeps(EMPTY, ops);
    var s := Run(EMPTY, ops);
    RefusedYetTaken(s.table, key, owner, now, ttl);
    assert RowInv(s.table, s.log, key);
  }

  lemma {:induction false} RunMore(s: State, ops: seq<Op>, op: Op)
    ensures Run(s, ops + [op]) == Next(Run(s, ops), op)
    decreases |ops|
  {
    hide Next;
    if ops == [] {
      assert ops + [op] == [op];
      assert Run(s, [op]) == Run(Next(s, op), [op][1..]);
    } else {
      assert (ops + [op])[1..] == ops[1..] + [op];
      RunMore(Next(s, ops[0]), ops[1..], op);
    }
  }

  /** Every generation is reached, the last one too: acquire and release in turn. */
  lemma {:induction false} GenerationsReached(n: nat) returns (ops: seq<Op>)
    requires 0 < n <= MAX_SAFE
    ensures Run(EMPTY, ops).table == map[ACCOUNT := Row(None, n, 0)]
  {
    hide Run;
    var before: seq<Op> := [];
    RunNone();
    if n > 1 {
      before := GenerationsReached(n - 1);
    }
    var acquire, release := Acquire(ACCOUNT, HOLDER, 0, MIN_TTL), Release(Lease(ACCOUNT, HOLDER, n, MIN_TTL));
    RunMore(EMPTY, before, acquire);
    RunMore(EMPTY, before + [acquire], release);
    ops := before + [acquire] + [release];
    var table := Run(EMPTY, before).table;
    assert table[ACCOUNT := Row(Some(HOLDER), n, MIN_TTL)] == map[ACCOUNT := Row(Some(HOLDER), n, MIN_TTL)];
    assert map[ACCOUNT := Row(Some(HOLDER), n, MIN_TTL)][ACCOUNT := Row(None, n, 0)] == map[ACCOUNT := Row(None, n, 0)];
  }

  lemma RunNone()
    ensures Run(EMPTY, []) == EMPTY
  {
  }

  /** Once generations run out the row is held for ever: no token is valid
      for it and nobody is granted the account. */
  lemma OutOfGenerationsIsFinal(table: Table, key: Key, op: Op)
    requires key in table && table[key].generation > MAX_SAFE && table[key].owner.Some?
    ensures key in Serve(table, op).table && Serve(table, op).table[key] == table[key]
    ensures !GrantOf(Serve(table, op).reply, key) && Serve(table, op).reply != Released(key)
  {
    hide Identifier;
  }

  // ------------------------------------------------------------- the class

  class SqliteAccountLeases {
    var table: Table
    ghost var log: seq<Reply>

    ghost function Model(): State
      reads this
    {
      State(table, log)
    }

    ghost predicate Valid()
      reads this
    {
      Inv(Model())
    }

    constructor ()
      ensures Valid() && Model() == EMPTY
    {
      table, log := map[], [];
      new;
      EmptyFine();
    }

    method Acquire(key: Key, owner: Text, now: int, ttl: int) returns (reply: Reply)
      requires Valid()
      modifies this
      ensures Valid() && Model() == Next(old(Model()), Op.Acquire(key, owner, now, ttl))
      ensures log == old(log) + [reply]
      ensures reply.Granted? ==> reply.lease.generation == old(Grants(log, key)) + 1 == old(Releases(log, key)) + 1
    {
      hide Grants, Releases, InTurn;
      NextKeeps(Model(), Op.Acquire(key, owner, now, ttl));
      assert RowInv(table, log, key);
      if !Identifier(key.accountId) || !Identifier(owner) || !ValidTimes(now, ttl) {
        reply := Refused(InvalidInput);
      } else if key in table && table[key].owner.Some? {
        reply := Refused(Busy);
      } else {
        var expiresAt := now + ttl;
        if key !in table {
          table := table[key := Row(Some(owner), 1, expiresAt)];
        } else {
          table := table[key := Row(Some(owner), table[key].generation + 1, expiresAt)];
        }
        var row := table[key];
        reply := if row.generation > MAX_SAFE then Refused(OutOfGenerations)
                 else Granted(Lease(key, owner, row.generation, row.expiresAt));
      }
      log := log + [reply];
    }

    method Renew(lease: Lease, now: int, ttl: int) returns (reply: Reply)
      requires Valid()
      modifies this
      ensures Valid() && Model() == Next(old(Model()), Op.Renew(lease, now, ttl))
      ensures log == old(log) + [reply]
      ensures lease.generation <= old(Releases(log, lease.key)) ==> table == old(table) && reply.Refused?
    {
      hide Grants, Releases, InTurn;
      NextKeeps(Model(), Op.Renew(lease, now, ttl));
      assert RowInv(table, log, lease.key);
      if !ValidLease(lease) || !ValidTimes(now, ttl) {
        reply := Refused(InvalidInput);
      } else if !Current(table, lease) {
        reply := Refused(Stale);
      } else {
        table := table[lease.key := table[lease.key].(expiresAt := now + ttl)];
        reply := Renewed(lease.(expiresAt := now + ttl));
      }
      log := log + [reply];
    }

    method Release(lease: Lease) returns (reply: Reply)
      requires Valid()
      modifies this
      ensures Valid() && Model() == Next(old(Model()), Op.Release(lease))
      ensures log == old(log) + [reply]
      ensures lease.generation <= old(Releases(log, lease.key)) ==> table == old(table) && !reply.Released?
    {
      hide Grants, Releases, InTurn;
      NextKeeps(Model(), Op.Release(lease));
      assert RowInv(table, log, lease.key);
      if !ValidLease(lease) {
        reply := Refused(InvalidInput);
      } else if !Current(table, lease) {
        reply := NotReleased;
      } else {
        table := table[lease.key := Row(None, lease.generation, 0)];
        reply := Released(lease.key);
      }
      log := log + [reply];
    }

    /** Recovery is a release after independent proof, however much later. */
    method Recover(lease: Lease, proven: bool) returns (reply: Option<Reply>)
      requires Valid()
      modifies this
      ensures Valid() && (reply.Some? <==> ValidLease(lease) && proven)
      ensures Model() == if reply.Some? then Next(old(Model()), Op.Release(lease)) else old(Model())
    {
      hide Inv, Next;
      if !ValidLease(lease) || !proven {
        return None;
      }
      var released := Release(lease);
      reply := Some(released);
    }
  }
}
