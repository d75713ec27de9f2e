/**
 The store's methods as they are written, each running one transaction with no
 other in between.  A transaction works on its own copy of the rows; commit
 installs the copy, and every early return drops it.
 */
module WalletStore {
  import opened Prelude
  import opened WalletBooks
  import opened AccountOrder

  /** What a method must do: the outcome of the operation run alone, and nothing at all when it is refused. */
  ghost predicate Performs(before: Books, op: Op, after: Books, refusal: Option<Refusal>) {
    match Apply(before, op)
    case Success(b) => refusal == None && after == b
    case Failure(e) => refusal == Some(e) && after == before
  }

  ghost function RefusalOf<T>(r: Result<T, Refusal>): Option<Refusal> {
    match r
    case Success(_) => None
    case Failure(e) => Some(e)
  }

  /** The operation, if it was not refused. */
  ghost function Accepted<T>(op: Op, r: Result<T, Refusal>): seq<Op> {
    if r.Success? then [op] else []
  }

  class PostgresStore {
    var accounts: map<Account, int>
    var audit: seq<AuditRow>
    ghost const seeds: map<Account, int>  // the balances the store began with
    ghost var done: seq<Op>               // the operations it has accepted since

    /** The store is where the operations it accepted have brought it. */
    ghost predicate Valid()
      reads this
    {
      Replay(Books(seeds, []), done) == Success(Contents())
    }

    ghost function Contents(): Books
      reads this
    {
      Books(accounts, audit)
    }

    constructor (seeds: map<Account, int>)
      ensures Valid() && Contents() == Books(seeds, []) && this.seeds == seeds && done == []
    {
      accounts, audit := seeds, [];
      this.seeds, done := seeds, [];
    }

    /**
     The balance read is the account's seed plus all audited amounts into it minus all
     audited amounts out of it; it is unknown exactly if it was neither seeded nor ever
     credited.
     */
    method GetBalance(account: Account) returns (r: Result<int, Refusal>)
      requires Valid()
      ensures r.Success? <==> account in seeds || Credited(audit, account)
      ensures r.Success? ==> r.value == Get(seeds, account) + Net(audit, account)
      ensures r.Failure? ==> r.error == NotFound(account)
    {
      KnownAccounts(Books(seeds, []), done, account);
      BalanceAudit(Books(seeds, []), done);
      assert audit[0..] == audit;
      if account !in accounts {
        return Failure(NotFound(account));
      }
      return Success(accounts[account]);
    }

    method Credit(account: Account, amount: int, ref: Ref) returns (r: Result<int, Refusal>)
      requires Valid()
      modifies this
      ensures Valid() && done == old(done) + Accepted(Op.Credit(account, amount, ref), r)
      ensures Performs(old(Contents()), Op.Credit(account, amount, ref), Contents(), RefusalOf(r))
      ensures r.Success? ==> account in accounts && r.value == accounts[account]
      ensures
        if exists k :: 0 <= k < |old(audit)| && old(audit)[k].ref == ref
        then r == Failure(AlreadyProcessed(ref)) && accounts == old(accounts) && audit == old(audit)
        else
          && r == Success((if account in old(accounts) then old(accounts)[account] else 0) + amount)
          && accounts == old(accounts)[account := r.value]
          && audit == old(audit) + [AuditRow(None, Some(account), amount, ref)]
    {
      hide Replay;
      if HasRef(audit, ref) {
        return Failure(AlreadyProcessed(ref));
      }
      var rows := accounts;
      if account !in rows {
        rows := rows[account := 0];
      }
      var currentBalance := rows[account];
      var newBalance := currentBalance + amount;
      rows := rows[account := newBalance];
      assert rows == Moved(accounts, Op.Credit(account, amount, ref));
      accounts, audit := rows, audit + [AuditRow(None, Some(account), amount, ref)];
      ReplayNext(Books(seeds, []), done, old(Contents()), Op.Credit(account, amount, ref), Contents());
      done := done + [Op.Credit(account, amount, ref)];
      return Success(newBalance);
    }

    method Debit(account: Account, amount: int, ref: Ref) returns (r: Result<int, Refusal>)
      requires Valid()
      modifies this
      ensures Valid() && done == old(done) + Accepted(Op.Debit(account, amount, ref), r)
      ensures Performs(old(Contents()), Op.Debit(account, amount, ref), Contents(), RefusalOf(r))
      ensures r.Success? ==> account in accounts && r.value == accounts[account]
      ensures r.Failure? ==> accounts == old(accounts) && audit == old(audit)
      ensures
        if exists k :: 0 <= k < |old(audit)| && old(audit)[k].ref == ref then r == Failure(AlreadyProcessed(ref))
        else if account !in old(accounts) then r == Failure(NotFound(account))
        else if old(accounts)[account] < amount then r == Failure(Insufficient(old(accounts)[account]))
        else
          && r == Success(old(accounts)[account] - amount)
          && accounts == old(accounts)[account := old(accounts)[account] - amount]
          && audit == old(audit) + [AuditRow(Some(account), None, amount, ref)]
    {
      hide Replay;
      if HasRef(audit, ref) {
        return Failure(AlreadyProcessed(ref));
      }
      if account !in accounts {
        return Failure(NotFound(account));
      }
      var currentBalance := accounts[account];
      if currentBalance < amount {
        return Failure(Insufficient(currentBalance));
      }
      var newBalance := currentBalance - amount;
      var rows := accounts[account := newBalance];
      assert rows == Moved(accounts, Op.Debit(account, amount, ref));
      accounts, audit := rows, audit + [AuditRow(Some(account), None, amount, ref)];
      ReplayNext(Books(seeds, []), done, old(Contents()), Op.Debit(account, amount, ref), Contents());
      done := done + [Op.Debit(account, amount, ref)];
      return Success(newBalance);
    }

    method Transfer(from: Account, to: Account, amount: int, ref: Ref) returns (r: Result<(int, int), Refusal>)
      requires Valid()
      modifies this
      ensures Valid() && done == old(done) + Accepted(Op.Transfer(from, to, amount, ref), r)
      ensures Performs(old(Contents()), Op.Transfer(from, to, amount, ref), Contents(), RefusalOf(r))
      ensures r.Success? ==>
        from in accounts && to in accounts && r.value == (accounts[from], accounts[to])
      ensures r.Failure? ==> accounts == old(accounts) && audit == old(audit)
      ensures
        if from == to then r == Failure(SameAccount)
        else if exists k :: 0 <= k < |old(audit)| && old(audit)[k].ref == ref then r == Failure(AlreadyProcessed(ref))
        else if from !in old(accounts) then r == Failure(NotFound(from))
        else if old(accounts)[from] < amount then r == Failure(Insufficient(old(accounts)[from]))
        else
          && r.Success?
          && accounts == old(accounts)[from := old(accounts)[from] - amount][
               to := (if to in old(accounts) then old(accounts)[to] else 0) + amount]
          && audit == old(audit) + [AuditRow(Some(from), Some(to), amount, ref)]
    {
      hide Replay;
      if from == to {
        return Failure(SameAccount);
      }
      if HasRef(audit, ref) {
        return Failure(AlreadyProcessed(ref));
      }
      var rows := accounts;
      if to !in rows {
        rows := rows[to := 0];
      }
      var firstLock, secondLock := from, to;
      if Less(to, from) {
        firstLock, secondLock := to, from;
      }
      var locks: map<Account, int> := map[];
      if firstLock !in rows {
        return Failure(NotFound(firstLock));
      }
      locks := locks[firstLock := rows[firstLock]];
      if secondLock !in rows {
        return Failure(NotFound(secondLock));
      }
      locks := locks[secondLock := rows[secondLock]];
      var fromBalance, toBalance := locks[from], locks[to];
      if fromBalance < amount {
        return Failure(Insufficient(fromBalance));
      }
      var fromNewBalance, toNewBalance := fromBalance - amount, toBalance + amount;
      rows := rows[from := fromNewBalance];
      rows := rows[to := toNewBalance];
      assert rows == Moved(accounts, Op.Transfer(from, to, amount, ref));
      accounts, audit := rows, audit + [AuditRow(Some(from), Some(to), amount, ref)];
      ReplayNext(Books(seeds, []), done, old(Contents()), Op.Transfer(from, to, amount, ref), Contents());
      done := done + [Op.Transfer(from, to, amount, ref)];
      return Success((fromNewBalance, toNewBalance));
    }
  }
}
