/**
 * Transactions of itkufs/accounting/models.py: the status life cycle
 * '' -> Reg -> Pay -> Rec with Rej as a side exit, the double-entry checks of
 * `Transaction.save`, the per-entry rules of `TransactionEntry.save` and the
 * one-log-per-type rule of `TransactionLog.save`.
 *
 * Amounts are integer cents. The transition methods of class `Transaction`
 * are proved equal to pure step functions on `TxState`; the lemmas of this
 * module are about those step functions.
 */
module Accounting {
  import opened Outcomes

  /** The transaction status field, and the type of a transaction log. */
  datatype Status = Undefined | Registered | Payed | Received | Rejected

  predicate IsRegistered(s: Status)
  {
    s == Registered || s == Payed || s == Received
  }

  predicate IsPayed(s: Status)
  {
    s == Payed || s == Received
  }

  predicate IsReceived(s: Status)
  {
    s == Received
  }

  predicate IsRejected(s: Status)
  {
    s == Rejected
  }

  /** An account as a transaction entry refers to it: its identity and its group. */
  datatype AccountRef = AccountRef(id: nat, group: nat)

  /** A transaction entry; `debit` and `credit` in cents, both defaulting to 0. */
  datatype Entry = Entry(account: AccountRef, debit: int, credit: int)

  /** A transaction log record. Its timestamp is not modelled. */
  datatype Log = Log(kind: Status, user: nat, message: string, auto: bool)

  /** The exceptions of the module: InvalidTransaction, InvalidTransactionEntry
      and InvalidTransactionLog, one constructor per raise site. */
  datatype TxError =
    | ForeignAccount          // an entry's account belongs to another group
    | AccountOnBothSides      // an account is both a debit and a credit account
    | DebitCreditMismatch     // the debit total differs from the credit total
    | CannotRegister
    | CannotPay
    | CannotReceive
    | CannotReject
    | EntryOnRegistered       // entries cannot be added to registered transactions
    | NegativeAmount
    | BothAmountsSet
    | NoAmount
    | LogAltered              // a saved log is never saved again
    | DuplicateLogType        // only one log of each type per transaction

  lemma StatusHierarchy(s: Status)
    ensures IsPayed(s) ==> IsRegistered(s)
    ensures IsReceived(s) ==> IsPayed(s)
    ensures IsRejected(s) ==> !IsRegistered(s) && !IsPayed(s) && !IsReceived(s)
  {
  }

  // ---------------------------------------------------------------------------
  // Transaction.save: the double-entry checks

  /** Accounts that `save` puts on the debit side: entries with debit > 0. */
  function DebitSide(entries: seq<Entry>): seq<AccountRef>
  {
    if entries == [] then []
    else
      var e := entries[|entries| - 1];
      DebitSide(entries[..|entries| - 1]) + (if e.debit > 0 then [e.account] else [])
  }

  /** Accounts on the credit side: entries with credit > 0 and no positive debit. */
  function CreditSide(entries: seq<Entry>): seq<AccountRef>
  {
    if entries == [] then []
    else
      var e := entries[|entries| - 1];
      CreditSide(entries[..|entries| - 1]) + (if e.debit <= 0 && e.credit > 0 then [e.account] else [])
  }

  function DebitSum(entries: seq<Entry>): int
  {
    if entries == [] then 0
    else
      var e := entries[|entries| - 1];
      DebitSum(entries[..|entries| - 1]) + (if e.debit > 0 then e.debit else 0)
  }

  function CreditSum(entries: seq<Entry>): int
  {
    if entries == [] then 0
    else
      var e := entries[|entries| - 1];
      CreditSum(entries[..|entries| - 1]) + (if e.debit <= 0 && e.credit > 0 then e.credit else 0)
  }

  /** What `Transaction.save` raises for these entries, checked in the source's order. */
  function SaveError(group: nat, entries: seq<Entry>): Option<TxError>
  {
    var debits, credits := DebitSide(entries), CreditSide(entries);
    if exists a :: a in debits + credits && a.group != group then Some(ForeignAccount)
    else if exists a :: a in debits && a in credits then Some(AccountOnBothSides)
    else if DebitSum(entries) != CreditSum(entries) then Some(DebitCreditMismatch)
    else None
  }

  /** The loops of `Transaction.save`: sort the entries into debit and credit
      accounts while summing them, then run the three checks. */
  method CheckEntries(group: nat, entries: seq<Entry>) returns (err: Option<TxError>)
    ensures err == SaveError(group, entries)
  {
    var debitSum, creditSum := 0, 0;
    var debitAccounts, creditAccounts := [], [];
    var i := 0;
    while i < |entries|
      invariant 0 <= i <= |entries|
      invariant debitAccounts == DebitSide(entries[..i]) && creditAccounts == CreditSide(entries[..i])
      invariant debitSum == DebitSum(entries[..i]) && creditSum == CreditSum(entries[..i])
    {
      var e := entries[i];
      assert entries[..i + 1][..i] == entries[..i];
      if e.debit > 0 {
        debitSum := debitSum + e.debit;
        debitAccounts := debitAccounts + [e.account];
      } else if e.credit > 0 {
        creditSum := creditSum + e.credit;
        creditAccounts := creditAccounts + [e.account];
      }
      i := i + 1;
    }
    assert entries[..i] == entries;
    var sides := debitAccounts + creditAccounts;
    var j := 0;
    while j < |sides|
      invariant 0 <= j <= |sides|
      invariant forall k :: 0 <= k < j ==> sides[k].group == group
    {
      if sides[j].group != group {
        return Some(ForeignAccount);
      }
      j := j + 1;
    }
    var both := (set a | a in debitAccounts) * (set a | a in creditAccounts);
    if both != {} {
      return Some(AccountOnBothSides);
    }
    assert forall a :: a in debitAccounts && a in creditAccounts ==> a in both;
    if debitSum != creditSum {
      return Some(DebitCreditMismatch);
    }
    return None;
  }

  // ---------------------------------------------------------------------------
  // TransactionEntry.save

  /** What `TransactionEntry.save` raises, given the status of its transaction. */
  function EntryError(status: Status, e: Entry): (err: Option<TxError>)
    ensures err == None <==>
      !IsRegistered(status) && ((e.debit > 0 && e.credit == 0) || (e.debit == 0 && e.credit > 0))
  {
    if IsRegistered(status) then Some(EntryOnRegistered)
    else if e.debit < 0 || e.credit < 0 then Some(NegativeAmount)
    else if e.debit > 0 && e.credit > 0 then Some(BothAmountsSet)
    else if e.debit == 0 && e.credit == 0 then Some(NoAmount)
    else None
  }

  /** An entry `TransactionEntry.save` accepts: exactly one side set, and positive. */
  predicate OneSided(e: Entry)
  {
    (e.debit > 0 && e.credit == 0) || (e.debit == 0 && e.credit > 0)
  }

  function TotalDebit(entries: seq<Entry>): int
  {
    if entries == [] then 0 else TotalDebit(entries[..|entries| - 1]) + entries[|entries| - 1].debit
  }

  function TotalCredit(entries: seq<Entry>): int
  {
    if entries == [] then 0 else TotalCredit(entries[..|entries| - 1]) + entries[|entries| - 1].credit
  }

  lemma {:induction false} OneSidedSums(entries: seq<Entry>)
    requires forall i :: 0 <= i < |entries| ==> OneSided(entries[i])
    ensures DebitSum(entries) == TotalDebit(entries)
    ensures CreditSum(entries) == TotalCredit(entries)
    decreases |entries|
  {
    if entries != [] {
      OneSidedSums(entries[..|entries| - 1]);
    }
  }

  /** Double entry: once every entry passed `TransactionEntry.save` and the
      transaction passed `Transaction.save`, the debits and credits of all its
      entries add up to the same amount. */
  lemma DoubleEntryBalances(group: nat, entries: seq<Entry>)
    requires forall i :: 0 <= i < |entries| ==> OneSided(entries[i])
    requires SaveError(group, entries) == None
    ensures TotalDebit(entries) == TotalCredit(entries)
  {
    OneSidedSums(entries);
  }

  // ---------------------------------------------------------------------------
  // The life cycle as step functions

  /** The part of a transaction the life cycle changes: its status, its logs
      in creation order, and whether it has been saved (has an id). */
  datatype TxState = TxState(status: Status, logs: seq<Log>, saved: bool)

  /** The state after a call, and the exception it raised (None: it returned). */
  datatype Step = Step(state: TxState, err: Option<TxError>)

  function LogKinds(logs: seq<Log>): seq<Status>
  {
    if logs == [] then [] else LogKinds(logs[..|logs| - 1]) + [logs[|logs| - 1].kind]
  }

  lemma LogKindsAppend(logs: seq<Log>, log: Log)
    ensures LogKinds(logs + [log]) == LogKinds(logs) + [log.kind]
  {
    assert (logs + [log])[..|logs|] == logs;
  }

  lemma {:induction false} LogKindsMember(logs: seq<Log>, k: Status)
    ensures k in LogKinds(logs) <==> exists i :: 0 <= i < |logs| && logs[i].kind == k
    decreases |logs|
  {
    if logs != [] {
      var init := logs[..|logs| - 1];
      LogKindsMember(init, k);
      if k in LogKinds(init) {
        var i :| 0 <= i < |init| && init[i].kind == k;
        assert logs[i] == init[i];
      }
      if exists i :: 0 <= i < |logs| && logs[i].kind == k {
        var i :| 0 <= i < |logs| && logs[i].kind == k;
        if i < |init| {
          assert init[i] == logs[i];
        }
      }
    }
  }

  /** The log kinds a transaction in each status has accumulated. */
  function LogsFor(s: Status): seq<Status>
  {
    match s
    case Undefined => []
    case Registered => [Registered]
    case Payed => [Registered, Payed]
    case Received => [Registered, Payed, Received]
    case Rejected => [Registered, Rejected]
  }

  /** The invariant the life cycle keeps: the logs match the status, and a
      transaction with a status has been saved. */
  ghost predicate ValidState(st: TxState)
  {
    LogKinds(st.logs) == LogsFor(st.status) && (st.status != Undefined ==> st.saved)
  }

  /** At most one log of each type. */
  ghost predicate DistinctLogKinds(st: TxState)
  {
    forall i, j :: 0 <= i < j < |st.logs| ==> st.logs[i].kind != st.logs[j].kind
  }

  /** The log a transition creates: the message is kept only when it is not blank. */
  function NewLog(kind: Status, user: nat, message: string, auto: bool): Log
  {
    Log(kind, user, if IsBlank(message) then "" else message, auto)
  }

  /** `Transaction.save`, where `check` is `SaveError` of the transaction's entries. */
  function SaveStep(st: TxState, check: Option<TxError>): Step
  {
    if check.Some? then Step(st, check) else Step(st.(saved := true), None)
  }

  /** `TransactionLog.save` of `log` for this transaction. */
  function SaveLogStep(st: TxState, check: Option<TxError>, log: Log, logSaved: bool): Step
  {
    if logSaved then Step(st, Some(LogAltered))
    else
      var s0 := if st.saved then Step(st, None) else SaveStep(st, check);
      if s0.err.Some? then s0
      else if log.kind in LogKinds(s0.state.logs) then Step(s0.state, Some(DuplicateLogType))
      else Step(s0.state.(logs := s0.state.logs + [log]), None)
  }

  /** Log `kind`, move to status `kind`, save: the common tail of every transition. */
  function Advance(st: TxState, check: Option<TxError>, kind: Status, user: nat, message: string, auto: bool): Step
  {
    var s1 := SaveLogStep(st, check, NewLog(kind, user, message, auto), false);
    if s1.err.Some? then s1 else SaveStep(s1.state.(status := kind), check)
  }

  /** `set_registered`. */
  function RegisterStep(st: TxState, check: Option<TxError>, user: nat, message: string, auto: bool): Step
  {
    var s0 := if st.saved then Step(st, None) else SaveStep(st, check);
    if s0.err.Some? then s0
    else if IsRegistered(s0.state.status) then Step(s0.state, Some(CannotRegister))
    else Advance(s0.state, check, Registered, user, message, auto)
  }

  /** `set_payed`. */
  function PayStep(st: TxState, check: Option<TxError>, user: nat, message: string, auto: bool): Step
  {
    if !IsRejected(st.status) && IsRegistered(st.status) then Advance(st, check, Payed, user, message, auto)
    else Step(st, Some(CannotPay))
  }

  /** `set_received`: an unpaid transaction is first set payed automatically. */
  function ReceiveStep(st: TxState, check: Option<TxError>, user: nat, message: string, auto: bool): Step
  {
    if !IsRejected(st.status) && IsRegistered(st.status) then
      var s0 := if !IsPayed(st.status) then PayStep(st, check, user, "", true) else Step(st, None);
      if s0.err.Some? then s0 else Advance(s0.state, check, Received, user, message, auto)
    else Step(st, Some(CannotReceive))
  }

  /** `reject` (alias `set_rejected`). */
  function RejectStep(st: TxState, check: Option<TxError>, user: nat, message: string, auto: bool): Step
  {
    if IsRegistered(st.status) && !IsPayed(st.status) && !IsReceived(st.status) then
      Advance(st, check, Rejected, user, message, auto)
    else Step(st, Some(CannotReject))
  }

  // ---------------------------------------------------------------------------
  // What the life cycle guarantees

  /** A move to a status not logged yet: it succeeds iff the entries pass,
      and a saved transaction keeps the new log and status even when the
      final save fails. */
  lemma AdvanceFresh(st: TxState, check: Option<TxError>, kind: Status, user: nat, message: string, auto: bool)
    requires kind !in LogKinds(st.logs)
    ensures var r := Advance(st, check, kind, user, message, auto);
      var moved := TxState(kind, st.logs + [NewLog(kind, user, message, auto)], true);
      && (r.err == None <==> check == None)
      && (check == None ==> r.state == moved)
      && (check != None ==> r.state == if st.saved then moved else st)
  {
  }

  /** A move to a status already logged fails, and at most saves the transaction. */
  lemma AdvanceDuplicate(st: TxState, check: Option<TxError>, kind: Status, user: nat, message: string, auto: bool)
    requires kind in LogKinds(st.logs)
    ensures var r := Advance(st, check, kind, user, message, auto);
      r.err.Some? && r.state == if !st.saved && check == None then st.(saved := true) else st
  {
  }

  /** The logs of a valid state after one more log of kind `next`. */
  lemma LogsAfter(st: TxState, next: Status, user: nat, message: string, auto: bool)
    requires ValidState(st) && LogsFor(next) == LogsFor(st.status) + [next]
    ensures ValidState(TxState(next, st.logs + [NewLog(next, user, message, auto)], true))
  {
    LogKindsAppend(st.logs, NewLog(next, user, message, auto));
  }

  /** `set_registered` succeeds exactly on a transaction without a status
      whose entries pass `Transaction.save`, and then it has one log more. */
  lemma RegisterSpec(st: TxState, check: Option<TxError>, user: nat, message: string, auto: bool)
    requires ValidState(st)
    ensures ValidState(RegisterStep(st, check, user, message, auto).state)
    ensures RegisterStep(st, check, user, message, auto).err == None <==> st.status == Undefined && check == None
    ensures RegisterStep(st, check, user, message, auto).err == None ==>
      RegisterStep(st, check, user, message, auto).state ==
        TxState(Registered, st.logs + [NewLog(Registered, user, message, auto)], true)
  {
    if st.status == Undefined {
      RegisterFresh(st, check, user, message, auto);
    } else if st.status == Rejected {
      RegisterRejected(st, check, user, message, auto);
    }
  }

  lemma RegisterFresh(st: TxState, check: Option<TxError>, user: nat, message: string, auto: bool)
    requires ValidState(st) && st.status == Undefined
    ensures ValidState(RegisterStep(st, check, user, message, auto).state)
    ensures RegisterStep(st, check, user, message, auto).err == None <==> check == None
    ensures RegisterStep(st, check, user, message, auto).err == None ==>
      RegisterStep(st, check, user, message, auto).state ==
        TxState(Registered, st.logs + [NewLog(Registered, user, message, auto)], true)
  {
    var s0 := if st.saved then Step(st, None) else SaveStep(st, check);
    if s0.err == None {
      AdvanceFresh(s0.state, check, Registered, user, message, auto);
      LogsAfter(s0.state, Registered, user, message, auto);
    }
  }

  lemma RegisterRejected(st: TxState, check: Option<TxError>, user: nat, message: string, auto: bool)
    requires ValidState(st) && st.status == Rejected
    ensures ValidState(RegisterStep(st, check, user, message, auto).state)
    ensures RegisterStep(st, check, user, message, auto).err.Some?
  {
    assert Registered in LogKinds(st.logs);
    AdvanceDuplicate(st, check, Registered, user, message, auto);
  }

  /** `set_payed` succeeds exactly on a registered, unpaid transaction. */
  lemma PaySpec(st: TxState, check: Option<TxError>, user: nat, message: string, auto: bool)
    requires ValidState(st)
    ensures ValidState(PayStep(st, check, user, message, auto).state)
    ensures PayStep(st, check, user, message, auto).err == None <==> st.status == Registered && check == None
    ensures PayStep(st, check, user, message, auto).err == None ==>
      PayStep(st, check, user, message, auto).state ==
        TxState(Payed, st.logs + [NewLog(Payed, user, message, auto)], true)
  {
    if st.status == Registered {
      AdvanceFresh(st, check, Payed, user, message, auto);
      LogsAfter(st, Payed, user, message, auto);
    } else if st.status == Payed || st.status == Received {
      assert Payed in LogKinds(st.logs);
      AdvanceDuplicate(st, check, Payed, user, message, auto);
    }
  }

  /** `set_received` succeeds exactly on a registered or payed transaction;
      from registered it passes through payed with an automatic log. */
  lemma ReceiveSpec(st: TxState, check: Option<TxError>, user: nat, message: string, auto: bool)
    requires ValidState(st)
    ensures ValidState(ReceiveStep(st, check, user, message, auto).state)
    ensures ReceiveStep(st, check, user, message, auto).err == None <==>
      (st.status == Registered || st.status == Payed) && check == None
    ensures ReceiveStep(st, check, user, message, auto).err == None && st.status == Payed ==>
      ReceiveStep(st, check, user, message, auto).state ==
        TxState(Received, st.logs + [NewLog(Received, user, message, auto)], true)
    ensures ReceiveStep(st, check, user, message, auto).err == None && st.status == Registered ==>
      ReceiveStep(st, check, user, message, auto).state ==
        TxState(Received, st.logs + [NewLog(Payed, user, "", true), NewLog(Received, user, message, auto)], true)
  {
    match st.status
    case Registered => ReceiveFromRegistered(st, check, user, message, auto);
    case Payed => ReceiveFromPayed(st, check, user, message, auto);
    case Received => ReceiveAgain(st, check, user, message, auto);
    case _ =>
  }

  /** A registered transaction that was never paid is received, not
      refused: `set_received` pays it first. */
  lemma ReceiveUnpaidPays(st: TxState, user: nat, message: string, auto: bool)
    requires ValidState(st) && st.status == Registered
    ensures ReceiveStep(st, None, user, message, auto).err == None
    ensures Payed in LogKinds(ReceiveStep(st, None, user, message, auto).state.logs)
  {
    ReceiveFromRegistered(st, None, user, message, auto);
    LogKindsAppend(st.logs, NewLog(Payed, user, "", true));
    LogKindsAppend(st.logs + [NewLog(Payed, user, "", true)], NewLog(Received, user, message, auto));
    assert st.logs + [NewLog(Payed, user, "", true), NewLog(Received, user, message, auto)]
        == st.logs + [NewLog(Payed, user, "", true)] + [NewLog(Received, user, message, auto)];
  }

  lemma ReceiveFromPayed(st: TxState, check: Option<TxError>, user: nat, message: string, auto: bool)
    requires ValidState(st) && st.status == Payed
    ensures ValidState(ReceiveStep(st, check, user, message, auto).state)
    ensures ReceiveStep(st, check, user, message, auto).err == None <==> check == None
    ensures ReceiveStep(st, check, user, message, auto).err == None ==>
      ReceiveStep(st, check, user, message, auto).state ==
        TxState(Received, st.logs + [NewLog(Received, user, message, auto)], true)
  {
    AdvanceFresh(st, check, Received, user, message, auto);
    LogsAfter(st, Received, user, message, auto);
  }

  lemma ReceiveAgain(st: TxState, check: Option<TxError>, user: nat, message: string, auto: bool)
    requires ValidState(st) && st.status == Received
    ensures ValidState(ReceiveStep(st, check, user, message, auto).state)
    ensures ReceiveStep(st, check, user, message, auto).err.Some?
  {
    assert Received in LogKinds(st.logs);
    AdvanceDuplicate(st, check, Received, user, message, auto);
  }

  lemma ReceiveFromRegistered(st: TxState, check: Option<TxError>, user: nat, message: string, auto: bool)
    requires ValidState(st) && st.status == Registered
    ensures ValidState(ReceiveStep(st, check, user, message, auto).state)
    ensures ReceiveStep(st, check, user, message, auto).err == None <==> check == None
    ensures ReceiveStep(st, check, user, message, auto).err == None ==>
      ReceiveStep(st, check, user, message, auto).state ==
        TxState(Received, st.logs + [NewLog(Payed, user, "", true), NewLog(Received, user, message, auto)], true)
  {
    PaySpec(st, check, user, "", true);
    var s0 := PayStep(st, check, user, "", true);
    if s0.err == None {
      LogKindsAppend(st.logs, NewLog(Payed, user, "", true));
      AdvanceFresh(s0.state, check, Received, user, message, auto);
      LogsAfter(s0.state, Received, user, message, auto);
      assert s0.state.logs + [NewLog(Received, user, message, auto)]
          == st.logs + [NewLog(Payed, user, "", true), NewLog(Received, user, message, auto)];
    }
  }

  /** `reject` succeeds exactly on a registered transaction not yet payed. */
  lemma RejectSpec(st: TxState, check: Option<TxError>, user: nat, message: string, auto: bool)
    requires ValidState(st)
    ensures ValidState(RejectStep(st, check, user, message, auto).state)
    ensures RejectStep(st, check, user, message, auto).err == None <==> st.status == Registered && check == None
    ensures RejectStep(st, check, user, message, auto).err == None ==>
      RejectStep(st, check, user, message, auto).state ==
        TxState(Rejected, st.logs + [NewLog(Rejected, user, message, auto)], true)
  {
    if st.status == Registered {
      AdvanceFresh(st, check, Rejected, user, message, auto);
      LogsAfter(st, Rejected, user, message, auto);
    }
  }

  /** A call on a transaction: `save`, or a move to status `kind`. */
  datatype Op = SaveOp | SetStatus(kind: Status, user: nat, message: string, auto: bool)

  function Apply(st: TxState, check: Option<TxError>, op: Op): Step
  {
    match op
    case SaveOp => SaveStep(st, check)
    case SetStatus(kind, user, message, auto) =>
      match kind
      case Undefined => SaveStep(st, check)
      case Registered => RegisterStep(st, check, user, message, auto)
      case Payed => PayStep(st, check, user, message, auto)
      case Received => ReceiveStep(st, check, user, message, auto)
      case Rejected => RejectStep(st, check, user, message, auto)
  }

  lemma ApplyValid(st: TxState, check: Option<TxError>, op: Op)
    requires ValidState(st)
    ensures ValidState(Apply(st, check, op).state)
  {
    match op
    case SaveOp =>
    case SetStatus(kind, user, message, auto) =>
      match kind
      case Undefined =>
      case Registered => RegisterSpec(st, check, user, message, auto);
      case Payed => PaySpec(st, check, user, message, auto);
      case Received => ReceiveSpec(st, check, user, message, auto);
      case Rejected => RejectSpec(st, check, user, message, auto);
  }

  /** The state after a sequence of calls, whatever each of them raised;
      `checks[i]` is what `Transaction.save` finds at the i-th call. */
  function Run(st: TxState, checks: seq<Option<TxError>>, ops: seq<Op>): TxState
    requires |checks| == |ops|
    decreases |ops|
  {
    if ops == [] then st else Run(Apply(st, checks[0], ops[0]).state, checks[1..], ops[1..])
  }

  lemma {:induction false} RunValid(st: TxState, checks: seq<Option<TxError>>, ops: seq<Op>)
    requires |checks| == |ops|
    requires ValidState(st)
    ensures ValidState(Run(st, checks, ops))
    decreases |ops|
  {
    if ops != [] {
      ApplyValid(st, checks[0], ops[0]);
      RunValid(Apply(st, checks[0], ops[0]).state, checks[1..], ops[1..]);
    }
  }

  lemma {:induction false} LogKindsIndex(logs: seq<Log>)
    ensures |LogKinds(logs)| == |logs|
    ensures forall i :: 0 <= i < |logs| ==> LogKinds(logs)[i] == logs[i].kind
    decreases |logs|
  {
    if logs != [] {
      LogKindsIndex(logs[..|logs| - 1]);
    }
  }

  lemma ValidDistinct(st: TxState)
    requires ValidState(st)
    ensures DistinctLogKinds(st)
  {
    LogKindsIndex(st.logs);
  }

  /** Whatever sequence of calls a new transaction goes through, whichever
      of them raise, it never holds two logs of the same type, and its logs
      always match its status. */
  lemma OneLogPerType(checks: seq<Option<TxError>>, ops: seq<Op>)
    requires |checks| == |ops|
    ensures DistinctLogKinds(Run(TxState(Undefined, [], false), checks, ops))
    ensures ValidState(Run(TxState(Undefined, [], false), checks, ops))
  {
    RunValid(TxState(Undefined, [], false), checks, ops);
    ValidDistinct(Run(TxState(Undefined, [], false), checks, ops));
  }

  // ---------------------------------------------------------------------------
  // get_valid_logtype_choices

  /** The log types offered for a transaction in `status`: `None` is the blank
      choice, always first; the others follow in declaration order. */
  function LogtypeChoices(status: Status): (r: seq<Option<Status>>)
    ensures |r| >= 1 && r[0] == None
    ensures forall k :: Some(k) in r ==> k != Undefined
  {
    if IsRejected(status) || IsReceived(status) then [None]
    else
      [None]
      + (if !IsRegistered(status) then [Some(Registered)] else [])
      + (if !IsPayed(status) then [Some(Payed)] else [])
      + [Some(Received)]
      + (if !IsPayed(status) then [Some(Rejected)] else [])
  }

  /** On a registered or payed transaction, the log types offered are exactly
      the transitions that would succeed. */
  lemma ChoicesMatchTransitions(st: TxState, kind: Status, user: nat, message: string, auto: bool)
    requires ValidState(st)
    requires st.status == Registered || st.status == Payed
    requires kind != Undefined
    ensures Some(kind) in LogtypeChoices(st.status) <==>
      Apply(st, None, SetStatus(kind, user, message, auto)).err == None
  {
    match kind
    case Registered => RegisterSpec(st, None, user, message, auto);
    case Payed => PaySpec(st, None, user, message, auto);
    case Received => ReceiveSpec(st, None, user, message, auto);
    case Rejected => RejectSpec(st, None, user, message, auto);
  }

  /** A rejected or received transaction is offered only the blank choice, and
      indeed no transition succeeds on it. */
  lemma ClosedStatuses(st: TxState, check: Option<TxError>, op: Op)
    requires ValidState(st)
    requires st.status == Rejected || st.status == Received
    requires op.SetStatus? && op.kind != Undefined
    ensures LogtypeChoices(st.status) == [None]
    ensures Apply(st, check, op).err.Some?
  {
    match op.kind
    case Registered => RegisterSpec(st, check, op.user, op.message, op.auto);
    case Payed => PaySpec(st, check, op.user, op.message, op.auto);
    case Received => ReceiveSpec(st, check, op.user, op.message, op.auto);
    case Rejected => RejectSpec(st, check, op.user, op.message, op.auto);
  }

  /** A transaction as the source's model object holds it. */
  class Transaction {
    var group: nat
    var status: Status
    var entries: seq<Entry>
    var logs: seq<Log>
    var saved: bool

    /** `Transaction()`: no status, no entries, no logs, no id yet. */
    constructor (group: nat)
      ensures this.group == group && status == Undefined && entries == [] && logs == [] && !saved
      ensures Valid()
    {
      this.group := group;
      status := Undefined;
      entries := [];
      logs := [];
      saved := false;
    }

    function State(): TxState
      reads this
    {
      TxState(status, logs, saved)
    }

    ghost predicate Valid()
      reads this
    {
      ValidState(State())
    }

    /** `Transaction.save`: the checks, then the object has an id. */
    method Save() returns (err: Option<TxError>)
      modifies this`saved
      ensures Step(State(), err) == SaveStep(old(State()), SaveError(group, entries))
      ensures old(Valid()) ==> Valid()
    {
      err := CheckEntries(group, entries);
      if err.None? {
        saved := true;
      }
    }

    /** `TransactionLog.save` of a log of this transaction. */
    method SaveLog(log: Log, logSaved: bool) returns (err: Option<TxError>)
      modifies this`saved, this`logs
      ensures Step(State(), err) == SaveLogStep(old(State()), SaveError(group, entries), log, logSaved)
    {
      if logSaved {
        return Some(LogAltered);
      }
      if !saved {
        err := Save();
        if err.Some? {
          return;
        }
      }
      LogKindsMember(logs, log.kind);
      var i := 0;
      while i < |logs|
        invariant 0 <= i <= |logs|
        invariant forall k :: 0 <= k < i ==> logs[k].kind != log.kind
      {
        if logs[i].kind == log.kind {
          return Some(DuplicateLogType);
        }
        i := i + 1;
      }
      logs := logs + [log];
      err := None;
    }

    /** Log `kind`, set the status, save. */
    method AdvanceTo(kind: Status, user: nat, message: string, auto: bool) returns (err: Option<TxError>)
      modifies this`saved, this`logs, this`status
      ensures Step(State(), err) == Advance(old(State()), SaveError(group, entries), kind, user, message, auto)
    {
      var log := NewLog(kind, user, message, auto);
      err := SaveLog(log, false);
      if err.Some? {
        return;
      }
      status := kind;
      err := Save();
    }

    /** `set_registered`. */
    method SetRegistered(user: nat, message: string, auto: bool) returns (err: Option<TxError>)
      modifies this`saved, this`logs, this`status
      ensures Step(State(), err) == RegisterStep(old(State()), SaveError(group, entries), user, message, auto)
      ensures old(Valid()) ==> Valid()
    {
      if Valid() {
        RegisterSpec(State(), SaveError(group, entries), user, message, auto);
      }
      if !saved {
        err := Save();
        if err.Some? {
          return;
        }
      }
      if IsRegistered(status) {
        return Some(CannotRegister);
      }
      err := AdvanceTo(Registered, user, message, auto);
    }

    /** `set_payed`. */
    method SetPayed(user: nat, message: string, auto: bool) returns (err: Option<TxError>)
      modifies this`saved, this`logs, this`status
      ensures Step(State(), err) == PayStep(old(State()), SaveError(group, entries), user, message, auto)
      ensures old(Valid()) ==> Valid()
    {
      if Valid() {
        PaySpec(State(), SaveError(group, entries), user, message, auto);
      }
      if !IsRejected(status) && IsRegistered(status) {
        err := AdvanceTo(Payed, user, message, auto);
      } else {
        err := Some(CannotPay);
      }
    }

    /** `set_received`. */
    method SetReceived(user: nat, message: string, auto: bool) returns (err: Option<TxError>)
      modifies this`saved, this`logs, this`status
      ensures Step(State(), err) == ReceiveStep(old(State()), SaveError(group, entries), user, message, auto)
      ensures old(Valid()) ==> Valid()
    {
      if Valid() {
        ReceiveSpec(State(), SaveError(group, entries), user, message, auto);
      }
      if !IsRejected(status) && IsRegistered(status) {
        if !IsPayed(status) {
          err := SetPayed(user, "", true);
          if err.Some? {
            return;
          }
        }
        err := AdvanceTo(Received, user, message, auto);
      } else {
        err := Some(CannotReceive);
      }
    }

    /** `reject`. The messages sent to the owners of the entries' user
        accounts are not modelled. */
    method Reject(user: nat, message: string, auto: bool) returns (err: Option<TxError>)
      modifies this`saved, this`logs, this`status
      ensures Step(State(), err) == RejectStep(old(State()), SaveError(group, entries), user, message, auto)
      ensures old(Valid()) ==> Valid()
    {
      if Valid() {
        RejectSpec(State(), SaveError(group, entries), user, message, auto);
      }
      if IsRegistered(status) && !IsPayed(status) && !IsReceived(status) {
        err := AdvanceTo(Rejected, user, message, auto);
      } else {
        err := Some(CannotReject);
      }
    }

    /** `TransactionEntry.save` of an entry of this transaction. */
    method AddEntry(e: Entry) returns (err: Option<TxError>)
      modifies this`entries
      ensures err == EntryError(status, e)
      ensures entries == if err.None? then old(entries) + [e] else old(entries)
    {
      err := EntryError(status, e);
      if err.None? {
        entries := entries + [e];
      }
    }
  }
}
