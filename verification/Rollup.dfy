/** Monthly commission statements: a job that lists unbilled months outside the owner's lock and
    invoices them one by one inside it, any number of times, while closing orders keep accruing. */
module Rollup {
  import opened Base

  type Month = int

  datatype Amounts = Amounts(accrued: int, discount: int, payable: int) {
    function Plus(other: Amounts): Amounts {
      Amounts(accrued + other.accrued, discount + other.discount, payable + other.payable)
    }
  }

  const ZERO := Amounts(0, 0, 0)

  /** A ledger row. `invoice` is the index of its statement; `priced` records whether the statement's
      totals were listed with the row in them. */
  datatype Row = Row(owner: Id, month: Month, amounts: Amounts, invoice: Option<nat>, priced: bool)

  datatype Statement = Statement(owner: Id, month: Month, amounts: Amounts)

  /** What the listing returned for an (owner, month); `seen` is how many ledger rows there were. */
  datatype Period = Period(owner: Id, month: Month, amounts: Amounts, seen: nat)

  datatype Books = Books(rows: seq<Row>, statements: seq<Statement>)

  /** Which rows a sum is over. */
  datatype Selection =
    | All
    | Joined
    | Unbilled
    | UnbilledIn(owner: Id, month: Month)
    | JoinedTo(statement: nat)
    | PricedOn(statement: nat)
    | PricedBelow(statements: nat)
    | Unpriced
  {
    predicate Selects(row: Row) {
      match this
      case All => true
      case Joined => row.invoice.Some?
      case Unbilled => row.invoice.None?
      case UnbilledIn(owner, month) => row.invoice.None? && row.owner == owner && row.month == month
      case JoinedTo(i) => row.invoice == Some(i)
      case PricedOn(i) => row.invoice == Some(i) && row.priced
      case PricedBelow(n) => row.invoice.Some? && row.invoice.value < n && row.priced
      case Unpriced => row.invoice.Some? && !row.priced
    }
  }

  function Sum(rows: seq<Row>, which: Selection): Amounts {
    if rows == [] then ZERO
    else
      var before, last := Sum(rows[..|rows| - 1], which), rows[|rows| - 1];
      if which.Selects(last) then before.Plus(last.amounts) else before
  }

  // ---- statements ----

  predicate IsFor(statement: Statement, owner: Id, month: Month) {
    statement.owner == owner && statement.month == month
  }

  /** The unique index on (owner, period start). */
  function Find(statements: seq<Statement>, owner: Id, month: Month): (r: Option<nat>)
    ensures r.Some? ==> r.value < |statements| && IsFor(statements[r.value], owner, month)
    ensures r.None? ==> forall i :: 0 <= i < |statements| ==> !IsFor(statements[i], owner, month)
  {
    if statements == [] then None
    else if IsFor(statements[|statements| - 1], owner, month) then Some(|statements| - 1)
    else Find(statements[..|statements| - 1], owner, month)
  }

  /** Attach the owner's unlinked rows of the month; `priced` rows are those listed for a new statement. */
  function Attach(rows: seq<Row>, owner: Id, month: Month, statement: nat, priced: nat): seq<Row> {
    seq(|rows|, i requires 0 <= i < |rows| =>
      if UnbilledIn(owner, month).Selects(rows[i]) then rows[i].(invoice := Some(statement), priced := i < priced)
      else rows[i])
  }

  /** invoicePeriod: an upsert that reads the row on conflict, then the attach. */
  function Invoice(books: Books, p: Period): Books {
    match Find(books.statements, p.owner, p.month)
    case Some(i) => books.(rows := Attach(books.rows, p.owner, p.month, i, 0))
    case None =>
      Books(Attach(books.rows, p.owner, p.month, |books.statements|, p.seen),
            books.statements + [Statement(p.owner, p.month, p.amounts)])
  }

  /** The listing, as any choice of the months before `now` that have unbilled rows. */
  predicate Listed(rows: seq<Row>, now: Month, p: Period) {
    && p.month < now && p.seen == |rows| && p.amounts == Sum(rows, UnbilledIn(p.owner, p.month))
    && exists i :: 0 <= i < |rows| && UnbilledIn(p.owner, p.month).Selects(rows[i])
  }

  // ---- the system ----

  /** `listed` is the latest month a listing was made in. */
  datatype System = System(books: Books, now: Month, listed: Month, jobs: map<Id, seq<Period>>)

  datatype Step =
    | Accrue(owner: Id, month: Month, amounts: Amounts)
    | NextMonth
    | List(job: Id, periods: seq<Period>)
    | InvoiceNext(job: Id)
    | SkipNext(job: Id)

  predicate Enabled(s: System, step: Step) {
    match step
    case Accrue(_, month, _) => month <= s.now
    case NextMonth => true
    case List(job, periods) => forall p | p in periods :: Listed(s.books.rows, s.now, p)
    case InvoiceNext(job) => job in s.jobs && s.jobs[job] != []
    case SkipNext(job) => job in s.jobs && s.jobs[job] != []
  }

  function Next(s: System, step: Step): System
    requires Enabled(s, step)
  {
    match step
    case Accrue(owner, month, amounts) =>
      s.(books := s.books.(rows := s.books.rows + [Row(owner, month, amounts, None, false)]))
    case NextMonth => s.(now := s.now + 1)
    case List(job, periods) => s.(jobs := s.jobs[job := periods], listed := Max(s.listed, s.now))
    case InvoiceNext(job) => s.(books := Invoice(s.books, s.jobs[job][0]), jobs := s.jobs[job := s.jobs[job][1..]])
    case SkipNext(job) => s.(jobs := s.jobs[job := s.jobs[job][1..]])
  }

  function Run(s: System, steps: seq<Step>): System {
    if steps == [] then s
    else
      var before := Run(s, steps[..|steps| - 1]);
      if Enabled(before, steps[|steps| - 1]) then Next(before, steps[|steps| - 1]) else before
  }

  function Start(now: Month): System { System(Books([], []), now, now - 1, map[]) }

  // ---- on every run ----

  /** At most one statement per (owner, month), rows join statements of their own, and a statement's
      totals are the sums of the rows it was priced with. */
  predicate BooksOk(books: Books) {
    && (forall i, j :: 0 <= i < j < |books.statements| ==>
          !IsFor(books.statements[i], books.statements[j].owner, books.statements[j].month))
    && (forall k :: 0 <= k < |books.rows| ==> RowOk(books.rows[k], books.statements))
    && (forall i :: 0 <= i < |books.statements| ==> books.statements[i].amounts == Sum(books.rows, PricedOn(i)))
  }

  predicate RowOk(row: Row, statements: seq<Statement>) {
    match row.invoice
    case None => !row.priced
    case Some(i) => i < |statements| && IsFor(statements[i], row.owner, row.month)
  }

  /** A listed month that has no statement yet still has the sums it was listed with. */
  predicate PeriodOk(books: Books, p: Period) {
    && p.seen <= |books.rows|
    && (Find(books.statements, p.owner, p.month).None? ==>
          p.amounts == Sum(books.rows[..p.seen], UnbilledIn(p.owner, p.month)))
  }

  ghost predicate Inv(s: System) {
    && BooksOk(s.books)
    && forall job, p | job in s.jobs && p in s.jobs[job] :: PeriodOk(s.books, p)
  }

  lemma {:induction false} SumAppends(rows: seq<Row>, row: Row, which: Selection)
    ensures Sum(rows + [row], which) == if which.Selects(row) then Sum(rows, which).Plus(row.amounts) else Sum(rows, which)
  {
    assert (rows + [row])[..|rows|] == rows;
  }

  lemma {:induction false} SameSum(a: seq<Row>, b: seq<Row>, which: Selection, which': Selection)
    requires |a| == |b|
    requires forall k :: 0 <= k < |a| ==> a[k].amounts == b[k].amounts && (which.Selects(a[k]) <==> which'.Selects(b[k]))
    ensures Sum(a, which) == Sum(b, which')
  {
    if a != [] { SameSum(a[..|a| - 1], b[..|b| - 1], which, which'); }
  }

  lemma {:induction false} EmptySum(rows: seq<Row>, which: Selection)
    requires forall k :: 0 <= k < |rows| ==> !which.Selects(rows[k])
    ensures Sum(rows, which) == ZERO
  {
    if rows != [] { EmptySum(rows[..|rows| - 1], which); }
  }

  /** Rows beyond the first n that are not selected do not matter. */
  lemma {:induction false} PrefixSum(rows: seq<Row>, n: nat, which: Selection)
    requires n <= |rows| && forall k :: n <= k < |rows| ==> !which.Selects(rows[k])
    ensures Sum(rows, which) == Sum(rows[..n], which)
  {
    if n < |rows| {
      PrefixSum(rows[..|rows| - 1], n, which);
      assert rows[..|rows| - 1][..n] == rows[..n];
    } else {
      assert rows[..n] == rows;
    }
  }

  lemma AttachKeepsSum(rows: seq<Row>, owner: Id, month: Month, i: nat, priced: nat, which: Selection)
    requires forall k :: 0 <= k < |rows| ==> rows[k].invoice.None? ==> !rows[k].priced
    requires which.PricedOn? && (which.statement != i || priced == 0)
    ensures Sum(Attach(rows, owner, month, i, priced), which) == Sum(rows, which)
  {
    SameSum(Attach(rows, owner, month, i, priced), rows, which, which);
  }

  /** The rows a new statement is priced with are the unbilled ones it was listed from. */
  lemma AttachPrices(rows: seq<Row>, owner: Id, month: Month, i: nat, seen: nat)
    requires seen <= |rows|
    requires forall k :: 0 <= k < |rows| ==> rows[k].invoice != Some(i)
    ensures Sum(Attach(rows, owner, month, i, seen), PricedOn(i)) == Sum(rows[..seen], UnbilledIn(owner, month))
  {
    var rows' := Attach(rows, owner, month, i, seen);
    PrefixSum(rows', seen, PricedOn(i));
    SameSum(rows'[..seen], rows[..seen], PricedOn(i), UnbilledIn(owner, month));
  }

  lemma AttachKeepsRows(books: Books, p: Period, i: nat, priced: nat, statements: seq<Statement>)
    requires forall k :: 0 <= k < |books.rows| ==> RowOk(books.rows[k], books.statements)
    requires books.statements <= statements && i < |statements| && IsFor(statements[i], p.owner, p.month)
    ensures var rows' := Attach(books.rows, p.owner, p.month, i, priced);
      forall k :: 0 <= k < |rows'| ==> RowOk(rows'[k], statements)
  {
    forall k | 0 <= k < |books.rows|
      ensures RowOk(Attach(books.rows, p.owner, p.month, i, priced)[k], statements)
    {
      assert RowOk(books.rows[k], books.statements);
    }
  }

  lemma InvoiceKeepsBooks(books: Books, p: Period)
    requires BooksOk(books) && PeriodOk(books, p)
    ensures BooksOk(Invoice(books, p))
  {
    var books' := Invoice(books, p);
    hide Sum;
    assert forall k :: 0 <= k < |books.rows| ==> RowOk(books.rows[k], books.statements);
    match Find(books.statements, p.owner, p.month)
    case Some(i) =>
      AttachKeepsRows(books, p, i, 0, books.statements);
      forall j | 0 <= j < |books.statements| ensures books'.statements[j].amounts == Sum(books'.rows, PricedOn(j)) {
        AttachKeepsSum(books.rows, p.owner, p.month, i, 0, PricedOn(j));
      }
    case None =>
      var n := |books.statements|;
      AttachKeepsRows(books, p, n, p.seen, books'.statements);
      forall j | 0 <= j < |books'.statements| ensures books'.statements[j].amounts == Sum(books'.rows, PricedOn(j)) {
        if j < n {
          AttachKeepsSum(books.rows, p.owner, p.month, n, p.seen, PricedOn(j));
        } else {
          AttachPrices(books.rows, p.owner, p.month, n, p.seen);
        }
      }
  }

  lemma InvoicedIsFound(books: Books, p: Period)
    ensures Find(Invoice(books, p).statements, p.owner, p.month).Some?
    ensures books.statements <= Invoice(books, p).statements
  {
    match Find(books.statements, p.owner, p.month)
    case Some(_) =>
    case None => assert IsFor(Invoice(books, p).statements[|books.statements|], p.owner, p.month);
  }

  lemma FindGrows(statements: seq<Statement>, more: seq<Statement>, owner: Id, month: Month)
    requires statements <= more && Find(more, owner, month).None?
    ensures Find(statements, owner, month).None?
  {
  }

  /** Invoicing one month leaves what another was listed with, unless it is the same month. */
  lemma InvoiceKeepsPeriod(books: Books, p: Period, q: Period)
    requires PeriodOk(books, q)
    ensures PeriodOk(Invoice(books, p), q)
  {
    var books' := Invoice(books, p);
    InvoicedIsFound(books, p);
    if Find(books'.statements, q.owner, q.month).None? {
      FindGrows(books.statements, books'.statements, q.owner, q.month);
      hide Find;
      SameSum(books'.rows[..q.seen], books.rows[..q.seen], UnbilledIn(q.owner, q.month), UnbilledIn(q.owner, q.month));
    }
  }

  lemma AccrueKeepsBooks(books: Books, row: Row)
    requires BooksOk(books) && row.invoice.None? && !row.priced
    ensures BooksOk(books.(rows := books.rows + [row]))
  {
    var books' := books.(rows := books.rows + [row]);
    forall i | 0 <= i < |books.statements| ensures books'.statements[i].amounts == Sum(books'.rows, PricedOn(i)) {
      SumAppends(books.rows, row, PricedOn(i));
    }
    forall k | 0 <= k < |books'.rows| ensures RowOk(books'.rows[k], books'.statements) {
      if k < |books.rows| { assert RowOk(books.rows[k], books.statements); }
    }
  }

  lemma NextKeepsInv(s: System, step: Step)
    requires Inv(s) && Enabled(s, step)
    ensures Inv(Next(s, step))
  {
    var s' := Next(s, step);
    match step
    case Accrue(owner, month, amounts) =>
      hide Sum;
      AccrueKeepsBooks(s.books, Row(owner, month, amounts, None, false));
      hide BooksOk;
      forall job, q | job in s'.jobs && q in s'.jobs[job] ensures PeriodOk(s'.books, q) {
        assert PeriodOk(s.books, q);
        assert s'.books.rows[..q.seen] == s.books.rows[..q.seen];
      }
    case NextMonth =>
    case List(job, periods) =>
      hide BooksOk, Sum;
      assert s.books.rows[..|s.books.rows|] == s.books.rows;
      forall other, q | other in s'.jobs && q in s'.jobs[other] ensures PeriodOk(s'.books, q) {
        if other != job { assert PeriodOk(s.books, q); } else { assert Listed(s.books.rows, s.now, q); }
      }
    case InvoiceNext(job) =>
      hide BooksOk, PeriodOk, Invoice;
      InvoiceKeepsBooks(s.books, s.jobs[job][0]);
      forall other, q | other in s'.jobs && q in s'.jobs[other] ensures PeriodOk(s'.books, q) {
        assert q in s.jobs[other];
        InvoiceKeepsPeriod(s.books, s.jobs[job][0], q);
      }
    case SkipNext(job) =>
      hide BooksOk, PeriodOk;
      forall other, q | other in s'.jobs && q in s'.jobs[other] ensures PeriodOk(s'.books, q) {
        assert q in s.jobs[other];
      }
  }

  lemma {:induction false} RunKeepsInv(now: Month, steps: seq<Step>)
    ensures Inv(Run(Start(now), steps))
  {
    if steps != [] {
      hide Inv, Enabled, Next;
      RunKeepsInv(now, steps[..|steps| - 1]);
      var before := Run(Start(now), steps[..|steps| - 1]);
      if Enabled(before, steps[|steps| - 1]) { NextKeepsInv(before, steps[|steps| - 1]); }
    }
  }

  // ---- conservation ----

  function Totals(statements: seq<Statement>): Amounts {
    if statements == [] then ZERO
    else Totals(statements[..|statements| - 1]).Plus(statements[|statements| - 1].amounts)
  }

  lemma PlusAnywhere(a: Amounts, b: Amounts, c: Amounts, v: Amounts)
    ensures a.Plus(b).Plus(c).Plus(v) == a.Plus(v).Plus(b).Plus(c)
    ensures a.Plus(b).Plus(c).Plus(v) == a.Plus(b.Plus(v)).Plus(c)
    ensures a.Plus(b).Plus(c).Plus(v) == a.Plus(b).Plus(c.Plus(v))
    ensures a.Plus(b).Plus(v) == a.Plus(v).Plus(b) == a.Plus(b.Plus(v))
    ensures a.Plus(ZERO) == a
  {
  }

  /** Two selections that never meet add up to any selection that covers exactly both. */
  predicate Splits(whole: Selection, a: Selection, b: Selection, row: Row) {
    && (whole.Selects(row) <==> a.Selects(row) || b.Selects(row))
    && !(a.Selects(row) && b.Selects(row))
  }

  lemma SplitLast(rows: seq<Row>, last: Row, whole: Selection, a: Selection, b: Selection)
    requires Splits(whole, a, b, last) && Sum(rows, whole) == Sum(rows, a).Plus(Sum(rows, b))
    ensures Sum(rows + [last], whole) == Sum(rows + [last], a).Plus(Sum(rows + [last], b))
  {
    SumAppends(rows, last, whole);
    SumAppends(rows, last, a);
    SumAppends(rows, last, b);
    var x, y, v := Sum(rows, a), Sum(rows, b), last.amounts;
    PlusAnywhere(x, y, ZERO, v);
    hide Sum;
    if a.Selects(last) {
      assert Sum(rows + [last], whole) == x.Plus(y).Plus(v);
    } else if b.Selects(last) {
      assert Sum(rows + [last], whole) == x.Plus(y).Plus(v);
    }
  }

  lemma EmptySplit(whole: Selection, a: Selection, b: Selection)
    ensures Sum([], whole) == Sum([], a).Plus(Sum([], b))
  {
    EmptySum([], whole);
    EmptySum([], a);
    EmptySum([], b);
    PlusAnywhere(ZERO, ZERO, ZERO, ZERO);
    hide Sum, Amounts.Plus;
  }

  lemma {:induction false} SplitSum(rows: seq<Row>, whole: Selection, a: Selection, b: Selection)
    requires forall k :: 0 <= k < |rows| ==> Splits(whole, a, b, rows[k])
    ensures Sum(rows, whole) == Sum(rows, a).Plus(Sum(rows, b))
  {
    hide Sum, Amounts.Plus;
    if rows == [] {
      EmptySplit(whole, a, b);
    } else {
      var before, last := rows[..|rows| - 1], rows[|rows| - 1];
      SplitSum(before, whole, a, b);
      hide Splits;
      SplitLast(before, last, whole, a, b);
      assert rows == before + [last];
    }
  }

  lemma {:induction false} TotalsAreSums(rows: seq<Row>, statements: seq<Statement>)
    requires forall i :: 0 <= i < |statements| ==> statements[i].amounts == Sum(rows, PricedOn(i))
    ensures Totals(statements) == Sum(rows, PricedBelow(|statements|))
  {
    if statements == [] {
      EmptySum(rows, PricedBelow(0));
    } else {
      var n := |statements| - 1;
      TotalsAreSums(rows, statements[..n]);
      SplitSum(rows, PricedBelow(n + 1), PricedBelow(n), PricedOn(n));
    }
  }

  /** On every run, whatever was accrued is on statements, or unbilled, or was attached to a statement
      that had been priced without it. */
  lemma RunAccountsForEverything(now: Month, steps: seq<Step>)
    ensures var b := Run(Start(now), steps).books;
      Sum(b.rows, All) == Totals(b.statements).Plus(Sum(b.rows, Unbilled)).Plus(Sum(b.rows, Unpriced))
  {
    RunKeepsInv(now, steps);
    var b := Run(Start(now), steps).books;
    TotalsAreSums(b.rows, b.statements);
    var n := |b.statements|;
    forall k | 0 <= k < |b.rows|
      ensures Splits(All, Joined, Unbilled, b.rows[k]) && Splits(Joined, PricedBelow(n), Unpriced, b.rows[k])
    {
      assert RowOk(b.rows[k], b.statements);
    }
    SplitSum(b.rows, All, Joined, Unbilled);
    SplitSum(b.rows, Joined, PricedBelow(n), Unpriced);
    PlusAnywhere(Totals(b.statements), Sum(b.rows, Unbilled), ZERO, Sum(b.rows, Unpriced));
  }

  /** A row that has joined a statement stays on it. */
  lemma {:induction false} JoinsOnce(s: System, steps: seq<Step>, k: nat)
    requires k < |s.books.rows| && s.books.rows[k].invoice.Some?
    ensures var s' := Run(s, steps); k < |s'.books.rows| && s'.books.rows[k] == s.books.rows[k]
  {
    if steps != [] { JoinsOnce(s, steps[..|steps| - 1], k); }
  }

  // ---- when no row arrives late ----

  predicate ListedIn(periods: seq<Period>, owner: Id, month: Month) {
    exists p | p in periods :: p.owner == owner && p.month == month
  }

  /** The (owner, month) has no statement, and no job still holds it listed. */
  predicate Untaken(s: System, owner: Id, month: Month) {
    Find(s.books.statements, owner, month).None? && forall job | job in s.jobs :: !ListedIn(s.jobs[job], owner, month)
  }

  predicate Prompt(s: System, step: Step) {
    step.Accrue? ==> Untaken(s, step.owner, step.month)
  }

  predicate AllPrompt(s: System, steps: seq<Step>) {
    if steps == [] then true
    else
      AllPrompt(s, steps[..|steps| - 1])
      && (Enabled(Run(s, steps[..|steps| - 1]), steps[|steps| - 1]) ==> Prompt(Run(s, steps[..|steps| - 1]), steps[|steps| - 1]))
  }

  /** Every joined row was priced, a month with a statement has nothing unbilled, and a listed month was
      listed whole. */
  ghost predicate Exact(s: System) {
    && (forall k :: 0 <= k < |s.books.rows| ==> s.books.rows[k].invoice.Some? ==> s.books.rows[k].priced)
    && (forall i, k :: 0 <= i < |s.books.statements| && 0 <= k < |s.books.rows| ==>
          !UnbilledIn(s.books.statements[i].owner, s.books.statements[i].month).Selects(s.books.rows[k]))
    && (forall job, p | job in s.jobs && p in s.jobs[job] :: Whole(s, p))
  }

  predicate Whole(s: System, p: Period) {
    forall k :: p.seen <= k < |s.books.rows| ==> s.books.rows[k].owner != p.owner || s.books.rows[k].month != p.month
  }

  lemma InvoiceKeepsExact(s: System, job: Id)
    requires Inv(s) && Exact(s) && Enabled(s, InvoiceNext(job))
    ensures Exact(Next(s, InvoiceNext(job)))
  {
    hide Sum, PeriodOk, BooksOk;
    var p, s' := s.jobs[job][0], Next(s, InvoiceNext(job));
    assert Whole(s, p);
    forall other, q | other in s'.jobs && q in s'.jobs[other] ensures Whole(s', q) {
      assert q in s.jobs[other];
      assert Whole(s, q);
    }
    forall k | 0 <= k < |s'.books.rows| && s'.books.rows[k].invoice.Some? ensures s'.books.rows[k].priced {
      match Find(s.books.statements, p.owner, p.month)
      case Some(i) => assert !UnbilledIn(s.books.statements[i].owner, s.books.statements[i].month).Selects(s.books.rows[k]);
      case None =>
    }
    forall i, k | 0 <= i < |s'.books.statements| && 0 <= k < |s'.books.rows|
      ensures !UnbilledIn(s'.books.statements[i].owner, s'.books.statements[i].month).Selects(s'.books.rows[k])
    {
      if i < |s.books.statements| {
        assert !UnbilledIn(s.books.statements[i].owner, s.books.statements[i].month).Selects(s.books.rows[k]);
      }
    }
  }

  lemma AccrueKeepsExact(s: System, owner: Id, month: Month, amounts: Amounts)
    requires Exact(s) && Enabled(s, Accrue(owner, month, amounts)) && Untaken(s, owner, month)
    ensures Exact(Next(s, Accrue(owner, month, amounts)))
  {
    hide Sum;
    var s' := Next(s, Accrue(owner, month, amounts));
    forall job, q | job in s'.jobs && q in s'.jobs[job] ensures Whole(s', q) {
      assert Whole(s, q);
      assert !ListedIn(s.jobs[job], owner, month);
    }
  }

  lemma NextKeepsExact(s: System, step: Step)
    requires Inv(s) && Exact(s) && Enabled(s, step) && Prompt(s, step)
    ensures Exact(Next(s, step))
  {
    hide Sum, PeriodOk, BooksOk;
    if step.InvoiceNext? {
      InvoiceKeepsExact(s, step.job);
    } else if step.Accrue? {
      AccrueKeepsExact(s, step.owner, step.month, step.amounts);
    } else {
      hide Invoice;
      var s' := Next(s, step);
      forall job, q | job in s'.jobs && q in s'.jobs[job] ensures Whole(s', q) {
        if step.List? && job == step.job {
          assert Listed(s.books.rows, s.now, q);
        } else {
          assert job in s.jobs && q in s.jobs[job];
          assert Whole(s, q);
        }
      }
    }
  }

  lemma {:induction false} RunKeepsExact(now: Month, steps: seq<Step>)
    requires AllPrompt(Start(now), steps)
    ensures Exact(Run(Start(now), steps))
  {
    if steps != [] {
      hide Exact, Inv, Enabled, Next, Prompt;
      RunKeepsExact(now, steps[..|steps| - 1]);
      RunKeepsInv(now, steps[..|steps| - 1]);
      var before := Run(Start(now), steps[..|steps| - 1]);
      if Enabled(before, steps[|steps| - 1]) { NextKeepsExact(before, steps[|steps| - 1]); }
    }
  }

  /** If rows are accrued only for months that have no statement and are on no job's list then, under any
      interleaving of rollups and accruals: one statement for each (owner, month) at most, statement
      totals equal the sums of the attached rows, and what was accrued is exactly the statements and the
      unbilled rows. */
  lemma PromptStatementsAreExact(now: Month, steps: seq<Step>)
    requires AllPrompt(Start(now), steps)
    ensures var b := Run(Start(now), steps).books;
      && (forall i, j :: 0 <= i < j < |b.statements| ==> !IsFor(b.statements[i], b.statements[j].owner, b.statements[j].month))
      && (forall i :: 0 <= i < |b.statements| ==> b.statements[i].amounts == Sum(b.rows, JoinedTo(i)))
      && Sum(b.rows, All) == Totals(b.statements).Plus(Sum(b.rows, Unbilled))
  {
    RunKeepsInv(now, steps);
    RunKeepsExact(now, steps);
    RunAccountsForEverything(now, steps);
    var s := Run(Start(now), steps);
    ExactSums(s);
    PlusAnywhere(Totals(s.books.statements).Plus(Sum(s.books.rows, Unbilled)), ZERO, ZERO, ZERO);
    hide Sum, Totals, Run, Exact;
  }

  /** No ledger row stamped in an earlier month commits after a listing made in a later one. */
  predicate OnTime(s: System, step: Step) {
    step.Accrue? ==> step.month >= s.listed
  }

  predicate AllOnTime(s: System, steps: seq<Step>) {
    if steps == [] then true
    else
      AllOnTime(s, steps[..|steps| - 1])
      && (Enabled(Run(s, steps[..|steps| - 1]), steps[|steps| - 1]) ==> OnTime(Run(s, steps[..|steps| - 1]), steps[|steps| - 1]))
  }

  /** Whatever has a statement or is listed lies before the latest month a listing was made in. */
  predicate Dated(s: System) {
    && (forall i :: 0 <= i < |s.books.statements| ==> s.books.statements[i].month < s.listed)
    && (forall job, p | job in s.jobs && p in s.jobs[job] :: p.month < s.listed)
  }

  lemma NextKeepsDated(s: System, step: Step)
    requires Dated(s) && Enabled(s, step)
    ensures Dated(Next(s, step))
  {
    hide Sum;
    var s' := Next(s, step);
    forall job, p | job in s'.jobs && p in s'.jobs[job] ensures p.month < s'.listed {
      if step.List? && job == step.job {
        assert Listed(s.books.rows, s.now, p);
      } else {
        assert job in s.jobs && p in s.jobs[job];
      }
    }
    if step.InvoiceNext? { assert s.jobs[step.job][0] in s.jobs[step.job]; }
  }

  lemma {:induction false} OnTimeIsPrompt(now: Month, steps: seq<Step>)
    requires AllOnTime(Start(now), steps)
    ensures AllPrompt(Start(now), steps) && Dated(Run(Start(now), steps))
  {
    if steps != [] {
      var before, step := Run(Start(now), steps[..|steps| - 1]), steps[|steps| - 1];
      OnTimeIsPrompt(now, steps[..|steps| - 1]);
      hide Run, Next;
      if Enabled(before, step) { NextKeepsDated(before, step); }
    }
  }

  /** In particular when no row is accrued for a month after a listing made in a later one. */
  lemma StatementsAreExact(now: Month, steps: seq<Step>)
    requires AllOnTime(Start(now), steps)
    ensures var b := Run(Start(now), steps).books;
      && (forall i, j :: 0 <= i < j < |b.statements| ==> !IsFor(b.statements[i], b.statements[j].owner, b.statements[j].month))
      && (forall i :: 0 <= i < |b.statements| ==> b.statements[i].amounts == Sum(b.rows, JoinedTo(i)))
      && Sum(b.rows, All) == Totals(b.statements).Plus(Sum(b.rows, Unbilled))
  {
    hide Run, Sum, Totals, AllPrompt, AllOnTime;
    OnTimeIsPrompt(now, steps);
    PromptStatementsAreExact(now, steps);
  }

  lemma ExactSums(s: System)
    requires Inv(s) && Exact(s)
    ensures Sum(s.books.rows, Unpriced) == ZERO
    ensures forall i :: 0 <= i < |s.books.statements| ==> s.books.statements[i].amounts == Sum(s.books.rows, JoinedTo(i))
  {
    var b := s.books;
    EmptySum(b.rows, Unpriced);
    forall i | 0 <= i < |b.statements| ensures b.statements[i].amounts == Sum(b.rows, JoinedTo(i)) {
      SameSum(b.rows, b.rows, PricedOn(i), JoinedTo(i));
    }
  }

  // ---- a row that does arrive late ----

  /** The row is still unbilled, or on a statement that was priced with it. */
  predicate Accounted(s: System, k: nat) {
    k < |s.books.rows| && (s.books.rows[k].invoice.None? || s.books.rows[k].priced)
  }

  /** While the row is unbilled its month has no statement, and every listing of it has seen the row. */
  ghost predicate Awaited(s: System, k: nat) {
    && Accounted(s, k)
    && (s.books.rows[k].invoice.None? ==>
          && Find(s.books.statements, s.books.rows[k].owner, s.books.rows[k].month).None?
          && forall job, p | job in s.jobs && p in s.jobs[job] :: Sees(p, s.books.rows[k], k))
  }

  predicate Sees(p: Period, row: Row, k: nat) { p.owner == row.owner && p.month == row.month ==> k < p.seen }

  lemma RowInvoiced(books: Books, p: Period, k: nat)
    requires k < |books.rows|
    ensures var row, books' := books.rows[k], Invoice(books, p);
      && k < |books'.rows|
      && (if UnbilledIn(p.owner, p.month).Selects(row)
          then books'.rows[k].invoice.Some? && books'.rows[k].priced == (Find(books.statements, p.owner, p.month).None? && k < p.seen)
          else books'.rows[k] == row)
  {
    hide Find;
  }

  lemma InvoiceKeepsAwaited(s: System, job: Id, k: nat)
    requires Awaited(s, k) && Enabled(s, InvoiceNext(job))
    ensures Awaited(Next(s, InvoiceNext(job)), k)
  {
    hide Sum, Invoice, Find;
    var s', p, row := Next(s, InvoiceNext(job)), s.jobs[job][0], s.books.rows[k];
    assert p in s.jobs[job];
    assert row.invoice.None? ==> Sees(p, row, k);
    RowInvoiced(s.books, p, k);
    if row.invoice.None? && (p.owner != row.owner || p.month != row.month) {
      NotFoundAfter(s.books, p, row.owner, row.month);
      forall other, q | other in s'.jobs && q in s'.jobs[other] ensures Sees(q, row, k) {
        assert other in s.jobs && q in s.jobs[other];
      }
    }
  }

  lemma NextKeepsAwaited(s: System, step: Step, k: nat)
    requires Awaited(s, k) && Enabled(s, step)
    ensures Awaited(Next(s, step), k)
  {
    hide Sum, Invoice, Find;
    if step.InvoiceNext? {
      InvoiceKeepsAwaited(s, step.job, k);
    } else {
      var s' := Next(s, step);
      forall job, q | job in s'.jobs && q in s'.jobs[job] && s'.books.rows[k].invoice.None? ensures Sees(q, s'.books.rows[k], k) {
        if step.List? && job == step.job {
          assert Listed(s.books.rows, s.now, q);
        } else {
          assert job in s.jobs && q in s.jobs[job];
          assert Sees(q, s.books.rows[k], k);
        }
      }
    }
  }

  lemma NotFoundAfter(books: Books, p: Period, owner: Id, month: Month)
    requires Find(books.statements, owner, month).None? && (p.owner != owner || p.month != month)
    ensures Find(Invoice(books, p).statements, owner, month).None?
  {
  }

  lemma {:induction false} RunKeepsAwaited(s: System, steps: seq<Step>, k: nat)
    requires Awaited(s, k)
    ensures Awaited(Run(s, steps), k)
  {
    if steps != [] {
      hide Awaited, Next, Enabled;
      RunKeepsAwaited(s, steps[..|steps| - 1], k);
      var before := Run(s, steps[..|steps| - 1]);
      if Enabled(before, steps[|steps| - 1]) { NextKeepsAwaited(before, steps[|steps| - 1], k); }
    }
  }

  function Skips(job: Id, n: nat): seq<Step> {
    if n == 0 then [] else [SkipNext(job)] + Skips(job, n - 1)
  }

  lemma {:induction false} SkipsDrop(s: System, job: Id, n: nat, rest: seq<Step>)
    requires job in s.jobs && n <= |s.jobs[job]|
    ensures Run(s, Skips(job, n) + rest) == Run(s.(jobs := s.jobs[job := s.jobs[job][n..]]), rest)
    decreases n
  {
    if n == 0 {
      assert Skips(job, 0) + rest == rest;
      assert s.jobs[job][0..] == s.jobs[job];
      assert s.jobs[job := s.jobs[job][0..]] == s.jobs;
    } else {
      var s' := Next(s, SkipNext(job));
      assert Skips(job, n) + rest == [SkipNext(job)] + (Skips(job, n - 1) + rest);
      RunFirst(s, SkipNext(job), Skips(job, n - 1) + rest);
      hide Run;
      SkipsDrop(s', job, n - 1, rest);
      assert s'.jobs[job][n - 1..] == s.jobs[job][n..];
      assert s'.jobs[job := s.jobs[job][n..]] == s.jobs[job := s.jobs[job][n..]];
    }
  }

  /** A month on some job's list: that job skips to it and invoices it. */
  lemma PendingLoses(s: System, job: Id, p: Period, k: nat)
    requires job in s.jobs && p in s.jobs[job] && p.seen <= k < |s.books.rows|
    requires UnbilledIn(p.owner, p.month).Selects(s.books.rows[k])
    ensures exists steps: seq<Step> :: !Accounted(Run(s, steps), k)
  {
    var n :| 0 <= n < |s.jobs[job]| && s.jobs[job][n] == p;
    var s' := s.(jobs := s.jobs[job := s.jobs[job][n..]]);
    SkipsDrop(s, job, n, [InvoiceNext(job)]);
    assert [InvoiceNext(job)] == [InvoiceNext(job)] + [];
    RunFirst(s', InvoiceNext(job), []);
    RunNone(Next(s', InvoiceNext(job)));
    hide Run;
    assert s'.jobs[job][0] == p;
    assert !Accounted(Next(s', InvoiceNext(job)), k);
    assert !Accounted(Run(s, Skips(job, n) + [InvoiceNext(job)]), k);
  }

  /** A month that has its statement: the next month's listing and its invoicing. */
  lemma StatementLoses(s: System, k: nat)
    requires k < |s.books.rows| && s.books.rows[k].invoice.None? && !s.books.rows[k].priced && s.books.rows[k].month <= s.now
    requires Find(s.books.statements, s.books.rows[k].owner, s.books.rows[k].month).Some?
    ensures exists steps: seq<Step> :: !Accounted(Run(s, steps), k)
  {
    var row := s.books.rows[k];
    var p := Period(row.owner, row.month, Sum(s.books.rows, UnbilledIn(row.owner, row.month)), |s.books.rows|);
    var s' := Next(s, NextMonth);
    RunFirst(s, NextMonth, Pass(p) + []);
    hide Run, Sum, Pass;
    assert UnbilledIn(row.owner, row.month).Selects(s.books.rows[k]);
    assert Listed(s'.books.rows, s'.now, p);
    RunPass(s', p, []);
    RunNone(s'.(books := Invoice(s'.books, p), listed := Max(s'.listed, s'.now), jobs := s'.jobs[7 := []]));
    hide Find;
    assert !Accounted(Run(s, [NextMonth] + (Pass(p) + [])), k);
  }

  /** A newly accrued row is unbilled or priced ever after, whatever the jobs do, exactly when its
      (owner, month) has no statement and is on no job's list at that moment. */
  lemma RowIsAccountedIff(s: System, owner: Id, month: Month, amounts: Amounts)
    requires Inv(s) && Enabled(s, Accrue(owner, month, amounts))
    ensures var late := Next(s, Accrue(owner, month, amounts));
      Untaken(s, owner, month) <==> forall steps: seq<Step> :: Accounted(Run(late, steps), |s.books.rows|)
  {
    var late, k := Next(s, Accrue(owner, month, amounts)), |s.books.rows|;
    if Untaken(s, owner, month) {
      forall job, p | job in late.jobs && p in late.jobs[job] ensures Sees(p, late.books.rows[k], k) {
        assert !ListedIn(s.jobs[job], owner, month);
      }
      hide Sum, Find;
      assert Awaited(late, k);
      forall steps: seq<Step> ensures Accounted(Run(late, steps), k) { RunKeepsAwaited(late, steps, k); }
    } else if Find(s.books.statements, owner, month).Some? {
      hide Sum, Find, Inv;
      StatementLoses(late, k);
    } else {
      hide Sum, Find, BooksOk;
      var job :| job in s.jobs && ListedIn(s.jobs[job], owner, month);
      var p :| p in s.jobs[job] && p.owner == owner && p.month == month;
      assert PeriodOk(s.books, p);
      PendingLoses(late, job, p, k);
    }
  }

  lemma {:induction false} StatementsStay(s: System, steps: seq<Step>)
    ensures s.books.statements <= Run(s, steps).books.statements
    ensures |s.books.rows| <= |Run(s, steps).books.rows|
  {
    hide Sum, Listed;
    if steps != [] { StatementsStay(s, steps[..|steps| - 1]); }
  }

  lemma FindsIt(statements: seq<Statement>, i: nat, owner: Id, month: Month)
    requires i < |statements| && IsFor(statements[i], owner, month)
    ensures Find(statements, owner, month).Some?
  {
  }

  /** Worse, a row accrued for a month that already has its statement is on no statement's totals, ever. */
  lemma {:induction false} LateRowIsNeverPriced(s: System, row: Row, i: nat, steps: seq<Step>)
    requires i < |s.books.statements| && IsFor(s.books.statements[i], row.owner, row.month)
    requires row.month <= s.now && !row.priced && row.invoice.None?
    ensures var late := Next(s, Accrue(row.owner, row.month, row.amounts));
      var rows := Run(late, steps).books.rows;
      && |s.books.rows| < |rows| && !rows[|s.books.rows|].priced
      && rows[|s.books.rows|].(invoice := None) == row
  {
    var late := Next(s, Accrue(row.owner, row.month, row.amounts));
    if steps != [] {
      LateRowIsNeverPriced(s, row, i, steps[..|steps| - 1]);
      StatementsStay(late, steps[..|steps| - 1]);
      var before := Run(late, steps[..|steps| - 1]);
      FindsIt(before.books.statements, i, row.owner, row.month);
      hide Sum, Listed, Find;
    }
  }

  /** A pass that lists one month of one owner and invoices it. */
  function Pass(p: Period): seq<Step> { [List(7, [p]), InvoiceNext(7)] }

  lemma RunPass(s: System, p: Period, rest: seq<Step>)
    requires Listed(s.books.rows, s.now, p)
    ensures Run(s, Pass(p) + rest)
         == Run(s.(books := Invoice(s.books, p), listed := Max(s.listed, s.now), jobs := s.jobs[7 := []]), rest)
  {
    hide Sum, Invoice, Listed, Run;
    RunTwo(s, List(7, [p]), InvoiceNext(7), rest);
    assert [p][1..] == [];
    assert s.jobs[7 := [p]][7 := []] == s.jobs[7 := []];
  }

  /** A row's month is invoiced in the month after. */
  lemma FirstPass(owner: Id, month: Month, x: Amounts, rest: seq<Step>)
    ensures var books := Books([Row(owner, month, x, Some(0), true)], [Statement(owner, month, x)]);
      Run(Start(month), [Accrue(owner, month, x), NextMonth] + (Pass(Period(owner, month, x, 1)) + rest))
      == Run(System(books, month + 1, month + 1, map[7 := []]), rest)
  {
    var row, p := Row(owner, month, x, None, false), Period(owner, month, x, 1);
    var s := System(Books([row], []), month + 1, month - 1, map[]);
    OneRow(row);
    assert Attach([row], owner, month, 0, 1) == [Row(owner, month, x, Some(0), true)];
    hide Run, Sum, Attach, Pass;
    assert Listed([row], month + 1, p);
    RunPass(s, p, rest);
    assert Next(Next(Start(month), Accrue(owner, month, x)), NextMonth) == s;
    RunTwo(Start(month), Accrue(owner, month, x), NextMonth, Pass(p) + rest);
  }

  /** From the start: a month is invoiced for x, and an order of that month closes only then. Its commission
      y joins the statement of x and is charged to nobody. */
  lemma LateAccrualIsChargedToNobody(owner: Id, month: Month, x: Amounts, y: Amounts)
    ensures var first, late := Period(owner, month, x, 1), Period(owner, month, y, 2);
      var steps := [Accrue(owner, month, x), NextMonth] + (Pass(first) + ([Accrue(owner, month, y)] + (Pass(late) + [])));
      var b := Run(Start(month), steps).books;
      && b.statements == [Statement(owner, month, x)]
      && Sum(b.rows, JoinedTo(0)) == x.Plus(y) && Sum(b.rows, Unbilled) == ZERO
  {
    var p := Period(owner, month, y, 2);
    var early, late := Row(owner, month, x, Some(0), true), Row(owner, month, y, None, false);
    var s0 := System(Books([early], [Statement(owner, month, x)]), month + 1, month + 1, map[7 := []]);
    var s := s0.(books := Books([early, late], s0.books.statements));
    TwoRows(early, late, UnbilledIn(owner, month));
    TwoRows(early, late.(invoice := Some(0)), JoinedTo(0));
    TwoRows(early, late.(invoice := Some(0)), Unbilled);
    hide Run, Sum, Pass;
    FirstPass(owner, month, x, [Accrue(owner, month, y)] + (Pass(p) + []));
    RunFirst(s0, Accrue(owner, month, y), Pass(p) + []);
    assert Next(s0, Accrue(owner, month, y)) == s;
    assert Listed(s.books.rows, month + 1, p) by { assert UnbilledIn(owner, month).Selects(s.books.rows[1]); }
    hide Listed;
    RunPass(s, p, []);
    assert Attach(s.books.rows, owner, month, 0, 0) == [early, late.(invoice := Some(0))];
    RunNone(s.(books := Invoice(s.books, p), listed := Max(s.listed, s.now), jobs := s.jobs[7 := []]));
  }

  /** The window case, from the start: a row of x is listed, a row of y of the same month is accrued, and
      only then is the month invoiced. The statement is of x alone; both rows are on it. */
  lemma WindowAccrualIsChargedToNobody(owner: Id, month: Month, x: Amounts, y: Amounts)
    ensures var p := Period(owner, month, x, 1);
      var b := Run(Start(month), [Accrue(owner, month, x), NextMonth]
                                 + ([List(7, [p]), Accrue(owner, month, y)] + [InvoiceNext(7)])).books;
      && b.statements == [Statement(owner, month, x)]
      && Sum(b.rows, JoinedTo(0)) == x.Plus(y) && Sum(b.rows, Unbilled) == ZERO
  {
    var p := Period(owner, month, x, 1);
    var early, late := Row(owner, month, x, None, false), Row(owner, month, y, None, false);
    var s := System(Books([early], []), month + 1, month - 1, map[]);
    var s' := System(Books([early, late], []), month + 1, month + 1, map[7 := [p]]);
    OneRow(early);
    hide Run, Sum;
    RunTwo(Start(month), Accrue(owner, month, x), NextMonth, [List(7, [p]), Accrue(owner, month, y)] + [InvoiceNext(7)]);
    assert Next(Next(Start(month), Accrue(owner, month, x)), NextMonth) == s;
    assert Listed([early], month + 1, p);
    RunTwo(s, List(7, [p]), Accrue(owner, month, y), [InvoiceNext(7)]);
    assert Next(Next(s, List(7, [p])), Accrue(owner, month, y)) == s';
    WindowInvoiced(s', p, early, late);
  }

  lemma WindowInvoiced(s: System, p: Period, early: Row, late: Row)
    requires early == Row(p.owner, p.month, early.amounts, None, false) && late == Row(p.owner, p.month, late.amounts, None, false)
    requires s.books == Books([early, late], []) && 7 in s.jobs && s.jobs[7] == [p] && p.seen == 1
    ensures var b := Run(s, [InvoiceNext(7)]).books;
      && b.statements == [Statement(p.owner, p.month, p.amounts)]
      && Sum(b.rows, JoinedTo(0)) == early.amounts.Plus(late.amounts) && Sum(b.rows, Unbilled) == ZERO
  {
    var early', late' := early.(invoice := Some(0), priced := true), late.(invoice := Some(0));
    TwoRows(early', late', JoinedTo(0));
    TwoRows(early', late', Unbilled);
    hide Sum;
    assert [InvoiceNext(7)] == [InvoiceNext(7)] + [];
    RunFirst(s, InvoiceNext(7), []);
    RunNone(Next(s, InvoiceNext(7)));
    hide Run;
    assert Attach([early, late], p.owner, p.month, 0, 1) == [early', late'];
  }

  lemma OneRow(row: Row)
    ensures Sum([row], UnbilledIn(row.owner, row.month)) == if row.invoice.None? then row.amounts else ZERO
    ensures row.invoice.None? ==> UnbilledIn(row.owner, row.month).Selects([row][0])
  {
    assert [row][..0] == [];
  }

  lemma TwoRows(a: Row, b: Row, which: Selection)
    ensures Sum([a, b], which) == (
      if which.Selects(a) then (if which.Selects(b) then a.amounts.Plus(b.amounts) else a.amounts)
      else (if which.Selects(b) then b.amounts else ZERO))
  {
    SumAppends([], a, which);
    SumAppends([a], b, which);
    EmptySum([], which);
    hide Sum;
    assert [] + [a] == [a] && [a] + [b] == [a, b];
  }

  lemma RunNone(s: System)
    ensures Run(s, []) == s
  {
  }

  lemma RunTwo(s: System, first: Step, second: Step, rest: seq<Step>)
    requires Enabled(s, first) && Enabled(Next(s, first), second)
    ensures Run(s, [first, second] + rest) == Run(Next(Next(s, first), second), rest)
  {
    assert [first, second] + rest == [first] + ([second] + rest);
    hide Run, Enabled, Next;
    RunFirst(s, first, [second] + rest);
    RunFirst(Next(s, first), second, rest);
  }

  lemma {:induction false} RunFirst(s: System, step: Step, rest: seq<Step>)
    requires Enabled(s, step)
    ensures Run(s, [step] + rest) == Run(Next(s, step), rest)
  {
    hide Next, Enabled;
    if rest == [] {
      assert [step] + rest == [step] && [step][..0] == [];
    } else {
      RunFirst(s, step, rest[..|rest| - 1]);
      assert ([step] + rest)[..|rest|] == [step] + rest[..|rest| - 1];
    }
  }

  // ---- the job ----

  /** What a pass with these failures leaves: the listed months that did not fail, invoiced in order. */
  function InvoiceAll(books: Books, periods: seq<Period>, fails: set<nat>): Books {
    if periods == [] then books
    else
      var n := |periods| - 1;
      var before := InvoiceAll(books, periods[..n], fails);
      if n in fails then before else Invoice(before, periods[n])
  }

  predicate Settled(books: Books, owner: Id, month: Month) {
    && (exists i :: 0 <= i < |books.statements| && IsFor(books.statements[i], owner, month))
    && forall k :: 0 <= k < |books.rows| ==> !UnbilledIn(owner, month).Selects(books.rows[k])
  }

  lemma InvoiceSettles(books: Books, p: Period)
    ensures Settled(Invoice(books, p), p.owner, p.month)
  {
    var books' := Invoice(books, p);
    match Find(books.statements, p.owner, p.month)
    case Some(i) => assert IsFor(books'.statements[i], p.owner, p.month);
    case None => assert IsFor(books'.statements[|books.statements|], p.owner, p.month);
  }

  lemma InvoiceKeepsSettled(books: Books, p: Period, owner: Id, month: Month)
    requires Settled(books, owner, month)
    ensures Settled(Invoice(books, p), owner, month)
  {
    var i :| 0 <= i < |books.statements| && IsFor(books.statements[i], owner, month);
    assert IsFor(Invoice(books, p).statements[i], owner, month);
    forall k | 0 <= k < |books.rows| ensures !UnbilledIn(owner, month).Selects(Invoice(books, p).rows[k]) {
      assert !UnbilledIn(owner, month).Selects(books.rows[k]);
    }
  }

  /** A pass settles every listed month that does not fail. */
  lemma {:induction false} InvoiceAllSettles(books: Books, periods: seq<Period>, fails: set<nat>, n: nat)
    requires n < |periods| && n !in fails
    ensures Settled(InvoiceAll(books, periods, fails), periods[n].owner, periods[n].month)
  {
    hide Settled, Invoice;
    var last := |periods| - 1;
    var before := InvoiceAll(books, periods[..last], fails);
    if n == last {
      InvoiceSettles(before, periods[n]);
    } else {
      InvoiceAllSettles(books, periods[..last], fails, n);
      if last !in fails { InvoiceKeepsSettled(before, periods[last], periods[n].owner, periods[n].month); }
    }
  }

  // ---- a pass with the job's own listing ----

  predicate ListedBefore(p: Period, q: Period) { p.month < q.month || (p.month == q.month && p.owner < q.owner) }

  predicate Covers(periods: seq<Period>, row: Row) {
    exists p | p in periods :: p.owner == row.owner && p.month == row.month
  }

  /** listUnbilledCommissionPeriods: each (owner, month) before `now` with unbilled rows once, by month
      and owner, with its sums, as far as the limit goes. */
  predicate IsListing(rows: seq<Row>, now: Month, limit: nat, periods: seq<Period>) {
    && |periods| <= limit
    && (forall p | p in periods :: Listed(rows, now, p))
    && (forall i, j :: 0 <= i < j < |periods| ==> ListedBefore(periods[i], periods[j]))
    && (forall row | row in rows && row.invoice.None? && row.month < now && !Covers(periods, row) ::
          |periods| == limit && forall p | p in periods :: p.month < row.month || (p.month == row.month && p.owner < row.owner))
  }

  predicate SameRows(a: seq<Row>, b: seq<Row>) {
    |a| == |b| && forall k :: 0 <= k < |a| ==>
      b[k].owner == a[k].owner && b[k].month == a[k].month && b[k].amounts == a[k].amounts
      && (a[k].invoice.Some? ==> b[k] == a[k])
  }

  lemma {:induction false} InvoiceAllKeepsRows(books: Books, periods: seq<Period>, fails: set<nat>)
    ensures SameRows(books.rows, InvoiceAll(books, periods, fails).rows)
  {
    if periods != [] { InvoiceAllKeepsRows(books, periods[..|periods| - 1], fails); }
  }

  /** A pass with no failure whose listing was not cut off leaves nothing unbilled before this month. */
  lemma PassClearsTheBacklog(books: Books, now: Month, limit: nat, periods: seq<Period>)
    requires IsListing(books.rows, now, limit, periods) && |periods| < limit
    ensures forall row | row in InvoiceAll(books, periods, {}).rows && row.invoice.None? :: row.month >= now
  {
    var after := InvoiceAll(books, periods, {});
    InvoiceAllKeepsRows(books, periods, {});
    forall row | row in after.rows && row.month < now ensures row.invoice.Some? {
      var k :| 0 <= k < |after.rows| && after.rows[k] == row;
      if row.invoice.None? {
        assert books.rows[k] in books.rows;
        assert Covers(periods, books.rows[k]);
        var p :| p in periods && p.owner == row.owner && p.month == row.month;
        var n :| 0 <= n < |periods| && periods[n] == p;
        InvoiceAllSettles(books, periods, {}, n);
      }
    }
  }

  /** The statement job over the billing tables. */
  class RollupJob {
    var rows: seq<Row>
    var statements: seq<Statement>

    ghost function Db(): Books
      reads this
    {
      Books(rows, statements)
    }

    constructor (books: Books)
      ensures Db() == books
    {
      rows, statements := books.rows, books.statements;
    }

    /** CreateCommissionInvoice: the id of the new or the existing statement. */
    method CreateInvoice(p: Period) returns (id: nat, created: bool)
      modifies this`statements
      ensures id < |statements| && IsFor(statements[id], p.owner, p.month)
      ensures created <==> Find(old(statements), p.owner, p.month).None?
      ensures !created ==> statements == old(statements) && Some(id) == Find(old(statements), p.owner, p.month)
      ensures created ==> id == |old(statements)| && statements == old(statements) + [Statement(p.owner, p.month, p.amounts)]
    {
      match Find(statements, p.owner, p.month)
      case Some(i) => return i, false;
      case None =>
        statements := statements + [Statement(p.owner, p.month, p.amounts)];
        return |statements| - 1, true;
    }

    /** One listed month in one transaction, which a failure rolls back. */
    method InvoicePeriod(p: Period, fails: bool) returns (ok: bool)
      modifies this
      ensures ok == !fails
      ensures Db() == if fails then old(Db()) else Invoice(old(Db()), p)
    {
      if fails { return false; }
      var id, created := CreateInvoice(p);
      rows := Attach(rows, p.owner, p.month, id, if created then p.seen else 0);
      return true;
    }

    /** A pass over the listed months: every one that does not fail ends with its statement and nothing
        unbilled, and a failure stops only its own month. */
    method RunOnce(periods: seq<Period>, fails: set<nat>) returns (issued: nat, failures: seq<nat>)
      modifies this
      ensures Db() == InvoiceAll(old(Db()), periods, fails)
      ensures forall n | 0 <= n < |periods| && n !in fails :: Settled(Db(), periods[n].owner, periods[n].month)
      ensures forall n :: n in failures <==> 0 <= n < |periods| && n in fails
      ensures issued + |failures| == |periods|
    {
      issued, failures := 0, [];
      for n := 0 to |periods|
        invariant Db() == InvoiceAll(old(Db()), periods[..n], fails)
        invariant forall k :: k in failures <==> 0 <= k < n && k in fails
        invariant issued + |failures| == n
      {
        hide Invoice;
        var ok := InvoicePeriod(periods[n], n in fails);
        assert periods[..n + 1][..n] == periods[..n];
        if ok { issued := issued + 1; } else { failures := failures + [n]; }
      }
      assert periods[..|periods|] == periods;
      forall n | 0 <= n < |periods| && n !in fails ensures Settled(Db(), periods[n].owner, periods[n].month) {
        InvoiceAllSettles(old(Db()), periods, fails, n);
      }
    }
  }
}
