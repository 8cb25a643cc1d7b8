/**
 Many orders, users and workers (src/order/service.rs, src/order/repository.rs).

 `Apply` is the transition function of the whole system: an event names the worker that moves and what
 its environment answers, so a run is a sequence of events and every interleaving is some run.
 */
module World {
  import opened Common
  import opened Orders
  import opened Protocol
  import opened Steps
  import opened Fees
  import opened Listing

  datatype Limits = Limits(maxPending: int, minCents: int, maxCents: int, timeoutMinutes: int, balanceDisabled: bool)

  /**
   `ledger` is the platform's record of redeemed codes, `balance` its accounts and `base` what each account
   would hold without this service.
   */
  datatype Sys = Sys(
    cells: seq<Cell>,
    ledger: map<string, Credit>,
    jobs: seq<Job>,
    balance: map<Account, int>,
    base: map<Account, int>,
    now: int,
    limits: Limits)

  datatype Event =
    | Spawn(pc: Pc)                      // an operation starts
    | Step(w: nat, c: Choice)            // a worker takes its next step
    | Vanish(w: nat)                     // a worker dies, or returns early on a database error
    | Tick(seconds: nat)
    | Outside(account: Account, units: int) // the user spends, or is credited elsewhere
    | Configure(limits: Limits)

  function Rows(cells: seq<Cell>): (rows: seq<Row>)
    ensures |rows| == |cells| && forall i :: 0 <= i < |cells| ==> rows[i] == cells[i].row
  {
    seq(|cells|, i requires 0 <= i < |cells| => cells[i].row)
  }

  function CreditOf(ledger: map<string, Credit>, code: string): Option<Credit> {
    if code in ledger then Some(ledger[code]) else None
  }

  function ViewOf(s: Sys, o: nat): View
    requires o < |s.cells|
  {
    View(s.cells[o], CreditOf(s.ledger, s.cells[o].row.rechargeCode))
  }

  // ---- creating an order ----

  function PendingOf(cells: seq<Cell>, user: int): nat {
    CountPending(Rows(cells), user)
  }

  predicate Admissible(l: Limits, n: NewOrder) {
    && n.user > 0 && n.cents > 0
    && (n.orderType == Balance ==> !l.balanceDisabled && l.minCents <= n.cents <= l.maxCents)
    && (n.orderType == Subscription ==> n.hasPlan && n.groupId.GetOr(0) > 0 && n.days.GetOr(0) > 0)
  }

  function NewRow(n: NewOrder, expiresAt: int, now: int): Row {
    Row(n.user, n.cents, if n.feeBps.Some? then Some(PayAmount(n.cents, n.feeBps.value)) else None,
        n.code, Pending, n.orderType, None, n.groupId, n.days, expiresAt, None, None, None, None, now)
  }

  function NewCell(r: Row): Cell {
    Cell(r, Expected(r), [], [], 0, {}, {}, None)
  }

  predicate CodeTaken(cells: seq<Cell>, code: string) {
    exists i :: 0 <= i < |cells| && cells[i].row.rechargeCode == code
  }

  function SetPc(s: Sys, w: nat, pc: Pc): Sys
    requires w < |s.jobs|
  {
    s.(jobs := s.jobs[w := Goto(s.jobs[w], pc)])
  }

  function CreateStep(s: Sys, w: nat, p: CreatePc): Sys
    requires w < |s.jobs|
  {
    match p
    case CreateStart(n) => SetPc(s, w, AtCreate(CreateCheck(n, s.now)))
    case CreateCheck(n, nowTs) =>
      if Admissible(s.limits, n) && PendingOf(s.cells, n.user) < s.limits.maxPending
      then SetPc(s, w, AtCreate(CreateInsert(n, nowTs)))
      else SetPc(s, w, Done(None, NotCreated(n)))
    case CreateInsert(n, nowTs) =>
      if CodeTaken(s.cells, n.code) then SetPc(s, w, Done(None, NotCreated(n)))
      else
        var r := NewRow(n, nowTs + Max(s.limits.timeoutMinutes, 1) * 60, s.now);
        SetPc(s, w, AtAttach(CreateLog(|s.cells|))).(cells := s.cells + [NewCell(r)])
  }

  function SweepListStep(s: Sys, w: nat, limit: int): Sys
    requires w < |s.jobs|
  {
    var ids := ListExpired(Rows(s.cells), s.now, limit);
    SetPc(s, w, if ids == [] then Done(None, NothingToSweep(limit)) else AtSweep(SweepMark(ids, 0)))
  }

  // ---- a step about one order ----

  /** The account an order is about. */
  function AccountOf(r: Row): Account {
    if r.orderType == Balance then Money(r.user) else Days(r.user, r.groupId.GetOr(0))
  }

  /** What a credit put on the account of its order. */
  function Worth(r: Row, credit: Option<Credit>): int {
    if credit.None? then 0 else if r.orderType == Balance then credit.value.cents else credit.value.days
  }

  /** What the service has put on the account of an order through this order. */
  function OrderNet(v: View): int {
    Worth(v.cell.row, v.credit) - v.cell.taken
  }

  function PutView(s: Sys, o: nat, w: nat, v: View, j: Job): Sys
    requires o < |s.cells| && w < |s.jobs|
  {
    var r := s.cells[o].row;
    s.(cells := s.cells[o := v.cell],
       ledger := if v.credit.Some? then s.ledger[r.rechargeCode := v.credit.value] else s.ledger,
       jobs := s.jobs[w := j],
       balance := s.balance[AccountOf(r) := At(s.balance, AccountOf(r)) + OrderNet(v) - OrderNet(ViewOf(s, o))])
  }

  function OrderStep(s: Sys, o: nat, w: nat, c: Choice): Sys
    requires o < |s.cells| && w < |s.jobs|
  {
    var (v, j) := LocalStep(s.now, At(s.balance, Money(s.cells[o].row.user)), w, ViewOf(s, o), s.jobs[w], c);
    PutView(s, o, w, v, j)
  }

  function WorkerStep(s: Sys, w: nat, c: Choice): Sys
    requires w < |s.jobs|
  {
    match s.jobs[w].pc
    case AtCreate(p) => CreateStep(s, w, p)
    case AtSweepList(limit) => SweepListStep(s, w, limit)
    case pc =>
      match Target(pc)
      case None => s
      case Some(o) => if o < |s.cells| then OrderStep(s, o, w, c) else SetPc(s, w, Missing(s.now, pc))
  }

  /** Where an operation may begin. */
  predicate IsStart(pc: Pc) {
    || (pc.AtCreate? && pc.create.CreateStart?)
    || (pc.AtNotice? && pc.notice.NoticeStart?)
    || (pc.AtCancel? && pc.cancel.CancelRead?)
    || (pc.AtRetry? && pc.retry.RetryRead?)
    || pc.AtSweepList?
    || (pc.AtRequest? && pc.request.RequestRead?)
    || (pc.AtRefund? && pc.refund.RefundRead?)
  }

  function Apply(s: Sys, e: Event): Sys {
    match e
    case Spawn(pc) => if IsStart(pc) then s.(jobs := s.jobs + [Job(pc, true, 0, 0)]) else s
    case Step(w, c) => if w < |s.jobs| && s.jobs[w].alive then WorkerStep(s, w, c) else s
    case Vanish(w) => if w < |s.jobs| then s.(jobs := s.jobs[w := s.jobs[w].(alive := false)]) else s
    case Tick(seconds) => s.(now := s.now + seconds)
    case Outside(account, units) =>
      s.(balance := s.balance[account := At(s.balance, account) + units],
         base := s.base[account := At(s.base, account) + units])
    case Configure(limits) => s.(limits := limits)
  }

  function Run(s: Sys, es: seq<Event>): Sys {
    if es == [] then s else Apply(Run(s, es[..|es| - 1]), es[|es| - 1])
  }

  /** Nothing happened yet. */
  predicate Initial(s: Sys) {
    s.cells == [] && s.ledger == map[] && s.jobs == [] && s.balance == s.base
  }
}
