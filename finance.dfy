/**
 * The finance page (src/finance/component/Finance.jsx): a list of transactions, a
 * payment form opened from a transaction, and a submit that settles the transaction
 * with the form's id in place.
 */
module Finance {
  import opened Wrappers
  import opened Text

  /** A transaction record; `kind` is the record's `type` field. */
  datatype Transaction = Transaction(
    id: int,
    kind: string,
    amount: int,
    date: string,
    description: string,
    status: string,
    payMethod: string,
    studentId: string)

  /** The transaction history the page starts with. */
  const InitialTransactions: seq<Transaction> := [
    Transaction(1, "payment", 2500, "2025-01-15", "Tuition Fee - Spring 2025", "completed", "Credit Card", "STU-1001"),
    Transaction(2, "payment", 3000, "2024-12-10", "Tuition Fee - Fall 2024", "completed", "Bank Transfer", "STU-1001"),
    Transaction(3, "installment", 1500, "2025-02-01", "Installment Payment Due", "pending", "Pending", "STU-1001"),
    Transaction(4, "payment", 2000, "2024-11-05", "Tuition Fee - Fall 2024", "completed", "Credit Card", "STU-1002"),
    Transaction(5, "installment", 1500, "2025-03-01", "Installment Payment Due", "upcoming", "Scheduled", "STU-1001")
  ]

  /** `paymentMethodOptions[0]`, the method a fresh form starts with. */
  const DefaultMethod: string := "Credit Card"

  /** No two transactions share an id. */
  predicate UniqueIds(ts: seq<Transaction>)
  {
    forall i, j :: 0 <= i < j < |ts| ==> ts[i].id != ts[j].id
  }

  lemma InitialTransactionsUniqueIds()
    ensures UniqueIds(InitialTransactions)
    ensures forall i :: 0 <= i < |InitialTransactions| ==> InitialTransactions[i].id == i + 1
  {
  }

  /** The payment form; `id` is `null` until a transaction is chosen. */
  datatype PaymentForm = PaymentForm(id: Option<int>, studentId: string, amount: string, payMethod: string)

  /** The form as it starts and as closing the modal resets it. */
  const EmptyForm: PaymentForm := PaymentForm(None, "", "", DefaultMethod)

  /** `!paymentForm.id` is false: an id is set and it is not 0. */
  predicate HasTarget(form: PaymentForm)
  {
    form.id.Some? && form.id.value != 0
  }

  /** A method the form can carry over from a transaction (`Pending`/`Scheduled` are placeholders). */
  predicate IsRealMethod(m: string)
  {
    m != "" && m != "Pending" && m != "Scheduled"
  }

  /** The form `openPaymentModal(t)` fills in. */
  function FormFor(t: Transaction): (f: PaymentForm)
    ensures f.id == Some(t.id) && f.studentId == t.studentId
    ensures t.amount != 0 ==> ParseNumber(f.amount) == Some(t.amount)
    ensures t.amount == 0 ==> f.amount == ""
    ensures IsRealMethod(t.payMethod) ==> f.payMethod == t.payMethod
    ensures !IsRealMethod(t.payMethod) ==> f.payMethod == DefaultMethod
  {
    ParseNumberOfIntToString(t.amount);
    PaymentForm(
      Some(t.id),
      t.studentId,
      if t.amount != 0 then IntToString(t.amount) else "",
      if IsRealMethod(t.payMethod) then t.payMethod else DefaultMethod)
  }

  /** The three inputs of the form, the `field` argument of `handlePaymentInputChange`. */
  datatype Field = StudentIdField | AmountField | MethodField

  /** `{...prev, [field]: value}`. */
  function WithField(form: PaymentForm, field: Field, value: string): (r: PaymentForm)
    ensures r.id == form.id
    ensures r.studentId == if field == StudentIdField then value else form.studentId
    ensures r.amount == if field == AmountField then value else form.amount
    ensures r.payMethod == if field == MethodField then value else form.payMethod
  {
    match field
    case StudentIdField => form.(studentId := value)
    case AmountField => form.(amount := value)
    case MethodField => form.(payMethod := value)
  }

  /** `Number(amountText) || previous`: a number that reads as 0 or NaN falls back to `previous`. */
  function NewAmount(amountText: string, previous: int): (a: int)
    ensures ParseNumber(amountText).Some? && ParseNumber(amountText).value != 0 ==> a == ParseNumber(amountText).value
    ensures ParseNumber(amountText).None? || ParseNumber(amountText).value == 0 ==> a == previous
    ensures a == 0 ==> previous == 0
  {
    match ParseNumber(amountText)
    case Some(n) => if n != 0 then n else previous
    case None => previous
  }

  /** The settled version of `t` that a submit of `form` on `today` produces. */
  function Settled(t: Transaction, form: PaymentForm, today: string): Transaction
  {
    t.(status := "completed", payMethod := form.payMethod, studentId := form.studentId,
       amount := NewAmount(form.amount, t.amount), date := today, kind := "payment")
  }

  /** Whether a submit of `form` settles `t`. */
  predicate Targets(form: PaymentForm, t: Transaction)
  {
    HasTarget(form) && t.id == form.id.value
  }

  /** One transaction after the submit: settled when it is the chosen one. */
  function SubmitOne(t: Transaction, form: PaymentForm, today: string): Transaction
  {
    if Targets(form, t) then Settled(t, form, today) else t
  }

  /** The transactions after `handlePaymentSubmit` with `form`, `today` being the ISO date. */
  function AfterSubmit(ts: seq<Transaction>, form: PaymentForm, today: string): (r: seq<Transaction>)
    ensures |r| == |ts|
    ensures forall i :: 0 <= i < |ts| ==> r[i].id == ts[i].id && r[i].description == ts[i].description
    ensures forall i :: 0 <= i < |ts| && !Targets(form, ts[i]) ==> r[i] == ts[i]
    ensures forall i :: 0 <= i < |ts| && Targets(form, ts[i]) ==>
      r[i].status == "completed" && r[i].kind == "payment" && r[i].date == today
      && r[i].payMethod == form.payMethod && r[i].studentId == form.studentId
      && r[i].amount == NewAmount(form.amount, ts[i].amount)
  {
    seq(|ts|, i requires 0 <= i < |ts| => SubmitOne(ts[i], form, today))
  }

  /** A submit without a chosen transaction changes nothing. */
  lemma SubmitWithoutTarget(ts: seq<Transaction>, form: PaymentForm, today: string)
    requires !HasTarget(form)
    ensures AfterSubmit(ts, form, today) == ts
  {
  }

  /** Submitting keeps transaction ids, hence their uniqueness. */
  lemma SubmitKeepsUniqueIds(ts: seq<Transaction>, form: PaymentForm, today: string)
    requires UniqueIds(ts)
    ensures UniqueIds(AfterSubmit(ts, form, today))
  {
    var r := AfterSubmit(ts, form, today);
    forall i, j | 0 <= i < j < |r| ensures r[i].id != r[j].id {
      assert r[i].id == ts[i].id && r[j].id == ts[j].id;
    }
  }

  /** Submitting the same form twice gives what submitting it once gives. */
  lemma SubmitIdempotent(ts: seq<Transaction>, form: PaymentForm, today: string)
    ensures AfterSubmit(AfterSubmit(ts, form, today), form, today) == AfterSubmit(ts, form, today)
  {
    var once := AfterSubmit(ts, form, today);
    var twice := AfterSubmit(once, form, today);
    forall i | 0 <= i < |ts| ensures twice[i] == once[i] {
      if Targets(form, ts[i]) {
        assert Targets(form, once[i]);
      } else {
        assert !Targets(form, once[i]);
      }
    }
  }

  /**
   * Opening the modal on a transaction with a non-zero id and submitting the form as
   * filled in settles that transaction with its own amount and student, and with its
   * method unless that was a placeholder.
   */
  lemma OpenThenSubmit(ts: seq<Transaction>, k: int, today: string)
    requires 0 <= k < |ts| && ts[k].id != 0
    ensures var r := AfterSubmit(ts, FormFor(ts[k]), today);
      r[k].status == "completed" && r[k].amount == ts[k].amount && r[k].studentId == ts[k].studentId
      && r[k].payMethod == (if IsRealMethod(ts[k].payMethod) then ts[k].payMethod else DefaultMethod)
  {
    var form := FormFor(ts[k]);
    if ts[k].amount == 0 {
      assert Trim("") == "";
      assert ParseNumber(form.amount) == Some(0);
    }
  }

  /** The status filter of the history: `'all'`, or one status. */
  function Visible(ts: seq<Transaction>, period: string): (r: seq<Transaction>)
    ensures |r| <= |ts|
    ensures forall t :: t in r <==> t in ts && (period == "all" || t.status == period)
  {
    if ts == [] then []
    else if period == "all" || ts[0].status == period then [ts[0]] + Visible(ts[1..], period)
    else Visible(ts[1..], period)
  }

  /** The filter works element by element, so it keeps the history's order. */
  lemma {:induction false} VisibleAppend(a: seq<Transaction>, b: seq<Transaction>, period: string)
    ensures Visible(a + b, period) == Visible(a, period) + Visible(b, period)
  {
    if a == [] {
      assert a + b == b;
    } else {
      assert (a + b)[1..] == a[1..] + b;
      VisibleAppend(a[1..], b, period);
    }
  }

  /** The `'all'` period shows the whole history. */
  lemma {:induction false} VisibleAll(ts: seq<Transaction>)
    ensures Visible(ts, "all") == ts
  {
    if ts != [] {
      VisibleAll(ts[1..]);
    }
  }

  /** A status badge: its colours and its label. */
  datatype Badge = Badge(bg: string, text: string, caption: string)

  const CompletedBadge: Badge := Badge("bg-green-100", "text-green-700", "Completed")
  const PendingBadge: Badge := Badge("bg-yellow-100", "text-yellow-700", "Pending")
  const UpcomingBadge: Badge := Badge("bg-blue-100", "text-blue-700", "Upcoming")

  /** `getStatusBadge(status)`: the configured badge, or the pending one. */
  function StatusBadge(status: string): (b: Badge)
    ensures b == CompletedBadge || b == PendingBadge || b == UpcomingBadge
    ensures status != "completed" && status != "upcoming" ==> b == PendingBadge
  {
    if status == "completed" then CompletedBadge
    else if status == "upcoming" then UpcomingBadge
    else PendingBadge
  }

  /** The three known statuses get badges of their own, labelled after them. */
  lemma StatusBadgeKnown()
    ensures StatusBadge("completed").caption == "Completed"
    ensures StatusBadge("pending").caption == "Pending"
    ensures StatusBadge("upcoming").caption == "Upcoming"
  {
  }

  /** The `Finance` component's state. */
  class FinancePage {
    var transactions: seq<Transaction>
    var paymentForm: PaymentForm
    var isPaymentModalOpen: bool
    var selectedPeriod: string

    /** Transaction ids stay unique. */
    predicate Valid()
      reads this
    {
      UniqueIds(transactions)
    }

    constructor ()
      ensures Valid()
      ensures transactions == InitialTransactions && paymentForm == EmptyForm
      ensures !isPaymentModalOpen && selectedPeriod == "all"
    {
      InitialTransactionsUniqueIds();
      transactions := InitialTransactions;
      paymentForm := EmptyForm;
      isPaymentModalOpen := false;
      selectedPeriod := "all";
    }

    /** `openPaymentModal(transaction)`. */
    method OpenPaymentModal(t: Transaction)
      requires Valid()
      modifies this
      ensures Valid()
      ensures paymentForm == FormFor(t) && isPaymentModalOpen
      ensures transactions == old(transactions) && selectedPeriod == old(selectedPeriod)
    {
      paymentForm := FormFor(t);
      isPaymentModalOpen := true;
    }

    /** `closePaymentModal()`. */
    method ClosePaymentModal()
      requires Valid()
      modifies this
      ensures Valid()
      ensures paymentForm == EmptyForm && !isPaymentModalOpen
      ensures transactions == old(transactions) && selectedPeriod == old(selectedPeriod)
    {
      isPaymentModalOpen := false;
      paymentForm := EmptyForm;
    }

    /** `handlePaymentInputChange(field, value)`. */
    method HandlePaymentInputChange(field: Field, value: string)
      requires Valid()
      modifies this
      ensures Valid()
      ensures paymentForm == WithField(old(paymentForm), field, value)
      ensures transactions == old(transactions) && isPaymentModalOpen == old(isPaymentModalOpen)
      ensures selectedPeriod == old(selectedPeriod)
    {
      paymentForm := WithField(paymentForm, field, value);
    }

    /** `setSelectedPeriod(period)`. */
    method SelectPeriod(period: string)
      requires Valid()
      modifies this
      ensures Valid()
      ensures selectedPeriod == period
      ensures transactions == old(transactions) && paymentForm == old(paymentForm)
      ensures isPaymentModalOpen == old(isPaymentModalOpen)
    {
      selectedPeriod := period;
    }

    /**
     * `handlePaymentSubmit`, `today` standing for the ISO date of the clock. Without a
     * chosen transaction nothing happens; otherwise the chosen transaction is settled
     * and the modal is closed.
     */
    method HandlePaymentSubmit(today: string)
      requires Valid()
      modifies this
      ensures Valid()
      ensures !HasTarget(old(paymentForm)) ==>
        transactions == old(transactions) && paymentForm == old(paymentForm)
        && isPaymentModalOpen == old(isPaymentModalOpen)
      ensures HasTarget(old(paymentForm)) ==>
        transactions == AfterSubmit(old(transactions), old(paymentForm), today)
        && paymentForm == EmptyForm && !isPaymentModalOpen
      ensures selectedPeriod == old(selectedPeriod)
    {
      if !HasTarget(paymentForm) {
        return;
      }
      var ts, form := transactions, paymentForm;
      var next: seq<Transaction> := [];
      var i := 0;
      while i < |ts|
        invariant 0 <= i <= |ts|
        invariant |next| == i
        invariant forall k :: 0 <= k < i ==> next[k] == SubmitOne(ts[k], form, today)
      {
        var t := ts[i];
        if t.id == form.id.value {
          t := Settled(t, form, today);
        }
        next := next + [t];
        i := i + 1;
      }
      assert next == AfterSubmit(ts, form, today);
      SubmitKeepsUniqueIds(ts, form, today);
      transactions := next;
      ClosePaymentModal();
    }
  }
}
