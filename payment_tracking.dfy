/**
 * The payment-tracking screen: a list of recorded payments kept in the screen's own
 * state, a form for recording one more, and a search box that filters the list.
 */
module Payments {
  import opened Wrappers
  import opened Text
  import opened Seqs

  /** A payment as the screen lists it; `amount` is `None` when the form's text was not a number. */
  datatype PaymentEntry = PaymentEntry(
    id: int,
    studentName: string,
    rollNumber: string,
    className: string,
    feeComponent: string,
    amount: Option<int>,
    paymentMode: string,
    transactionId: string,
    paymentDate: string,
    status: string)

  /** The text fields of the "Record New Payment" form. */
  datatype PaymentForm = PaymentForm(
    studentName: string,
    rollNumber: string,
    className: string,
    feeComponent: string,
    amount: string,
    paymentMode: string,
    transactionId: string,
    paymentDate: string)

  /** The names of the form's fields. */
  datatype PaymentField =
    StudentName | RollNumber | ClassName | FeeComponent | Amount | PaymentMode | TransactionId | PaymentDate

  const EmptyPaymentForm := PaymentForm("", "", "", "", "", "", "", "")

  /** The status every newly recorded payment gets. */
  const Completed := "Completed"

  /** The two payments the screen starts with. */
  const SeedPayments := [
    PaymentEntry(1, "John Doe", "STU001", "Class 10", "Tuition Fee", Some(15000), "UPI", "TXN123456789",
                 "2024-01-15", Completed),
    PaymentEntry(2, "Jane Smith", "STU002", "Class 9", "Transport Fee", Some(2000), "Cash", "CASH001",
                 "2024-01-14", Completed)
  ]

  function FieldValue(f: PaymentForm, field: PaymentField): string {
    match field
    case StudentName => f.studentName
    case RollNumber => f.rollNumber
    case ClassName => f.className
    case FeeComponent => f.feeComponent
    case Amount => f.amount
    case PaymentMode => f.paymentMode
    case TransactionId => f.transactionId
    case PaymentDate => f.paymentDate
  }

  /** `{ ...prev, [field]: value }`: the named field takes the value and every other field is kept. */
  function WithField(f: PaymentForm, field: PaymentField, value: string): (g: PaymentForm)
    ensures FieldValue(g, field) == value
    ensures forall other :: other != field ==> FieldValue(g, other) == FieldValue(f, other)
  {
    match field
    case StudentName => f.(studentName := value)
    case RollNumber => f.(rollNumber := value)
    case ClassName => f.(className := value)
    case FeeComponent => f.(feeComponent := value)
    case Amount => f.(amount := value)
    case PaymentMode => f.(paymentMode := value)
    case TransactionId => f.(transactionId := value)
    case PaymentDate => f.(paymentDate := value)
  }

  /** Every field of the empty form is the empty string. */
  lemma EmptyFormIsBlank(field: PaymentField)
    ensures FieldValue(EmptyPaymentForm, field) == ""
  {
  }

  /** The payment recorded from a form when `n` payments are listed. */
  function NewPayment(n: nat, f: PaymentForm): PaymentEntry {
    PaymentEntry(n + 1, f.studentName, f.rollNumber, f.className, f.feeComponent, ParseInt(f.amount),
                 f.paymentMode, f.transactionId, f.paymentDate, Completed)
  }

  /** The list after recording the form: one payment more, at the end. */
  function AddPayment(payments: seq<PaymentEntry>, f: PaymentForm): seq<PaymentEntry> {
    payments + [NewPayment(|payments|, f)]
  }

  /** The list after recording each of the forms in turn. */
  function AddPayments(payments: seq<PaymentEntry>, forms: seq<PaymentForm>): seq<PaymentEntry>
    decreases |forms|
  {
    if forms == [] then payments else AddPayments(AddPayment(payments, forms[0]), forms[1..])
  }

  function PaymentIds(payments: seq<PaymentEntry>): seq<int> {
    seq(|payments|, i requires 0 <= i < |payments| => payments[i].id)
  }

  /** Recording a payment into a list numbered 1..n gives one numbered 1..n+1. */
  lemma AddPaymentKeepsIdsNumbered(payments: seq<PaymentEntry>, f: PaymentForm)
    requires NumberedFromOne(PaymentIds(payments))
    ensures NumberedFromOne(PaymentIds(AddPayment(payments, f)))
  {
    var after := AddPayment(payments, f);
    forall i | 0 <= i < |after| ensures PaymentIds(after)[i] == i + 1 {
      assert PaymentIds(after)[i] == after[i].id;
      if i < |payments| {
        assert after[i] == payments[i];
        assert PaymentIds(payments)[i] == payments[i].id;
      }
    }
  }

  /**
   * Starting from a list numbered 1..n, any sequence of recordings keeps the ids exactly
   * 1..n+k, so no two payments share an id.
   */
  lemma {:induction false} AddPaymentsKeepIdsNumbered(payments: seq<PaymentEntry>, forms: seq<PaymentForm>)
    requires NumberedFromOne(PaymentIds(payments))
    ensures |AddPayments(payments, forms)| == |payments| + |forms|
    ensures NumberedFromOne(PaymentIds(AddPayments(payments, forms)))
    ensures Distinct(PaymentIds(AddPayments(payments, forms)))
    decreases |forms|
  {
    if forms == [] {
      NumberedIdsAreFresh(PaymentIds(payments));
    } else {
      AddPaymentKeepsIdsNumbered(payments, forms[0]);
      AddPaymentsKeepIdsNumbered(AddPayment(payments, forms[0]), forms[1..]);
    }
  }

  /** The seed list is numbered 1, 2, so it stays numbered under any recordings. */
  lemma SeedThenAddsKeepIdsNumbered(forms: seq<PaymentForm>)
    ensures NumberedFromOne(PaymentIds(AddPayments(SeedPayments, forms)))
    ensures Distinct(PaymentIds(AddPayments(SeedPayments, forms)))
  {
    assert NumberedFromOne(PaymentIds(SeedPayments));
    AddPaymentsKeepIdsNumbered(SeedPayments, forms);
  }

  /** The search: the lower-cased term occurs in the student's name, roll number or fee component. */
  predicate PaymentMatches(p: PaymentEntry, term: string) {
    || Contains(Lower(p.studentName), Lower(term))
    || Contains(Lower(p.rollNumber), Lower(term))
    || Contains(Lower(p.feeComponent), Lower(term))
  }

  /**
   * The listed payments for a search term: those that match, in their order, each
   * as often as in the list.
   */
  function FilteredPayments(payments: seq<PaymentEntry>, searchTerm: string): (r: seq<PaymentEntry>)
    ensures IsSubsequence(r, payments)
    ensures forall p :: p in r <==> p in payments && PaymentMatches(p, searchTerm)
    ensures forall p :: multiset(r)[p] == if PaymentMatches(p, searchTerm) then multiset(payments)[p] else 0
  {
    Filter(payments, p => PaymentMatches(p, searchTerm))
  }

  /** An empty search lists every payment. */
  lemma EmptySearchListsAllPayments(payments: seq<PaymentEntry>)
    ensures FilteredPayments(payments, "") == payments
  {
    assert Lower("") == "";
    forall i | 0 <= i < |payments| ensures PaymentMatches(payments[i], "") {
      ContainsTrivial(Lower(payments[i].studentName));
    }
    FilterKeepsAll(payments, p => PaymentMatches(p, ""));
  }

  /** A payment's own roll number always finds it, whatever its case. */
  lemma RollNumberFindsPayment(payments: seq<PaymentEntry>, i: nat)
    requires i < |payments|
    ensures payments[i] in FilteredPayments(payments, payments[i].rollNumber)
  {
    ContainsTrivial(Lower(payments[i].rollNumber));
  }

  /** The screen's state. */
  class PaymentTracking {
    var payments: seq<PaymentEntry>
    var form: PaymentForm
    var addDialogOpen: bool
    var searchTerm: string

    /** The ids are 1..n in list order. */
    predicate IdsNumbered()
      reads this
    {
      NumberedFromOne(PaymentIds(payments))
    }

    constructor ()
      ensures payments == SeedPayments && form == EmptyPaymentForm
      ensures !addDialogOpen && searchTerm == ""
      ensures IdsNumbered()
    {
      payments := SeedPayments;
      form := EmptyPaymentForm;
      addDialogOpen := false;
      searchTerm := "";
    }

    /** Typing into one form field changes that field and nothing else. */
    method HandleInputChange(field: PaymentField, value: string)
      modifies this
      ensures form == WithField(old(form), field, value)
      ensures payments == old(payments) && addDialogOpen == old(addDialogOpen) && searchTerm == old(searchTerm)
    {
      form := WithField(form, field, value);
    }

    /**
     * Records the form as a new payment at the end of the list, with the next id, the
     * parsed amount and status Completed; then blanks the form and closes the dialog.
     */
    method HandleAddPayment()
      modifies this
      ensures payments == AddPayment(old(payments), old(form))
      ensures |payments| == |old(payments)| + 1 && payments[..|old(payments)|] == old(payments)
      ensures var p := payments[|old(payments)|];
        && p.id == |old(payments)| + 1
        && p.amount == ParseInt(old(form).amount)
        && p.status == Completed
        && p.studentName == old(form).studentName && p.rollNumber == old(form).rollNumber
        && p.className == old(form).className && p.feeComponent == old(form).feeComponent
        && p.paymentMode == old(form).paymentMode && p.transactionId == old(form).transactionId
        && p.paymentDate == old(form).paymentDate
      ensures form == EmptyPaymentForm && !addDialogOpen && searchTerm == old(searchTerm)
      ensures old(IdsNumbered()) ==> IdsNumbered()
    {
      if IdsNumbered() {
        AddPaymentKeepsIdsNumbered(payments, form);
      }
      payments := AddPayment(payments, form);
      form := EmptyPaymentForm;
      addDialogOpen := false;
    }

    /** Typing into the search box. */
    method SetSearchTerm(term: string)
      modifies this
      ensures searchTerm == term
      ensures payments == old(payments) && form == old(form) && addDialogOpen == old(addDialogOpen)
    {
      searchTerm := term;
    }

    /** The payments the table shows. */
    function Shown(): seq<PaymentEntry>
      reads this
    {
      FilteredPayments(payments, searchTerm)
    }
  }
}
