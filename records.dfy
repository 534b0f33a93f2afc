/**
 * The database rows of the fee-management service (organizations, memberships,
 * students, fee components and payments), and how a payment method is spelled in a row.
 */
module Records {
  import opened Wrappers

  datatype Organization = Organization(
    id: int,
    name: string,
    address: Option<string>,
    phone: Option<string>,
    email: Option<string>,
    createdAt: string)

  datatype Role = Admin | Staff

  /** The link between a signed-in user and the organization they belong to. */
  datatype UserOrganization = UserOrganization(
    id: int,
    userId: string,
    organizationId: int,
    role: Role,
    createdAt: string)

  datatype Student = Student(
    id: int,
    name: string,
    email: string,
    phone: string,
    className: string,
    rollNumber: string,
    parentName: string,
    parentPhone: string,
    address: string,
    dateOfBirth: string,
    organizationId: int,
    createdAt: string)

  datatype FeeComponent = FeeComponent(
    id: int,
    name: string,
    className: string,
    amount: int,
    description: string,
    organizationId: int,
    createdAt: string)

  /** The four ways a payment can be made. */
  datatype PaymentMethod = Cash | Cheque | Upi | BankTransfer

  datatype Payment = Payment(
    id: int,
    studentId: int,
    feeComponentId: Option<int>,
    amount: int,
    paymentMethod: PaymentMethod,
    paymentDate: string,
    academicYear: string,
    receiptNumber: string,
    transactionRef: Option<string>,
    organizationId: int,
    createdAt: string)

  /** The string stored in a row's `payment_method` column. */
  function MethodName(m: PaymentMethod): string {
    match m
    case Cash => "cash"
    case Cheque => "cheque"
    case Upi => "upi"
    case BankTransfer => "bank_transfer"
  }
}
