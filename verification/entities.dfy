/** The values the return-operation handler reads, builds and emits, and the
    collaborators whose answers it depends on. */
module Entities {
  import opened Php

  const TYPE_NEW: int := 1
  const TYPE_CHANGE: int := 2

  /** The `differences` entry of the request: status codes before and after. */
  datatype StatusChange = StatusChange(from: Option<int>, to: Option<int>)

  /** The request data. Id-like keys carry ints, text keys carry strings, and
      any key may be missing. */
  datatype Payload = Payload(
    resellerId: Option<int>,
    notificationType: Option<int>,
    clientId: Option<int>,
    creatorId: Option<int>,
    expertId: Option<int>,
    complaintId: Option<int>,
    complaintNumber: Option<string>,
    consumptionId: Option<int>,
    consumptionNumber: Option<string>,
    agreementNumber: Option<string>,
    date: Option<string>,
    differences: Option<StatusChange>)

  /** `empty($data['differences'])`: missing, or an array with no entries. */
  predicate EmptyDifferences(d: Option<StatusChange>)
  {
    d.None? || (d.value.from.None? && d.value.to.None?)
  }

  /** Whether a contractor's type is the customer type, or some other code. */
  datatype ContractorType = Customer | OtherType(code: int)

  /** A contractor as the lookup returns it; `sellerId` is `$client->Seller->id`
      and `fullName` is what `getFullName()` answers. */
  datatype Contractor = Contractor(
    id: int,
    contractorType: ContractorType,
    sellerId: int,
    fullName: string,
    name: string,
    email: string,
    mobile: string)

  /** One entry of the ordered template-data array. */
  datatype Field = Field(key: string, value: Value)

  /** The second argument of the translation helper `__()`: null or an array. */
  datatype TranslateArgs = NoArgs | Args(fields: seq<Field>)

  datatype NotificationEvent = ChangeReturnStatus

  /** The arguments of one call to the SMS notification manager. */
  datatype SmsRequest = SmsRequest(
    resellerId: int,
    clientId: int,
    event: NotificationEvent,
    statusTo: int,
    templateData: seq<Field>)

  /** The answers of everything the handler calls but does not define:
      entity lookups, `__()`, `getResellerEmailFrom`, `getEmailsByPermit` and
      the SMS transport, which answers `(res, error)`. */
  datatype Env = Env(
    contractorById: int -> Contractor,
    employeeFullName: int -> string,
    statusName: int -> string,
    translate: (string, TranslateArgs, int) -> string,
    resellerEmailFrom: int -> string,
    emailsByPermit: (int, string) -> seq<string>,
    sendSms: SmsRequest -> (bool, string))

  datatype Email = Email(emailFrom: string, emailTo: string, subject: string, message: string)

  /** One call made to a transport, in the order the handler makes them. */
  datatype Sent =
    | EmployeeEmail(email: Email, resellerId: int, event: NotificationEvent)
    | ClientEmail(email: Email, resellerId: int, clientId: int, event: NotificationEvent, statusTo: int)
    | ClientSms(request: SmsRequest)

  datatype SmsReport = SmsReport(isSent: bool, message: string)

  /** The array `doOperation` returns. */
  datatype Report = Report(
    notificationEmployeeByEmail: bool,
    notificationClientByEmail: bool,
    notificationClientBySms: SmsReport)

  /** A thrown `Exception($message, $code)`. */
  datatype Exception = Exception(message: string, code: int)

  datatype Outcome<+T> = Ok(value: T) | Thrown(exception: Exception)
}
