# Return-operation notifications, modelled in Dafny

This project models `ReturnOperation`, the handler that runs when a "return"
complaint changes status or gains a new position. It does four things in order:

- It checks that the request names a reseller and a notification type.
- It looks up the client and accepts only a customer of that reseller.
- It builds the thirteen-entry template data and rejects the run if any entry is empty.
- It notifies staff by email and, when the status changed, the client by email and SMS.

It returns an array recording what each channel did.

The model has five modules, one file each:

- `php.dfy` (`Php`): the PHP value rules the handler relies on. These are `empty()`, the `(int)` cast of a possibly missing key, and `?:`.
- `entities.dfy` (`Entities`): the request payload, the contractor, the template entries, the calls made to the transports and the returned report. It also holds `Env`, which carries the answers of every collaborator the handler calls but does not define.
- `template.dfy` (`Template`): `validateData`, `getClient`, `getDifferences`, `prepareTemplateData` and `validateTemplateData`. The first four are pure, so they are functions. `validateTemplateData` is a loop with an early exit, so it is a method.
- `dispatch.dfy` (`Dispatch`): `sendNotifications`, `notifyEmployees` and `notifyClient`.
  - The `$result` array that these update through a reference is the class `NotificationResult`.
  - Every call to the email transport or the SMS manager is appended to the `log` of an `Outbox` object.
  - Value-level functions (`StaffEmails`, `ClientEmailSends`, `SmsSends`, `DispatchReport`) say what each branch sends and reports. The methods are proved against them.
- `operation.dfy` (`ReturnOperation`): `doOperation`. `Execute` gives one run as a value: the report or the thrown exception, plus the sequence of transport calls. `DoOperation` is the handler's own sequence of steps and is proved equal to `Execute`. The end-to-end properties are lemmas about `Execute`.

Collaborators are modelled as pure functions. So a run is deterministic: two
runs with the same request and the same collaborator answers give the same
result and the same calls.

## Model

| member | source | states |
|---|---|---|
| `Php.IntCast` | php/v2/ReturnOperation.php:20 | Casting a missing key gives 0. The cast is 0 exactly when `empty()` holds of the key. A present int is kept. |
| `Template.ValidateData` | php/v2/ReturnOperation.php:40-49 | An empty `resellerId` throws 400 "Empty resellerId". Otherwise an empty `notificationType` throws 400 "Empty notificationType". The request passes iff both are non-empty. |
| `Template.GetClient` | php/v2/ReturnOperation.php:54-61 | The client looked up by `(int)clientId` is accepted iff its type is customer and its seller id equals `(int)resellerId`. Otherwise the function throws 400 "Client not found!". |
| `Template.DifferencesRules` | php/v2/ReturnOperation.php:99-110 | Type NEW gives `NewPositionAdded` rendered with null args for the reseller. CHANGE with non-empty `differences` gives `PositionStatusHasChanged` with FROM/TO set to the status names. Anything else gives "". |
| `Template.PrepareTemplateData` | php/v2/ReturnOperation.php:70-84 | The template data has exactly thirteen entries, keyed in the source's order. |
| `Template.TemplateDataValues` | php/v2/ReturnOperation.php:63-84 | CLIENT_NAME is the full name if that is non-empty, else the short name. CREATOR_NAME and EXPERT_NAME are the employees' full names. The id entries are the request ids cast to int. COMPLAINT_NUMBER, CONSUMPTION_NUMBER, AGREEMENT_NUMBER and DATE are the request texts cast to string, "" when missing. DIFFERENCES is the differences text. |
| `Template.FirstEmptyField` | php/v2/ReturnOperation.php:92-93 | Gives the index of an empty entry with every earlier entry non-empty. It gives nothing iff every entry is non-empty. |
| `Template.ValidateTemplateData` | php/v2/ReturnOperation.php:90-97 | Passes iff every entry is non-empty. Otherwise it throws code 500 "Template Data (KEY) is empty!" for the first empty entry in order. |
| `Dispatch.NotificationResult.constructor` | php/v2/ReturnOperation.php:114-121 | The result starts with both email flags false and the SMS entry `{isSent: false, message: ''}`. |
| `Dispatch.Outbox.SendMessage` | php/v2/ReturnOperation.php:137-144 | One email transport call appends exactly that call to the log. |
| `Dispatch.Outbox.SendSms` | php/v2/ReturnOperation.php:166-167 | One SMS manager call is logged and yields the transport's `(res, error)` answer. |
| `Dispatch.StaffEmailsShape` | php/v2/ReturnOperation.php:133-146 | There is one staff message per permitted address, in list order, when the sender is non-empty and the list is non-empty, and none otherwise. All messages share sender, subject, body and reseller. |
| `Dispatch.NotifyEmployees` | php/v2/ReturnOperation.php:131-148 | The log grows by exactly the staff messages. The staff flag becomes true iff the branch ran (or was already true). No other result entry changes. |
| `Dispatch.NotifyClient` | php/v2/ReturnOperation.php:150-175 | The log grows by at most one client email, sent iff sender and client email are non-empty, then at most one SMS, sent iff the mobile is non-empty. `isSent` takes the transport's verdict. `message` takes its error unless that is empty. The staff flag is untouched. |
| `Dispatch.SendNotifications` | php/v2/ReturnOperation.php:112-129 | Starting from a fresh result, the report and the calls made equal `DispatchReport` and `DispatchSends`. Staff are always notified; the client only when the type is CHANGE. |
| `Dispatch.DispatchChannels` | php/v2/ReturnOperation.php:123-126 | Read channel by channel, one event's calls are the staff messages, for every type. The client-email and SMS channels each hold at most one call, and only for type CHANGE. |
| `ReturnOperation.Execute` | php/v2/ReturnOperation.php:15-30 | A run that throws has made no transport call. |
| `ReturnOperation.DoOperation` | php/v2/ReturnOperation.php:15-30 | The handler's outcome and calls are exactly those of `Execute`. Any thrown exception comes with no call made. |
| `ReturnOperation.EmptyResellerIdRejected` | php/v2/ReturnOperation.php:42-44 | An empty `resellerId` ends the run with 400 "Empty resellerId" and no calls. |
| `ReturnOperation.EmptyNotificationTypeRejected` | php/v2/ReturnOperation.php:46-48 | A present `resellerId` with an empty `notificationType` ends the run with 400 "Empty notificationType" and no calls. |
| `ReturnOperation.InputChecksPrecedeLookups` | php/v2/ReturnOperation.php:17-22 | A request failing the input checks gets the same 400 outcome whatever the collaborators answer. No lookup or send influences it. |
| `ReturnOperation.ForeignClientRejected` | php/v2/ReturnOperation.php:56-59 | A non-customer client, or a client of another reseller, ends the run with 400 "Client not found!" and no calls. |
| `ReturnOperation.EmptyTemplateEntryRejected` | php/v2/ReturnOperation.php:24-25 | After the input and client checks pass, the run succeeds iff all thirteen entries are non-empty. Otherwise it throws 500 naming the first empty key and sends nothing. |
| `ReturnOperation.MissingDateRejected` | php/v2/ReturnOperation.php:82 | A request without `date` whose earlier entries are all non-empty ends the run with 500 "Template Data (DATE) is empty!" and no calls. |
| `ReturnOperation.NotifyingRunHasKnownType` | php/v2/ReturnOperation.php:99-110 | Every run that reaches the notifications has type NEW, or type CHANGE with non-empty `differences`. |
| `ReturnOperation.NotifyingRun` | php/v2/ReturnOperation.php:24-29 | A successful run reports and sends what the dispatch step decides for the looked-up client and its template data. |
| `ReturnOperation.StaffAlwaysNotified` | php/v2/ReturnOperation.php:131-148 | For every type, the staff flag is true iff the sender and the permitted list are non-empty. The staff calls are one per permitted address, in list order, each with the same sender, subject and body. |
| `ReturnOperation.NewPositionSkipsClient` | php/v2/ReturnOperation.php:114-128 | When the type is not CHANGE, the client email flag stays false, the SMS entry stays `{false, ''}`, and no client email or SMS is sent. |
| `ReturnOperation.StatusChangeEmailsClient` | php/v2/ReturnOperation.php:152-163 | For CHANGE, exactly one email goes to the client, from the reseller's sender, tagged with the client id and `(int)differences.to`, iff sender and client email are non-empty. The flag records this. |
| `ReturnOperation.StatusChangeTextsClient` | php/v2/ReturnOperation.php:165-174 | For CHANGE, an SMS is attempted iff the mobile is non-empty. `isSent` equals the transport's boolean. `message` is the transport's error if non-empty, else ''. |
| `ReturnOperation.SmsAnswerIsolated` | php/v2/ReturnOperation.php:150-175 | The SMS transport's answer changes neither email flag nor any email sent. |

## Left out

- `getRequestData` (php/v2/ReturnOperation.php:32-35) is request plumbing. The model takes the request data as a `Payload` value.
- The `Seller::getById` call at php/v2/ReturnOperation.php:21 is dropped: its result is never used.
- Entity lookups are total functions in `Env`. These are `Contractor::getById`, `Employee::getById(...)->getFullName()` and `Status::getName`. A lookup that throws, or a client whose `Seller` is null, is not modelled. The `Contractor`, `Employee`, `Seller` and `Status` classes are not part of this model.
- `Contractor::TYPE_CUSTOMER` is defined in `Contractor`, which is not part of this model. The client's type is `Customer` or `OtherType(code)`, and only the equality test matters.
- `__()`, `getResellerEmailFrom` and `getEmailsByPermit` are uninterpreted pure functions in `Env`. Because they are pure, the two `getResellerEmailFrom` calls (lines 133 and 152) always agree.
- Actual delivery by `MessagesClient::sendMessage` and `NotificationManager::send` is left out. Only the calls are recorded, and the SMS manager's `(res, error)` answer is an input.
- An exception thrown by a transport call is not modelled. In the source it would abort the run midway, including mid-loop over staff addresses, since nothing catches it. The model assumes every call returns.
- `NotificationManager::send`'s result is taken as a boolean. PHP truthiness of other values is not modelled.
- Payload keys have fixed types. Id-like keys hold ints and text keys hold strings, and any key may be missing. String-to-int coercion by `(int)`, int-to-string coercion by `(string)`, and a `differences` value that is not a `from`/`to` array are not modelled.

Where the code's behaviour is easy to misread, the model follows the code:

- `getEmailsByPermit` answers a list, so a repeated address gets a repeated message, in list order.
- `empty($data['differences'])` holds only for a missing key or an empty array. So an array with only `from` or only `to` counts as present, and a missing `to` casts to 0.
- Only the SMS manager's error is captured. An email transport error would propagate, and that is not modelled.
