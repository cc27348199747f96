/** `doOperation`: validate the request, resolve the client, build and check
    the template data, then notify. Execute says what one run yields as a
    value; DoOperation is the handler's own sequence of steps, proved to agree
    with it. */
module ReturnOperation {
  import opened Php
  import opened Entities
  import opened Template
  import opened Dispatch

  /** What one run yields: the returned array or the thrown exception, and the
      calls made to the transports, in order. */
  datatype Run = Run(outcome: Outcome<Report>, sent: seq<Sent>)

  /** One run, as a value. */
  function Execute(env: Env, p: Payload): (run: Run)
    ensures run.outcome.Thrown? ==> run.sent == []
  {
    match ValidateData(p)
    case Some(e) => Run(Thrown(e), [])
    case None =>
      match GetClient(env, p)
      case Thrown(e) => Run(Thrown(e), [])
      case Ok(client) =>
        var resellerId := IntCast(p.resellerId);
        var td := PrepareTemplateData(env, p, client);
        match TemplateDataCheck(td)
        case Some(e) => Run(Thrown(e), [])
        case None =>
          var notificationType := IntCast(p.notificationType);
          Run(Ok(DispatchReport(env, resellerId, client, td, notificationType, StatusTo(p))),
              DispatchSends(env, resellerId, client, td, notificationType, StatusTo(p)))
  }

  /** The handler: each step either throws, ending the run with nothing sent,
      or hands on to the next. */
  method DoOperation(env: Env, p: Payload) returns (outcome: Outcome<Report>, sent: seq<Sent>)
    ensures Run(outcome, sent) == Execute(env, p)
    ensures outcome.Thrown? ==> sent == []
  {
    var invalid := ValidateData(p);
    if invalid.Some? {
      return Thrown(invalid.value), [];
    }
    var resellerId := IntCast(p.resellerId);
    var client := GetClient(env, p);
    if client.Thrown? {
      return Thrown(client.exception), [];
    }
    var td := PrepareTemplateData(env, p, client.value);
    var broken := ValidateTemplateData(td);
    if broken.Some? {
      return Thrown(broken.value), [];
    }
    var outbox := new Outbox();
    var report := SendNotifications(env, resellerId, client.value, td, IntCast(p.notificationType), p, outbox);
    return Ok(report), outbox.log;
  }

  // ---------------------------------------------------------------------------
  // Input validation.
  // ---------------------------------------------------------------------------

  lemma EmptyResellerIdRejected(env: Env, p: Payload)
    requires EmptyKey(p.resellerId)
    ensures Execute(env, p) == Run(Thrown(Exception("Empty resellerId", 400)), [])
  {
  }

  lemma EmptyNotificationTypeRejected(env: Env, p: Payload)
    requires !EmptyKey(p.resellerId) && EmptyKey(p.notificationType)
    ensures Execute(env, p) == Run(Thrown(Exception("Empty notificationType", 400)), [])
  {
  }

  /** A request the input checks reject is rejected the same way whatever the
      lookups, templates and transports would answer: nothing is looked up. */
  lemma InputChecksPrecedeLookups(env1: Env, env2: Env, p: Payload)
    requires EmptyKey(p.resellerId) || EmptyKey(p.notificationType)
    ensures Execute(env1, p) == Execute(env2, p)
    ensures Execute(env1, p).outcome.Thrown? && Execute(env1, p).outcome.exception.code == 400
  {
  }

  /** A client that is not a customer of the requesting reseller is refused
      before anything is sent. */
  lemma ForeignClientRejected(env: Env, p: Payload)
    requires !EmptyKey(p.resellerId) && !EmptyKey(p.notificationType)
    requires var client := env.contractorById(IntCast(p.clientId));
             client.contractorType != Customer || client.sellerId != IntCast(p.resellerId)
    ensures Execute(env, p) == Run(Thrown(Exception("Client not found!", 400)), [])
  {
  }

  // ---------------------------------------------------------------------------
  // Template data.
  // ---------------------------------------------------------------------------

  /** Once the request and the client pass, the run throws exactly when some
      entry of the template data is empty, naming the first such key with
      code 500, and then sends nothing. */
  lemma EmptyTemplateEntryRejected(env: Env, p: Payload)
    requires !EmptyKey(p.resellerId) && !EmptyKey(p.notificationType)
    requires GetClient(env, p).Ok?
    ensures var td := PrepareTemplateData(env, p, GetClient(env, p).value);
      && (Execute(env, p).outcome.Ok? <==> forall j :: 0 <= j < |td| ==> !Empty(td[j].value))
      && (Execute(env, p).outcome.Thrown? ==>
            Execute(env, p).sent == [] &&
            exists k :: 0 <= k < |td| && Empty(td[k].value) &&
              (forall j :: 0 <= j < k ==> !Empty(td[j].value)) &&
              Execute(env, p).outcome.exception == Exception("Template Data (" + TemplateKeys[k] + ") is empty!", 500))
  {
  }

  /** A request without `date` whose earlier entries are all filled in is
      rejected for DATE: the missing key casts to "", which is empty. */
  lemma MissingDateRejected(env: Env, p: Payload)
    requires !EmptyKey(p.resellerId) && !EmptyKey(p.notificationType)
    requires GetClient(env, p).Ok?
    requires p.date.None?
    requires var td := PrepareTemplateData(env, p, GetClient(env, p).value);
             forall j :: 0 <= j < 11 ==> !Empty(td[j].value)
    ensures Execute(env, p) == Run(Thrown(Exception("Template Data (DATE) is empty!", 500)), [])
  {
    var client := GetClient(env, p).value;
    var td := PrepareTemplateData(env, p, client);
    TemplateDataValues(env, p, client);
    assert Empty(td[11].value);
    assert FirstEmptyField(td) == Some(11);
    assert td[11].key == "DATE";
    assert "Template Data (" + "DATE" + ") is empty!" == "Template Data (DATE) is empty!";
    assert TemplateDataCheck(td) == Some(TemplateDataError("DATE"));
  }

  /** A run that gets as far as notifying is either about a new position or
      about a status change that carries its differences: any other request
      leaves DIFFERENCES empty and fails the template check. */
  lemma NotifyingRunHasKnownType(env: Env, p: Payload)
    requires Execute(env, p).outcome.Ok?
    ensures IntCast(p.notificationType) == TYPE_NEW ||
            (IntCast(p.notificationType) == TYPE_CHANGE && !EmptyDifferences(p.differences))
  {
    var client := GetClient(env, p).value;
    var td := PrepareTemplateData(env, p, client);
    assert FirstEmptyField(td).None?;
    assert !Empty(td[12].value);
    TemplateDataValues(env, p, client);
    DifferencesRules(env, p);
  }

  // ---------------------------------------------------------------------------
  // Channels.
  // ---------------------------------------------------------------------------

  /** A run that reaches the notifications reports and sends what the
      dispatch step decides for the looked-up client. */
  lemma NotifyingRun(env: Env, p: Payload)
    requires Execute(env, p).outcome.Ok?
    ensures var client := env.contractorById(IntCast(p.clientId));
            var td := PrepareTemplateData(env, p, client);
      && Execute(env, p).outcome.value ==
           DispatchReport(env, IntCast(p.resellerId), client, td, IntCast(p.notificationType), StatusTo(p))
      && Execute(env, p).sent ==
           DispatchSends(env, IntCast(p.resellerId), client, td, IntCast(p.notificationType), StatusTo(p))
  {
  }

  /** Whatever the event subtype, staff hear of it: one message per permitted
      address, in list order, all with the same sender, subject and body; and
      the staff flag is set exactly when the reseller has a sender address and
      the list is non-empty. */
  lemma StaffAlwaysNotified(env: Env, p: Payload)
    requires Execute(env, p).outcome.Ok?
    ensures var resellerId := IntCast(p.resellerId);
            var client := env.contractorById(IntCast(p.clientId));
            var td := PrepareTemplateData(env, p, client);
            var emails := env.emailsByPermit(resellerId, GoodsReturnPermit);
            var runs := !EmptyString(env.resellerEmailFrom(resellerId)) && |emails| > 0;
            var staff := OnChannel(Execute(env, p).sent, StaffEmailChannel);
      && Execute(env, p).outcome.value.notificationEmployeeByEmail == runs
      && |staff| == (if runs then |emails| else 0)
      && forall i :: 0 <= i < |staff| ==>
           staff[i] == EmployeeEmail(
             Email(env.resellerEmailFrom(resellerId), emails[i],
                   env.translate("complaintEmployeeEmailSubject", Args(td), resellerId),
                   env.translate("complaintEmployeeEmailBody", Args(td), resellerId)),
             resellerId, ChangeReturnStatus)
  {
    var client := env.contractorById(IntCast(p.clientId));
    var td := PrepareTemplateData(env, p, client);
    NotifyingRun(env, p);
    DispatchChannels(env, IntCast(p.resellerId), client, td, IntCast(p.notificationType), StatusTo(p));
    StaffEmailsShape(env, IntCast(p.resellerId), td);
  }

  /** A new-position event touches no client channel: the client flags keep
      their initial values and nothing is sent to the client. */
  lemma NewPositionSkipsClient(env: Env, p: Payload)
    requires Execute(env, p).outcome.Ok?
    requires IntCast(p.notificationType) != TYPE_CHANGE
    ensures Execute(env, p).outcome.value.notificationClientByEmail == false
    ensures Execute(env, p).outcome.value.notificationClientBySms == SmsReport(false, "")
    ensures OnChannel(Execute(env, p).sent, ClientEmailChannel) == []
    ensures OnChannel(Execute(env, p).sent, ClientSmsChannel) == []
  {
    var client := env.contractorById(IntCast(p.clientId));
    var td := PrepareTemplateData(env, p, client);
    NotifyingRun(env, p);
    DispatchChannels(env, IntCast(p.resellerId), client, td, IntCast(p.notificationType), StatusTo(p));
  }

  /** On a status change the client gets exactly one email, addressed to them
      and tagged with the new status, when the reseller's sender address and
      the client's address are both non-empty, and none otherwise; the flag
      says which. */
  lemma StatusChangeEmailsClient(env: Env, p: Payload)
    requires Execute(env, p).outcome.Ok?
    requires IntCast(p.notificationType) == TYPE_CHANGE
    ensures var resellerId := IntCast(p.resellerId);
            var client := env.contractorById(IntCast(p.clientId));
            var runs := !EmptyString(env.resellerEmailFrom(resellerId)) && !EmptyString(client.email);
            var mails := OnChannel(Execute(env, p).sent, ClientEmailChannel);
      && Execute(env, p).outcome.value.notificationClientByEmail == runs
      && |mails| == (if runs then 1 else 0)
      && forall i :: 0 <= i < |mails| ==>
           && mails[i].email.emailTo == client.email
           && mails[i].email.emailFrom == env.resellerEmailFrom(resellerId)
           && mails[i].clientId == client.id
           && mails[i].statusTo == StatusTo(p)
  {
    var client := env.contractorById(IntCast(p.clientId));
    var td := PrepareTemplateData(env, p, client);
    NotifyingRun(env, p);
    DispatchChannels(env, IntCast(p.resellerId), client, td, IntCast(p.notificationType), StatusTo(p));
  }

  /** On a status change the SMS is attempted exactly when the client has a
      mobile number; the result takes the transport's verdict, and its error
      text unless that is empty. */
  lemma StatusChangeTextsClient(env: Env, p: Payload)
    requires Execute(env, p).outcome.Ok?
    requires IntCast(p.notificationType) == TYPE_CHANGE
    ensures var resellerId := IntCast(p.resellerId);
            var client := env.contractorById(IntCast(p.clientId));
            var td := PrepareTemplateData(env, p, client);
            var request := SmsRequest(resellerId, client.id, ChangeReturnStatus, StatusTo(p), td);
            var answer := env.sendSms(request);
            var texts := OnChannel(Execute(env, p).sent, ClientSmsChannel);
            var sms := Execute(env, p).outcome.value.notificationClientBySms;
      && texts == (if EmptyString(client.mobile) then [] else [ClientSms(request)])
      && sms.isSent == (!EmptyString(client.mobile) && answer.0)
      && sms.message == (if !EmptyString(client.mobile) && !EmptyString(answer.1) then answer.1 else "")
  {
    var client := env.contractorById(IntCast(p.clientId));
    var td := PrepareTemplateData(env, p, client);
    NotifyingRun(env, p);
    DispatchChannels(env, IntCast(p.resellerId), client, td, IntCast(p.notificationType), StatusTo(p));
  }

  /** The SMS transport's answer reaches only the SMS entry: two runs that
      differ only in that answer agree on both email flags and on every email
      sent. */
  lemma SmsAnswerIsolated(env1: Env, env2: Env, p: Payload)
    requires env1.(sendSms := env2.sendSms) == env2
    requires Execute(env1, p).outcome.Ok?
    ensures Execute(env2, p).outcome.Ok?
    ensures Execute(env1, p).outcome.value.notificationEmployeeByEmail ==
            Execute(env2, p).outcome.value.notificationEmployeeByEmail
    ensures Execute(env1, p).outcome.value.notificationClientByEmail ==
            Execute(env2, p).outcome.value.notificationClientByEmail
    ensures Execute(env1, p).sent == Execute(env2, p).sent
  {
  }
}
