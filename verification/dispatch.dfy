/** Choosing the notification channels and recording what each one did:
    `sendNotifications`, `notifyEmployees` and `notifyClient`. The result
    array that those update through a reference is the object
    NotificationResult; the calls made to the transports are recorded, in
    order, by an Outbox. */
module Dispatch {
  import opened Php
  import opened Entities
  import opened Template

  /** The permission that selects the staff who hear about returned goods. */
  const GoodsReturnPermit: string := "tsGoodsReturn"

  /** The `$result` array, updated in place by each channel. */
  class NotificationResult {
    var notificationEmployeeByEmail: bool
    var notificationClientByEmail: bool
    var smsIsSent: bool
    var smsMessage: string

    /** The array as a value, as `doOperation` returns it. */
    function Snapshot(): Report
      reads this
    {
      Report(notificationEmployeeByEmail, notificationClientByEmail, SmsReport(smsIsSent, smsMessage))
    }

    /** Every channel starts as not notified, with no SMS message. */
    constructor ()
      ensures Snapshot() == Report(false, false, SmsReport(false, ""))
    {
      notificationEmployeeByEmail := false;
      notificationClientByEmail := false;
      smsIsSent := false;
      smsMessage := "";
    }
  }

  /** The record of calls made to the email and SMS transports. */
  class Outbox {
    var log: seq<Sent>

    constructor ()
      ensures log == []
    {
      log := [];
    }

    /** One call to the email transport. */
    method SendMessage(s: Sent)
      requires !s.ClientSms?
      modifies this
      ensures log == old(log) + [s]
    {
      log := log + [s];
    }

    /** One call to the SMS notification manager, which answers whether the
        message went out and an error text. */
    method SendSms(env: Env, request: SmsRequest) returns (res: bool, error: string)
      modifies this
      ensures log == old(log) + [ClientSms(request)]
      ensures (res, error) == env.sendSms(request)
    {
      log := log + [ClientSms(request)];
      res, error := env.sendSms(request).0, env.sendSms(request).1;
    }
  }

  // ---------------------------------------------------------------------------
  // What each channel sends and reports, as values.
  // ---------------------------------------------------------------------------

  /** The staff branch runs when the reseller has a sender address and at
      least one member of staff holds the permission. */
  predicate StaffBranchRuns(env: Env, resellerId: int)
  {
    !EmptyString(env.resellerEmailFrom(resellerId)) &&
    |env.emailsByPermit(resellerId, GoodsReturnPermit)| > 0
  }

  /** The message sent to one member of staff. */
  function StaffEmail(env: Env, resellerId: int, td: seq<Field>, emailTo: string): Sent
  {
    EmployeeEmail(
      Email(env.resellerEmailFrom(resellerId), emailTo,
            env.translate("complaintEmployeeEmailSubject", Args(td), resellerId),
            env.translate("complaintEmployeeEmailBody", Args(td), resellerId)),
      resellerId, ChangeReturnStatus)
  }

  /** The staff messages, one per permitted address, in list order. */
  function StaffEmails(env: Env, resellerId: int, td: seq<Field>): (sent: seq<Sent>)
  {
    var emails := env.emailsByPermit(resellerId, GoodsReturnPermit);
    if StaffBranchRuns(env, resellerId) then
      seq(|emails|, i requires 0 <= i < |emails| => StaffEmail(env, resellerId, td, emails[i]))
    else
      []
  }

  /** The staff messages agree in everything but the recipient. */
  lemma StaffEmailsShape(env: Env, resellerId: int, td: seq<Field>)
    ensures var sent := StaffEmails(env, resellerId, td);
            var emails := env.emailsByPermit(resellerId, GoodsReturnPermit);
      && |sent| == (if StaffBranchRuns(env, resellerId) then |emails| else 0)
      && forall i :: 0 <= i < |sent| ==>
           && sent[i].EmployeeEmail?
           && sent[i].email.emailTo == emails[i]
           && sent[i].email.emailFrom == env.resellerEmailFrom(resellerId)
           && sent[i].email.subject == env.translate("complaintEmployeeEmailSubject", Args(td), resellerId)
           && sent[i].email.message == env.translate("complaintEmployeeEmailBody", Args(td), resellerId)
           && sent[i].resellerId == resellerId
  {
  }

  /** The client email branch runs when both the sender and the client's
      address are non-empty. */
  predicate ClientEmailRuns(env: Env, resellerId: int, client: Contractor)
  {
    !EmptyString(env.resellerEmailFrom(resellerId)) && !EmptyString(client.email)
  }

  function ClientEmailSends(env: Env, resellerId: int, client: Contractor, td: seq<Field>, statusTo: int): seq<Sent>
  {
    if ClientEmailRuns(env, resellerId, client) then
      [ClientEmail(
         Email(env.resellerEmailFrom(resellerId), client.email,
               env.translate("complaintClientEmailSubject", Args(td), resellerId),
               env.translate("complaintClientEmailBody", Args(td), resellerId)),
         resellerId, client.id, ChangeReturnStatus, statusTo)]
    else
      []
  }

  function ClientSmsRequest(resellerId: int, client: Contractor, td: seq<Field>, statusTo: int): SmsRequest
  {
    SmsRequest(resellerId, client.id, ChangeReturnStatus, statusTo, td)
  }

  /** The SMS branch runs when the client has a mobile number. */
  function SmsSends(resellerId: int, client: Contractor, td: seq<Field>, statusTo: int): seq<Sent>
  {
    if !EmptyString(client.mobile) then [ClientSms(ClientSmsRequest(resellerId, client, td, statusTo))] else []
  }

  /** The SMS entry of the result: the transport's verdict, and its error text
      unless that is empty. */
  function SmsOutcome(env: Env, resellerId: int, client: Contractor, td: seq<Field>, statusTo: int): SmsReport
  {
    if EmptyString(client.mobile) then SmsReport(false, "")
    else
      var answer := env.sendSms(ClientSmsRequest(resellerId, client, td, statusTo));
      SmsReport(answer.0, if EmptyString(answer.1) then "" else answer.1)
  }

  /** Everything sent for one event: staff first, then, for a status change,
      the client's email and SMS. */
  function DispatchSends(env: Env, resellerId: int, client: Contractor, td: seq<Field>,
                         notificationType: int, statusTo: int): seq<Sent>
  {
    StaffEmails(env, resellerId, td) +
    if notificationType == TYPE_CHANGE then
      ClientEmailSends(env, resellerId, client, td, statusTo) + SmsSends(resellerId, client, td, statusTo)
    else
      []
  }

  /** The result for one event. Each channel's entry depends on that channel
      alone, and the client's channels stay untouched unless the status
      changed. */
  function DispatchReport(env: Env, resellerId: int, client: Contractor, td: seq<Field>,
                          notificationType: int, statusTo: int): Report
  {
    if notificationType == TYPE_CHANGE then
      Report(StaffBranchRuns(env, resellerId), ClientEmailRuns(env, resellerId, client),
             SmsOutcome(env, resellerId, client, td, statusTo))
    else
      Report(StaffBranchRuns(env, resellerId), false, SmsReport(false, ""))
  }

  // ---------------------------------------------------------------------------
  // The handler's own steps.
  // ---------------------------------------------------------------------------

  /** Emails every permitted member of staff and marks the staff channel. */
  method NotifyEmployees(env: Env, resellerId: int, td: seq<Field>,
                         result: NotificationResult, outbox: Outbox)
    modifies result, outbox
    ensures outbox.log == old(outbox.log) + StaffEmails(env, resellerId, td)
    ensures result.notificationEmployeeByEmail ==
              (old(result.notificationEmployeeByEmail) || StaffBranchRuns(env, resellerId))
    ensures result.notificationClientByEmail == old(result.notificationClientByEmail)
    ensures result.smsIsSent == old(result.smsIsSent)
    ensures result.smsMessage == old(result.smsMessage)
  {
    var emailFrom := env.resellerEmailFrom(resellerId);
    var emails := env.emailsByPermit(resellerId, GoodsReturnPermit);
    if !EmptyString(emailFrom) && |emails| > 0 {
      ghost var expected := StaffEmails(env, resellerId, td);
      for i := 0 to |emails|
        invariant outbox.log == old(outbox.log) + expected[..i]
        invariant result.notificationEmployeeByEmail == (old(result.notificationEmployeeByEmail) || i > 0)
        invariant result.notificationClientByEmail == old(result.notificationClientByEmail)
        invariant result.smsIsSent == old(result.smsIsSent)
        invariant result.smsMessage == old(result.smsMessage)
      {
        var message := EmployeeEmail(
          Email(emailFrom, emails[i],
                env.translate("complaintEmployeeEmailSubject", Args(td), resellerId),
                env.translate("complaintEmployeeEmailBody", Args(td), resellerId)),
          resellerId, ChangeReturnStatus);
        outbox.SendMessage(message);
        result.notificationEmployeeByEmail := true;
        assert expected[..i + 1] == expected[..i] + [message];
      }
      assert expected[..|emails|] == expected;
    }
  }

  /** Emails and texts the client, and records each channel's outcome. */
  method NotifyClient(env: Env, resellerId: int, client: Contractor, td: seq<Field>, p: Payload,
                      result: NotificationResult, outbox: Outbox)
    modifies result, outbox
    ensures outbox.log == old(outbox.log) + ClientEmailSends(env, resellerId, client, td, StatusTo(p))
                                          + SmsSends(resellerId, client, td, StatusTo(p))
    ensures result.notificationEmployeeByEmail == old(result.notificationEmployeeByEmail)
    ensures result.notificationClientByEmail ==
              (old(result.notificationClientByEmail) || ClientEmailRuns(env, resellerId, client))
    ensures var answer := env.sendSms(ClientSmsRequest(resellerId, client, td, StatusTo(p)));
      && result.smsIsSent == (old(result.smsIsSent) || (!EmptyString(client.mobile) && answer.0))
      && result.smsMessage ==
           (if !EmptyString(client.mobile) && !EmptyString(answer.1) then answer.1 else old(result.smsMessage))
  {
    var emailFrom := env.resellerEmailFrom(resellerId);
    if !EmptyString(emailFrom) && !EmptyString(client.email) {
      outbox.SendMessage(ClientEmail(
        Email(emailFrom, client.email,
              env.translate("complaintClientEmailSubject", Args(td), resellerId),
              env.translate("complaintClientEmailBody", Args(td), resellerId)),
        resellerId, client.id, ChangeReturnStatus, StatusTo(p)));
      result.notificationClientByEmail := true;
    }

    if !EmptyString(client.mobile) {
      var res, error := outbox.SendSms(env, SmsRequest(resellerId, client.id, ChangeReturnStatus, StatusTo(p), td));
      if res {
        result.smsIsSent := true;
      }
      if !EmptyString(error) {
        result.smsMessage := error;
      }
    }
  }

  /** Notifies staff, and for a status change the client, starting from a
      fresh result. */
  method SendNotifications(env: Env, resellerId: int, client: Contractor, td: seq<Field>,
                           notificationType: int, p: Payload, outbox: Outbox)
    returns (report: Report)
    modifies outbox
    ensures report == DispatchReport(env, resellerId, client, td, notificationType, StatusTo(p))
    ensures outbox.log == old(outbox.log) + DispatchSends(env, resellerId, client, td, notificationType, StatusTo(p))
  {
    var result := new NotificationResult();
    NotifyEmployees(env, resellerId, td, result, outbox);
    if notificationType == TYPE_CHANGE {
      NotifyClient(env, resellerId, client, td, p, result, outbox);
    }
    report := result.Snapshot();
  }

  // ---------------------------------------------------------------------------
  // Reading the log one channel at a time.
  // ---------------------------------------------------------------------------

  datatype Channel = StaffEmailChannel | ClientEmailChannel | ClientSmsChannel

  function ChannelOf(s: Sent): Channel
  {
    match s
    case EmployeeEmail(_, _, _) => StaffEmailChannel
    case ClientEmail(_, _, _, _, _) => ClientEmailChannel
    case ClientSms(_) => ClientSmsChannel
  }

  /** The calls of the log made on one channel, in order. */
  function OnChannel(log: seq<Sent>, c: Channel): (r: seq<Sent>)
    ensures |r| <= |log|
    ensures forall i :: 0 <= i < |r| ==> ChannelOf(r[i]) == c
  {
    if log == [] then []
    else (if ChannelOf(log[0]) == c then [log[0]] else []) + OnChannel(log[1..], c)
  }

  lemma {:induction false} OnChannelAppend(a: seq<Sent>, b: seq<Sent>, c: Channel)
    ensures OnChannel(a + b, c) == OnChannel(a, c) + OnChannel(b, c)
  {
    if a == [] {
      assert a + b == b;
    } else {
      assert (a + b)[1..] == a[1..] + b;
      OnChannelAppend(a[1..], b, c);
    }
  }

  /** A log whose calls are all on one channel is its own projection on it,
      and has nothing on any other. */
  lemma {:induction false} OnChannelUniform(log: seq<Sent>, c: Channel, d: Channel)
    requires forall i :: 0 <= i < |log| ==> ChannelOf(log[i]) == c
    ensures OnChannel(log, d) == if c == d then log else []
  {
    if log != [] {
      OnChannelUniform(log[1..], c, d);
    }
  }

  /** Each branch sends on its own channel only. */
  lemma BranchChannels(env: Env, resellerId: int, client: Contractor, td: seq<Field>, statusTo: int)
    ensures var staff := StaffEmails(env, resellerId, td);
      forall i :: 0 <= i < |staff| ==> ChannelOf(staff[i]) == StaffEmailChannel
    ensures var mail := ClientEmailSends(env, resellerId, client, td, statusTo);
      forall i :: 0 <= i < |mail| ==> ChannelOf(mail[i]) == ClientEmailChannel
    ensures var sms := SmsSends(resellerId, client, td, statusTo);
      forall i :: 0 <= i < |sms| ==> ChannelOf(sms[i]) == ClientSmsChannel
  {
  }

  /** Projecting three single-channel logs laid end to end. */
  lemma {:induction false} OnChannelOfThree(a: seq<Sent>, b: seq<Sent>, d: seq<Sent>,
                                            ca: Channel, cb: Channel, cd: Channel, c: Channel)
    requires forall i :: 0 <= i < |a| ==> ChannelOf(a[i]) == ca
    requires forall i :: 0 <= i < |b| ==> ChannelOf(b[i]) == cb
    requires forall i :: 0 <= i < |d| ==> ChannelOf(d[i]) == cd
    ensures OnChannel(a + (b + d), c) ==
              (if ca == c then a else []) + ((if cb == c then b else []) + (if cd == c then d else []))
  {
    OnChannelAppend(a, b + d, c);
    OnChannelAppend(b, d, c);
    OnChannelUniform(a, ca, c);
    OnChannelUniform(b, cb, c);
    OnChannelUniform(d, cd, c);
    assert OnChannel(a + (b + d), c) == OnChannel(a, c) + (OnChannel(b, c) + OnChannel(d, c));
  }

  /** Read channel by channel, the calls for one event are the staff messages,
      and only on a status change the client's email and SMS. */
  lemma DispatchChannels(env: Env, resellerId: int, client: Contractor, td: seq<Field>,
                         notificationType: int, statusTo: int)
    ensures var sent := DispatchSends(env, resellerId, client, td, notificationType, statusTo);
      && OnChannel(sent, StaffEmailChannel) == StaffEmails(env, resellerId, td)
      && OnChannel(sent, ClientEmailChannel) ==
           (if notificationType == TYPE_CHANGE then ClientEmailSends(env, resellerId, client, td, statusTo) else [])
      && OnChannel(sent, ClientSmsChannel) ==
           (if notificationType == TYPE_CHANGE then SmsSends(resellerId, client, td, statusTo) else [])
  {
    var staff := StaffEmails(env, resellerId, td);
    var mail := ClientEmailSends(env, resellerId, client, td, statusTo);
    var sms := SmsSends(resellerId, client, td, statusTo);
    BranchChannels(env, resellerId, client, td, statusTo);
    if notificationType == TYPE_CHANGE {
      OnChannelOfThree(staff, mail, sms, StaffEmailChannel, ClientEmailChannel, ClientSmsChannel, StaffEmailChannel);
      OnChannelOfThree(staff, mail, sms, StaffEmailChannel, ClientEmailChannel, ClientSmsChannel, ClientEmailChannel);
      OnChannelOfThree(staff, mail, sms, StaffEmailChannel, ClientEmailChannel, ClientSmsChannel, ClientSmsChannel);
    } else {
      assert DispatchSends(env, resellerId, client, td, notificationType, statusTo) == staff;
      OnChannelUniform(staff, StaffEmailChannel, StaffEmailChannel);
      OnChannelUniform(staff, StaffEmailChannel, ClientEmailChannel);
      OnChannelUniform(staff, StaffEmailChannel, ClientSmsChannel);
    }
  }
}
