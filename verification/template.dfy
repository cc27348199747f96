/** Input validation and the template context: `validateData`, `getClient`,
    `getDifferences`, `prepareTemplateData` and `validateTemplateData`. */
module Template {
  import opened Php
  import opened Entities

  /** The keys of the template data, in the order the handler builds them. */
  const TemplateKeys: seq<string> := [
    "COMPLAINT_ID", "COMPLAINT_NUMBER", "CREATOR_ID", "CREATOR_NAME",
    "EXPERT_ID", "EXPERT_NAME", "CLIENT_ID", "CLIENT_NAME",
    "CONSUMPTION_ID", "CONSUMPTION_NUMBER", "AGREEMENT_NUMBER", "DATE",
    "DIFFERENCES"]

  /** Checks the two keys every request must carry, the reseller first. */
  function ValidateData(p: Payload): (e: Option<Exception>)
    ensures EmptyKey(p.resellerId) ==> e == Some(Exception("Empty resellerId", 400))
    ensures !EmptyKey(p.resellerId) && EmptyKey(p.notificationType) ==>
              e == Some(Exception("Empty notificationType", 400))
    ensures e.None? <==> !EmptyKey(p.resellerId) && !EmptyKey(p.notificationType)
  {
    if EmptyKey(p.resellerId) then Some(Exception("Empty resellerId", 400))
    else if EmptyKey(p.notificationType) then Some(Exception("Empty notificationType", 400))
    else None
  }

  /** Looks the client up and accepts it only if it is a customer of the
      requesting reseller. */
  function GetClient(env: Env, p: Payload): (r: Outcome<Contractor>)
    ensures r.Ok? <==>
              env.contractorById(IntCast(p.clientId)).contractorType == Customer &&
              env.contractorById(IntCast(p.clientId)).sellerId == IntCast(p.resellerId)
    ensures r.Ok? ==> r.value == env.contractorById(IntCast(p.clientId))
    ensures r.Thrown? ==> r.exception == Exception("Client not found!", 400)
  {
    var client := env.contractorById(IntCast(p.clientId));
    if client.contractorType != Customer || client.sellerId != IntCast(p.resellerId) then
      Thrown(Exception("Client not found!", 400))
    else
      Ok(client)
  }

  /** `(int)$data['differences']['to']`, which is 0 when anything is missing. */
  function StatusTo(p: Payload): int
  {
    match p.differences
    case None => 0
    case Some(d) => IntCast(d.to)
  }

  /** The DIFFERENCES text for the event subtype. */
  function GetDifferences(env: Env, p: Payload): string
  {
    var resellerId := IntCast(p.resellerId);
    var notificationType := IntCast(p.notificationType);
    if notificationType == TYPE_NEW then
      env.translate("NewPositionAdded", NoArgs, resellerId)
    else if notificationType == TYPE_CHANGE && !EmptyDifferences(p.differences) then
      var d := p.differences.value;
      env.translate("PositionStatusHasChanged",
                    Args([Field("FROM", StrV(env.statusName(IntCast(d.from)))),
                          Field("TO", StrV(env.statusName(IntCast(d.to))))]),
                    resellerId)
    else
      ""
  }

  /** The three rules that decide the DIFFERENCES text. */
  lemma DifferencesRules(env: Env, p: Payload)
    ensures IntCast(p.notificationType) == TYPE_NEW ==>
              GetDifferences(env, p) == env.translate("NewPositionAdded", NoArgs, IntCast(p.resellerId))
    ensures IntCast(p.notificationType) == TYPE_CHANGE && !EmptyDifferences(p.differences) ==>
              GetDifferences(env, p) ==
                env.translate("PositionStatusHasChanged",
                              Args([Field("FROM", StrV(env.statusName(IntCast(p.differences.value.from)))),
                                    Field("TO", StrV(env.statusName(IntCast(p.differences.value.to))))]),
                              IntCast(p.resellerId))
    ensures IntCast(p.notificationType) != TYPE_NEW &&
            (IntCast(p.notificationType) != TYPE_CHANGE || EmptyDifferences(p.differences)) ==>
              GetDifferences(env, p) == ""
  {
  }

  /** The template data: thirteen entries under TemplateKeys, in that order. */
  function PrepareTemplateData(env: Env, p: Payload, client: Contractor): (td: seq<Field>)
    ensures |td| == |TemplateKeys|
    ensures forall i :: 0 <= i < |td| ==> td[i].key == TemplateKeys[i]
  {
    var clientName := Elvis(client.fullName, client.name);
    var creatorName := env.employeeFullName(IntCast(p.creatorId));
    var expertName := env.employeeFullName(IntCast(p.expertId));
    var differences := GetDifferences(env, p);
    [ Field("COMPLAINT_ID", IntV(IntCast(p.complaintId))),
      Field("COMPLAINT_NUMBER", StrV(StringCast(p.complaintNumber))),
      Field("CREATOR_ID", IntV(IntCast(p.creatorId))),
      Field("CREATOR_NAME", StrV(creatorName)),
      Field("EXPERT_ID", IntV(IntCast(p.expertId))),
      Field("EXPERT_NAME", StrV(expertName)),
      Field("CLIENT_ID", IntV(IntCast(p.clientId))),
      Field("CLIENT_NAME", StrV(clientName)),
      Field("CONSUMPTION_ID", IntV(IntCast(p.consumptionId))),
      Field("CONSUMPTION_NUMBER", StrV(StringCast(p.consumptionNumber))),
      Field("AGREEMENT_NUMBER", StrV(StringCast(p.agreementNumber))),
      Field("DATE", StrV(StringCast(p.date))),
      Field("DIFFERENCES", StrV(differences)) ]
  }

  /** What the entries of the template data hold: the client name falls back
      to the short name, the employee names are full names and the ids are the
      request's ids cast to int, and the text entries are the request's texts
      cast to string, so a missing one is "". */
  lemma TemplateDataValues(env: Env, p: Payload, client: Contractor)
    ensures var td := PrepareTemplateData(env, p, client);
      && td[0].value == IntV(IntCast(p.complaintId))
      && td[1].value == StrV(StringCast(p.complaintNumber))
      && td[2].value == IntV(IntCast(p.creatorId))
      && td[3].value == StrV(env.employeeFullName(IntCast(p.creatorId)))
      && td[4].value == IntV(IntCast(p.expertId))
      && td[5].value == StrV(env.employeeFullName(IntCast(p.expertId)))
      && td[6].value == IntV(IntCast(p.clientId))
      && (!EmptyString(client.fullName) ==> td[7].value == StrV(client.fullName))
      && (EmptyString(client.fullName) ==> td[7].value == StrV(client.name))
      && td[8].value == IntV(IntCast(p.consumptionId))
      && td[9].value == StrV(StringCast(p.consumptionNumber))
      && td[10].value == StrV(StringCast(p.agreementNumber))
      && td[11].value == StrV(StringCast(p.date))
      && td[12].value == StrV(GetDifferences(env, p))
  {
  }

  /** The index of the first empty entry, if any. */
  function FirstEmptyField(td: seq<Field>): (k: Option<nat>)
    ensures k.Some? ==> k.value < |td| && Empty(td[k.value].value)
    ensures k.Some? ==> forall j :: 0 <= j < k.value ==> !Empty(td[j].value)
    ensures k.None? <==> forall j :: 0 <= j < |td| ==> !Empty(td[j].value)
  {
    if |td| == 0 then None
    else if Empty(td[0].value) then Some(0)
    else
      match FirstEmptyField(td[1..])
      case None => None
      case Some(k) => Some(k + 1)
  }

  function TemplateDataError(key: string): Exception
  {
    Exception("Template Data (" + key + ") is empty!", 500)
  }

  /** What validating the template data throws, if anything. */
  function TemplateDataCheck(td: seq<Field>): Option<Exception>
  {
    match FirstEmptyField(td)
    case None => None
    case Some(k) => Some(TemplateDataError(td[k].key))
  }

  /** Walks the template data in order and stops at the first empty entry. */
  method ValidateTemplateData(td: seq<Field>) returns (e: Option<Exception>)
    ensures e.None? <==> forall j :: 0 <= j < |td| ==> !Empty(td[j].value)
    ensures e.Some? ==> exists k :: 0 <= k < |td| && Empty(td[k].value) &&
                          (forall j :: 0 <= j < k ==> !Empty(td[j].value)) &&
                          e.value == TemplateDataError(td[k].key)
    ensures e == TemplateDataCheck(td)
  {
    for i := 0 to |td|
      invariant forall j :: 0 <= j < i ==> !Empty(td[j].value)
    {
      if Empty(td[i].value) {
        assert FirstEmptyField(td) == Some(i);
        return Some(TemplateDataError(td[i].key));
      }
    }
    return None;
  }
}
