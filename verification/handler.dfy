/** The `POST /submit` decision: validate the required fields, split the
    name, post the record to the CRM, and either redirect to the error
    page with a code or schedule the chat notification and redirect to
    the success page. The CRM exchange is an input, not performed. */
module Handler {
  import opened Wrappers
  import opened Text
  import opened Lead
  import opened Names
  import opened Crm
  import opened Notification

  /** How the CRM post ended: `ConnectionFailure` stands for any exception
      raised while posting the record or while reading and logging the
      status (a network error, an unset or malformed endpoint URL, a
      failing log write); `Completed` for an exchange that returned some
      status. */
  datatype CrmOutcome = ConnectionFailure | Completed(status: nat)

  datatype ErrorCode = MissingFields | InvalidName | SfError

  /** Where the browser is sent. */
  datatype Redirect = ToError(code: ErrorCode) | ToSuccess

  /** The handler's observable effects: the redirect (always HTTP 303),
      the CRM record posted (`None` when the CRM was not called) and the
      notification texts scheduled to be sent after the response. */
  datatype Response = Response(
    status: nat,
    redirect: Redirect,
    crmRequest: Option<CrmRecord>,
    scheduled: seq<string>)

  const SeeOther: nat := 303

  /** The `code` query parameter of an error redirect. */
  function CodeText(c: ErrorCode): string {
    match c
    case MissingFields => "missing_fields"
    case InvalidName => "invalid_name"
    case SfError => "sf_error"
  }

  /** The `Location` of a redirect. */
  function Location(cfg: Config, r: Redirect): string {
    match r
    case ToError(c) => cfg.errorUrl + "?code=" + CodeText(c)
    case ToSuccess => cfg.successUrl
  }

  /** A submission passes validation: both required fields are non-empty
      and the full name has a non-whitespace character. */
  predicate Valid(form: LeadForm) {
    form.fullName != "" && form.mobile != "" && !AllSpace(form.fullName)
  }

  /** `submit_form`, given the outcome the CRM post would have. */
  function Submit(cfg: Config, form: LeadForm, crm: CrmOutcome): (r: Response)
    ensures r.status == SeeOther
  {
    if form.fullName == "" || form.mobile == "" then
      Response(SeeOther, ToError(MissingFields), None, [])
    else
      var name := SplitName(form.fullName);
      if name.last == "" then
        Response(SeeOther, ToError(InvalidName), None, [])
      else
        var record := BuildRecord(cfg.orgId, name, form);
        match crm
        case ConnectionFailure => Response(SeeOther, ToError(SfError), Some(record), [])
        case Completed(_) => Response(SeeOther, ToSuccess, Some(record), [Message(form)])
  }

  // ---------------------------------------------------------------------
  // Lemmas

  /** An empty required field is reported first, before the name is
      looked at, and nothing is sent or scheduled. */
  lemma MissingFieldsFirst(cfg: Config, form: LeadForm, crm: CrmOutcome)
    ensures Submit(cfg, form, crm).redirect == ToError(MissingFields)
        <==> form.fullName == "" || form.mobile == ""
    ensures form.fullName == "" || form.mobile == "" ==>
      Submit(cfg, form, crm).crmRequest == None && Submit(cfg, form, crm).scheduled == []
  {
    SplitNameSpec(form.fullName);
  }

  /** A full name of whitespace only is reported as an invalid name when
      both required fields are non-empty, without calling the CRM. */
  lemma InvalidNameIff(cfg: Config, form: LeadForm, crm: CrmOutcome)
    ensures Submit(cfg, form, crm).redirect == ToError(InvalidName)
        <==> form.fullName != "" && form.mobile != "" && AllSpace(form.fullName)
    ensures Submit(cfg, form, crm).redirect == ToError(InvalidName) ==>
      Submit(cfg, form, crm).crmRequest == None && Submit(cfg, form, crm).scheduled == []
  {
    SplitNameSpec(form.fullName);
  }

  /** The CRM is called exactly for valid submissions, with the record
      built from the split name and the form. */
  lemma CrmCalledIff(cfg: Config, form: LeadForm, crm: CrmOutcome)
    ensures Submit(cfg, form, crm).crmRequest.Some? <==> Valid(form)
    ensures Valid(form) ==>
      Submit(cfg, form, crm).crmRequest == Some(BuildRecord(cfg.orgId, SplitName(form.fullName), form))
  {
    SplitNameSpec(form.fullName);
  }

  /** A CRM connection failure on a valid submission gives the `sf_error`
      redirect and schedules no notification. */
  lemma ConnectionFailureNoNotification(cfg: Config, form: LeadForm)
    requires Valid(form)
    ensures Submit(cfg, form, ConnectionFailure).redirect == ToError(SfError)
    ensures Submit(cfg, form, ConnectionFailure).scheduled == []
  {
    SplitNameSpec(form.fullName);
  }

  /** A notification is scheduled exactly when the submission is valid and
      the CRM exchange completed, whatever its status; then it is the one
      message for the form and the redirect goes to the success page. */
  lemma NotificationIff(cfg: Config, form: LeadForm, crm: CrmOutcome)
    ensures Submit(cfg, form, crm).scheduled != [] <==> Valid(form) && crm.Completed?
    ensures Submit(cfg, form, crm).scheduled != [] ==>
      Submit(cfg, form, crm).scheduled == [Message(form)] &&
      Submit(cfg, form, crm).redirect == ToSuccess
    ensures Submit(cfg, form, crm).redirect == ToSuccess <==> Valid(form) && crm.Completed?
  {
    SplitNameSpec(form.fullName);
  }

  /** The CRM's status code changes nothing: a 500 is handled like a 200. */
  lemma StatusIrrelevant(cfg: Config, form: LeadForm, s1: nat, s2: nat)
    ensures Submit(cfg, form, Completed(s1)) == Submit(cfg, form, Completed(s2))
  {
  }

  /** On the success path the notification starts with the header, the
      "Họ tên" line and the "Điện thoại" line. */
  lemma SuccessNotificationHasRequiredLines(cfg: Config, form: LeadForm, status: nat)
    requires Valid(form)
    ensures |Submit(cfg, form, Completed(status)).scheduled| == 1
    ensures Header + Line(Field("Họ tên", Some(form.fullName)))
                   + Line(Field("Điện thoại", Some(form.mobile)))
         <= Submit(cfg, form, Completed(status)).scheduled[0]
  {
    SplitNameSpec(form.fullName);
    MessageStartsWithRequiredLines(form);
  }

  /** On the success path the posted record holds the configured
      organisation id and the name halves; the last half is a single
      token, and the halves rejoin to the normalized full name. */
  lemma SuccessRecordName(cfg: Config, form: LeadForm, crm: CrmOutcome)
    requires Valid(form)
    ensures Submit(cfg, form, crm).crmRequest.Some?
    ensures Submit(cfg, form, crm).crmRequest.value.Keys == CrmKeys
    ensures |Submit(cfg, form, crm).crmRequest.value| == 12
    ensures Submit(cfg, form, crm).crmRequest.value["oid"] == cfg.orgId
    ensures Submit(cfg, form, crm).crmRequest.value["last_name"]
         == Some(SplitName(form.fullName).last)
    ensures Submit(cfg, form, crm).crmRequest.value["first_name"]
         == Some(SplitName(form.fullName).first)
    ensures IsWord(SplitName(form.fullName).last)
    ensures Rejoin(SplitName(form.fullName)) == Normalize(form.fullName)
  {
    CrmCalledIff(cfg, form, crm);
    CrmKeysCount();
    RecordNameEntries(cfg.orgId, SplitName(form.fullName), form);
    SplitNameSpec(form.fullName);
    NameRoundTrip(form.fullName);
  }

  /** Where each outcome sends the browser: an empty required field to
      `?code=missing_fields`, a whitespace-only name to `?code=invalid_name`,
      a failed CRM post to `?code=sf_error`, all on the error page, and a
      completed one to the success page. */
  lemma RedirectTargets(cfg: Config, form: LeadForm, crm: CrmOutcome)
    ensures form.fullName == "" || form.mobile == "" ==>
      Location(cfg, Submit(cfg, form, crm).redirect) == cfg.errorUrl + "?code=missing_fields"
    ensures form.fullName != "" && form.mobile != "" && AllSpace(form.fullName) ==>
      Location(cfg, Submit(cfg, form, crm).redirect) == cfg.errorUrl + "?code=invalid_name"
    ensures Valid(form) && crm == ConnectionFailure ==>
      Location(cfg, Submit(cfg, form, crm).redirect) == cfg.errorUrl + "?code=sf_error"
    ensures Valid(form) && crm.Completed? ==>
      Location(cfg, Submit(cfg, form, crm).redirect) == cfg.successUrl
  {
    MissingFieldsFirst(cfg, form, crm);
    InvalidNameIff(cfg, form, crm);
    NotificationIff(cfg, form, crm);
    ErrorTargets(cfg);
    if Valid(form) && crm == ConnectionFailure {
      ConnectionFailureNoNotification(cfg, form);
    }
  }

  /** The error page URL for each code, written out. */
  lemma ErrorTargets(cfg: Config)
    ensures Location(cfg, ToError(MissingFields)) == cfg.errorUrl + "?code=missing_fields"
    ensures Location(cfg, ToError(InvalidName)) == cfg.errorUrl + "?code=invalid_name"
    ensures Location(cfg, ToError(SfError)) == cfg.errorUrl + "?code=sf_error"
  {
    var u := cfg.errorUrl;
    assert "?code=" + "missing_fields" == "?code=missing_fields";
    assert "?code=" + "invalid_name" == "?code=invalid_name";
    assert "?code=" + "sf_error" == "?code=sf_error";
  }

  /** Different error codes give different redirect targets. */
  lemma ErrorLocationsDistinct(cfg: Config, c1: ErrorCode, c2: ErrorCode)
    requires Location(cfg, ToError(c1)) == Location(cfg, ToError(c2))
    ensures c1 == c2
  {
    var p := cfg.errorUrl + "?code=";
    assert Location(cfg, ToError(c1)) == p + CodeText(c1);
    assert Location(cfg, ToError(c2)) == p + CodeText(c2);
    assert CodeText(c1) == (p + CodeText(c1))[|p|..];
    assert CodeText(c2) == (p + CodeText(c2))[|p|..];
  }
}
