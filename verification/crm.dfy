/** The record the handler posts to the CRM's lead-ingestion endpoint
    (`sf_data`): a fixed set of form keys, two of them filled from the
    name split and one from configuration. */
module Crm {
  import opened Wrappers
  import opened Lead
  import opened Names
  import Text

  /** Form key to value; `None` is a key whose value Python holds as `None`. */
  type CrmRecord = map<string, Option<string>>

  /** Keys the CRM expects; the `00N…` ones are the CRM's custom-field ids
      for product interest, Facebook and salesman. */
  const ProductKey := "00N0o00000M9Lpq"
  const FacebookKey := "00NBV000000Piur"
  const SalesmanKey := "00NBV000000VDf4"

  const CrmKeys: set<string> := {
    "oid", "first_name", "last_name", "mobile", "email", "company",
    "description", ProductKey, FacebookKey, "url", SalesmanKey, "lead_source"
  }

  /** `sf_data` for an organisation id, a split name and the form. */
  function BuildRecord(orgId: Option<string>, name: ParsedName, form: LeadForm): (r: CrmRecord)
    ensures r.Keys == CrmKeys
  {
    map[
      "oid" := orgId,
      "first_name" := Some(name.first),
      "last_name" := Some(name.last),
      "mobile" := Some(form.mobile),
      "email" := form.email,
      "company" := form.company,
      "description" := form.description,
      ProductKey := form.productInterest,
      FacebookKey := form.facebook,
      "url" := form.url,
      SalesmanKey := form.salesman,
      "lead_source" := form.leadSource
    ]
  }

  /** The record has exactly twelve keys. */
  lemma CrmKeysCount()
    ensures |CrmKeys| == 12
  {
  }

  /** Reads a lead back out of a record, taking the full name to be the
      first and last name put back together. */
  function FormOfRecord(r: CrmRecord): LeadForm
    requires CrmKeys <= r.Keys
  {
    LeadForm(
      Rejoin(ParsedName(r["first_name"].GetOr(""), r["last_name"].GetOr(""))),
      r["mobile"].GetOr(""),
      r["email"], r["company"], r["description"], r[ProductKey],
      r[FacebookKey], r["url"], r[SalesmanKey], r["lead_source"])
  }

  /** Where the record's name and organisation entries come from. */
  lemma RecordNameEntries(orgId: Option<string>, name: ParsedName, form: LeadForm)
    ensures BuildRecord(orgId, name, form)["oid"] == orgId
    ensures BuildRecord(orgId, name, form)["first_name"] == Some(name.first)
    ensures BuildRecord(orgId, name, form)["last_name"] == Some(name.last)
  {
  }

  /** Round trip: the record built from a split name and a form carries
      the configured organisation id, and reading it back gives the form
      with the full name replaced by the rejoined split name; every other
      field passes through unchanged. */
  lemma RecordRoundTrip(orgId: Option<string>, name: ParsedName, form: LeadForm)
    ensures BuildRecord(orgId, name, form)["oid"] == orgId
    ensures FormOfRecord(BuildRecord(orgId, name, form)) == form.(fullName := Rejoin(name))
  {
    var r := BuildRecord(orgId, name, form);
    assert r["first_name"] == Some(name.first);
    assert r["last_name"] == Some(name.last);
    assert r["mobile"] == Some(form.mobile);
  }

  /** With the name split the handler performs, the record read back is
      the submitted form with its full name whitespace-normalized. */
  lemma SubmittedRecordRoundTrip(orgId: Option<string>, form: LeadForm)
    ensures FormOfRecord(BuildRecord(orgId, SplitName(form.fullName), form))
         == form.(fullName := Text.Normalize(form.fullName))
  {
    var name := SplitName(form.fullName);
    RecordRoundTrip(orgId, name, form);
    NameRoundTrip(form.fullName);
  }
}
