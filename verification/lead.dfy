/** The lead-capture form submission and the handler's configuration. */
module Lead {
  import opened Wrappers

  /** The fields of a `POST /submit` form. `fullName` and `mobile` are
      required form fields (always a string, possibly empty); the others
      are `None` when the form omits them. */
  datatype LeadForm = LeadForm(
    fullName: string,
    mobile: string,
    email: Option<string>,
    company: Option<string>,
    description: Option<string>,
    productInterest: Option<string>,
    facebook: Option<string>,
    url: Option<string>,
    salesman: Option<string>,
    leadSource: Option<string>)

  /** Python truthiness of an optional string: present and non-empty. */
  predicate Truthy(v: Option<string>) {
    v.Some? && v.value != ""
  }

  /** The values the handler reads from the environment at start-up:
      the CRM organisation id (`None` when unset) and the two redirect
      destinations. */
  datatype Config = Config(orgId: Option<string>, successUrl: string, errorUrl: string)
}
