/**
 * The profile record and how the create handler builds it from a submitted
 * form: presence validation of the two required fields and the defaults of
 * the optional ones.
 */
module Profiles {
  import opened JsValues

  /** The submitted form body; a field the client did not send is `undefined`. */
  datatype Form = Form(
    fullname: Option<string>,
    email: Option<string>,
    phone: Option<string>,
    instagram: Option<string>,
    linkedin: Option<string>)

  /**
   * A stored profile. `phone` is kept exactly as submitted, so it may be
   * absent; `instagram` and `linkedin` are always strings.
   */
  datatype Profile = Profile(
    id: string,
    fullname: string,
    email: string,
    phone: Option<string>,
    instagram: string,
    linkedin: string,
    createdAt: string)

  /** The create handler goes on only when both the full name and the email are truthy. */
  predicate Acceptable(form: Form) {
    Truthy(form.fullname) && Truthy(form.email)
  }

  /** The record the create handler stores for an acceptable form, a fresh id and the creation time. */
  function BuildProfile(form: Form, id: string, now: string): (p: Profile)
    requires Acceptable(form)
    ensures p.id == id && p.createdAt == now
    ensures form.fullname == Some(p.fullname) && p.fullname != ""
    ensures form.email == Some(p.email) && p.email != ""
    ensures p.phone == form.phone
    ensures form.instagram.Some? ==> p.instagram == form.instagram.value
    ensures form.instagram.None? ==> p.instagram == ""
    ensures form.linkedin.Some? ==> p.linkedin == form.linkedin.value
    ensures form.linkedin.None? ==> p.linkedin == ""
  {
    OrEmptyKeepsSubmitted(form.instagram);
    OrEmptyKeepsSubmitted(form.linkedin);
    Profile(
      id := id,
      fullname := form.fullname.value,
      email := form.email.value,
      phone := form.phone,
      instagram := OrEmpty(form.instagram),
      linkedin := OrEmpty(form.linkedin),
      createdAt := now)
  }
}
