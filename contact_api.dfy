/** `submitContact` of `src/lib/api/contact.ts`: the row it inserts into
    `contact_submissions` and the error it hands back. */
module ContactApi {
  import opened Wrappers
  import opened Text
  import opened Backend

  const NAME_LIMIT: nat := 200
  const EMAIL_LIMIT: nat := 255
  const PHONE_LIMIT: nat := 50
  const MESSAGE_LIMIT: nat := 10000

  /** `ContactSubmissionInput`; a `null` optional field is `None`. */
  datatype ContactInput = ContactInput(
    name: string, email: string, phone: string, preferredContact: string, service: string,
    projectType: Option<string>, budget: Option<string>, timeline: Option<string>, message: string)

  /** The row inserted into `contact_submissions`. */
  datatype ContactRow = ContactRow(
    name: string, email: string, phone: string, preferredContact: string, service: string,
    projectType: Option<string>, budget: Option<string>, timeline: Option<string>, message: string)

  /** `x || null` for a string that may be `null`: an empty string becomes
      `null` too, anything else is kept. */
  function NullIfEmpty(o: Option<string>): (r: Option<string>)
    ensures r.None? <==> (o.None? || o.value == "")
    ensures r.Some? ==> r == o
  {
    if o.Some? && o.value != "" then o else None
  }

  /** The row `submitContact` inserts. */
  function ContactPayload(data: ContactInput): (row: ContactRow)
    ensures row.name == Clip(data.name, NAME_LIMIT) && row.email == Clip(data.email, EMAIL_LIMIT)
    ensures row.phone == Clip(data.phone, PHONE_LIMIT) && row.message == Clip(data.message, MESSAGE_LIMIT)
    ensures |row.name| <= NAME_LIMIT && row.name <= Trim(data.name)
    ensures |row.email| <= EMAIL_LIMIT && row.email <= Trim(data.email)
    ensures |row.phone| <= PHONE_LIMIT && row.phone <= Trim(data.phone)
    ensures |row.message| <= MESSAGE_LIMIT && row.message <= Trim(data.message)
    ensures row.projectType == NullIfEmpty(data.projectType)
    ensures row.budget == NullIfEmpty(data.budget) && row.timeline == NullIfEmpty(data.timeline)
    ensures row.projectType.None? <==> (data.projectType.None? || data.projectType.value == "")
    ensures row.budget.None? <==> (data.budget.None? || data.budget.value == "")
    ensures row.timeline.None? <==> (data.timeline.None? || data.timeline.value == "")
    ensures row.preferredContact == data.preferredContact && row.service == data.service
  {
    ContactRow(Clip(data.name, NAME_LIMIT), Clip(data.email, EMAIL_LIMIT), Clip(data.phone, PHONE_LIMIT),
               data.preferredContact, data.service,
               NullIfEmpty(data.projectType), NullIfEmpty(data.budget), NullIfEmpty(data.timeline),
               Clip(data.message, MESSAGE_LIMIT))
  }

  /** The one insert `submitContact` issues and the error it returns: the
      backend's own error object, or none. */
  datatype SubmitContactResult = SubmitContactResult(inserted: ContactRow, error: Option<BackendError>)

  function SubmitContact(data: ContactInput, backendError: Option<BackendError>): (r: SubmitContactResult)
    ensures r.inserted == ContactPayload(data)
    ensures r.error == backendError
  {
    SubmitContactResult(ContactPayload(data), backendError)
  }

  /** A clean input within every limit reaches the row unchanged, with
      empty optional fields stored as `null`. */
  lemma CleanInputStoredUnchanged(data: ContactInput)
    requires IsTrimmed(data.name) && IsTrimmed(data.email)
    requires IsTrimmed(data.phone) && IsTrimmed(data.message)
    requires |data.name| <= NAME_LIMIT && |data.email| <= EMAIL_LIMIT
    requires |data.phone| <= PHONE_LIMIT && |data.message| <= MESSAGE_LIMIT
    ensures var row := ContactPayload(data);
      && row.name == data.name && row.email == data.email
      && row.phone == data.phone && row.message == data.message
      && row.projectType == NullIfEmpty(data.projectType)
  {
    CleanFieldsClipped(data);
  }

  lemma CleanFieldsClipped(data: ContactInput)
    requires IsTrimmed(data.name) && IsTrimmed(data.email)
    requires IsTrimmed(data.phone) && IsTrimmed(data.message)
    requires |data.name| <= NAME_LIMIT && |data.email| <= EMAIL_LIMIT
    requires |data.phone| <= PHONE_LIMIT && |data.message| <= MESSAGE_LIMIT
    ensures Clip(data.name, NAME_LIMIT) == data.name && Clip(data.email, EMAIL_LIMIT) == data.email
    ensures Clip(data.phone, PHONE_LIMIT) == data.phone && Clip(data.message, MESSAGE_LIMIT) == data.message
  {
    ClipKeepsCleanText(data.name, NAME_LIMIT);
    ClipKeepsCleanText(data.email, EMAIL_LIMIT);
    ClipKeepsCleanText(data.phone, PHONE_LIMIT);
    ClipKeepsCleanText(data.message, MESSAGE_LIMIT);
  }
}
