/** The records of the incident-report application: the workflow status,
    the attachments, a stored incident and the data a create form hands in. */
module IncidentTypes {

  datatype Option<+T> = None | Some(value: T)

  /** The workflow stage of a report. Any status may follow any other. */
  datatype IncidentStatus = Draft | Preliminary | Done | SentToClient

  /** The string the application uses for each status. */
  function StatusName(s: IncidentStatus): (r: string)
    ensures r != ""
  {
    match s
    case Draft => "draft"
    case Preliminary => "preliminary"
    case Done => "done"
    case SentToClient => "sent to client"
  }

  /** Reads a status string back; only the four names are statuses. */
  function ParseStatus(t: string): (r: Option<IncidentStatus>)
    ensures r.Some? ==> StatusName(r.value) == t
  {
    if t == "draft" then Some(Draft)
    else if t == "preliminary" then Some(Preliminary)
    else if t == "done" then Some(Done)
    else if t == "sent to client" then Some(SentToClient)
    else None
  }

  /** Every status has a distinct name, and its name reads back as itself. */
  lemma StatusNameRoundTrip(s: IncidentStatus)
    ensures ParseStatus(StatusName(s)) == Some(s)
  {
  }

  /** A string is a status name exactly when it is one of the four. */
  lemma StatusNamesAreExactlyFour(t: string)
    ensures ParseStatus(t).Some? <==> t in ["draft", "preliminary", "done", "sent to client"]
  {
  }

  datatype AttachmentType = Image | Pdf | Doc

  function AttachmentTypeName(k: AttachmentType): (r: string)
    ensures r in ["image", "pdf", "doc"]
  {
    match k
    case Image => "image"
    case Pdf => "pdf"
    case Doc => "doc"
  }

  /** A file attached to a stored incident. */
  datatype Attachment = Attachment(
    id: string,
    name: string,
    url: string,
    attachmentType: AttachmentType)

  /** A file as the browser's file picker gives it: its name and its
      declared media type (the bytes are not modelled). */
  datatype RawFile = RawFile(name: string, mediaType: string)

  /** The report type chosen on the create form. */
  datatype ReportType = Quality | Safety

  /** A stored incident: ten required fields, then the optional ones. The
      last two are not declared on the record type, but the create form
      carries them and the store copies every form field into the record. */
  datatype Incident = Incident(
    id: string,
    date: string,
    airline: string,
    arrivingAirport: string,
    departureAirport: string,
    incident: string,
    investigation: string,
    attachments: seq<Attachment>,
    status: IncidentStatus,
    createdAt: string,
    eventNumber: Option<string>,
    baseIATA: Option<string>,
    registration: Option<string>,
    flightNumber: Option<string>,
    reportType: Option<ReportType>,
    selectedManuals: Option<seq<string>>)

  /** What the create form submits: raw files instead of attachments, and no
      id, status or creation time (the store assigns those). */
  datatype IncidentFormData = IncidentFormData(
    date: string,
    airline: string,
    arrivingAirport: string,
    departureAirport: string,
    incident: string,
    investigation: string,
    attachments: seq<RawFile>,
    eventNumber: string,
    baseIATA: string,
    registration: string,
    flightNumber: string,
    reportType: ReportType,
    selectedManuals: seq<string>)
}
