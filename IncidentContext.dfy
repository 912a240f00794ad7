/** The in-memory incident store: one ordered list of incidents, three seed
    records, and the operations that add a record, change a record's status
    or investigation text, and look a record up by id. */
module IncidentContext {
  import opened IncidentTypes
  import opened JsText

  // ---------------------------------------------------------------------
  // Seed records
  // ---------------------------------------------------------------------

  function SeedRecord(id: string, date: string, airline: string, arriving: string, departure: string,
                      incident: string, investigation: string, attachments: seq<Attachment>,
                      status: IncidentStatus, createdAt: string): Incident
  {
    Incident(id, date, airline, arriving, departure, incident, investigation, attachments,
             status, createdAt, None, None, None, None, None, None)
  }

  /** The list the store starts from. */
  function SeedIncidents(): (r: seq<Incident>)
    ensures |r| == 3
    ensures r[0].id == "1" && r[0].status == Preliminary
    ensures r[1].id == "2" && r[1].status == Draft
    ensures r[2].id == "3" && r[2].status == Done
  {
    [ SeedRecord("1", "2025-04-08", "Example Airlines", "LAX", "JFK",
                 "Flight delay due to mechanical issues",
                 "Initial inspection revealed fuel system problem",
                 [Attachment("1", "report.pdf", "#", Pdf)],
                 Preliminary, "2025-04-07"),
      SeedRecord("2", "2025-04-06", "Sky Express", "ORD", "ATL",
                 "Cargo loading issue",
                 "Weight distribution error in loading manifest",
                 [],
                 Draft, "2025-04-06"),
      SeedRecord("3", "2025-04-05", "Global Air", "DFW", "SFO",
                 "Minor turbulence injury",
                 "Passenger did not have seatbelt fastened",
                 [Attachment("2", "injury-report.pdf", "#", Pdf)],
                 Done, "2025-04-05") ]
  }

  /** No two records of the list share an id. */
  predicate UniqueIds(l: seq<Incident>) {
    forall i, j :: 0 <= i < j < |l| ==> l[i].id != l[j].id
  }

  predicate HasId(l: seq<Incident>, id: string) {
    exists i :: 0 <= i < |l| && l[i].id == id
  }

  lemma SeedIdsUnique()
    ensures UniqueIds(SeedIncidents())
  {
  }

  // ---------------------------------------------------------------------
  // Building a record from form data
  // ---------------------------------------------------------------------

  /** The attachment type derived from a file's declared media type, as
      `addIncident` tests it: "image" first, then "pdf", else a document. */
  function ClassifyMediaType(mediaType: string): (r: AttachmentType)
    ensures r == Image <==> exists i :: OccursAt(mediaType, "image", i)
    ensures r == Pdf <==>
              (!exists i :: OccursAt(mediaType, "image", i)) && exists i :: OccursAt(mediaType, "pdf", i)
    ensures r == Doc <==>
              (!exists i :: OccursAt(mediaType, "image", i)) && !exists i :: OccursAt(mediaType, "pdf", i)
  {
    IncludesIffOccurs(mediaType, "image");
    IncludesIffOccurs(mediaType, "pdf");
    if Includes(mediaType, "image") then Image
    else if Includes(mediaType, "pdf") then Pdf
    else Doc
  }

  /** The classification in terms of where the pieces occur: "image"
      anywhere wins, then "pdf" anywhere, and anything else is a document. */
  lemma ClassifyByOccurrence(mediaType: string)
    ensures ClassifyMediaType(mediaType) == Image <==> exists i :: OccursAt(mediaType, "image", i)
    ensures ClassifyMediaType(mediaType) == Pdf <==>
              (!exists i :: OccursAt(mediaType, "image", i)) && exists i :: OccursAt(mediaType, "pdf", i)
    ensures ClassifyMediaType(mediaType) == Doc <==>
              (!exists i :: OccursAt(mediaType, "image", i)) && !exists i :: OccursAt(mediaType, "pdf", i)
  {
    IncludesIffOccurs(mediaType, "image");
    IncludesIffOccurs(mediaType, "pdf");
  }

  /** The three media types of the classification's examples. They are
      passed in, rather than written inline, so that the verifier does not
      unfold `Includes` on the literals. */
  lemma ClassifyExamples(png: string, pdf: string, word: string)
    requires png == "image/png" && pdf == "application/pdf" && word == "application/msword"
    ensures ClassifyMediaType(png) == Image
    ensures ClassifyMediaType(pdf) == Pdf
    ensures ClassifyMediaType(word) == Doc
  {
    assert StartsWith(png, "image");
    IncludedCharsOccur(pdf, "image", 'g');
    IncludesAfterPrefix("application/", "pdf", "");
    assert "application/" + "pdf" + "" == pdf;
    IncludedCharsOccur(word, "image", 'g');
    IncludedCharsOccur(word, "pdf", 'f');
  }

  /** The id of the attachment made from file number `index` of a new
      incident: the incident id, a dash, and the index in decimal. */
  function AttachmentId(incidentId: string, index: nat): (r: string)
    ensures StartsWith(r, incidentId + "-")
  {
    incidentId + "-" + NatToString(index)
  }

  lemma AttachmentIdInjective(incidentId: string, i: nat, j: nat)
    requires AttachmentId(incidentId, i) == AttachmentId(incidentId, j)
    ensures i == j
  {
    var p := incidentId + "-";
    assert AttachmentId(incidentId, i)[|p|..] == NatToString(i);
    assert AttachmentId(incidentId, j)[|p|..] == NatToString(j);
    NatToStringInjective(i, j);
  }

  /** The attachments of a new incident, one per form file, in file order;
      `urls[i]` is the object URL the browser created for file `i`. */
  function ToAttachments(incidentId: string, files: seq<RawFile>, urls: seq<string>): (r: seq<Attachment>)
    requires |urls| == |files|
    ensures |r| == |files|
    ensures forall i :: 0 <= i < |files| ==>
              r[i] == Attachment(AttachmentId(incidentId, i), files[i].name, urls[i],
                                 ClassifyMediaType(files[i].mediaType))
  {
    seq(|files|, i requires 0 <= i < |files| =>
      Attachment(AttachmentId(incidentId, i), files[i].name, urls[i], ClassifyMediaType(files[i].mediaType)))
  }

  /** The attachments of one new incident all have distinct ids. */
  lemma AttachmentIdsDistinct(incidentId: string, files: seq<RawFile>, urls: seq<string>)
    requires |urls| == |files|
    ensures forall i, j :: 0 <= i < j < |files| ==>
              ToAttachments(incidentId, files, urls)[i].id != ToAttachments(incidentId, files, urls)[j].id
  {
    var r := ToAttachments(incidentId, files, urls);
    forall i, j | 0 <= i < j < |files| ensures r[i].id != r[j].id {
      if r[i].id == r[j].id {
        AttachmentIdInjective(incidentId, i, j);
      }
    }
  }

  /** The record `addIncident` stores: the form fields, the generated id,
      status draft, the creation time, and the files turned into attachments. */
  function NewIncident(formData: IncidentFormData, id: string, createdAt: string, urls: seq<string>): (r: Incident)
    requires |urls| == |formData.attachments|
    ensures r.id == id && r.status == Draft && r.createdAt == createdAt
    ensures FormFieldsOf(r) == Some(formData.(attachments := []))
    ensures r.attachments == ToAttachments(id, formData.attachments, urls)
  {
    Incident(id, formData.date, formData.airline, formData.arrivingAirport, formData.departureAirport,
             formData.incident, formData.investigation,
             ToAttachments(id, formData.attachments, urls),
             Draft, createdAt,
             Some(formData.eventNumber), Some(formData.baseIATA), Some(formData.registration),
             Some(formData.flightNumber), Some(formData.reportType), Some(formData.selectedManuals))
  }

  /** The form fields a record was created from, read back off the record;
      attachments cannot be read back, so the files are not part of it. */
  function FormFieldsOf(r: Incident): (fd: Option<IncidentFormData>)
  {
    if r.eventNumber.Some? && r.baseIATA.Some? && r.registration.Some? && r.flightNumber.Some?
       && r.reportType.Some? && r.selectedManuals.Some?
    then Some(IncidentFormData(r.date, r.airline, r.arrivingAirport, r.departureAirport, r.incident,
                               r.investigation, [], r.eventNumber.value, r.baseIATA.value,
                               r.registration.value, r.flightNumber.value, r.reportType.value,
                               r.selectedManuals.value))
    else None
  }

  /** A new record has the generated id and status draft whatever the form
      holds, copies every form field but the files unchanged, and turns the
      files into attachments that keep their count, order and names. */
  lemma NewIncidentFromForm(formData: IncidentFormData, id: string, createdAt: string, urls: seq<string>)
    requires |urls| == |formData.attachments|
    ensures NewIncident(formData, id, createdAt, urls).id == id
    ensures NewIncident(formData, id, createdAt, urls).status == Draft
    ensures NewIncident(formData, id, createdAt, urls).createdAt == createdAt
    ensures FormFieldsOf(NewIncident(formData, id, createdAt, urls)) == Some(formData.(attachments := []))
    ensures |NewIncident(formData, id, createdAt, urls).attachments| == |formData.attachments|
    ensures forall i :: 0 <= i < |formData.attachments| ==>
              NewIncident(formData, id, createdAt, urls).attachments[i].name == formData.attachments[i].name
  {
  }

  // ---------------------------------------------------------------------
  // The list operations behind the store's methods
  // ---------------------------------------------------------------------

  /** `l.map(x => x.id === id ? f(x) : x)`. */
  function MapWhereId(l: seq<Incident>, id: string, f: Incident -> Incident): (r: seq<Incident>)
    ensures |r| == |l|
    ensures forall i :: 0 <= i < |l| ==> r[i] == (if l[i].id == id then f(l[i]) else l[i])
    decreases |l|
  {
    if l == [] then []
    else [if l[0].id == id then f(l[0]) else l[0]] + MapWhereId(l[1..], id, f)
  }

  function SetStatus(s: IncidentStatus): Incident -> Incident {
    (x: Incident) => x.(status := s)
  }

  function SetInvestigation(text: string): Incident -> Incident {
    (x: Incident) => x.(investigation := text)
  }

  /** The list after `updateIncidentStatus(id, s)`. */
  function WithStatus(l: seq<Incident>, id: string, s: IncidentStatus): (r: seq<Incident>)
    ensures |r| == |l|
    ensures forall i :: 0 <= i < |l| && l[i].id == id ==> r[i] == l[i].(status := s)
    ensures forall i :: 0 <= i < |l| && l[i].id != id ==> r[i] == l[i]
  {
    MapWhereId(l, id, SetStatus(s))
  }

  /** The list after `updateIncidentReport(id, text)`. */
  function WithInvestigation(l: seq<Incident>, id: string, text: string): (r: seq<Incident>)
    ensures |r| == |l|
    ensures forall i :: 0 <= i < |l| && l[i].id == id ==> r[i] == l[i].(investigation := text)
    ensures forall i :: 0 <= i < |l| && l[i].id != id ==> r[i] == l[i]
  {
    MapWhereId(l, id, SetInvestigation(text))
  }

  /** `l.find(x => x.id === id)`: the first record with that id, if any. */
  function FindById(l: seq<Incident>, id: string): (r: Option<Incident>)
    ensures r.None? <==> !HasId(l, id)
    ensures r.Some? ==> exists i :: 0 <= i < |l| && l[i] == r.value && r.value.id == id
                                    && forall j :: 0 <= j < i ==> l[j].id != id
    decreases |l|
  {
    if l == [] then None
    else if l[0].id == id then Some(l[0])
    else
      var r := FindById(l[1..], id);
      assert HasId(l, id) <==> HasId(l[1..], id) by {
        if HasId(l, id) {
          var i :| 0 <= i < |l| && l[i].id == id;
          assert l[1..][i - 1].id == id;
        }
        if HasId(l[1..], id) {
          var i :| 0 <= i < |l[1..]| && l[1..][i].id == id;
          assert l[i + 1].id == id;
        }
      }
      if r.Some? then
        var i :| 0 <= i < |l[1..]| && l[1..][i] == r.value && r.value.id == id
                 && forall j :: 0 <= j < i ==> l[1..][j].id != id;
        assert l[i + 1] == r.value;
        assert forall j :: 0 <= j < i + 1 ==> l[j].id != id by {
          forall j | 0 <= j < i + 1 ensures l[j].id != id {
            if j > 0 { assert l[j] == l[1..][j - 1]; }
          }
        }
        r
      else r
  }

  // ---------------------------------------------------------------------
  // Properties of the list operations
  // ---------------------------------------------------------------------

  /** Updating with an id no record has leaves the list exactly as it was. */
  lemma {:induction false} MapWhereIdAbsentIsNoOp(l: seq<Incident>, id: string, f: Incident -> Incident)
    requires !HasId(l, id)
    ensures MapWhereId(l, id, f) == l
  {
    var r := MapWhereId(l, id, f);
    forall i | 0 <= i < |l| ensures r[i] == l[i] {
      assert !(l[i].id == id);
    }
  }

  /** An update keeps the sequence of ids, hence the list's order. */
  lemma MapWhereIdKeepsIds(l: seq<Incident>, id: string, f: Incident -> Incident)
    requires forall x :: f(x).id == x.id
    ensures forall i :: 0 <= i < |l| ==> MapWhereId(l, id, f)[i].id == l[i].id
    ensures UniqueIds(l) ==> UniqueIds(MapWhereId(l, id, f))
  {
  }

  /** Looking a record up after an update gives the looked-up record with the
      update applied when the ids match, and the old answer for other ids. */
  lemma {:induction false} FindAfterMapWhereId(l: seq<Incident>, id: string, f: Incident -> Incident, k: string)
    requires forall x :: f(x).id == x.id
    ensures FindById(MapWhereId(l, id, f), k) ==
              if k == id && FindById(l, k).Some? then Some(f(FindById(l, k).value)) else FindById(l, k)
    decreases |l|
  {
    if l != [] {
      var r := MapWhereId(l, id, f);
      assert r[1..] == MapWhereId(l[1..], id, f);
      assert r[0].id == l[0].id;
      FindAfterMapWhereId(l[1..], id, f, k);
    }
  }

  lemma WithStatusAbsentIsNoOp(l: seq<Incident>, id: string, s: IncidentStatus)
    requires !HasId(l, id)
    ensures WithStatus(l, id, s) == l
  {
    MapWhereIdAbsentIsNoOp(l, id, SetStatus(s));
  }

  lemma WithInvestigationAbsentIsNoOp(l: seq<Incident>, id: string, text: string)
    requires !HasId(l, id)
    ensures WithInvestigation(l, id, text) == l
  {
    MapWhereIdAbsentIsNoOp(l, id, SetInvestigation(text));
  }

  /** After `updateIncidentStatus(id, s)`, looking `id` up gives the record
      found before with status `s` and every other field as it was; other
      ids find what they found before. */
  lemma FindAfterWithStatus(l: seq<Incident>, id: string, s: IncidentStatus, k: string)
    ensures FindById(WithStatus(l, id, s), k) ==
              if k == id && FindById(l, k).Some? then Some(FindById(l, k).value.(status := s))
              else FindById(l, k)
  {
    FindAfterMapWhereId(l, id, SetStatus(s), k);
  }

  /** After `updateIncidentReport(id, text)`, looking `id` up gives the record
      found before with the new investigation text and, in particular, the same
      status; other ids find what they found before. */
  lemma FindAfterWithInvestigation(l: seq<Incident>, id: string, text: string, k: string)
    ensures FindById(WithInvestigation(l, id, text), k) ==
              if k == id && FindById(l, k).Some? then Some(FindById(l, k).value.(investigation := text))
              else FindById(l, k)
  {
    FindAfterMapWhereId(l, id, SetInvestigation(text), k);
  }

  lemma UpdatesKeepUniqueIds(l: seq<Incident>, id: string, s: IncidentStatus, text: string)
    requires UniqueIds(l)
    ensures UniqueIds(WithStatus(l, id, s))
    ensures UniqueIds(WithInvestigation(l, id, text))
  {
    MapWhereIdKeepsIds(l, id, SetStatus(s));
    MapWhereIdKeepsIds(l, id, SetInvestigation(text));
  }

  /** A prepended record is what its id finds, and every other id finds what
      it found before. */
  lemma FindAfterPrepend(l: seq<Incident>, rec: Incident, k: string)
    ensures FindById([rec] + l, k) == if rec.id == k then Some(rec) else FindById(l, k)
  {
    assert ([rec] + l)[1..] == l;
  }

  /** The store's ids stay unique across an add only when the generated id is
      fresh; the store itself does not check this. */
  lemma PrependKeepsUniqueIds(l: seq<Incident>, rec: Incident)
    requires UniqueIds(l) && !HasId(l, rec.id)
    ensures UniqueIds([rec] + l)
  {
    var r := [rec] + l;
    forall i, j | 0 <= i < j < |r| ensures r[i].id != r[j].id {
      if i == 0 {
        assert r[j] == l[j - 1];
      } else {
        assert r[i] == l[i - 1] && r[j] == l[j - 1];
      }
    }
  }

  // ---------------------------------------------------------------------
  // The store
  // ---------------------------------------------------------------------

  class IncidentStore {
    var incidents: seq<Incident>

    constructor ()
      ensures incidents == SeedIncidents()
    {
      incidents := SeedIncidents();
    }

    /** `addIncident`: the caller supplies the random id, the current time
        and one object URL per file. The new record goes to the front and the
        generated id is returned. */
    method AddIncident(formData: IncidentFormData, newId: string, now: string, urls: seq<string>)
      returns (id: string)
      requires |urls| == |formData.attachments|
      modifies this
      ensures id == newId
      ensures incidents == [NewIncident(formData, newId, now, urls)] + old(incidents)
      ensures |incidents| == |old(incidents)| + 1 && incidents[1..] == old(incidents)
      ensures GetIncidentById(id) == Some(NewIncident(formData, newId, now, urls))
    {
      id := newId;
      var rec := NewIncident(formData, id, now, urls);
      incidents := [rec] + incidents;
      FindAfterPrepend(old(incidents), rec, id);
    }

    /** `updateIncidentStatus`: every record with that id gets the new status. */
    method UpdateIncidentStatus(id: string, status: IncidentStatus)
      modifies this
      ensures incidents == WithStatus(old(incidents), id, status)
      ensures !HasId(old(incidents), id) ==> incidents == old(incidents)
    {
      if !HasId(incidents, id) {
        WithStatusAbsentIsNoOp(incidents, id, status);
      }
      incidents := WithStatus(incidents, id, status);
    }

    /** `getIncidentById`: the first record with that id; the list is only read. */
    function GetIncidentById(id: string): (r: Option<Incident>)
      reads this
      ensures r.None? <==> !HasId(incidents, id)
      ensures r.Some? ==> r.value in incidents && r.value.id == id
    ensures r == FindById(incidents, id)
    {
      FindById(incidents, id)
    }

    /** `updateIncidentReport`: every record with that id gets the new
        investigation text. */
    method UpdateIncidentReport(id: string, investigation: string)
      modifies this
      ensures incidents == WithInvestigation(old(incidents), id, investigation)
      ensures !HasId(old(incidents), id) ==> incidents == old(incidents)
    {
      if !HasId(incidents, id) {
        WithInvestigationAbsentIsNoOp(incidents, id, investigation);
      }
      incidents := WithInvestigation(incidents, id, investigation);
    }
  }

  // ---------------------------------------------------------------------
  // Scenarios on the seed data
  // ---------------------------------------------------------------------

  function TestForm(): IncidentFormData {
    IncidentFormData("2025-05-01", "Test Air", "MDE", "BOG", "Test", "", [], "", "", "", "", Quality, [])
  }

  /** Creating a record on the seed list puts it first, as a draft, in a list of four. */
  lemma SeedAddScenario(newId: string, now: string)
    ensures var l := [NewIncident(TestForm(), newId, now, [])] + SeedIncidents();
            |l| == 4 && l[0].id == newId && l[0].status == Draft && l[1..] == SeedIncidents()
  {
  }

  lemma SeedUpdateStatusScenario()
    ensures FindById(WithStatus(SeedIncidents(), "1", Done), "1").Some?
    ensures FindById(WithStatus(SeedIncidents(), "1", Done), "1").value.status == Done
  {
    FindAfterWithStatus(SeedIncidents(), "1", Done, "1");
    assert FindById(SeedIncidents(), "1") == Some(SeedIncidents()[0]);
  }

  lemma SeedUpdateReportScenario()
    ensures FindById(WithInvestigation(SeedIncidents(), "2", "new text"), "2").Some?
    ensures FindById(WithInvestigation(SeedIncidents(), "2", "new text"), "2").value.investigation == "new text"
    ensures FindById(WithInvestigation(SeedIncidents(), "2", "new text"), "2").value.status == Draft
  {
    FindAfterWithInvestigation(SeedIncidents(), "2", "new text", "2");
    var l := SeedIncidents();
    assert l[0].id != "2";
    assert l[1..][0] == l[1];
    assert FindById(l, "2") == Some(l[1]);
  }
}
