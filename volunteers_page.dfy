/** The volunteers page (frontend/src/pages/Volunteers.jsx): parsing the
    skills field, building the POST body, and what a submission does to the
    list and the form. */
module VolunteersPage {
  import opened Common
  import opened Text
  import opened ClientJson
  import VolunteerController

  /** `.filter(Boolean)` on strings: the non-empty ones, in order. */
  function DropEmpty(parts: seq<string>): (r: seq<string>)
    ensures |r| <= |parts|
    ensures forall k :: 0 <= k < |r| ==> r[k] != ""
    ensures forall t :: t in r <==> t in parts && t != ""
  {
    if parts == [] then []
    else
      assert parts == [parts[0]] + parts[1..];
      (if parts[0] != "" then [parts[0]] else []) + DropEmpty(parts[1..])
  }

  lemma {:induction false} DropEmptyAll(parts: seq<string>)
    requires forall k :: 0 <= k < |parts| ==> parts[k] != ""
    ensures DropEmpty(parts) == parts
  {
    if parts != [] {
      DropEmptyAll(parts[1..]);
      assert parts == [parts[0]] + parts[1..];
    }
  }

  /** `(skills || '').split(',').map(s => s.trim()).filter(Boolean)`: the
      non-empty trimmed comma-separated pieces. */
  function ParseSkills(text: string): (r: seq<string>)
    ensures forall k :: 0 <= k < |r| ==> r[k] != "" && Trimmed(r[k]) && ',' !in r[k]
    ensures forall t :: t in r <==> t in TrimmedPieces(text, ',') && t != ""
  {
    var pieces := TrimmedPieces(text, ',');
    var r := DropEmpty(pieces);
    assert forall k :: 0 <= k < |r| ==> r[k] in pieces;
    r
  }

  /** Skills that are non-empty, trimmed and comma-free come back from
      their comma-joined text unchanged; no skills give the empty text and
      back. */
  lemma ParseSkillsRoundTrip(skills: seq<string>)
    requires forall k :: 0 <= k < |skills| ==> skills[k] != "" && Trimmed(skills[k]) && ',' !in skills[k]
    ensures ParseSkills(Join(skills, ",")) == skills
  {
    assert "," == [','];
    if skills == [] {
      assert Split("", ',') == [""];
      TrimTrimmed("");
      assert TrimmedPieces("", ',') == [""];
    } else {
      TrimmedPiecesJoin(skills, ',');
      DropEmptyAll(skills);
    }
  }

  /** The six controlled inputs. */
  datatype VolunteerForm = VolunteerForm(name: string, phone: string, city: string, skills: string, lat: string, lng: string)

  const EmptyForm := VolunteerForm("", "", "", "", "", "")

  /** The JSON body as the create handler reads it: `name`, `phone`, `city`
      and `skills` always; `lat`/`lng` only when both inputs are non-empty,
      parsed by `parseFloat` (`None` standing for `NaN`, sent as `null`). */
  function Payload(f: VolunteerForm, parseText: string -> Option<real>): (req: VolunteerController.VolunteerRequest)
    ensures req.name == Some(f.name) && req.phone == Some(f.phone) && req.city == Some(f.city)
    ensures req.skills == VolunteerController.SkillList(ParseSkills(f.skills))
    ensures req.location == None && req.email == None && req.verified == None
    ensures !(f.lat != "" && f.lng != "") ==> req.lat == None && req.lng == None
    ensures f.lat != "" && f.lng != "" ==> req.lat == parseText(f.lat) && req.lng == parseText(f.lng)
  {
    var both := f.lat != "" && f.lng != "";
    VolunteerController.VolunteerRequest(
      Some(f.name), Some(f.phone), None, Some(f.city),
      VolunteerController.SkillList(ParseSkills(f.skills)), None, None,
      if both then parseText(f.lat) else None,
      if both then parseText(f.lng) else None)
  }

  /** What the backend makes of a submission. An empty name is the 400
      path. Otherwise the document is saved exactly when both coordinate
      inputs are filled, parse to non-zero numbers and form a point the
      index accepts; without them the defaulted `{type: 'Point'}` is
      refused and nothing is stored. A saved document has the parsed
      skills and the point `[lng, lat]`. */
  lemma PayloadAsStored(f: VolunteerForm, parseText: string -> Option<real>, id: Id, now: int)
    ensures VolunteerController.SkillsFor(Payload(f, parseText).skills) == ParseSkills(f.skills)
    ensures var loc := VolunteerController.LocationFor(Payload(f, parseText));
      && (loc.Some? <==> f.lat != "" && f.lng != "" && TruthyNum(parseText(f.lat)) && TruthyNum(parseText(f.lng)))
      && (loc.Some? ==> loc == Some(Point(parseText(f.lng).value, parseText(f.lat).value)))
    ensures TruthyText(Payload(f, parseText).name) <==> f.name != ""
    ensures f.name != "" ==>
      var v := VolunteerController.BuildVolunteer(id, Payload(f, parseText), now);
      && (VolunteerController.Saves(v) <==>
            && f.lat != "" && f.lng != "" && TruthyNum(parseText(f.lat)) && TruthyNum(parseText(f.lng))
            && IndexAccepts(Point(parseText(f.lng).value, parseText(f.lat).value)))
      && (VolunteerController.Saves(v) ==>
            && v.skills == ParseSkills(f.skills)
            && v.location == Point(parseText(f.lng).value, parseText(f.lat).value))
  {
  }

  /** What the POST came back with: the saved document, or a refusal with
      the body's `error` if any. */
  datatype SubmitOutcome = Added(doc: RawDoc) | Rejected(serverError: Option<string>)

  class VolunteersPageState {
    var volunteers: seq<RawDoc>
    var form: VolunteerForm

    constructor ()
      ensures volunteers == [] && form == EmptyForm
    {
      volunteers := [];
      form := EmptyForm;
    }

    /** The effect on the fetched `data`. */
    method Load(data: Option<seq<RawDoc>>)
      modifies this
      ensures volunteers == (if data.Some? then data.value else old(volunteers))
      ensures form == old(form)
    {
      if data.Some? {
        volunteers := data.value;
      }
    }

    method Edit(f: VolunteerForm)
      modifies this
      ensures form == f && volunteers == old(volunteers)
    {
      form := f;
    }

    /** `handleSubmit`: the saved volunteer goes in front and all six inputs
        are emptied; a refusal alerts the server's `error` (else a fixed
        text) and changes nothing. */
    method Submit(outcome: SubmitOutcome) returns (message: string)
      modifies this
      ensures outcome.Added? ==>
        && volunteers == [outcome.doc] + old(volunteers) && form == EmptyForm
        && message == "Volunteer added"
      ensures outcome.Rejected? ==>
        && volunteers == old(volunteers) && form == old(form)
        && message == TextOr(outcome.serverError, "Failed to add volunteer")
    {
      match outcome
      case Added(doc) =>
        volunteers := [doc] + volunteers;
        form := EmptyForm;
        message := "Volunteer added";
      case Rejected(serverError) =>
        message := TextOr(serverError, "Failed to add volunteer");
    }
  }
}
