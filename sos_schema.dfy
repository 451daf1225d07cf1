/** The SOS document (backend/models/SOS.js): its fields, the status enum
    and the defaults the schema fills in. */
module SosSchema {
  import opened Common

  const Statuses: seq<string> := ["open", "acknowledged", "closed"]
  const DefaultStatus := "open"

  predicate IsStatus(s: string) {
    s in Statuses
  }

  /** `metadata` is a free-form object (device, accuracy); it is modelled
      as a string-to-string map. */
  datatype Sos = Sos(
    id: Id,
    userId: Option<string>,
    message: string,
    location: GeoJson,
    status: string,
    metadata: map<string, string>,
    createdAt: int)

  /** What `save()` validates: `location.type` is in the enum `['Point']`,
      `coordinates` is a required (non-empty) array and `status` is in its
      enum. */
  predicate Conforms(s: Sos) {
    s.location.kind == "Point" && |s.location.coordinates| > 0 && IsStatus(s.status)
  }

  function CreatedAt(s: Sos): int {
    s.createdAt
  }

  /** `new SOS({userId, message, location, metadata})`: the schema supplies
      `status` and `createdAt`. */
  function NewDocument(id: Id, userId: Option<string>, message: string, location: GeoJson,
                       metadata: map<string, string>, now: int): Sos {
    Sos(id, userId, message, location, DefaultStatus, metadata, now)
  }

  /** A fresh document carries the default status, which is in the enum, and
      the creation time; everything else is what the caller passed. */
  lemma NewDocumentDefaults(id: Id, userId: Option<string>, message: string, location: GeoJson,
                            metadata: map<string, string>, now: int)
    ensures var s := NewDocument(id, userId, message, location, metadata, now);
      && s.status == "open" && IsStatus(s.status) && s.createdAt == now
      && s.id == id && s.userId == userId && s.message == message
      && s.location == location && s.metadata == metadata
  {
  }

  /** The update `{status}` applied to one document. */
  function WithStatus(s: Sos, status: string): Sos {
    s.(status := status)
  }

  /** A status update touches nothing but the status: restoring the old
      status gives back the document, and a second update overrides the
      first. Any status may replace any other. */
  lemma WithStatusOnlyStatus(s: Sos, status: string, later: string)
    ensures WithStatus(s, status).status == status
    ensures WithStatus(WithStatus(s, status), s.status) == s
    ensures WithStatus(WithStatus(s, status), later) == WithStatus(s, later)
    ensures WithStatus(s, status).(status := s.status) == s
  {
  }

  /** Updating keeps a conforming document conforming exactly when the new
      status is in the enum. */
  lemma WithStatusConforms(s: Sos, status: string)
    requires Conforms(s)
    ensures Conforms(WithStatus(s, status)) <==> IsStatus(status)
  {
  }
}
