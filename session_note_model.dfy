/** The SessionNote schema. */
module SessionNoteModel {
  import opened Tables

  /** `createdAt` is the clock reading taken when the note was built. */
  datatype SessionNote = SessionNote(
    appointment: Id,
    counselor: Id,
    client: Id,
    notes: string,
    attachments: seq<string>,
    createdAt: int)

  /** The required string field is present. */
  predicate WellFormed(n: SessionNote)
  {
    n.notes != ""
  }
}
