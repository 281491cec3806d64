/** The records the dashboard exchanges with its backend. */
module Domain {
  import opened Wrappers

  /** A user account (`TUser`); the session's `user` has the same shape. */
  datatype User = User(id: string, username: string, email: string, role: string)

  /**
   * A reference to a user inside a plan: the backend sends either the bare
   * identifier or the populated object, whose `_id` may be absent.
   */
  datatype Ref = IdRef(id: string) | ObjectRef(objectId: Option<string>)

  /** One documentation note (`TTextDoc`); `labelText` is its `label` field. */
  datatype Note = Note(labelText: string, description: string)

  const EmptyNote := Note("", "")

  /** A document as the backend may send it: either list can be missing. */
  datatype StoredDocument = StoredDocument(textDoc: Option<seq<Note>>, attachments: Option<seq<string>>)

  /**
   * An ORS plan (`TORSPlan`) as the list endpoint returns it, with the
   * `assignedTo` and `createdBy` references that the visibility rule reads.
   * A string field the backend leaves out is represented by "".
   */
  datatype Plan = Plan(
    id: string,
    vehicle: string,
    roadWorthinessScore: string,
    overallTrafficScore: string,
    actionRequired: string,
    documents: Option<seq<StoredDocument>>,
    createdAt: string,
    assignedTo: Option<Ref>,
    createdBy: Option<Ref>)
}
