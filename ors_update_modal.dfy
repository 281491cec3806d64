/**
 * The modal that edits an existing ORS plan. It fills its form from the plan
 * with defaults, and every handler edits a fresh deep copy of the documents,
 * so the plan it was opened with is never changed: the form is a value here.
 */
module OrsUpdateModal {
  import opened Wrappers
  import opened JsText
  import opened Sequences
  import opened Domain
  import opened OrsForm

  /** A copy of one stored document: a missing note list becomes one empty note, missing attachments none. */
  function CopyDocument(doc: StoredDocument): (r: Document)
    ensures doc.textDoc.Some? ==> r.textDoc == doc.textDoc.value
    ensures doc.textDoc.None? ==> r.textDoc == [EmptyNote]
    ensures doc.attachments.Some? ==> r.attachments == doc.attachments.value
    ensures doc.attachments.None? ==> r.attachments == []
  {
    Document(doc.textDoc.GetOr([EmptyNote]), doc.attachments.GetOr([]))
  }

  /** The form a plan opens with: falsy strings take their defaults, missing lists their blank shape. */
  function GetInitialData(data: Option<Plan>): (f: Form)
    ensures f.overallTrafficScore != ""
    ensures data.None? ==> f == BlankForm
    ensures data.Some? ==>
      && f.vehicle == data.value.vehicle
      && f.roadWorthinessScore == data.value.roadWorthinessScore
      && f.actionRequired == data.value.actionRequired
      && f.overallTrafficScore == OrElse(data.value.overallTrafficScore, "B")
    ensures data.Some? && data.value.documents.None? ==> f.documents == [BlankDocument]
    ensures data.Some? && data.value.documents.Some? ==>
      |f.documents| == |data.value.documents.value| &&
      forall i :: 0 <= i < |f.documents| ==> f.documents[i] == CopyDocument(data.value.documents.value[i])
  {
    match data
    case None => BlankForm
    case Some(plan) =>
      Form(
        OrElse(plan.vehicle, ""),
        OrElse(plan.roadWorthinessScore, ""),
        OrElse(plan.overallTrafficScore, "B"),
        OrElse(plan.actionRequired, ""),
        match plan.documents
        case None => [BlankDocument]
        case Some(docs) => seq(|docs|, i requires 0 <= i < |docs| => CopyDocument(docs[i])))
  }

  /** A plan whose fields are all present opens with exactly its own values. */
  lemma GetInitialDataKeepsCompletePlan(plan: Plan)
    requires plan.overallTrafficScore != "" && plan.documents.Some?
    requires forall d :: d in plan.documents.value ==> d.textDoc.Some? && d.attachments.Some?
    ensures var f := GetInitialData(Some(plan));
      && f.vehicle == plan.vehicle && f.roadWorthinessScore == plan.roadWorthinessScore
      && f.overallTrafficScore == plan.overallTrafficScore && f.actionRequired == plan.actionRequired
      && |f.documents| == |plan.documents.value|
      && forall i :: 0 <= i < |f.documents| ==>
           f.documents[i].textDoc == plan.documents.value[i].textDoc.value
           && f.documents[i].attachments == plan.documents.value[i].attachments.value
  {
    var f := GetInitialData(Some(plan));
    forall i | 0 <= i < |f.documents|
      ensures f.documents[i].textDoc == plan.documents.value[i].textDoc.value
      ensures f.documents[i].attachments == plan.documents.value[i].attachments.value
    {
      assert plan.documents.value[i] in plan.documents.value;
    }
  }

  /** An empty grade opens as "B", as a missing one does. */
  lemma EmptyGradeOpensAsB(plan: Plan)
    requires plan.overallTrafficScore == ""
    ensures GetInitialData(Some(plan)).overallTrafficScore == "B"
  {
  }

  /** The form with its first document replaced. */
  function WithFirstDocument(f: Form, doc: Document): (r: Form)
    requires |f.documents| > 0
    ensures |r.documents| == |f.documents| && r.documents[0] == doc
  {
    f.(documents := f.documents[0 := doc])
  }

  /** The payload of `updatePlan`: the plan's id and the form with its score normalised. */
  datatype UpdateRequest = UpdateRequest(orsId: string, orsData: Form)

  function UpdateRequestFor(plan: Plan, form: Form): (req: UpdateRequest)
    ensures req.orsId == plan.id
    ensures req.orsData.roadWorthinessScore == NormalizeScore(form.roadWorthinessScore)
    ensures '%' in req.orsData.roadWorthinessScore
    ensures ParseInt(req.orsData.roadWorthinessScore) == ParseInt(form.roadWorthinessScore)
    ensures req.orsData.(roadWorthinessScore := form.roadWorthinessScore) == form
  {
    NormalizeScoreKeepsValue(form.roadWorthinessScore);
    UpdateRequest(plan.id, form.(roadWorthinessScore := NormalizeScore(form.roadWorthinessScore)))
  }

  /** The open update modal and its form state. */
  class UpdateModal {
    var formData: Form

    constructor (planData: Option<Plan>)
      ensures formData == GetInitialData(planData)
    {
      formData := GetInitialData(planData);
    }

    /** The effect that refills the form whenever a plan is given. */
    method SyncWithPlan(planData: Option<Plan>)
      modifies this
      ensures planData.Some? ==> formData == GetInitialData(planData)
      ensures planData.None? ==> formData == old(formData)
    {
      if planData.Some? {
        formData := GetInitialData(planData);
      }
    }

    method AddNote()
      requires |formData.documents| > 0
      modifies this
      ensures var first := old(formData.documents[0]);
        formData == WithFirstDocument(old(formData), first.(textDoc := first.textDoc + [EmptyNote]))
    {
      var newDocs := formData.documents;
      var first := newDocs[0];
      newDocs := newDocs[0 := first.(textDoc := first.textDoc + [EmptyNote])];
      formData := formData.(documents := newDocs);
    }

    method RemoveNote(index: int)
      requires |formData.documents| > 0
      modifies this
      ensures var first := old(formData.documents[0]);
        formData == WithFirstDocument(old(formData), first.(textDoc := SpliceOne(first.textDoc, index)))
    {
      var newDocs := formData.documents;
      var first := newDocs[0];
      newDocs := newDocs[0 := first.(textDoc := SpliceOne(first.textDoc, index))];
      formData := formData.(documents := newDocs);
    }

    method NoteChange(index: int, field: NoteField, value: string)
      requires |formData.documents| > 0 && 0 <= index < |formData.documents[0].textDoc|
      modifies this
      ensures var first := old(formData.documents[0]);
        formData == WithFirstDocument(old(formData),
          first.(textDoc := first.textDoc[index := SetNoteField(first.textDoc[index], field, value)]))
    {
      var newDocs := formData.documents;
      var first := newDocs[0];
      var notes := first.textDoc;
      notes := notes[index := SetNoteField(notes[index], field, value)];
      newDocs := newDocs[0 := first.(textDoc := notes)];
      formData := formData.(documents := newDocs);
    }

    method AddAttachment()
      requires |formData.documents| > 0
      modifies this
      ensures var first := old(formData.documents[0]);
        formData == WithFirstDocument(old(formData), first.(attachments := first.attachments + [""]))
    {
      var newDocs := formData.documents;
      var first := newDocs[0];
      newDocs := newDocs[0 := first.(attachments := first.attachments + [""])];
      formData := formData.(documents := newDocs);
    }

    method RemoveAttachment(index: int)
      requires |formData.documents| > 0
      modifies this
      ensures var first := old(formData.documents[0]);
        formData == WithFirstDocument(old(formData), first.(attachments := SpliceOne(first.attachments, index)))
    {
      var newDocs := formData.documents;
      var first := newDocs[0];
      newDocs := newDocs[0 := first.(attachments := SpliceOne(first.attachments, index))];
      formData := formData.(documents := newDocs);
    }

    method AttachmentChange(index: int, value: string)
      requires |formData.documents| > 0 && 0 <= index < |formData.documents[0].attachments|
      modifies this
      ensures var first := old(formData.documents[0]);
        formData == WithFirstDocument(old(formData), first.(attachments := first.attachments[index := value]))
    {
      var newDocs := formData.documents;
      var first := newDocs[0];
      newDocs := newDocs[0 := first.(attachments := first.attachments[index := value])];
      formData := formData.(documents := newDocs);
    }
  }

  /** Adding a note and then removing the last one gives back the form the modal had. */
  method AddThenRemoveNoteRestores(modal: UpdateModal)
    requires |modal.formData.documents| > 0
    modifies modal
    ensures modal.formData == old(modal.formData)
  {
    var count := |modal.formData.documents[0].textDoc|;
    modal.AddNote();
    modal.RemoveNote(count);
    SpliceOneUndoesPush(old(modal.formData.documents[0].textDoc), EmptyNote);
  }

  /** Adding an attachment and then removing the last one gives back the form the modal had. */
  method AddThenRemoveAttachmentRestores(modal: UpdateModal)
    requires |modal.formData.documents| > 0
    modifies modal
    ensures modal.formData == old(modal.formData)
  {
    var count := |modal.formData.documents[0].attachments|;
    modal.AddAttachment();
    modal.RemoveAttachment(count);
    SpliceOneUndoesPush(old(modal.formData.documents[0].attachments), "");
  }
}
