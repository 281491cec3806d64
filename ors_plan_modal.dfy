/**
 * The modal that creates an ORS plan. Its handlers copy only the outer
 * `documents` list, so they push into, splice and assign the very note and
 * attachment lists of `documents[0]` that the previous form state holds, and
 * the first form state is the module-level `initialState` itself. The
 * document is therefore an object shared by reference.
 */
module OrsPlanModal {
  import opened Wrappers
  import opened JsText
  import opened Sequences
  import opened Domain
  import opened OrsForm

  /** `documents[0]`: one object whose two lists the handlers change in place. */
  class SharedDocument {
    var textDoc: seq<Note>
    var attachments: seq<string>

    constructor Blank()
      ensures textDoc == [EmptyNote] && attachments == []
    {
      textDoc := [EmptyNote];
      attachments := [];
    }
  }

  /** A form state of the create modal: plain fields and the list of shared documents. */
  datatype FormState = FormState(
    vehicle: string,
    roadWorthinessScore: string,
    overallTrafficScore: string,
    actionRequired: string,
    documents: seq<SharedDocument>)

  /** The values a form state currently shows. */
  function Snapshot(s: FormState): (f: Form)
    reads s.documents
    ensures |f.documents| == |s.documents|
    ensures forall i :: 0 <= i < |s.documents| ==>
      f.documents[i] == Document(s.documents[i].textDoc, s.documents[i].attachments)
  {
    Form(s.vehicle, s.roadWorthinessScore, s.overallTrafficScore, s.actionRequired,
      seq(|s.documents|, i reads s.documents requires 0 <= i < |s.documents| =>
        Document(s.documents[i].textDoc, s.documents[i].attachments)))
  }

  /** The form shows empty fields, grade "B" and one document with one empty note. */
  predicate IsBlank(s: FormState)
    reads s.documents
  {
    Snapshot(s) == BlankForm
  }

  /** The module-level `initialState`, created once when the module loads. */
  method NewInitialState() returns (s: FormState)
    ensures IsBlank(s)
    ensures |s.documents| == 1 && fresh(s.documents[0])
  {
    var doc := new SharedDocument.Blank();
    s := FormState("", "", "B", "", [doc]);
    assert Snapshot(s).documents == [BlankDocument];
  }

  /** The open create modal. */
  class PlanModal {
    const initialState: FormState
    var formData: FormState

    /** `useState(initialState)`: the first form state is the shared initial state itself. */
    constructor (initialState: FormState)
      ensures this.initialState == initialState && formData == initialState
    {
      this.initialState := initialState;
      formData := initialState;
    }

    method SetVehicle(value: string)
      modifies this
      ensures formData == old(formData).(vehicle := value)
    {
      formData := formData.(vehicle := value);
    }

    method SetScore(value: string)
      modifies this
      ensures formData == old(formData).(roadWorthinessScore := value)
    {
      formData := formData.(roadWorthinessScore := value);
    }

    method SetGrade(value: string)
      modifies this
      ensures formData == old(formData).(overallTrafficScore := value)
    {
      formData := formData.(overallTrafficScore := value);
    }

    method SetActionRequired(value: string)
      modifies this
      ensures formData == old(formData).(actionRequired := value)
    {
      formData := formData.(actionRequired := value);
    }

    method AddNote()
      requires |formData.documents| > 0
      modifies this, formData.documents[0]
      ensures formData == old(formData)
      ensures formData.documents[0].textDoc == old(formData.documents[0].textDoc) + [EmptyNote]
      ensures formData.documents[0].attachments == old(formData.documents[0].attachments)
    {
      var newDocs := formData.documents;
      newDocs[0].textDoc := newDocs[0].textDoc + [EmptyNote];
      formData := formData.(documents := newDocs);
    }

    method RemoveNote(index: int)
      requires |formData.documents| > 0
      modifies this, formData.documents[0]
      ensures formData == old(formData)
      ensures formData.documents[0].textDoc == SpliceOne(old(formData.documents[0].textDoc), index)
      ensures formData.documents[0].attachments == old(formData.documents[0].attachments)
      ensures NoteRemovalOffered(old(formData.documents[0].textDoc)) && 0 <= index < old(|formData.documents[0].textDoc|)
        ==> |formData.documents[0].textDoc| >= 1
    {
      var newDocs := formData.documents;
      newDocs[0].textDoc := SpliceOne(newDocs[0].textDoc, index);
      formData := formData.(documents := newDocs);
    }

    method NoteChange(index: int, field: NoteField, value: string)
      requires |formData.documents| > 0 && 0 <= index < |formData.documents[0].textDoc|
      modifies this, formData.documents[0]
      ensures formData == old(formData)
      ensures var notes := old(formData.documents[0].textDoc);
        formData.documents[0].textDoc == notes[index := SetNoteField(notes[index], field, value)]
      ensures formData.documents[0].attachments == old(formData.documents[0].attachments)
    {
      var newDocs := formData.documents;
      newDocs[0].textDoc := newDocs[0].textDoc[index := SetNoteField(newDocs[0].textDoc[index], field, value)];
      formData := formData.(documents := newDocs);
    }

    method AddAttachment()
      requires |formData.documents| > 0
      modifies this, formData.documents[0]
      ensures formData == old(formData)
      ensures formData.documents[0].attachments == old(formData.documents[0].attachments) + [""]
      ensures formData.documents[0].textDoc == old(formData.documents[0].textDoc)
    {
      var newDocs := formData.documents;
      newDocs[0].attachments := newDocs[0].attachments + [""];
      formData := formData.(documents := newDocs);
    }

    method RemoveAttachment(index: int)
      requires |formData.documents| > 0
      modifies this, formData.documents[0]
      ensures formData == old(formData)
      ensures formData.documents[0].attachments == SpliceOne(old(formData.documents[0].attachments), index)
      ensures formData.documents[0].textDoc == old(formData.documents[0].textDoc)
    {
      var newDocs := formData.documents;
      newDocs[0].attachments := SpliceOne(newDocs[0].attachments, index);
      formData := formData.(documents := newDocs);
    }

    method AttachmentChange(index: int, value: string)
      requires |formData.documents| > 0 && 0 <= index < |formData.documents[0].attachments|
      modifies this, formData.documents[0]
      ensures formData == old(formData)
      ensures formData.documents[0].attachments == old(formData.documents[0].attachments)[index := value]
      ensures formData.documents[0].textDoc == old(formData.documents[0].textDoc)
    {
      var newDocs := formData.documents;
      newDocs[0].attachments := newDocs[0].attachments[index := value];
      formData := formData.(documents := newDocs);
    }

    /** The payload handed to `createPlan`: what the form shows, with its score normalised. */
    function SubmitPayload(): (payload: Form)
      reads this, formData.documents
      ensures payload.roadWorthinessScore == NormalizeScore(formData.roadWorthinessScore)
      ensures '%' in payload.roadWorthinessScore
      ensures ParseInt(payload.roadWorthinessScore) == ParseInt(formData.roadWorthinessScore)
      ensures payload.(roadWorthinessScore := formData.roadWorthinessScore) == Snapshot(formData)
    {
      NormalizeScoreKeepsValue(formData.roadWorthinessScore);
      var shown := Snapshot(formData);
      shown.(roadWorthinessScore := NormalizeScore(shown.roadWorthinessScore))
    }

    /** The total shown under the score input. */
    function ShownTotal(): (r: string)
      reads this
      ensures |r| >= 2 && r[|r| - 1] == '%'
      ensures '%' !in formData.roadWorthinessScore ==> r == OrElse(formData.roadWorthinessScore, "0") + "%"
      ensures '%' in formData.roadWorthinessScore ==>
        var score := formData.roadWorthinessScore;
        var k := IndexOf(score, '%');
        r == OrElse(score[..k] + score[k + 1..], "0") + "%"
    {
      DisplayTotal(formData.roadWorthinessScore)
    }

    /**
     * `setFormData(initialState)` after a successful create, as written: the
     * form goes back to the shared initial state, whose document the handlers
     * have been editing all along.
     */
    method ClearAfterSubmit()
      modifies this
      ensures formData == initialState
    {
      formData := initialState;
    }

    /** The clear that was intended: a blank form with a document of its own. */
    method ResetAfterSubmit()
      modifies this
      ensures IsBlank(formData)
      ensures |formData.documents| == 1 && fresh(formData.documents[0])
    {
      formData := NewInitialState();
    }
  }

  /**
   * As written: add a note, submit, and the cleared form still shows two
   * notes, because the note went into the initial state's own document.
   */
  method ClearedFormKeepsAddedNote() returns (notes: seq<Note>)
    ensures notes == [EmptyNote, EmptyNote]
  {
    var initialState := NewInitialState();
    var modal := new PlanModal(initialState);
    modal.AddNote();
    modal.ClearAfterSubmit();
    notes := modal.formData.documents[0].textDoc;
  }

  /** As written: a link typed before submitting is still there after the clear. */
  method ClearedFormKeepsAttachment(link: string) returns (attachments: seq<string>)
    ensures attachments == [link]
  {
    var initialState := NewInitialState();
    var modal := new PlanModal(initialState);
    modal.AddAttachment();
    modal.AttachmentChange(0, link);
    modal.ClearAfterSubmit();
    attachments := modal.formData.documents[0].attachments;
  }

  /** Corrected: after the same edits the reset form shows one empty note and no links. */
  method ResetFormIsBlank(link: string) returns (notes: seq<Note>, attachments: seq<string>)
    ensures notes == [EmptyNote] && attachments == []
  {
    var initialState := NewInitialState();
    var modal := new PlanModal(initialState);
    modal.AddNote();
    modal.AddAttachment();
    modal.AttachmentChange(0, link);
    modal.ResetAfterSubmit();
    notes := modal.formData.documents[0].textDoc;
    attachments := modal.formData.documents[0].attachments;
  }
}
