/**
 * The ORS plan form that both the create and the update modal edit, and the
 * score rules both apply: the '%' normalisation on submit and the displayed total.
 */
module OrsForm {
  import opened Wrappers
  import opened JsText
  import opened Sequences
  import opened Domain

  /** A document of the form: both lists always present. */
  datatype Document = Document(textDoc: seq<Note>, attachments: seq<string>)

  /** The form state of either modal. */
  datatype Form = Form(
    vehicle: string,
    roadWorthinessScore: string,
    overallTrafficScore: string,
    actionRequired: string,
    documents: seq<Document>)

  /** Which field of a note an input edits. */
  datatype NoteField = Label | Description

  function SetNoteField(note: Note, field: NoteField, value: string): (r: Note)
    ensures field == Label ==> r.labelText == value && r.description == note.description
    ensures field == Description ==> r.description == value && r.labelText == note.labelText
  {
    match field
    case Label => note.(labelText := value)
    case Description => note.(description := value)
  }

  /** One document with one empty note and no attachments. */
  const BlankDocument := Document([EmptyNote], [])

  /** Empty vehicle, score and action, grade "B", and one blank document. */
  const BlankForm := Form("", "", "B", "", [BlankDocument])

  /** The score as submitted: unchanged when it contains '%', otherwise with '%' appended. */
  function NormalizeScore(score: string): (r: string)
    ensures '%' in r
    ensures score <= r && |r| <= |score| + 1
    ensures '%' in score ==> r == score
  {
    if '%' in score then score else score + "%"
  }

  lemma NormalizeScoreIdempotent(score: string)
    ensures NormalizeScore(NormalizeScore(score)) == NormalizeScore(score)
  {
  }

  /** Normalising never changes the number `parseInt` reads, so a plan stays in its score band. */
  lemma NormalizeScoreKeepsValue(score: string)
    ensures ParseInt(NormalizeScore(score)) == ParseInt(score)
  {
    if '%' !in score {
      ParseIntIgnoresPercentSuffix(score);
    }
  }

  /**
   * The "Calculated Total ORS" line: the score with its first '%' removed,
   * "0" when nothing is left, then '%'.
   */
  function DisplayTotal(score: string): (r: string)
    ensures |r| >= 2 && r[|r| - 1] == '%'
    ensures '%' !in score && score != "" ==> r == score + "%"
    ensures '%' !in score ==> r == OrElse(score, "0") + "%"
    ensures '%' in score ==>
      var k := IndexOf(score, '%');
      r == OrElse(score[..k] + score[k + 1..], "0") + "%"
  {
    OrElse(RemoveFirst(score, '%'), "0") + "%"
  }

  /** An empty score shows "0%", */
  lemma DisplayTotalOfEmpty()
    ensures DisplayTotal("") == "0%"
  {
  }

  /** "78" shows "78%", */
  lemma DisplayTotalOfPlainScore()
    ensures DisplayTotal("78") == "78%"
  {
    assert '%' !in "78";
  }

  /** and so does "78%". */
  lemma DisplayTotalOfPercentScore()
    ensures DisplayTotal("78%") == "78%"
  {
    DisplayTotalUnchangedByNormalize("78");
    assert '%' !in "78";
    assert NormalizeScore("78") == "78%";
  }

  /** Submitting does not change the displayed total. */
  lemma DisplayTotalUnchangedByNormalize(score: string)
    ensures DisplayTotal(NormalizeScore(score)) == DisplayTotal(score)
  {
    if '%' !in score {
      RemoveFirstOfAppended(score, '%');
      assert score + "%" == score + ['%'];
    }
  }

  /** The remove button of a note is shown only while the document has more than one note. */
  predicate NoteRemovalOffered(textDoc: seq<Note>) {
    |textDoc| > 1
  }

  /** Through the UI the note list never becomes empty. */
  lemma OfferedNoteRemovalKeepsANote(textDoc: seq<Note>, index: int)
    requires NoteRemovalOffered(textDoc) && 0 <= index < |textDoc|
    ensures |SpliceOne(textDoc, index)| == |textDoc| - 1 >= 1
  {
  }
}
