/**
 * The note editor dialog: its two fields, filled from the note being edited
 * or left blank, the trim guard on saving, and the disabled state of the
 * submit button.
 */
module NotesModal {
  import opened Wrappers
  import Strings
  import opened TrackerTypes

  /** What the dialog reports to its owner. */
  datatype Outcome = SaveNote(title: string, content: string) | CloseDialog

  /** `!title.trim() || !content.trim()`. */
  predicate SubmitDisabled(title: string, content: string) {
    Strings.Trim(title) == "" || Strings.Trim(content) == ""
  }

  /**
   * `handleSave`: `onSave` with the trimmed values when both trimmed fields are
   * non-empty, else nothing. A field fails exactly when it is whitespace only.
   */
  function SaveRequest(title: string, content: string): (r: Option<Outcome>)
    ensures r.Some? <==> !Strings.AllWhitespace(title) && !Strings.AllWhitespace(content)
    ensures r.Some? <==> !SubmitDisabled(title, content)
    ensures r.Some? ==> (r.value == SaveNote(Strings.Trim(title), Strings.Trim(content))
      && Strings.Trim(r.value.title) == r.value.title && Strings.Trim(r.value.content) == r.value.content)
  {
    Strings.TrimEmptyIff(title);
    Strings.TrimEmptyIff(content);
    Strings.TrimIdempotent(title);
    Strings.TrimIdempotent(content);
    if Strings.Trim(title) != "" && Strings.Trim(content) != "" then Some(SaveNote(Strings.Trim(title), Strings.Trim(content)))
    else None
  }

  /** The dialog's form state. */
  class NoteForm {
    var title: string
    var content: string

    /** The initialising effect: the edited note's fields, or blank fields when adding. */
    constructor(editingNote: Option<Note>)
      ensures editingNote.Some? ==> title == editingNote.value.title && content == editingNote.value.content
      ensures editingNote.None? ==> title == "" && content == ""
    {
      if editingNote.Some? {
        title := editingNote.value.title;
        content := editingNote.value.content;
      } else {
        title := "";
        content := "";
      }
    }

    /** Typing in the title field. */
    method SetTitle(value: string)
      modifies this
      ensures title == value && content == old(content)
    {
      title := value;
    }

    /** Typing in the content field. */
    method SetContent(value: string)
      modifies this
      ensures content == value && title == old(title)
    {
      content := value;
    }

    /** Submitting the form: the save request, if the guard lets it through; the fields are left as typed. */
    method HandleSave() returns (outcome: Option<Outcome>)
      ensures outcome == SaveRequest(title, content)
    {
      outcome := SaveRequest(title, content);
    }

    /** Cancel, the close button, or a click on the backdrop: `onClose` and never `onSave`. */
    method HandleClose() returns (outcome: Outcome)
      ensures outcome == CloseDialog && !outcome.SaveNote?
    {
      outcome := CloseDialog;
    }
  }

  /** Whitespace-only input never reaches `onSave`, and whitespace padding around either field does not change what is saved. */
  lemma PaddingIgnored(title: string, content: string, pad: string, tailPad: string)
    requires Strings.AllWhitespace(pad) && Strings.AllWhitespace(tailPad)
    ensures SaveRequest(pad + title + tailPad, content) == SaveRequest(title, content)
    ensures SaveRequest(title, pad + content + tailPad) == SaveRequest(title, content)
    ensures SaveRequest(pad, content).None?
  {
    PadKeepsTrim(title, pad, tailPad);
    PadKeepsTrim(content, pad, tailPad);
  }

  /** Padding keeps both the trimmed text and whether the text is whitespace only. */
  lemma PadKeepsTrim(s: string, pad: string, tailPad: string)
    requires Strings.AllWhitespace(pad) && Strings.AllWhitespace(tailPad)
    ensures Strings.Trim(pad + s + tailPad) == Strings.Trim(s)
    ensures Strings.AllWhitespace(pad + s + tailPad) <==> Strings.AllWhitespace(s)
  {
    Strings.TrimIgnoresPadding(pad, s, tailPad);
    Strings.TrimEmptyIff(pad + s + tailPad);
    Strings.TrimEmptyIff(s);
  }
}
