/**
 * The global-notes panel: the note list it shows and the lists it hands to
 * `onUpdateNotes` when a note is deleted, edited or added. The clock readings
 * a new or edited note takes are parameters.
 */
module NotesPanel {
  import opened Wrappers
  import Seqs
  import opened TrackerTypes

  /** `currentGame?.globalNotes || []`. */
  function NotesOf(game: Option<Game>): (notes: seq<Note>)
    ensures game.None? || game.value.globalNotes.None? ==> notes == []
    ensures game.Some? && game.value.globalNotes.Some? ==> notes == game.value.globalNotes.value
  {
    if game.Some? && game.value.globalNotes.Some? then game.value.globalNotes.value else []
  }

  /** `handleDeleteNote`, confirmed: the notes without that id, in their order. */
  function DeleteNote(notes: seq<Note>, noteId: int): (r: seq<Note>)
    ensures forall n :: n in r <==> n in notes && n.id != noteId
    ensures Seqs.IsSubsequence(r, notes)
  {
    Seqs.FilterSpec(notes, (n: Note) => n.id != noteId);
    Seqs.FilterIsSubsequence(notes, (n: Note) => n.id != noteId);
    Seqs.Filter(notes, (n: Note) => n.id != noteId)
  }

  /** Editing: every note with the edited note's id takes the new title, content and modification time; the list keeps its length and order. */
  function EditNote(notes: seq<Note>, editingId: int, title: string, content: string, now: int): (r: seq<Note>)
    ensures |r| == |notes|
    ensures forall i :: 0 <= i < |notes| && notes[i].id != editingId ==> r[i] == notes[i]
    ensures forall i :: 0 <= i < |notes| && notes[i].id == editingId ==>
      r[i].title == title && r[i].content == content && r[i].lastModified == now
  {
    seq(|notes|, i requires 0 <= i < |notes| =>
      if notes[i].id == editingId then notes[i].(title := title, content := content, lastModified := now) else notes[i])
  }

  /** An edit never changes a note's id or creation time. */
  lemma EditKeepsIdentity(notes: seq<Note>, editingId: int, title: string, content: string, now: int)
    ensures var r := EditNote(notes, editingId, title, content, now);
      forall i :: 0 <= i < |notes| ==> r[i].id == notes[i].id && r[i].created == notes[i].created
  {
  }

  /** Adding: one new note at the end; `id`, `created` and `lastModified` are the three clock readings taken. */
  function AddNote(notes: seq<Note>, id: int, title: string, content: string, created: int, lastModified: int): (r: seq<Note>)
    ensures |r| == |notes| + 1 && r[..|notes|] == notes
    ensures r[|notes|] == Note(id, title, content, created, lastModified)
  {
    notes + [Note(id, title, content, created, lastModified)]
  }

  /** `handleSaveNote`: edit when a note is being edited, else add. */
  function SaveNote(notes: seq<Note>, editingNote: Option<Note>, title: string, content: string, id: int, created: int, now: int): (r: seq<Note>)
    ensures editingNote.Some? ==> r == EditNote(notes, editingNote.value.id, title, content, now)
    ensures editingNote.None? ==> r == AddNote(notes, id, title, content, created, now)
  {
    if editingNote.Some? then EditNote(notes, editingNote.value.id, title, content, now)
    else AddNote(notes, id, title, content, created, now)
  }

  /**
   * Deleting a note just added with a fresh id gives back the list it was added
   * to; with one clock reading for both stamps the new note's `created` equals
   * its `lastModified`.
   */
  lemma AddThenDelete(notes: seq<Note>, id: int, title: string, content: string, now: int)
    requires forall i :: 0 <= i < |notes| ==> notes[i].id != id
    ensures DeleteNote(AddNote(notes, id, title, content, now, now), id) == notes
    ensures var n := AddNote(notes, id, title, content, now, now)[|notes|]; n.created == n.lastModified
  {
    var p := (n: Note) => n.id != id;
    Seqs.FilterAll(notes, p);
    FilterSnoc(notes, Note(id, title, content, now, now), p);
  }

  lemma {:induction false} FilterSnoc<T>(s: seq<T>, x: T, p: T -> bool)
    requires !p(x)
    ensures Seqs.Filter(s + [x], p) == Seqs.Filter(s, p)
  {
    if s == [] {
      assert Seqs.Filter([x], p) == (if p(x) then [x] else []) + Seqs.Filter([x][1..], p);
    } else {
      assert (s + [x])[1..] == s[1..] + [x];
      FilterSnoc(s[1..], x, p);
    }
  }
}
