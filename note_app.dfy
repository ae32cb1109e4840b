/**
  The NoteMate client's note list and its premium helpers (client/src/pages/App.tsx):
  the list transformations behind New, edit and Delete, the `isPremium` flag derived
  from the fetched license state, and the markdown export's file name and content.

  React state becomes the fields of `AppState`; each handler is one atomic update.
  `crypto.randomUUID()` and `new Date().toISOString()` are parameters.
 */
module NoteMateApp {
  import opened Wrappers
  import opened JsonValue

  datatype Note = Note(id: string, title: string, content: string, updatedAt: string)

  /** `Partial<Note>`: `Some` for each field the patch carries. */
  datatype Patch = Patch(id: Option<string>, title: Option<string>, content: Option<string>, updatedAt: Option<string>)

  /** The note `newNote` creates. */
  function Untitled(id: string, now: string): Note {
    Note(id, "Untitled", "", now)
  }

  /** `{ ...n, ...patch, updatedAt: now }`: a field the patch carries takes the patch's value,
      any other field is kept, and the timestamp is always the fresh one, even over a patched `updatedAt`. */
  function Merge(n: Note, patch: Patch, now: string): (m: Note)
    ensures m.updatedAt == now
    ensures m.id == if patch.id.Some? then patch.id.value else n.id
    ensures m.title == if patch.title.Some? then patch.title.value else n.title
    ensures m.content == if patch.content.Some? then patch.content.value else n.content
  {
    Note(patch.id.GetOr(n.id), patch.title.GetOr(n.title), patch.content.GetOr(n.content), now)
  }

  // ----- List transformations -----

  /** `list.map(n => n.id === id ? { ...n, ...patch, updatedAt: now } : n)`:
      the list keeps its length and only the notes with that id change. */
  function PatchById(notes: seq<Note>, id: string, patch: Patch, now: string): (r: seq<Note>)
    ensures |r| == |notes|
    ensures forall i :: 0 <= i < |notes| ==>
      r[i] == if notes[i].id == id then Merge(notes[i], patch, now) else notes[i]
  {
    if notes == [] then []
    else [if notes[0].id == id then Merge(notes[0], patch, now) else notes[0]]
         + PatchById(notes[1..], id, patch, now)
  }

  /** `list.filter(n => n.id !== id)`: every note with that id goes, every other note stays. */
  function RemoveId(notes: seq<Note>, id: string): (r: seq<Note>)
    ensures |r| <= |notes|
    ensures forall n :: n in r ==> n in notes && n.id != id
    ensures forall n :: n in notes && n.id != id ==> n in r
  {
    if notes == [] then []
    else (if notes[0].id == id then [] else [notes[0]]) + RemoveId(notes[1..], id)
  }

  /** Filtering distributes over concatenation, so the kept notes keep their order. */
  lemma {:induction false} RemoveIdConcat(a: seq<Note>, b: seq<Note>, id: string)
    ensures RemoveId(a + b, id) == RemoveId(a, id) + RemoveId(b, id)
  {
    if a == [] {
      assert a + b == b;
    } else {
      assert (a + b)[1..] == a[1..] + b;
      RemoveIdConcat(a[1..], b, id);
    }
  }

  /** A list with no note of that id is left as it is. */
  lemma {:induction false} RemoveIdAbsent(notes: seq<Note>, id: string)
    requires forall i :: 0 <= i < |notes| ==> notes[i].id != id
    ensures RemoveId(notes, id) == notes
  {
    if notes != [] {
      RemoveIdAbsent(notes[1..], id);
    }
  }

  /** Deleting twice is deleting once. */
  lemma RemoveIdIdempotent(notes: seq<Note>, id: string)
    ensures RemoveId(RemoveId(notes, id), id) == RemoveId(notes, id)
  {
    var r := RemoveId(notes, id);
    forall i | 0 <= i < |r| ensures r[i].id != id {
      assert r[i] in r;
    }
    RemoveIdAbsent(r, id);
  }

  /** Deleting the note `newNote` just created, under a fresh id, restores the list. */
  lemma {:induction false} DeleteUndoesNew(notes: seq<Note>, id: string, now: string)
    requires forall i :: 0 <= i < |notes| ==> notes[i].id != id
    ensures RemoveId([Untitled(id, now)] + notes, id) == notes
  {
    RemoveIdConcat([Untitled(id, now)], notes, id);
    RemoveIdAbsent(notes, id);
  }

  // ----- The premium flag -----

  /** `!!licState && licState.tier === 'PRO'`: only an object whose `tier` is the string PRO. */
  function IsPremium(licState: Json): (premium: bool)
    ensures premium <==> licState.JObj? && Get(licState, "tier") == Some(JStr("PRO"))
  {
    Truthy(licState) && Get(licState, "tier") == Some(JStr("PRO"))
  }

  // ----- Export -----

  /** A character the pattern `[^a-z0-9]` with flag `i` leaves alone. */
  predicate IsAlnum(c: char) {
    'a' <= c <= 'z' || 'A' <= c <= 'Z' || '0' <= c <= '9'
  }

  /** `title.replace(/[^a-z0-9]/gi, '_')` */
  function Sanitize(title: string): (r: string)
    ensures |r| == |title|
    ensures forall i :: 0 <= i < |title| ==> r[i] == if IsAlnum(title[i]) then title[i] else '_'
  {
    if title == [] then []
    else [if IsAlnum(title[0]) then title[0] else '_'] + Sanitize(title[1..])
  }

  /** The download's name: as long as the title plus `.md`, only letters, digits and `_`
      before the extension, every letter and digit of the title kept in place and every
      other character replaced by `_`. */
  function ExportFileName(title: string): (r: string)
    ensures |r| == |title| + 3 && r[|title|..] == ".md"
    ensures forall i :: 0 <= i < |title| ==> IsAlnum(r[i]) || r[i] == '_'
    ensures forall i :: 0 <= i < |title| ==> (r[i] == title[i] <==> IsAlnum(title[i]) || title[i] == '_')
    ensures forall i :: 0 <= i < |title| ==> r[i] == if IsAlnum(title[i]) then title[i] else '_'
  {
    Sanitize(title) + ".md"
  }

  /** Sanitising a sanitised title changes nothing. */
  lemma SanitizeIdempotent(title: string)
    ensures Sanitize(Sanitize(title)) == Sanitize(title)
  {
    var s := Sanitize(title);
    assert forall i :: 0 <= i < |s| ==> Sanitize(s)[i] == s[i];
  }

  /** The markdown blob: `# ${title}\n\n${content}`. */
  function ExportContent(n: Note): string {
    "# " + n.title + "\n\n" + n.content
  }

  /** The first line break at or after `from` (or the end). */
  function NextNewline(s: string, from: nat): (i: nat)
    requires from <= |s|
    ensures from <= i <= |s|
    ensures i < |s| ==> s[i] == '\n'
    ensures forall k :: from <= k < i ==> s[k] != '\n'
    decreases |s| - from
  {
    if from == |s| || s[from] == '\n' then from else NextNewline(s, from + 1)
  }

  /** Reads a title and a content back from an exported blob. */
  function SplitExport(s: string): Option<(string, string)> {
    if |s| < 2 || s[..2] != "# " then None
    else
      var i := NextNewline(s, 2);
      if i + 2 <= |s| && s[i + 1] == '\n' then Some((s[2..i], s[i + 2..])) else None
  }

  /** The export is lossless for titles typed into the single-line title input. */
  lemma ExportRoundTrip(n: Note)
    requires forall k :: 0 <= k < |n.title| ==> n.title[k] != '\n'
    ensures SplitExport(ExportContent(n)) == Some((n.title, n.content))
  {
    var s := ExportContent(n);
    var t := |n.title|;
    assert s[..2] == "# ";
    assert s[2 + t] == '\n' && s[3 + t] == '\n';
    forall k | 2 <= k < 2 + t ensures s[k] != '\n' {
      assert s[k] == n.title[k - 2];
    }
    var i := NextNewline(s, 2);
    assert i == 2 + t;
    assert s[2..i] == n.title;
    assert s[i + 2..] == n.content;
  }

  datatype Download = Download(fileName: string, content: string)

  /** `handleExport`: nothing without an edited note; otherwise the download happens
      only when the server's exportPDF route answered 2xx (`status` 0 stands for no answer). */
  function ExportDownload(editing: Option<Note>, status: int): (r: Option<Download>)
    ensures r.Some? <==> editing.Some? && 200 <= status < 300
    ensures r.Some? ==> r.value.fileName == ExportFileName(editing.value.title)
    ensures r.Some? ==> r.value.content == ExportContent(editing.value)
  {
    if editing.None? || !(200 <= status < 300) then None
    else
      var n := editing.value;
      Some(Download(ExportFileName(n.title), ExportContent(n)))
  }

  // ----- The component's state -----

  /** Two notes agree on everything but `updatedAt`. */
  predicate SameNote(a: Note, b: Note) {
    a.id == b.id && a.title == b.title && a.content == b.content
  }

  /** The `App` component's state: the note list, the note being edited and the fetched license state. */
  class AppState {
    var notes: seq<Note>
    var editing: Option<Note>
    var licState: Json

    /** The edited note is always one of the listed notes, up to when each was last stamped. */
    ghost predicate Valid()
      reads this
    {
      editing.Some? ==> exists i :: 0 <= i < |notes| && SameNote(notes[i], editing.value)
    }

    constructor ()
      ensures Valid() && notes == [] && editing == None && licState == JNull
    {
      notes := [];
      editing := None;
      licState := JNull;
    }

    /** `newNote`: prepend an untitled note and edit it. */
    method NewNote(id: string, now: string)
      requires Valid()
      modifies this
      ensures Valid()
      ensures notes == [Untitled(id, now)] + old(notes)
      ensures editing == Some(Untitled(id, now))
      ensures licState == old(licState)
    {
      var n := Untitled(id, now);
      notes := [n] + notes;
      editing := Some(n);
      assert SameNote(notes[0], n);
    }

    /** `updateNote`: merge the patch into the edited note and into every listed note with its id.
        The source reads the clock once for the edited note (`editNow`) and again for the list (`listNow`). */
    method UpdateNote(patch: Patch, editNow: string, listNow: string)
      requires Valid()
      modifies this
      ensures Valid()
      ensures old(editing).None? ==> notes == old(notes) && editing == old(editing)
      ensures old(editing).Some? ==>
        && editing == Some(Merge(old(editing).value, patch, editNow))
        && notes == PatchById(old(notes), old(editing).value.id, patch, listNow)
      ensures licState == old(licState)
    {
      if editing.None? {
        return;
      }
      var e := editing.value;
      ghost var j :| 0 <= j < |notes| && SameNote(notes[j], e);
      editing := Some(Merge(e, patch, editNow));
      notes := PatchById(notes, e.id, patch, listNow);
      assert SameNote(notes[j], editing.value);
    }

    /** `deleteNote(id)`: drop every note with that id; stop editing iff the edited note has it. */
    method DeleteNote(id: string)
      requires Valid()
      modifies this
      ensures Valid()
      ensures notes == RemoveId(old(notes), id)
      ensures editing == if old(editing).Some? && old(editing).value.id == id then None else old(editing)
      ensures licState == old(licState)
    {
      ghost var before := notes;
      notes := RemoveId(notes, id);
      if editing.Some? && editing.value.id == id {
        editing := None;
      } else if editing.Some? {
        ghost var j :| 0 <= j < |before| && SameNote(before[j], editing.value);
        assert before[j] in before && before[j] in notes;
        ghost var k :| 0 <= k < |notes| && notes[k] == before[j];
        assert SameNote(notes[k], editing.value);
      }
    }

    /** A click on a listed note makes it the edited one. */
    method Select(n: Note)
      requires Valid() && n in notes
      modifies this
      ensures Valid()
      ensures editing == Some(n) && notes == old(notes) && licState == old(licState)
    {
      ghost var k :| 0 <= k < |notes| && notes[k] == n;
      editing := Some(n);
      assert SameNote(notes[k], n);
    }

    /** `loadLicenseState`: keep the fetched state; a failed fetch (`None`) is ignored. */
    method LoadLicenseState(fetched: Option<Json>)
      modifies this
      ensures licState == fetched.GetOr(old(licState))
      ensures notes == old(notes) && editing == old(editing)
    {
      if fetched.Some? {
        licState := fetched.value;
      }
    }

    /** `handleExport`, given the status the exportPDF route answered. */
    method Export(status: int) returns (download: Option<Download>)
      ensures download == ExportDownload(editing, status)
    {
      if editing.None? {
        return None;
      }
      if !(200 <= status < 300) {
        return None;
      }
      var n := editing.value;
      download := Some(Download(ExportFileName(n.title), ExportContent(n)));
    }
  }
}
