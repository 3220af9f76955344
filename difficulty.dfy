/** One difficulty of a chart: its notes, keyed by `(beat, lane)`, and the note types
    they refer to, keyed by name. */
module Difficulties {
  import opened Wrappers
  import opened Sequences

  /** A lane index, an 8-bit unsigned integer. */
  type Lane = x: int | 0 <= x < 256

  /** A kind of note. Handed out by reference and never changed. */
  class NoteType {
    const name: string
    const isMine: bool
    const isRoll: bool

    constructor (name: string, isMine: bool, isRoll: bool)
      ensures this.name == name && this.isMine == isMine && this.isRoll == isRoll
    {
      this.name := name;
      this.isMine := isMine;
      this.isRoll := isRoll;
    }
  }

  /** A note. Its type is a non-owning reference; `null` stands for an empty one. */
  datatype Note = Note(noteType: NoteType?, beat: real, holdLength: real, lane: Lane)

  /** The fields an edit may replace; an absent field is left as it is. */
  datatype EditNoteParams = EditNoteParams(noteType: Option<NoteType?>, holdLength: Option<real>)

  /** What adding a note reports: done, or the exception naming the occupied key. */
  datatype AddNoteOutcome = Added | NoteAlreadyExists(beat: real, lane: Lane)

  // ---------------------------------------------------------------------------
  // Notes, keyed by (beat, lane)

  predicate IsAt(n: Note, beat: real, lane: Lane)
  {
    n.beat == beat && n.lane == lane
  }

  predicate DistinctKeys(a: Note, b: Note)
  {
    !IsAt(a, b.beat, b.lane)
  }

  /** No two notes share a `(beat, lane)` key. */
  predicate UniqueKeys(notes: seq<Note>)
  {
    Pairwise(notes, DistinctKeys)
  }

  /** Some note sits at `(beat, lane)`. */
  predicate Occupied(notes: seq<Note>, beat: real, lane: Lane)
  {
    exists i :: 0 <= i < |notes| && IsAt(notes[i], beat, lane)
  }

  /** The first note at `(beat, lane)`, the search `addNote` and `editNote` perform. */
  function FindNote(notes: seq<Note>, beat: real, lane: Lane): (r: Option<nat>)
    ensures r.Some? <==> Occupied(notes, beat, lane)
    ensures r.Some? ==> r.value < |notes| && IsAt(notes[r.value], beat, lane)
    ensures r.Some? ==> forall j :: 0 <= j < r.value ==> !IsAt(notes[j], beat, lane)
  {
    FirstMatch(notes, n => IsAt(n, beat, lane))
  }

  /** Under unique keys the note found is the only one at its key. */
  lemma FoundNoteIsOnly(notes: seq<Note>, beat: real, lane: Lane)
    requires UniqueKeys(notes) && FindNote(notes, beat, lane).Some?
    ensures forall j :: 0 <= j < |notes| && IsAt(notes[j], beat, lane) ==> j == FindNote(notes, beat, lane).value
  {
    var k := FindNote(notes, beat, lane).value;
    assert forall j :: k < j < |notes| ==> DistinctKeys(notes[k], notes[j]);
  }

  /** Adding to a free key keeps the keys unique. */
  lemma AddNoteKeepsUnique(notes: seq<Note>, n: Note)
    requires UniqueKeys(notes) && !Occupied(notes, n.beat, n.lane)
    ensures UniqueKeys(notes + [n])
  {
    forall i | 0 <= i < |notes| ensures DistinctKeys(notes[i], n) {
      assert !IsAt(notes[i], n.beat, n.lane);
    }
    PairwiseAppend(notes, n, DistinctKeys);
  }

  /** A note added to a free key is then the one found at that key. */
  lemma AddedNoteIsFound(notes: seq<Note>, n: Note)
    requires !Occupied(notes, n.beat, n.lane)
    ensures FindNote(notes + [n], n.beat, n.lane) == Some(|notes|)
  {
    FirstMatchAppend(notes, n, m => IsAt(m, n.beat, n.lane));
  }

  /** A note with the optional fields of `params` replacing its own. */
  function Edited(n: Note, params: EditNoteParams): (r: Note)
  {
    n.(noteType := if params.noteType.Some? then params.noteType.value else n.noteType,
       holdLength := if params.holdLength.Some? then params.holdLength.value else n.holdLength)
  }

  /** The notes after `editNote`: the first note at the key is edited, nothing else moves. */
  function EditNoteIn(notes: seq<Note>, beat: real, lane: Lane, params: EditNoteParams): (r: seq<Note>)
    ensures |r| == |notes|
    ensures forall i :: 0 <= i < |r| ==> r[i].beat == notes[i].beat && r[i].lane == notes[i].lane
    ensures !Occupied(notes, beat, lane) ==> r == notes
    ensures Occupied(notes, beat, lane) ==>
              var k := FindNote(notes, beat, lane).value;
              && (forall i :: 0 <= i < |r| && i != k ==> r[i] == notes[i])
              && r[k].noteType == (if params.noteType.Some? then params.noteType.value else notes[k].noteType)
              && r[k].holdLength == (if params.holdLength.Some? then params.holdLength.value else notes[k].holdLength)
  {
    match FindNote(notes, beat, lane)
    case None => notes
    case Some(k) => notes[k := Edited(notes[k], params)]
  }

  /** Editing touches no key, so it keeps the keys unique. */
  lemma EditNoteKeepsUnique(notes: seq<Note>, beat: real, lane: Lane, params: EditNoteParams)
    requires UniqueKeys(notes)
    ensures UniqueKeys(EditNoteIn(notes, beat, lane, params))
  {
    var r := EditNoteIn(notes, beat, lane, params);
    forall i, j | 0 <= i < j < |r| ensures DistinctKeys(r[i], r[j]) {
      assert DistinctKeys(notes[i], notes[j]);
    }
  }

  /** The search looks at keys only, so it finds the same index after an edit. */
  lemma {:induction false} FindNoteSeesKeysOnly(a: seq<Note>, b: seq<Note>, beat: real, lane: Lane)
    requires |a| == |b|
    requires forall i :: 0 <= i < |a| ==> a[i].beat == b[i].beat && a[i].lane == b[i].lane
    ensures FindNote(a, beat, lane) == FindNote(b, beat, lane)
  {
    match FindNote(a, beat, lane)
    case Some(k) =>
      FirstMatchAt(b, n => IsAt(n, beat, lane), k);
    case None =>
      assert !Occupied(b, beat, lane) by {
        forall j | 0 <= j < |b| ensures !IsAt(b[j], beat, lane) {
          assert !IsAt(a[j], beat, lane);
        }
      }
  }

  /** Repeating an edit changes nothing more. */
  lemma EditNoteIdempotent(notes: seq<Note>, beat: real, lane: Lane, params: EditNoteParams)
    ensures EditNoteIn(EditNoteIn(notes, beat, lane, params), beat, lane, params)
            == EditNoteIn(notes, beat, lane, params)
  {
    var once := EditNoteIn(notes, beat, lane, params);
    FindNoteSeesKeysOnly(notes, once, beat, lane);
  }

  /** An edit with no field present is a no-op. */
  lemma EditNothing(notes: seq<Note>, beat: real, lane: Lane)
    ensures EditNoteIn(notes, beat, lane, EditNoteParams(None, None)) == notes
  {
    if Occupied(notes, beat, lane) {
      var k := FindNote(notes, beat, lane).value;
      assert Edited(notes[k], EditNoteParams(None, None)) == notes[k];
    }
  }

  /** The notes after `removeNote`: every note at the key erased, the others in order. */
  function RemoveNoteFrom(notes: seq<Note>, beat: real, lane: Lane): (r: seq<Note>)
    ensures !Occupied(r, beat, lane)
    ensures forall i :: 0 <= i < |notes| && !IsAt(notes[i], beat, lane) ==> notes[i] in r
    ensures forall i :: 0 <= i < |r| ==> r[i] in notes
  {
    Filter(notes, n => !IsAt(n, beat, lane))
  }

  /** Removing a key that is not there is a no-op. */
  lemma RemoveMissingNote(notes: seq<Note>, beat: real, lane: Lane)
    requires !Occupied(notes, beat, lane)
    ensures RemoveNoteFrom(notes, beat, lane) == notes
  {
    FilterKeepsAll(notes, n => !IsAt(n, beat, lane));
  }

  /** Removing keeps the keys unique. */
  lemma RemoveNoteKeepsUnique(notes: seq<Note>, beat: real, lane: Lane)
    requires UniqueKeys(notes)
    ensures UniqueKeys(RemoveNoteFrom(notes, beat, lane))
  {
    FilterKeepsPairwise(notes, n => !IsAt(n, beat, lane), DistinctKeys);
  }

  /** Removing works note by note: it distributes over concatenation and drops a single
      note exactly when it sits at the key, so the survivors keep their order. */
  lemma RemoveNoteKeepsOrder(a: seq<Note>, b: seq<Note>, n: Note, beat: real, lane: Lane)
    ensures RemoveNoteFrom(a + b, beat, lane) == RemoveNoteFrom(a, beat, lane) + RemoveNoteFrom(b, beat, lane)
    ensures RemoveNoteFrom([n], beat, lane) == if IsAt(n, beat, lane) then [] else [n]
  {
    FilterAppend(a, b, m => !IsAt(m, beat, lane));
  }

  /** Removing a note just added to a free key restores the notes. */
  lemma RemoveUndoesAdd(notes: seq<Note>, n: Note)
    requires !Occupied(notes, n.beat, n.lane)
    ensures RemoveNoteFrom(notes + [n], n.beat, n.lane) == notes
  {
    var keep := m => !IsAt(m, n.beat, n.lane);
    FilterAppend(notes, [n], keep);
    RemoveMissingNote(notes, n.beat, n.lane);
    assert Filter([n], keep) == [];
  }

  // ---------------------------------------------------------------------------
  // Note types, keyed by name

  /** The first note type called `name`, or `null`. */
  function NoteTypeNamed(noteTypes: seq<NoteType>, name: string): (r: NoteType?)
    ensures r == null <==> forall j :: 0 <= j < |noteTypes| ==> noteTypes[j].name != name
    ensures r != null ==> exists k :: 0 <= k < |noteTypes| && noteTypes[k] == r && r.name == name
                                      && forall j :: 0 <= j < k ==> noteTypes[j].name != name
  {
    match FirstMatch(noteTypes, (t: NoteType) => t.name == name)
    case None => null
    case Some(k) => noteTypes[k]
  }

  /** A new note type is found by its name unless an earlier one already has that name,
      which then keeps shadowing it. */
  lemma AddedNoteTypeLookup(noteTypes: seq<NoteType>, t: NoteType, name: string)
    ensures NoteTypeNamed(noteTypes, name) != null ==>
              NoteTypeNamed(noteTypes + [t], name) == NoteTypeNamed(noteTypes, name)
    ensures NoteTypeNamed(noteTypes, name) == null && t.name == name ==>
              NoteTypeNamed(noteTypes + [t], name) == t
    ensures NoteTypeNamed(noteTypes, name) == null && t.name != name ==>
              NoteTypeNamed(noteTypes + [t], name) == null
  {
    FirstMatchAppend(noteTypes, t, (u: NoteType) => u.name == name);
  }

  /** The note types after `removeNoteType`: every type called `name` erased, the others in order. */
  function RemoveNoteTypeFrom(noteTypes: seq<NoteType>, name: string): (r: seq<NoteType>)
    ensures NoteTypeNamed(r, name) == null
    ensures forall i :: 0 <= i < |noteTypes| && noteTypes[i].name != name ==> noteTypes[i] in r
    ensures forall i :: 0 <= i < |r| ==> r[i] in noteTypes
  {
    Filter(noteTypes, (t: NoteType) => t.name != name)
  }

  /** Removing works type by type: it distributes over concatenation and drops a single
      type exactly when it has the name, so the survivors keep their order. */
  lemma RemoveNoteTypeKeepsOrder(a: seq<NoteType>, b: seq<NoteType>, t: NoteType, name: string)
    ensures RemoveNoteTypeFrom(a + b, name) == RemoveNoteTypeFrom(a, name) + RemoveNoteTypeFrom(b, name)
    ensures RemoveNoteTypeFrom([t], name) == if t.name == name then [] else [t]
  {
    FilterAppend(a, b, (u: NoteType) => u.name != name);
  }

  /** Removing a name no type has is a no-op. */
  lemma RemoveMissingNoteType(noteTypes: seq<NoteType>, name: string)
    requires NoteTypeNamed(noteTypes, name) == null
    ensures RemoveNoteTypeFrom(noteTypes, name) == noteTypes
  {
    FilterKeepsAll(noteTypes, (t: NoteType) => t.name != name);
  }

  /** Removing other names leaves the lookup of `name` as it was. */
  lemma {:induction false} RemoveOtherNoteType(noteTypes: seq<NoteType>, name: string, other: string)
    requires name != other
    ensures NoteTypeNamed(RemoveNoteTypeFrom(noteTypes, other), name) == NoteTypeNamed(noteTypes, name)
    decreases |noteTypes|
  {
    if noteTypes != [] {
      var keep := (t: NoteType) => t.name != other;
      var rest := noteTypes[1..];
      assert noteTypes == [noteTypes[0]] + rest;
      FilterAppend([noteTypes[0]], rest, keep);
      RemoveOtherNoteType(rest, name, other);
      var r := RemoveNoteTypeFrom(noteTypes, other);
      if noteTypes[0].name == name {
        assert r[0] == noteTypes[0];
      } else if noteTypes[0].name == other {
        assert r == RemoveNoteTypeFrom(rest, other);
      } else {
        assert r == [noteTypes[0]] + RemoveNoteTypeFrom(rest, other);
      }
    }
  }

  // ---------------------------------------------------------------------------

  class Difficulty {
    const name: string
    var notes: seq<Note>
    var noteTypes: seq<NoteType>

    /** The invariant `addNote` guards: one note per key. */
    ghost predicate Valid()
      reads this
    {
      UniqueKeys(notes)
    }

    constructor (name: string)
      ensures Valid()
      ensures this.name == name && notes == [] && noteTypes == []
    {
      this.name := name;
      notes := [];
      noteTypes := [];
    }

    /** Append a note unless its key is taken, in which case report the key. */
    method AddNote(noteType: NoteType?, beat: real, holdLength: real, lane: Lane)
      returns (outcome: AddNoteOutcome)
      modifies this
      ensures outcome == if Occupied(old(notes), beat, lane) then NoteAlreadyExists(beat, lane) else Added
      ensures notes == if outcome.Added? then old(notes) + [Note(noteType, beat, holdLength, lane)]
                       else old(notes)
      ensures noteTypes == old(noteTypes)
      ensures old(Valid()) ==> Valid()
    {
      if FindNote(notes, beat, lane).Some? {
        return NoteAlreadyExists(beat, lane);
      }
      var n := Note(noteType, beat, holdLength, lane);
      if Valid() {
        AddNoteKeepsUnique(notes, n);
      }
      notes := notes + [n];
      return Added;
    }

    /** Replace the present fields of the first note at `(beat, lane)`, if any. */
    method EditNote(beat: real, lane: Lane, params: EditNoteParams)
      modifies this
      ensures notes == EditNoteIn(old(notes), beat, lane, params)
      ensures noteTypes == old(noteTypes)
      ensures old(Valid()) ==> Valid()
    {
      if Valid() {
        EditNoteKeepsUnique(notes, beat, lane, params);
      }
      var found := FindNote(notes, beat, lane);
      if found.None? {
        return;
      }
      var k := found.value;
      var note := notes[k];
      if params.noteType.Some? {
        note := note.(noteType := params.noteType.value);
      }
      if params.holdLength.Some? {
        note := note.(holdLength := params.holdLength.value);
      }
      notes := notes[k := note];
    }

    /** Erase every note at `(beat, lane)`. */
    method RemoveNote(beat: real, lane: Lane)
      modifies this
      ensures notes == RemoveNoteFrom(old(notes), beat, lane)
      ensures noteTypes == old(noteTypes)
      ensures old(Valid()) ==> Valid()
    {
      if Valid() {
        RemoveNoteKeepsUnique(notes, beat, lane);
      }
      notes := Filter(notes, n => !IsAt(n, beat, lane));
    }

    /** Create a note type, append it without looking at the names already there, and
        return it. */
    method AddNoteType(name: string, isMine: bool, isRoll: bool) returns (t: NoteType)
      modifies this
      ensures fresh(t) && t.name == name && t.isMine == isMine && t.isRoll == isRoll
      ensures noteTypes == old(noteTypes) + [t]
      ensures notes == old(notes)
    {
      t := new NoteType(name, isMine, isRoll);
      noteTypes := noteTypes + [t];
    }

    /** The first note type called `name`, or `null`. */
    method GetNoteType(name: string) returns (t: NoteType?)
      ensures t == NoteTypeNamed(noteTypes, name)
    {
      var i := 0;
      while i < |noteTypes|
        invariant 0 <= i <= |noteTypes|
        invariant forall j :: 0 <= j < i ==> noteTypes[j].name != name
      {
        if noteTypes[i].name == name {
          FirstMatchAt(noteTypes, (u: NoteType) => u.name == name, i);
          return noteTypes[i];
        }
        i := i + 1;
      }
      return null;
    }

    /** Erase every note type called `name`. Notes that refer to one keep the reference. */
    method RemoveNoteType(name: string)
      modifies this
      ensures noteTypes == RemoveNoteTypeFrom(old(noteTypes), name)
      ensures notes == old(notes)
    {
      noteTypes := Filter(noteTypes, (t: NoteType) => t.name != name);
    }
  }
}
