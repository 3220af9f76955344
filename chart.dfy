/** A chart: its difficulties, looked up by name. Names are not required to be unique. */
module Charts {
  import opened Sequences
  import opened Difficulties

  /** The first difficulty called `name`, or `null`. */
  function DifficultyNamed(difficulties: seq<Difficulty>, name: string): (r: Difficulty?)
    ensures r == null <==> forall j :: 0 <= j < |difficulties| ==> difficulties[j].name != name
    ensures r != null ==> exists k :: 0 <= k < |difficulties| && difficulties[k] == r && r.name == name
                                      && forall j :: 0 <= j < k ==> difficulties[j].name != name
  {
    match FirstMatch(difficulties, (d: Difficulty) => d.name == name)
    case None => null
    case Some(k) => difficulties[k]
  }

  /** A new difficulty is found by its name unless an earlier one already has that name,
      which then keeps shadowing it. */
  lemma CreatedDifficultyLookup(difficulties: seq<Difficulty>, d: Difficulty, name: string)
    ensures DifficultyNamed(difficulties, name) != null ==>
              DifficultyNamed(difficulties + [d], name) == DifficultyNamed(difficulties, name)
    ensures DifficultyNamed(difficulties, name) == null && d.name == name ==>
              DifficultyNamed(difficulties + [d], name) == d
    ensures DifficultyNamed(difficulties, name) == null && d.name != name ==>
              DifficultyNamed(difficulties + [d], name) == null
  {
    FirstMatchAppend(difficulties, d, (e: Difficulty) => e.name == name);
  }

  /** The difficulties after `deleteDifficulty`: every one called `name` erased, the
      others in order. */
  function DeleteDifficultyFrom(difficulties: seq<Difficulty>, name: string): (r: seq<Difficulty>)
    ensures DifficultyNamed(r, name) == null
    ensures forall i :: 0 <= i < |difficulties| && difficulties[i].name != name ==> difficulties[i] in r
    ensures forall i :: 0 <= i < |r| ==> r[i] in difficulties
  {
    Filter(difficulties, (d: Difficulty) => d.name != name)
  }

  /** Deleting works difficulty by difficulty: it distributes over concatenation and drops
      a single difficulty exactly when it has the name, so the survivors keep their order. */
  lemma DeleteDifficultyKeepsOrder(a: seq<Difficulty>, b: seq<Difficulty>, d: Difficulty, name: string)
    ensures DeleteDifficultyFrom(a + b, name) == DeleteDifficultyFrom(a, name) + DeleteDifficultyFrom(b, name)
    ensures DeleteDifficultyFrom([d], name) == if d.name == name then [] else [d]
  {
    FilterAppend(a, b, (e: Difficulty) => e.name != name);
  }

  /** Deleting a name no difficulty has is a no-op. */
  lemma DeleteMissingDifficulty(difficulties: seq<Difficulty>, name: string)
    requires DifficultyNamed(difficulties, name) == null
    ensures DeleteDifficultyFrom(difficulties, name) == difficulties
  {
    FilterKeepsAll(difficulties, (d: Difficulty) => d.name != name);
  }

  /** Deleting twice is deleting once. */
  lemma DeleteDifficultyIdempotent(difficulties: seq<Difficulty>, name: string)
    ensures DeleteDifficultyFrom(DeleteDifficultyFrom(difficulties, name), name)
            == DeleteDifficultyFrom(difficulties, name)
  {
    FilterIdempotent(difficulties, (d: Difficulty) => d.name != name);
  }

  /** Deleting a difficulty just created under a fresh name restores the list. */
  lemma DeleteUndoesCreate(difficulties: seq<Difficulty>, d: Difficulty)
    requires DifficultyNamed(difficulties, d.name) == null
    ensures DeleteDifficultyFrom(difficulties + [d], d.name) == difficulties
  {
    var keep := (e: Difficulty) => e.name != d.name;
    FilterAppend(difficulties, [d], keep);
    DeleteMissingDifficulty(difficulties, d.name);
    assert Filter([d], keep) == [];
  }

  class Chart {
    var difficulties: seq<Difficulty>

    constructor ()
      ensures difficulties == []
    {
      difficulties := [];
    }

    /** Create an empty difficulty called `name`, append it without looking at the
        names already there, and return it. */
    method CreateDifficulty(name: string) returns (d: Difficulty)
      modifies this
      ensures fresh(d) && d.name == name && d.notes == [] && d.noteTypes == []
      ensures difficulties == old(difficulties) + [d]
    {
      d := new Difficulty(name);
      difficulties := difficulties + [d];
    }

    /** The first difficulty called `name`, in creation order, or `null`. */
    method GetDifficulty(name: string) returns (d: Difficulty?)
      ensures d == DifficultyNamed(difficulties, name)
    {
      var i := 0;
      while i < |difficulties|
        invariant 0 <= i <= |difficulties|
        invariant forall j :: 0 <= j < i ==> difficulties[j].name != name
      {
        if difficulties[i].name == name {
          FirstMatchAt(difficulties, (e: Difficulty) => e.name == name, i);
          return difficulties[i];
        }
        i := i + 1;
      }
      return null;
    }

    /** Erase every difficulty called `name`. */
    method DeleteDifficulty(name: string)
      modifies this
      ensures difficulties == DeleteDifficultyFrom(old(difficulties), name)
    {
      difficulties := Filter(difficulties, (d: Difficulty) => d.name != name);
    }
  }

  /** Two difficulties created under one name both stay in the chart; the lookup returns
      the first, and deleting the name erases both. */
  method DuplicateNames() returns (first: Difficulty, second: Difficulty, kept: nat, found: Difficulty?, left: nat)
    ensures first != second && first.name == second.name == "Hard"
    ensures kept == 2
    ensures found == first
    ensures left == 0
  {
    var chart := new Chart();
    first := chart.CreateDifficulty("Hard");
    second := chart.CreateDifficulty("Hard");
    assert chart.difficulties == [first, second];
    kept := |chart.difficulties|;
    found := chart.GetDifficulty("Hard");
    FirstMatchAt(chart.difficulties, (e: Difficulty) => e.name == "Hard", 0);
    chart.DeleteDifficulty("Hard");
    left := |chart.difficulties|;
  }
}
