/**
 * The local technology registry store: the session's list of technologies
 * and a one-level undo snapshot, with the add, delete, edit, revert and
 * load actions. The store's own enumerations are kept exactly as it
 * declares them (its stages are spelled 'Asses', 'Trial', 'Adopt', 'Hold',
 * which differ from the validation schemas' stages).
 */
module TechnologyStore {
  import opened Wrappers
  import opened JsValues
  import Schemas

  const CATEGORIES: seq<string> := ["Observability", "Development Tools", "Frameworks", "Data Management"]
  const STAGES: seq<string> := ["Asses", "Trial", "Adopt", "Hold"]

  type Category = c: string | c in CATEGORIES witness "Observability"
  type Stage = s: string | s in STAGES witness "Asses"

  datatype StageTransition = StageTransition(originalStage: Stage, transitionDate: Date, adrLink: string)

  datatype History = History(stageTransitions: seq<StageTransition>, discoveryDate: Date)

  datatype Technology = Technology(
    name: string,
    category: Category,
    stage: Stage,
    tags: seq<string>,
    detailsPage: Option<string>,
    history: History)

  /** What `addTechnology` receives: a technology without its history. */
  datatype NewTechnology = NewTechnology(
    name: string,
    category: Category,
    stage: Stage,
    tags: seq<string>,
    detailsPage: Option<string>)

  /** The instruction to move a technology to a new stage, justified by an ADR link. */
  datatype StageChange = StageChange(newStage: Stage, adrLink: string)

  /** What `editTechnology` receives: the new field values and an optional stage change. */
  datatype EditedTechnology = EditedTechnology(
    name: string,
    category: Category,
    tags: seq<string>,
    detailsPage: Option<string>,
    stageTransition: Option<StageChange>)

  /** The record `addTechnology` appends: no transitions yet, discovered now. */
  function Discovered(t: NewTechnology, now: Date): (r: Technology)
    ensures r.name == t.name && r.category == t.category && r.stage == t.stage
    ensures r.tags == t.tags && r.detailsPage == t.detailsPage
    ensures r.history.stageTransitions == [] && r.history.discoveryDate == now
  {
    Technology(t.name, t.category, t.stage, t.tags, t.detailsPage, History([], now))
  }

  /**
   * The edit rule: the edited fields replace the original's; a stage change,
   * whenever one is given, sets the stage and appends one transition that
   * records the stage left, the ADR link and the time. The store does not
   * check that the new stage differs from the old one.
   */
  function CreateNewTechnologyDocument(original: Technology, edit: EditedTechnology, now: Date): (r: Technology)
    ensures r.name == edit.name && r.category == edit.category
    ensures r.tags == edit.tags && r.detailsPage == edit.detailsPage
    ensures r.history.discoveryDate == original.history.discoveryDate
  {
    var transition: Option<StageTransition> :=
      match edit.stageTransition
      case Some(change) => Some(StageTransition(original.stage, now, change.adrLink))
      case None => None;
    Technology(
      edit.name,
      edit.category,
      if edit.stageTransition.Some? then edit.stageTransition.value.newStage else original.stage,
      edit.tags,
      edit.detailsPage,
      History(
        original.history.stageTransitions + (if transition.Some? then [transition.value] else []),
        original.history.discoveryDate))
  }

  /** An edit without a stage change leaves the stage and the whole history as they were. */
  lemma NoStageChangeKeepsHistory(original: Technology, edit: EditedTechnology, now: Date)
    requires edit.stageTransition.None?
    ensures var r := CreateNewTechnologyDocument(original, edit, now);
      r.stage == original.stage && r.history == original.history
  {
  }

  /**
   * An edit with a stage change sets the new stage and appends exactly one
   * entry after the unchanged earlier ones.
   */
  lemma StageChangeAppendsTransition(original: Technology, edit: EditedTechnology, now: Date)
    requires edit.stageTransition.Some?
    ensures var r := CreateNewTechnologyDocument(original, edit, now);
      var before := original.history.stageTransitions;
      var after := r.history.stageTransitions;
      && r.stage == edit.stageTransition.value.newStage
      && |after| == |before| + 1
      && after[..|before|] == before
      && after[|before|] == StageTransition(original.stage, now, edit.stageTransition.value.adrLink)
  {
  }

  /** A stage change to the stage the technology already has is still recorded. */
  lemma SameStageChangeStillRecorded(original: Technology, edit: EditedTechnology, now: Date)
    requires edit.stageTransition.Some? && edit.stageTransition.value.newStage == original.stage
    ensures var r := CreateNewTechnologyDocument(original, edit, now);
      r.stage == original.stage &&
      |r.history.stageTransitions| == |original.history.stageTransitions| + 1
  {
    StageChangeAppendsTransition(original, edit, now);
  }

  /** An edit never removes or alters an earlier transition. */
  lemma EditIsAppendOnly(original: Technology, edit: EditedTechnology, now: Date)
    ensures var before := original.history.stageTransitions;
      var after := CreateNewTechnologyDocument(original, edit, now).history.stageTransitions;
      |before| <= |after| <= |before| + 1 && after[..|before|] == before
      && (|after| == |before| + 1 <==> edit.stageTransition.Some?)
  {
    if edit.stageTransition.Some? {
      StageChangeAppendsTransition(original, edit, now);
    }
  }

  // ---------------------------------------------------------------------------
  // The list computations of the actions

  /** How many records carry the given name. */
  function CountNamed(techs: seq<Technology>, name: string): (n: nat)
    ensures n <= |techs|
  {
    if techs == [] then 0
    else (if techs[0].name == name then 1 else 0) + CountNamed(techs[1..], name)
  }

  /** `filter(tech => tech.name !== name)`: every record with another name, in order. */
  function WithoutName(techs: seq<Technology>, name: string): (r: seq<Technology>)
    ensures |r| == |techs| - CountNamed(techs, name)
    ensures forall i :: 0 <= i < |r| ==> r[i].name != name
    ensures CountNamed(techs, name) == 0 ==> r == techs
  {
    if techs == [] then []
    else if techs[0].name == name then WithoutName(techs[1..], name)
    else [techs[0]] + WithoutName(techs[1..], name)
  }

  /** What the filter keeps: exactly the records with another name. */
  lemma {:induction false} WithoutNameMembers(techs: seq<Technology>, name: string)
    ensures forall t :: t in WithoutName(techs, name) <==> t in techs && t.name != name
  {
    if techs != [] {
      WithoutNameMembers(techs[1..], name);
      assert techs == [techs[0]] + techs[1..];
    }
  }

  /** Filtering is per element, so it keeps the relative order of what it keeps. */
  lemma {:induction false} WithoutNameDistributes(a: seq<Technology>, b: seq<Technology>, name: string)
    ensures WithoutName(a + b, name) == WithoutName(a, name) + WithoutName(b, name)
  {
    if a == [] {
      assert a + b == b;
    } else {
      assert (a + b)[1..] == a[1..] + b;
      WithoutNameDistributes(a[1..], b, name);
    }
  }

  /** Deleting a name held by exactly one record removes that record and only it. */
  lemma {:induction false} WithoutUniqueName(techs: seq<Technology>, i: nat)
    requires i < |techs|
    requires CountNamed(techs, techs[i].name) == 1
    ensures WithoutName(techs, techs[i].name) == techs[..i] + techs[i + 1..]
  {
    var name := techs[i].name;
    var before, x, after := techs[..i], [techs[i]], techs[i + 1..];
    assert techs == before + x + after;
    assert CountNamed(before, name) == 0 && CountNamed(after, name) == 0 by {
      CountNamedSplit(before + x, after, name);
      CountNamedSplit(before, x, name);
      assert CountNamed(x, name) == 1 by {
        assert x[1..] == [];
      }
    }
    assert WithoutName(x, name) == [] by {
      assert x[1..] == [];
    }
    WithoutNameDistributes(before + x, after, name);
    WithoutNameDistributes(before, x, name);
  }

  lemma {:induction false} CountNamedSplit(a: seq<Technology>, b: seq<Technology>, name: string)
    ensures CountNamed(a + b, name) == CountNamed(a, name) + CountNamed(b, name)
  {
    if a == [] {
      assert a + b == b;
    } else {
      assert (a + b)[1..] == a[1..] + b;
      CountNamedSplit(a[1..], b, name);
    }
  }

  /** `map(...)`: matching records are rebuilt by the edit rule, the others are kept. */
  function EditedList(techs: seq<Technology>, edit: EditedTechnology, now: Date): (r: seq<Technology>)
    ensures |r| == |techs|
    ensures forall i :: 0 <= i < |techs| ==>
      r[i] == if techs[i].name == edit.name then CreateNewTechnologyDocument(techs[i], edit, now) else techs[i]
  {
    if techs == [] then []
    else
      [if techs[0].name == edit.name then CreateNewTechnologyDocument(techs[0], edit, now) else techs[0]]
      + EditedList(techs[1..], edit, now)
  }

  /** The names of the records, in order. */
  function Names(techs: seq<Technology>): (ns: seq<string>)
    ensures |ns| == |techs|
    ensures forall i :: 0 <= i < |techs| ==> ns[i] == techs[i].name
  {
    if techs == [] then [] else [techs[0].name] + Names(techs[1..])
  }

  /** Names act as keys: no two records share one. */
  predicate UniqueNames(techs: seq<Technology>) {
    forall i, j :: 0 <= i < j < |techs| ==> techs[i].name != techs[j].name
  }

  /** An edit keeps every record's name, so it keeps the name sequence. */
  lemma EditKeepsNames(techs: seq<Technology>, edit: EditedTechnology, now: Date)
    ensures Names(EditedList(techs, edit, now)) == Names(techs)
  {
    var r := EditedList(techs, edit, now);
    assert forall i :: 0 <= i < |techs| ==> Names(r)[i] == Names(techs)[i];
  }

  /** Deleting keeps distinct names distinct. */
  lemma {:induction false} DeleteKeepsUniqueNames(techs: seq<Technology>, name: string)
    requires UniqueNames(techs)
    ensures UniqueNames(WithoutName(techs, name))
  {
    if techs != [] {
      DeleteKeepsUniqueNames(techs[1..], name);
      var rest := WithoutName(techs[1..], name);
      WithoutNameMembers(techs[1..], name);
      if techs[0].name != name {
        assert forall t :: t in rest ==> t in techs[1..];
        assert forall j :: 0 <= j < |rest| ==> rest[j] in techs[1..];
        assert forall j :: 0 <= j < |rest| ==> rest[j].name != techs[0].name;
      }
    }
  }

  /** Adding keeps names distinct exactly when the new name is not taken: the store does not check. */
  lemma AddKeepsUniqueNamesIffFresh(techs: seq<Technology>, t: NewTechnology, now: Date)
    requires UniqueNames(techs)
    ensures UniqueNames(techs + [Discovered(t, now)]) <==> CountNamed(techs, t.name) == 0
  {
    var r := techs + [Discovered(t, now)];
    if CountNamed(techs, t.name) == 0 {
      NotNamed(techs, t.name);
    } else {
      var i := Named(techs, t.name);
      assert r[i].name == r[|techs|].name;
    }
  }

  lemma {:induction false} NotNamed(techs: seq<Technology>, name: string)
    requires CountNamed(techs, name) == 0
    ensures forall i :: 0 <= i < |techs| ==> techs[i].name != name
  {
    if techs != [] {
      NotNamed(techs[1..], name);
      assert forall i :: 1 <= i < |techs| ==> techs[i] == techs[1..][i - 1];
    }
  }

  lemma {:induction false} Named(techs: seq<Technology>, name: string) returns (i: nat)
    requires CountNamed(techs, name) > 0
    ensures i < |techs| && techs[i].name == name
  {
    if techs[0].name == name {
      i := 0;
    } else {
      var j := Named(techs[1..], name);
      i := j + 1;
    }
  }

  // ---------------------------------------------------------------------------
  // The store's state and its transitions

  datatype StoreState = StoreState(technologies: seq<Technology>, previousState: seq<Technology>)

  /** The store before any action: no technologies and an empty snapshot. */
  function Initial(): (st: StoreState)
    ensures st.technologies == [] && st.previousState == []
  {
    StoreState([], [])
  }

  /** Every mutating action snapshots the list it replaces. */
  function Mutated(st: StoreState, technologies: seq<Technology>): (r: StoreState)
    ensures r.technologies == technologies && r.previousState == st.technologies
  {
    StoreState(technologies, st.technologies)
  }

  function Added(st: StoreState, t: NewTechnology, now: Date): (r: StoreState)
    ensures |r.technologies| == |st.technologies| + 1
    ensures r.technologies[..|st.technologies|] == st.technologies
    ensures r.technologies[|st.technologies|] == Discovered(t, now)
    ensures r.previousState == st.technologies
  {
    Mutated(st, st.technologies + [Discovered(t, now)])
  }

  function Deleted(st: StoreState, name: string): (r: StoreState)
    ensures forall t :: t in r.technologies <==> t in st.technologies && t.name != name
    ensures r.previousState == st.technologies
  {
    WithoutNameMembers(st.technologies, name);
    Mutated(st, WithoutName(st.technologies, name))
  }

  function Edited(st: StoreState, edit: EditedTechnology, now: Date): (r: StoreState)
    ensures Names(r.technologies) == Names(st.technologies)
    ensures r.previousState == st.technologies
  {
    EditKeepsNames(st.technologies, edit, now);
    Mutated(st, EditedList(st.technologies, edit, now))
  }

  function Reverted(st: StoreState): (r: StoreState)
    ensures r.technologies == st.previousState && r.previousState == st.previousState
  {
    StoreState(st.previousState, st.previousState)
  }

  function Loaded(st: StoreState, technologies: seq<Technology>): (r: StoreState)
    ensures r.technologies == technologies && r.previousState == st.previousState
  {
    StoreState(technologies, st.previousState)
  }

  /** Reverting twice in a row is the same as reverting once. */
  lemma RevertIdempotent(st: StoreState)
    ensures Reverted(Reverted(st)) == Reverted(st)
  {
  }

  /** A revert right after any mutation restores the list from before it. */
  lemma RevertUndoesMutation(st: StoreState, technologies: seq<Technology>)
    ensures Reverted(Mutated(st, technologies)).technologies == st.technologies
  {
  }

  /** Adding a name already present does not fail: the store holds one more record with it. */
  lemma AddDoesNotCheckUniqueness(st: StoreState, t: NewTechnology, now: Date)
    ensures CountNamed(Added(st, t, now).technologies, t.name) == CountNamed(st.technologies, t.name) + 1
  {
    CountNamedSplit(st.technologies, [Discovered(t, now)], t.name);
    assert [Discovered(t, now)][1..] == [];
  }

  /** The store of the running application: the current list and the undo snapshot. */
  class Store {
    var technologies: seq<Technology>
    var previousState: seq<Technology>

    function State(): StoreState
      reads this
    {
      StoreState(technologies, previousState)
    }

    constructor ()
      ensures State() == Initial()
    {
      technologies := [];
      previousState := [];
    }

    method AddTechnology(technology: NewTechnology, now: Date)
      modifies this
      ensures State() == Added(old(State()), technology, now)
    {
      previousState, technologies := technologies, technologies + [Discovered(technology, now)];
    }

    method DeleteTechnology(technologyName: string)
      modifies this
      ensures State() == Deleted(old(State()), technologyName)
    {
      previousState, technologies := technologies, WithoutName(technologies, technologyName);
    }

    method EditTechnology(editedTechnology: EditedTechnology, now: Date)
      modifies this
      ensures State() == Edited(old(State()), editedTechnology, now)
    {
      previousState, technologies := technologies, EditedList(technologies, editedTechnology, now);
    }

    method Revert()
      modifies this
      ensures State() == Reverted(old(State()))
    {
      technologies := previousState;
    }

    method LoadTechnologies(loaded: seq<Technology>)
      modifies this
      ensures State() == Loaded(old(State()), loaded)
    {
      technologies := loaded;
    }
  }

  /**
   * The store and the schemas spell the assess stage differently: a record
   * in the 'Asses' stage fails the schema's stage check, and the schema's
   * 'Assess' is not a store stage. The other three stages agree.
   */
  lemma StageSpellingsDiffer(p: Schemas.Platform, path: seq<Schemas.PathItem>)
    ensures "Asses" in STAGES && "Asses" !in Schemas.STAGES
    ensures "Assess" in Schemas.STAGES && "Assess" !in STAGES
    ensures Schemas.ParseStage(p, Str("Asses"), path).Invalid?
    ensures forall s :: s in STAGES && s != "Asses" ==> s in Schemas.STAGES
  {
    assert "Asses" != "Assess";
  }
}
