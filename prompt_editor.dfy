/** The prompt-template editor: the list of template entries being edited,
    with the `"your"` marker among them, and the form's name, temperature and
    quoting switch; positional insert and remove, per-entry edits,
    validation and the two ways of saving. */
module PromptEditor {
  import opened Wrappers
  import opened Seqs
  import opened Text
  import opened ChatTypes

  /** A template as the editor hands it over (`PromptSaveData`). */
  datatype PromptSaveData = PromptSaveData(
    name: string,
    temperature: real,
    wrapSingleLine: bool,
    prompts: seq<TemplateEntry>,
    id: Option<int>)

  const DefaultTemperature: real := 0.7

  /** A new template: an empty system entry, then the marker. */
  const DefaultPrompts: seq<TemplateEntry> := [Entry(System, ""), Your]

  /** The entry an "Add here" button inserts at `posIndex`: an empty prompt,
      for the system at the top and for the user anywhere else. */
  function NewEntry(posIndex: nat): TemplateEntry
  {
    Entry(if posIndex == 0 then System else User, "")
  }

  /** `prompts.splice(posIndex, 0, entry)`; a start past the end appends. */
  function InsertedEntry(prompts: seq<TemplateEntry>, posIndex: nat): (r: seq<TemplateEntry>)
  {
    var at := if posIndex <= |prompts| then posIndex else |prompts|;
    prompts[..at] + [NewEntry(posIndex)] + prompts[at..]
  }

  /** `prompts.splice(index, 1)`; a start past the end removes nothing. */
  function RemovedEntry(prompts: seq<TemplateEntry>, index: nat): (r: seq<TemplateEntry>)
  {
    if index < |prompts| then prompts[..index] + prompts[index + 1..] else prompts
  }

  /** Inserting adds exactly the new entry at its place (at the end for a
      place past it), keeps the others in order and adds no marker. */
  lemma InsertKeepsOthers(prompts: seq<TemplateEntry>, posIndex: nat)
    requires posIndex <= |prompts|
    ensures var r := InsertedEntry(prompts, posIndex);
      && |r| == |prompts| + 1
      && r[posIndex] == Entry(if posIndex == 0 then System else User, "")
      && r[..posIndex] == prompts[..posIndex]
      && r[posIndex + 1..] == prompts[posIndex..]
      && MarkerCount(r) == MarkerCount(prompts)
  {
    var r := InsertedEntry(prompts, posIndex);
    var e := NewEntry(posIndex);
    assert r[..posIndex] == prompts[..posIndex];
    assert r[posIndex + 1..] == prompts[posIndex..];
    MarkersSplit(prompts[..posIndex], [e], prompts[posIndex..]);
    assert prompts[..posIndex] + prompts[posIndex..] == prompts;
    FilterConcat(prompts[..posIndex], prompts[posIndex..], IsMarker);
    assert [e][1..] == [];
  }

  /** Removing takes out exactly the entry at `index` and keeps the others in
      order; removing an entry that is not the marker keeps the markers. */
  lemma RemoveKeepsOthers(prompts: seq<TemplateEntry>, index: nat)
    requires index < |prompts|
    ensures var r := RemovedEntry(prompts, index);
      && |r| == |prompts| - 1
      && r[..index] == prompts[..index]
      && r[index..] == prompts[index + 1..]
      && (prompts[index].Entry? ==> MarkerCount(r) == MarkerCount(prompts))
  {
    var r := RemovedEntry(prompts, index);
    var e := prompts[index];
    assert r[..index] == prompts[..index];
    assert r[index..] == prompts[index + 1..];
    assert prompts == prompts[..index] + [e] + prompts[index + 1..];
    MarkersSplit(prompts[..index], [e], prompts[index + 1..]);
    FilterConcat(prompts[..index], prompts[index + 1..], IsMarker);
    assert [e][1..] == [];
  }

  /** The markers of three consecutive pieces. */
  lemma MarkersSplit(a: seq<TemplateEntry>, b: seq<TemplateEntry>, c: seq<TemplateEntry>)
    ensures MarkerCount(a + b + c) == MarkerCount(a) + MarkerCount(b) + MarkerCount(c)
  {
    FilterConcat(a + b, c, IsMarker);
    FilterConcat(a, b, IsMarker);
  }

  /** Giving an entry that is not the marker a new role or prompt keeps the
      markers where they are. */
  lemma EditKeepsMarkers(prompts: seq<TemplateEntry>, i: nat, role: Role, prompt: string)
    requires i < |prompts| && prompts[i].Entry?
    ensures MarkerCount(prompts[i := Entry(role, prompt)]) == MarkerCount(prompts)
  {
    var r := prompts[i := Entry(role, prompt)];
    assert prompts == prompts[..i] + [prompts[i]] + prompts[i + 1..];
    assert r == prompts[..i] + [Entry(role, prompt)] + prompts[i + 1..];
    MarkersSplit(prompts[..i], [prompts[i]], prompts[i + 1..]);
    MarkersSplit(prompts[..i], [Entry(role, prompt)], prompts[i + 1..]);
    assert [prompts[i]][1..] == [] && [Entry(role, prompt)][1..] == [];
  }

  /** The name is rejected when it is empty; a name of spaces is accepted. */
  predicate NameError(name: string)
  {
    name == ""
  }

  /** The temperature is rejected outside [0, 2]. */
  predicate TemperatureError(temperature: real)
  {
    temperature < 0.0 || temperature > 2.0
  }

  /** An entry the save keeps: the marker, or an entry whose prompt has
      something besides whitespace. */
  predicate SavedEntry(e: TemplateEntry)
  {
    e.Your? || |Trim(e.prompt)| > 0
  }

  /** The marker, or an entry with something besides whitespace. */
  predicate Filled(e: TemplateEntry)
  {
    e.Your? || !IsBlank(e.prompt)
  }

  /** The entries a save hands over. */
  function SaveFilter(prompts: seq<TemplateEntry>): seq<TemplateEntry>
  {
    Filter(prompts, SavedEntry)
  }

  lemma {:induction false} SaveFilterShape(prompts: seq<TemplateEntry>)
    ensures var r := SaveFilter(prompts);
      && MarkerCount(r) == MarkerCount(prompts)
      && Subsequence(r, prompts)
    decreases |prompts|
  {
    if |prompts| > 0 {
      SaveFilterShape(prompts[1..]);
      var e := prompts[0];
      var rest := SaveFilter(prompts[1..]);
      assert [e] + prompts[1..] == prompts;
      FilterConcat([e], prompts[1..], IsMarker);
      assert [e][1..] == [];
      if SavedEntry(e) {
        FilterConcat([e], rest, IsMarker);
        assert ([e] + rest)[1..] == rest;
      }
    }
  }

  /** The save keeps every marker, drops exactly the entries whose prompt is
      blank, and keeps the rest in their order. */
  lemma SaveFilterKeepsFilledEntries(prompts: seq<TemplateEntry>)
    ensures var r := SaveFilter(prompts);
      && MarkerCount(r) == MarkerCount(prompts)
      && Subsequence(r, prompts)
      && (forall i :: 0 <= i < |r| && r[i].Entry? ==> !IsBlank(r[i].prompt))
      && (forall i :: 0 <= i < |prompts| && (prompts[i].Your? || !IsBlank(prompts[i].prompt)) ==> prompts[i] in r)
      && r == Filter(prompts, Filled)
  {
    var r := SaveFilter(prompts);
    forall i | 0 <= i < |prompts| ensures SavedEntry(prompts[i]) == Filled(prompts[i]) {
      if prompts[i].Entry? {
        TrimEmptyIffBlank(prompts[i].prompt);
      }
    }
    FilterAgrees(prompts, SavedEntry, Filled);
    SaveFilterShape(prompts);
    forall i | 0 <= i < |r| && r[i].Entry? ensures !IsBlank(r[i].prompt) {
      TrimEmptyIffBlank(r[i].prompt);
    }
    forall i | 0 <= i < |prompts| && (prompts[i].Your? || !IsBlank(prompts[i].prompt)) ensures prompts[i] in r {
      if prompts[i].Entry? {
        TrimEmptyIffBlank(prompts[i].prompt);
      }
      FilterKeeps(prompts, SavedEntry, i);
    }
  }

  /** What a save hands to `onSave`: nothing while the form has errors. */
  function Submitted(name: string, temperature: real, wrapSingleLine: bool,
                     prompts: seq<TemplateEntry>, id: Option<int>): (r: Option<PromptSaveData>)
    ensures r.Some? <==> !NameError(name) && !TemperatureError(temperature)
    ensures r.Some? ==> r.value.name == name && r.value.id == id && 0.0 <= r.value.temperature <= 2.0
  {
    if NameError(name) || TemperatureError(temperature) then None
    else Some(PromptSaveData(name, temperature, wrapSingleLine, SaveFilter(prompts), id))
  }

  class Editor {
    var prompts: seq<TemplateEntry>
    var name: string
    var temperature: real
    var wrapSingleLine: bool
    /** The template being edited; `None` for a new one. */
    const editData: Option<PromptSaveData>

    /** The form's starting values: the edited template's entries and name
        (an empty name stays empty), its temperature unless negative, and
        the quoting switch off. */
    constructor(editData: Option<PromptSaveData>)
      ensures prompts == (if editData.Some? then editData.value.prompts else DefaultPrompts)
      ensures name == (if editData.Some? then editData.value.name else "")
      ensures temperature
           == (if editData.Some? && editData.value.temperature >= 0.0 then editData.value.temperature else DefaultTemperature)
      ensures !wrapSingleLine && this.editData == editData
    {
      prompts := if editData.Some? then editData.value.prompts else DefaultPrompts;
      name := if editData.Some? then editData.value.name else "";
      temperature := if editData.Some? && editData.value.temperature >= 0.0 then editData.value.temperature else DefaultTemperature;
      wrapSingleLine := false;
      this.editData := editData;
    }

    /** `yourIndex`: where the first marker is, or -1. */
    function YourIndex(): (r: int)
      reads this
      ensures r >= 0 ==> r < |prompts| && prompts[r] == Your && forall i :: 0 <= i < r ==> prompts[i].Entry?
      ensures r == -1 <==> Your !in prompts
    {
      FindIndex(prompts, IsMarker)
    }

    /** `addPromptSetup`. */
    method AddEntry(posIndex: nat)
      modifies this
      ensures prompts == InsertedEntry(old(prompts), posIndex)
      ensures name == old(name) && temperature == old(temperature) && wrapSingleLine == old(wrapSingleLine)
    {
      var at := if posIndex <= |prompts| then posIndex else |prompts|;
      prompts := prompts[..at] + [NewEntry(posIndex)] + prompts[at..];
    }

    /** `removePromptSetup`. */
    method RemoveEntry(index: nat)
      modifies this
      ensures prompts == RemovedEntry(old(prompts), index)
      ensures name == old(name) && temperature == old(temperature) && wrapSingleLine == old(wrapSingleLine)
    {
      if index < |prompts| {
        prompts := prompts[..index] + prompts[index + 1..];
      }
    }

    /** The role selector of entry `i`, which is never the marker. */
    method SetRole(i: nat, role: Role)
      requires i < |prompts| && prompts[i].Entry?
      modifies this
      ensures prompts == old(prompts)[i := Entry(role, old(prompts)[i].prompt)]
      ensures name == old(name) && temperature == old(temperature) && wrapSingleLine == old(wrapSingleLine)
    {
      prompts := prompts[i := prompts[i].(role := role)];
    }

    /** The prompt text of entry `i`, which is never the marker. */
    method SetPrompt(i: nat, prompt: string)
      requires i < |prompts| && prompts[i].Entry?
      modifies this
      ensures prompts == old(prompts)[i := Entry(old(prompts)[i].role, prompt)]
      ensures name == old(name) && temperature == old(temperature) && wrapSingleLine == old(wrapSingleLine)
    {
      prompts := prompts[i := prompts[i].(prompt := prompt)];
    }

    /** The Name input. */
    method SetName(newName: string)
      modifies this
      ensures name == newName
      ensures prompts == old(prompts) && temperature == old(temperature) && wrapSingleLine == old(wrapSingleLine)
    {
      name := newName;
    }

    /** The Temperature input; the range check is left to the save. */
    method SetTemperature(newTemperature: real)
      modifies this
      ensures temperature == newTemperature
      ensures prompts == old(prompts) && name == old(name) && wrapSingleLine == old(wrapSingleLine)
    {
      temperature := newTemperature;
    }

    /** The quoting checkbox. */
    method SetWrapSingleLine(checked: bool)
      modifies this
      ensures wrapSingleLine == checked
      ensures prompts == old(prompts) && name == old(name) && temperature == old(temperature)
    {
      wrapSingleLine := checked;
    }

    /** The Save button: the form's values with the filtered entries and the
        edited template's id, when the form validates. */
    method Save() returns (saved: Option<PromptSaveData>)
      ensures saved.Some? <==> !NameError(name) && !TemperatureError(temperature)
      ensures saved == Submitted(name, temperature, wrapSingleLine, prompts,
                                 if editData.Some? then editData.value.id else None)
    {
      saved := None;
      if !(NameError(name) || TemperatureError(temperature)) {
        var id := if editData.Some? then editData.value.id else None;
        saved := Some(PromptSaveData(name, temperature, wrapSingleLine, SaveFilter(prompts), id));
      }
    }

    /** The Clone button (offered while editing): the same values without an
        id, so that a new template is made. */
    method Clone() returns (saved: Option<PromptSaveData>)
      requires editData.Some?
      ensures saved.Some? <==> !NameError(name) && !TemperatureError(temperature)
      ensures saved == Submitted(name, temperature, wrapSingleLine, prompts, None)
    {
      saved := None;
      if !(NameError(name) || TemperatureError(temperature)) {
        saved := Some(PromptSaveData(name, temperature, wrapSingleLine, SaveFilter(prompts), None));
      }
    }
  }
}
