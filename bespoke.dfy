/** The bespoke-image screen (sCIS_BeSpokeComponent): the surveyor picks a
    measure tab and a number of images, names and describes each image on
    its own row, and saves one Installation_Bespoke__c record per row. */
module Bespoke {
  import opened Wrappers
  import opened Text

  /** One entry of the image-count combobox; `caption` is its `label`. */
  datatype ComboOption = ComboOption(caption: string, value: string)

  /** The number of entries the image-count combobox offers. */
  const MAX_IMAGES: nat := 20

  /** `imageOptions`: the counts 1 to 20, label and value both the decimal text. */
  function ImageOptions(): (opts: seq<ComboOption>)
    ensures |opts| == MAX_IMAGES
    ensures forall i :: 0 <= i < |opts| ==> opts[i].caption == NatToString(i + 1) && opts[i].value == opts[i].caption
  {
    seq(MAX_IMAGES, i requires 0 <= i < MAX_IMAGES => ComboOption(NatToString(i + 1), NatToString(i + 1)))
  }

  /** Picking entry `i` of the combobox asks for `i + 1` images. */
  lemma ImageOptionValue(i: nat)
    requires i < MAX_IMAGES
    ensures ParseNat(ImageOptions()[i].value) == i + 1
  {
    ParseNatToString(i + 1);
  }

  /** No two entries of the combobox carry the same value. */
  lemma ImageOptionsDistinct(i: nat, j: nat)
    requires i < MAX_IMAGES && j < MAX_IMAGES && i != j
    ensures ImageOptions()[i].value != ImageOptions()[j].value
  {
    if ImageOptions()[i].value == ImageOptions()[j].value {
      NatToStringInjective(i + 1, j + 1);
    }
  }

  /** One image row of the form. */
  datatype Row = Row(id: string, name: string, instructions: string, imageNameLabel: string, imageInstructionsLabel: string)

  const ROW_PREFIX: string := "row_"

  /** Row `i` of a freshly generated list. */
  function NewRow(i: nat): (r: Row)
    ensures r.id == ROW_PREFIX + NatToString(i)
    ensures r.name == "" && r.instructions == ""
    ensures r.imageNameLabel == "Image " + NatToString(i + 1) + " Name"
    ensures r.imageInstructionsLabel == "Image " + NatToString(i + 1) + " Instructions"
  {
    Row(ROW_PREFIX + NatToString(i), "", "", "Image " + NatToString(i + 1) + " Name",
        "Image " + NatToString(i + 1) + " Instructions")
  }

  /** The rows `handleImageCountChange` generates for `n` images. */
  function NewRows(n: nat): (rows: seq<Row>)
    ensures |rows| == n
    ensures forall i :: 0 <= i < n ==> rows[i] == NewRow(i)
  {
    seq(n, i requires 0 <= i < n => NewRow(i))
  }

  /** The ids of a generated list are pairwise different, so every id
      names exactly one row. */
  lemma NewRowIdsDistinct(n: nat, i: nat, j: nat)
    requires i < n && j < n && i != j
    ensures NewRows(n)[i].id != NewRows(n)[j].id
  {
    if NewRows(n)[i].id == NewRows(n)[j].id {
      PrefixedInjective(ROW_PREFIX, i, j);
    }
  }

  /** `rowList.findIndex(row => row.id === rowId)`: the first row with that
      id, or -1 when there is none. */
  function FindRowIndex(rows: seq<Row>, id: string): (index: int)
    ensures -1 <= index < |rows|
    ensures index == -1 <==> forall k :: 0 <= k < |rows| ==> rows[k].id != id
    ensures index != -1 ==> rows[index].id == id && forall k :: 0 <= k < index ==> rows[k].id != id
    decreases |rows|
  {
    if |rows| == 0 then -1
    else if rows[0].id == id then 0
    else
      var rest := FindRowIndex(rows[1..], id);
      if rest == -1 then -1 else rest + 1
  }

  /** Which text of a row an input edits. */
  datatype RowField = NameField | InstructionsField

  function SetField(r: Row, f: RowField, v: string): (r': Row)
    ensures f == NameField ==> r' == r.(name := v)
    ensures f == InstructionsField ==> r' == r.(instructions := v)
  {
    match f
    case NameField => r.(name := v)
    case InstructionsField => r.(instructions := v)
  }

  /** The list an edit of row `id` leads to, stated on its own: the first
      row with that id gets the new text and every other row is kept. */
  function UpdateRow(rows: seq<Row>, id: string, f: RowField, v: string): (rows': seq<Row>)
    ensures |rows'| == |rows|
    decreases |rows|
  {
    if |rows| == 0 then []
    else if rows[0].id == id then [SetField(rows[0], f, v)] + rows[1..]
    else [rows[0]] + UpdateRow(rows[1..], id, f, v)
  }

  /** The edit at the index `findIndex` returns is `UpdateRow`. */
  lemma {:induction false} UpdateAtFoundIndex(rows: seq<Row>, id: string, f: RowField, v: string)
    ensures FindRowIndex(rows, id) == -1 ==> UpdateRow(rows, id, f, v) == rows
    ensures FindRowIndex(rows, id) != -1 ==>
              UpdateRow(rows, id, f, v) == rows[FindRowIndex(rows, id) := SetField(rows[FindRowIndex(rows, id)], f, v)]
    decreases |rows|
  {
    if |rows| > 0 && rows[0].id != id {
      UpdateAtFoundIndex(rows[1..], id, f, v);
      assert rows == [rows[0]] + rows[1..];
    }
  }

  /** An edit changes only the edited text of the matching row, and every
      other row is the same. */
  lemma UpdateRowFrame(rows: seq<Row>, id: string, f: RowField, v: string)
    ensures forall k :: 0 <= k < |rows| && k != FindRowIndex(rows, id) ==> UpdateRow(rows, id, f, v)[k] == rows[k]
    ensures FindRowIndex(rows, id) != -1 ==>
              UpdateRow(rows, id, f, v)[FindRowIndex(rows, id)] == SetField(rows[FindRowIndex(rows, id)], f, v)
  {
    UpdateAtFoundIndex(rows, id, f, v);
  }

  /** An id no row carries leaves the list as it is. */
  lemma UnknownIdIsNoOp(rows: seq<Row>, id: string, f: RowField, v: string)
    requires forall k :: 0 <= k < |rows| ==> rows[k].id != id
    ensures UpdateRow(rows, id, f, v) == rows
  {
    UpdateAtFoundIndex(rows, id, f, v);
  }

  /** In a generated list, editing `row_i` changes row `i` and nothing else. */
  lemma EditGeneratedRow(n: nat, i: nat, f: RowField, v: string)
    requires i < n
    ensures FindRowIndex(NewRows(n), ROW_PREFIX + NatToString(i)) == i
    ensures UpdateRow(NewRows(n), ROW_PREFIX + NatToString(i), f, v) == NewRows(n)[i := SetField(NewRow(i), f, v)]
  {
    var rows, id := NewRows(n), ROW_PREFIX + NatToString(i);
    var index := FindRowIndex(rows, id);
    assert rows[i].id == id;
    if index != i {
      NewRowIdsDistinct(n, index, i);
    }
    UpdateAtFoundIndex(rows, id, f, v);
  }

  /** The `allValid` fold: every input reports itself valid. */
  function AllValid(checks: seq<bool>): (valid: bool)
    ensures valid <==> forall k :: 0 <= k < |checks| ==> checks[k]
    decreases |checks|
  {
    if |checks| == 0 then true else AllValid(checks[..|checks| - 1]) && checks[|checks| - 1]
  }

  /** One record of the `createBespokeRecords` call. */
  datatype BespokeRecord = BespokeRecord(name: string, measure: string, imageDescription: string, propertyOwner: string, lead: Option<string>)

  /** The record a row is saved as. */
  function RecordOf(r: Row, measure: string, recordId: string, leadId: Option<string>): (rec: BespokeRecord)
    ensures rec.name == r.name && rec.imageDescription == r.instructions
    ensures rec.measure == measure && rec.propertyOwner == recordId && rec.lead == leadId
  {
    BespokeRecord(r.name, measure, r.instructions, recordId, leadId)
  }

  /** `rowList.map(...)`: one record per row, in row order. */
  function ToRecords(rows: seq<Row>, measure: string, recordId: string, leadId: Option<string>): (recs: seq<BespokeRecord>)
    ensures |recs| == |rows|
    ensures forall k :: 0 <= k < |rows| ==> recs[k] == RecordOf(rows[k], measure, recordId, leadId)
  {
    seq(|rows|, k requires 0 <= k < |rows| => RecordOf(rows[k], measure, recordId, leadId))
  }

  /** Typing a name into row `row_i` of a generated list is what record `i`
      of the save then carries; the other records keep their empty texts. */
  lemma NameReachesRecord(n: nat, i: nat, v: string, measure: string, recordId: string, leadId: Option<string>)
    requires i < n
    ensures ToRecords(UpdateRow(NewRows(n), ROW_PREFIX + NatToString(i), NameField, v), measure, recordId, leadId)[i].name == v
    ensures forall k :: 0 <= k < n && k != i ==>
              ToRecords(UpdateRow(NewRows(n), ROW_PREFIX + NatToString(i), NameField, v), measure, recordId, leadId)[k].name == ""
  {
    EditGeneratedRow(n, i, NameField, v);
  }

  class BespokeForm {
    /** The survey (property owner) record the form is placed on. */
    const recordId: string
    /** The image count last chosen. */
    var imageCount: nat
    var selectedMeasure: string
    var leadId: Option<string>
    var defineMeasures: Option<string>
    var rowList: seq<Row>
    var noMeasures: bool
    var isSaved: bool

    constructor(recordId: string)
      ensures this.recordId == recordId
      ensures imageCount == 0 && selectedMeasure == "" && leadId == Some("") && defineMeasures == Some("")
      ensures rowList == [] && !noMeasures && !isSaved
    {
      this.recordId := recordId;
      imageCount, selectedMeasure := 0, "";
      leadId, defineMeasures := Some(""), Some("");
      rowList, noMeasures, isSaved := [], false, false;
    }

    /** `wiredSurvey` with data: the lead and the measures text; there are no
        measures exactly when that text is empty or missing. */
    method ReceiveSurvey(lead: Option<string>, measures: Option<string>)
      modifies this
      ensures leadId == lead && defineMeasures == measures
      ensures noMeasures <==> !IsTruthy(measures)
      ensures imageCount == old(imageCount) && selectedMeasure == old(selectedMeasure)
      ensures rowList == old(rowList) && isSaved == old(isSaved)
    {
      leadId := lead;
      defineMeasures := measures;
      noMeasures := !IsTruthy(defineMeasures);
    }

    /** `handleTabChange`. */
    method HandleTabChange(value: string)
      modifies this
      ensures selectedMeasure == value
      ensures imageCount == old(imageCount) && leadId == old(leadId) && defineMeasures == old(defineMeasures)
      ensures rowList == old(rowList) && noMeasures == old(noMeasures) && isSaved == old(isSaved)
    {
      selectedMeasure := value;
    }

    /** `handleImageCountChange`: `n` fresh rows, whatever was typed before. */
    method HandleImageCountChange(n: nat)
      modifies this
      ensures imageCount == n && rowList == NewRows(n)
      ensures selectedMeasure == old(selectedMeasure) && leadId == old(leadId) && defineMeasures == old(defineMeasures)
      ensures noMeasures == old(noMeasures) && isSaved == old(isSaved)
    {
      imageCount := n;
      rowList := NewRows(n);
    }

    /** `handleNameChange` and `handleDescriptionChange`: the row found by
        `findIndex` gets the new text in place; an unknown id changes nothing. */
    method HandleRowChange(id: string, f: RowField, v: string)
      modifies this
      ensures rowList == UpdateRow(old(rowList), id, f, v)
      ensures imageCount == old(imageCount) && selectedMeasure == old(selectedMeasure)
      ensures leadId == old(leadId) && defineMeasures == old(defineMeasures)
      ensures noMeasures == old(noMeasures) && isSaved == old(isSaved)
    {
      UpdateAtFoundIndex(rowList, id, f, v);
      var index := FindRowIndex(rowList, id);
      if index != -1 {
        rowList := rowList[index := SetField(rowList[index], f, v)];
      }
    }

    /** `handleNameChange`. */
    method HandleNameChange(id: string, v: string)
      modifies this
      ensures rowList == UpdateRow(old(rowList), id, NameField, v)
      ensures imageCount == old(imageCount) && selectedMeasure == old(selectedMeasure)
      ensures leadId == old(leadId) && defineMeasures == old(defineMeasures)
      ensures noMeasures == old(noMeasures) && isSaved == old(isSaved)
    {
      HandleRowChange(id, NameField, v);
    }

    /** `handleDescriptionChange`. */
    method HandleDescriptionChange(id: string, v: string)
      modifies this
      ensures rowList == UpdateRow(old(rowList), id, InstructionsField, v)
      ensures imageCount == old(imageCount) && selectedMeasure == old(selectedMeasure)
      ensures leadId == old(leadId) && defineMeasures == old(defineMeasures)
      ensures noMeasures == old(noMeasures) && isSaved == old(isSaved)
    {
      HandleRowChange(id, InstructionsField, v);
    }

    /** `handleSave`. `activeTab` is the tabset's active value and `checks`
        what each input's `checkValidity` answers. The result is the list
        passed to `createBespokeRecords`, `None` when no call is made. */
    method HandleSave(activeTab: Option<string>, checks: seq<bool>) returns (sent: Option<seq<BespokeRecord>>)
      modifies this
      ensures isSaved
      ensures !IsTruthy(activeTab) ==> sent.None? && selectedMeasure == old(selectedMeasure)
      ensures IsTruthy(activeTab) ==> selectedMeasure == activeTab.value
      ensures IsTruthy(activeTab) && AllValid(checks) ==> sent == Some(ToRecords(rowList, selectedMeasure, recordId, leadId))
      ensures !AllValid(checks) ==> sent.None?
      ensures imageCount == old(imageCount) && rowList == old(rowList) && leadId == old(leadId)
      ensures defineMeasures == old(defineMeasures) && noMeasures == old(noMeasures)
    {
      isSaved := true;
      if !IsTruthy(activeTab) {
        return None;
      }
      selectedMeasure := activeTab.value;
      if AllValid(checks) {
        sent := Some(ToRecords(rowList, selectedMeasure, recordId, leadId));
      } else {
        sent := None;
      }
    }

    /** The answer to `createBespokeRecords`: success resets the form, a
        failure only shows a toast. */
    method CreateSettled(succeeded: bool)
      modifies this
      ensures succeeded ==> isSaved && imageCount == 0 && rowList == []
      ensures !succeeded ==> isSaved == old(isSaved) && imageCount == old(imageCount) && rowList == old(rowList)
      ensures selectedMeasure == old(selectedMeasure) && leadId == old(leadId)
      ensures defineMeasures == old(defineMeasures) && noMeasures == old(noMeasures)
    {
      if succeeded {
        ResetForm();
      }
    }

    /** `resetForm`, the later of its two definitions (the one JavaScript
        keeps): the measure stays selected and the form counts as saved. */
    method ResetForm()
      modifies this
      ensures isSaved && imageCount == 0 && rowList == []
      ensures selectedMeasure == old(selectedMeasure) && leadId == old(leadId)
      ensures defineMeasures == old(defineMeasures) && noMeasures == old(noMeasures)
    {
      isSaved := true;
      imageCount := 0;
      rowList := [];
    }

    /** `handleFinish`: reset, then back to the unsaved screen. */
    method HandleFinish()
      modifies this
      ensures !isSaved && imageCount == 0 && rowList == []
      ensures selectedMeasure == old(selectedMeasure) && leadId == old(leadId)
      ensures defineMeasures == old(defineMeasures) && noMeasures == old(noMeasures)
    {
      ResetForm();
      isSaved := false;
    }
  }
}
