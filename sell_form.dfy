/**
 * The multi-step property-sale wizard: the cascade that applies a chosen
 * condominium to the form's fields, the choice of the first invalid input
 * after a failed validation, the progress counter, the default values and
 * which steps show the Back/Next bar.
 */
module SellForm {
  import opened Optional

  // ---------------------------------------------------------------------
  // Steps, views and the progress counter
  // ---------------------------------------------------------------------

  /** The six stages of the wizard (`STEPS.one` … `STEPS.six`). */
  datatype Step = One | Two | Three | Four | Five | Six

  /** What the form body shows for a step. */
  datatype View = CondoSearch | CondoInfo | PlainFields(group: nat) | Review

  function ViewOf(s: Step): View
  {
    match s
    case One => CondoSearch
    case Two => CondoInfo
    case Three => PlainFields(3)
    case Four => PlainFields(4)
    case Five => PlainFields(5)
    case Six => Review
  }

  /** The Back/Next bar is rendered below the form on every step except one, two and six. */
  predicate ShowsNavBar(s: Step)
  {
    s != One && s != Two && s != Six
  }

  /** The bar appears exactly on the steps whose view is a plain field group:
      the condo views carry their own navigation and the review its own submit. */
  lemma NavBarIffPlainFields(s: Step)
    ensures ShowsNavBar(s) <==> ViewOf(s).PlainFields?
    ensures ShowsNavBar(s) <==> s in {Three, Four, Five}
  {
  }

  /** `Array.prototype.indexOf`: the first position of `s`, or -1. */
  function IndexOf(order: seq<Step>, s: Step): (i: int)
    ensures -1 <= i < |order|
    ensures i == -1 <==> s !in order
    ensures 0 <= i ==> order[i] == s && forall j :: 0 <= j < i ==> order[j] != s
  {
    if order == [] then -1
    else if order[0] == s then 0
    else
      var j := IndexOf(order[1..], s);
      if j == -1 then -1 else j + 1
  }

  function Digit(d: nat): (c: char)
    requires d < 10
    ensures '0' <= c <= '9'
  {
    "0123456789"[d]
  }

  function DigitValue(c: char): nat
  {
    if '0' <= c <= '9' then (c - '0') as nat else 0
  }

  predicate IsDigits(s: string)
  {
    forall i :: 0 <= i < |s| ==> '0' <= s[i] <= '9'
  }

  /** The decimal text of a non-negative number, as a template literal prints it. */
  function DecimalString(n: nat): (s: string)
    ensures |s| >= 1 && IsDigits(s)
    ensures |s| > 1 ==> s[0] != '0'
    decreases n
  {
    if n < 10 then [Digit(n)] else DecimalString(n / 10) + [Digit(n % 10)]
  }

  /** Reading decimal digits back into a number. */
  function DecimalValue(s: string): nat
  {
    if s == [] then 0 else 10 * DecimalValue(s[..|s| - 1]) + DigitValue(s[|s| - 1])
  }

  lemma {:induction false} DecimalRoundTrip(n: nat)
    ensures DecimalValue(DecimalString(n)) == n
    decreases n
  {
    if n < 10 {
      assert DigitValue(Digit(n)) == n;
    } else {
      var s := DecimalString(n);
      DecimalRoundTrip(n / 10);
      assert s[..|s| - 1] == DecimalString(n / 10);
      assert DigitValue(s[|s| - 1]) == n % 10;
    }
  }

  /** `STEPS_ORDER.indexOf(currentStep) + 1 || "-"`: the 1-based position, or a dash. */
  function ProgressLabel(order: seq<Step>, s: Step): string
  {
    var k := IndexOf(order, s) + 1;
    if k != 0 then DecimalString(k) else "-"
  }

  /** The text shown in the circular progress bar. */
  function ProgressText(order: seq<Step>, s: Step): string
  {
    ProgressLabel(order, s) + " of " + DecimalString(|order|)
  }

  /** A step first found at position i of the order reads "(i+1) of N". */
  lemma ProgressTextPresent(order: seq<Step>, s: Step, i: nat)
    requires i < |order| && order[i] == s
    requires forall j :: 0 <= j < i ==> order[j] != s
    ensures ProgressText(order, s) == DecimalString(i + 1) + " of " + DecimalString(|order|)
    ensures DecimalValue(ProgressLabel(order, s)) == i + 1
  {
    assert s in order;
    assert IndexOf(order, s) == i;
    assert ProgressLabel(order, s) == DecimalString(i + 1);
    DecimalRoundTrip(i + 1);
  }

  /** The label is a dash exactly for a step missing from the order. */
  lemma ProgressLabelDash(order: seq<Step>, s: Step)
    ensures ProgressLabel(order, s) == "-" <==> s !in order
  {
    if s in order {
      var l := DecimalString(IndexOf(order, s) + 1);
      assert '0' <= l[0] <= '9';
      assert l[0] != "-"[0];
    }
  }

  /** A step missing from the order reads "- of N". */
  lemma ProgressTextMissing(order: seq<Step>, s: Step)
    requires s !in order
    ensures ProgressText(order, s) == "- of " + DecimalString(|order|)
  {
    ProgressLabelDash(order, s);
    var n := DecimalString(|order|);
    assert ProgressText(order, s) == "-" + " of " + n;
    assert "-" + " of " == "- of ";
  }

  // ---------------------------------------------------------------------
  // Form values and the setValue / clearErrors primitives
  // ---------------------------------------------------------------------

  /** A form field's value. `Null` and `Undefined` are JavaScript's two empty values. */
  datatype Value =
    | Text(s: string)
    | Number(n: int)
    | CityRef(city: string, citySlug: string)
    | Null
    | Undefined

  const BuildingAddress: string := "buildingAddress"
  const BuildingCity: string := "buildingCity"
  const BuildingName: string := "buildingName"
  const TowerId: string := "towerId"
  const BuildingTotalFloors: string := "buildingTotalFloors"
  const BuildingYearBuilt: string := "buildingYearBuilt"
  const ApartmentUnitNumber: string := "apartmentUnitNumber"

  /** The fields a condominium selection may write. */
  const CascadeFields: set<string> :=
    {BuildingAddress, BuildingCity, BuildingName, TowerId, BuildingTotalFloors, BuildingYearBuilt}

  function Lookup(m: map<string, Value>, k: string): Option<Value>
  {
    if k in m then Some(m[k]) else None
  }

  /** `{ apartmentUnitNumber: "", ...initialValues }`: the caller's values win. */
  function DefaultValues(initialValues: map<string, Value>): (m: map<string, Value>)
    ensures m.Keys == initialValues.Keys + {ApartmentUnitNumber}
    ensures forall k :: k in initialValues ==> m[k] == initialValues[k]
    ensures ApartmentUnitNumber !in initialValues ==> m[ApartmentUnitNumber] == Text("")
  {
    map[ApartmentUnitNumber := Text("")] + initialValues
  }

  /** The validation schema of a step, asked whether one field passes given all values. */
  type FieldCheck = (string, map<string, Value>) -> bool

  /** The form state owned by the form library: values and the names of fields in error. */
  datatype FormData = FormData(values: map<string, Value>, errors: set<string>)

  /** One `setValue(field, value, { shouldValidate: validate })` call. */
  datatype Write = Write(field: string, value: Value, validate: bool)

  /** The state after one `setValue`: the field takes the value; when validation is
      requested, that field's error is set or cleared by the schema; no other error moves. */
  function AfterSetValue(d: FormData, w: Write, valid: FieldCheck): (r: FormData)
    ensures r.values == d.values[w.field := w.value]
    ensures forall k :: k != w.field ==> (k in r.errors <==> k in d.errors)
    ensures !w.validate ==> r.errors == d.errors
    ensures w.validate ==> (w.field in r.errors <==> !valid(w.field, r.values))
  {
    var values := d.values[w.field := w.value];
    var errors :=
      if !w.validate then d.errors
      else if valid(w.field, values) then d.errors - {w.field}
      else d.errors + {w.field};
    FormData(values, errors)
  }

  /** A sequence of `setValue` calls, applied in order. */
  function Apply(d: FormData, ws: seq<Write>, valid: FieldCheck): FormData
  {
    if ws == [] then d
    else AfterSetValue(Apply(d, ws[..|ws| - 1], valid), ws[|ws| - 1], valid)
  }

  /** The values written by a sequence of calls, the last write of each field winning. */
  function Written(ws: seq<Write>): map<string, Value>
  {
    if ws == [] then map[]
    else Written(ws[..|ws| - 1])[ws[|ws| - 1].field := ws[|ws| - 1].value]
  }

  /** The fields whose validation a sequence of calls requests. */
  function Validated(ws: seq<Write>): set<string>
  {
    if ws == [] then {}
    else Validated(ws[..|ws| - 1]) + (if ws[|ws| - 1].validate then {ws[|ws| - 1].field} else {})
  }

  lemma ApplySingle(d: FormData, w: Write, valid: FieldCheck)
    ensures Apply(d, [w], valid) == AfterSetValue(d, w, valid)
  {
    assert [w][..0] == [];
  }

  lemma ApplySnoc(d: FormData, ws: seq<Write>, w: Write, valid: FieldCheck)
    ensures Apply(d, ws + [w], valid) == AfterSetValue(Apply(d, ws, valid), w, valid)
  {
    assert (ws + [w])[..|ws|] == ws;
  }

  lemma {:induction false} ApplyAppend(d: FormData, a: seq<Write>, b: seq<Write>, valid: FieldCheck)
    ensures Apply(d, a + b, valid) == Apply(Apply(d, a, valid), b, valid)
    decreases |b|
  {
    if b == [] {
      assert a + b == a;
    } else {
      assert (a + b)[..|a + b| - 1] == a + b[..|b| - 1];
      ApplyAppend(d, a, b[..|b| - 1], valid);
    }
  }

  /** After a sequence of calls the values are the old ones overridden by the writes. */
  lemma {:induction false} ApplyValues(d: FormData, ws: seq<Write>, valid: FieldCheck)
    ensures Apply(d, ws, valid).values == d.values + Written(ws)
    decreases |ws|
  {
    if ws != [] {
      ApplyValues(d, ws[..|ws| - 1], valid);
    }
  }

  /** Errors of fields whose validation was never requested are left alone. */
  lemma {:induction false} ApplyKeepsErrors(d: FormData, ws: seq<Write>, valid: FieldCheck, k: string)
    requires k !in Validated(ws)
    ensures k in Apply(d, ws, valid).errors <==> k in d.errors
    decreases |ws|
  {
    if ws != [] {
      ApplyKeepsErrors(d, ws[..|ws| - 1], valid, k);
    }
  }

  lemma {:induction false} WrittenAppend(a: seq<Write>, b: seq<Write>)
    ensures Written(a + b) == Written(a) + Written(b)
    ensures Validated(a + b) == Validated(a) + Validated(b)
    decreases |b|
  {
    if b == [] {
      assert a + b == a;
    } else {
      assert (a + b)[..|a + b| - 1] == a + b[..|b| - 1];
      WrittenAppend(a, b[..|b| - 1]);
    }
  }

  lemma WrittenSingle(w: Write)
    ensures Written([w]) == map[w.field := w.value]
    ensures Validated([w]) == if w.validate then {w.field} else {}
  {
    assert [w][..0] == [];
  }

  // ---------------------------------------------------------------------
  // The condominium cascade
  // ---------------------------------------------------------------------

  datatype Tower = Tower(id: int, name: string, floorsCount: Option<int>, yearBuilt: Option<int>)

  /** A (partial) condominium as the search returns it, with the tower the user picked. */
  datatype Condo = Condo(
    name: Option<string>,
    address: Option<string>,
    city: Option<string>,
    citySlug: Option<string>,
    towers: Option<seq<Tower>>,
    selectedTowerId: Option<int>)

  predicate HasTowers(c: Condo)
  {
    c.towers.Some? && |c.towers.value| != 0
  }

  /** `towers.find(i => i.id === selectedTowerId)`: the first matching position, if any. */
  function FindTower(towers: seq<Tower>, selected: Option<int>): (r: Option<nat>)
    ensures r.Some? ==> r.value < |towers| && selected == Some(towers[r.value].id)
    ensures r.Some? ==> forall j :: 0 <= j < r.value ==> selected != Some(towers[j].id)
    ensures r.None? ==> forall j :: 0 <= j < |towers| ==> selected != Some(towers[j].id)
  {
    if towers == [] then None
    else if selected == Some(towers[0].id) then Some(0)
    else
      match FindTower(towers[1..], selected)
      case None => None
      case Some(j) => Some(j + 1)
  }

  /** The matching tower, or else the first. */
  function ChosenTower(towers: seq<Tower>, selected: Option<int>): (t: Tower)
    requires |towers| != 0
    ensures t in towers
    ensures selected.Some? && (exists j :: 0 <= j < |towers| && towers[j].id == selected.value) ==>
              t.id == selected.value
    ensures (forall j :: 0 <= j < |towers| ==> selected != Some(towers[j].id)) ==> t == towers[0]
    ensures forall i ::
              (0 <= i < |towers| && selected == Some(towers[i].id) &&
               forall j :: 0 <= j < i ==> selected != Some(towers[j].id)) ==> t == towers[i]
  {
    match FindTower(towers, selected)
    case Some(i) => towers[i]
    case None => towers[0]
  }

  function AddressWrite(c: Condo): Write
  {
    Write(BuildingAddress, Text(if TruthyText(c.address) then c.address.value else ""), TruthyText(c.address))
  }

  function CityWrite(c: Condo): Write
  {
    if TruthyText(c.city) && TruthyText(c.citySlug) then
      Write(BuildingCity, CityRef(c.city.value, c.citySlug.value), true)
    else
      Write(BuildingCity, Null, false)
  }

  function FloorsWrites(t: Tower): seq<Write>
  {
    if TruthyNumber(t.floorsCount) then [Write(BuildingTotalFloors, Number(t.floorsCount.value), true)] else []
  }

  function YearWrites(t: Tower): seq<Write>
  {
    if TruthyNumber(t.yearBuilt) then [Write(BuildingYearBuilt, Number(t.yearBuilt.value), true)] else []
  }

  const ResetWrites: seq<Write> := [
    Write(BuildingName, Text(""), false),
    Write(BuildingTotalFloors, Null, false),
    Write(BuildingYearBuilt, Null, false),
    Write(TowerId, Undefined, false)
  ]

  function TowerFieldWrites(t: Tower): seq<Write>
  {
    [Write(BuildingName, Text(t.name), false), Write(TowerId, Number(t.id), false)]
      + FloorsWrites(t) + YearWrites(t)
  }

  function TowerWrites(c: Condo): seq<Write>
  {
    if HasTowers(c) then TowerFieldWrites(ChosenTower(c.towers.value, c.selectedTowerId))
    else ResetWrites
  }

  /** The `setValue` calls of `handleChangeCondominium`, in the order it makes them. */
  function CondoWrites(c: Condo): seq<Write>
  {
    [AddressWrite(c), CityWrite(c)] + TowerWrites(c)
  }

  /** The form state after a condominium is applied: the writes, then the error wipe
      when the condominium has no towers. */
  function AfterCondo(d: FormData, c: Condo, valid: FieldCheck): FormData
  {
    var applied := Apply(d, CondoWrites(c), valid);
    if HasTowers(c) then applied else FormData(applied.values, {})
  }

  /** The step advances on its own when the condo has a name and the wizard is on step one. */
  predicate AutoAdvances(c: Condo, currentStep: Step)
  {
    TruthyText(c.name) && currentStep == One
  }

  lemma CondoWrittenParts(c: Condo)
    ensures Written(CondoWrites(c)) ==
      map[BuildingAddress := AddressWrite(c).value, BuildingCity := CityWrite(c).value] + Written(TowerWrites(c))
    ensures Validated(CondoWrites(c)) ==
      (if AddressWrite(c).validate then {BuildingAddress} else {})
      + (if CityWrite(c).validate then {BuildingCity} else {})
      + Validated(TowerWrites(c))
  {
    var a, b := AddressWrite(c), CityWrite(c);
    assert [a, b] == [a] + [b];
    WrittenAppend([a], [b]);
    WrittenSingle(a);
    WrittenSingle(b);
    WrittenAppend([a, b], TowerWrites(c));
  }

  /** Floors and year are written, and validated, only when truthy. */
  lemma FiguresWritten(t: Tower)
    ensures var w := Written(FloorsWrites(t) + YearWrites(t));
      && w.Keys <= {BuildingTotalFloors, BuildingYearBuilt}
      && Lookup(w, BuildingTotalFloors) == (if TruthyNumber(t.floorsCount) then Some(Number(t.floorsCount.value)) else None)
      && Lookup(w, BuildingYearBuilt) == (if TruthyNumber(t.yearBuilt) then Some(Number(t.yearBuilt.value)) else None)
    ensures Validated(FloorsWrites(t) + YearWrites(t)) ==
      (if TruthyNumber(t.floorsCount) then {BuildingTotalFloors} else {})
      + (if TruthyNumber(t.yearBuilt) then {BuildingYearBuilt} else {})
  {
    WrittenAppend(FloorsWrites(t), YearWrites(t));
    if TruthyNumber(t.floorsCount) { WrittenSingle(FloorsWrites(t)[0]); }
    if TruthyNumber(t.yearBuilt) { WrittenSingle(YearWrites(t)[0]); }
  }

  /** The tower branch writes name and id, then the figures. */
  lemma TowerFieldWritten(t: Tower)
    ensures Written(TowerFieldWrites(t)) ==
      map[BuildingName := Text(t.name), TowerId := Number(t.id)] + Written(FloorsWrites(t) + YearWrites(t))
    ensures Validated(TowerFieldWrites(t)) == Validated(FloorsWrites(t) + YearWrites(t))
  {
    var n, i := Write(BuildingName, Text(t.name), false), Write(TowerId, Number(t.id), false);
    assert [n, i] == [n] + [i];
    assert TowerFieldWrites(t) == [n, i] + (FloorsWrites(t) + YearWrites(t));
    WrittenAppend([n], [i]);
    WrittenSingle(n);
    WrittenSingle(i);
    WrittenAppend([n, i], FloorsWrites(t) + YearWrites(t));
  }

  /** What the reset writes when there are no towers. */
  lemma ResetWritten()
    ensures Written(ResetWrites) ==
      map[BuildingName := Text(""), BuildingTotalFloors := Null, BuildingYearBuilt := Null, TowerId := Undefined]
    ensures Validated(ResetWrites) == {}
  {
    var w := ResetWrites;
    assert w == [w[0]] + [w[1]] + [w[2]] + [w[3]];
    WrittenSingle(w[0]);
    WrittenSingle(w[1]);
    WrittenSingle(w[2]);
    WrittenSingle(w[3]);
    WrittenAppend([w[0]], [w[1]]);
    WrittenAppend([w[0]] + [w[1]], [w[2]]);
    WrittenAppend([w[0]] + [w[1]] + [w[2]], [w[3]]);
  }

  /** The tower part of the cascade writes only the four tower fields, and requests
      validation only of floors and year. */
  lemma TowerWrittenKeys(c: Condo)
    ensures Written(TowerWrites(c)).Keys <= {BuildingName, TowerId, BuildingTotalFloors, BuildingYearBuilt}
    ensures Validated(TowerWrites(c)) <= {BuildingTotalFloors, BuildingYearBuilt}
  {
    if HasTowers(c) {
      var t := ChosenTower(c.towers.value, c.selectedTowerId);
      TowerFieldWritten(t);
      FiguresWritten(t);
    } else {
      ResetWritten();
    }
  }

  lemma LookupOverride(m: map<string, Value>, w: map<string, Value>, k: string)
    ensures Lookup(m + w, k) == if k in w then Some(w[k]) else Lookup(m, k)
  {
  }

  /** The tower fields the cascade writes when there are towers. */
  lemma CondoWrittenTower(c: Condo)
    requires HasTowers(c)
    ensures var t := ChosenTower(c.towers.value, c.selectedTowerId);
      var w := Written(CondoWrites(c));
      && Lookup(w, BuildingName) == Some(Text(t.name))
      && Lookup(w, TowerId) == Some(Number(t.id))
      && Lookup(w, BuildingTotalFloors) == (if TruthyNumber(t.floorsCount) then Some(Number(t.floorsCount.value)) else None)
      && Lookup(w, BuildingYearBuilt) == (if TruthyNumber(t.yearBuilt) then Some(Number(t.yearBuilt.value)) else None)
  {
    var t := ChosenTower(c.towers.value, c.selectedTowerId);
    var head := map[BuildingAddress := AddressWrite(c).value, BuildingCity := CityWrite(c).value];
    var figures := Written(FloorsWrites(t) + YearWrites(t));
    var tower := map[BuildingName := Text(t.name), TowerId := Number(t.id)] + figures;
    CondoWrittenParts(c);
    TowerFieldWritten(t);
    FiguresWritten(t);
    assert Written(CondoWrites(c)) == head + tower;
    LookupOverride(head, tower, BuildingName);
    LookupOverride(head, tower, TowerId);
    LookupOverride(head, tower, BuildingTotalFloors);
    LookupOverride(head, tower, BuildingYearBuilt);
  }

  lemma CondoValues(d: FormData, c: Condo, valid: FieldCheck)
    ensures AfterCondo(d, c, valid).values == d.values + Written(CondoWrites(c))
  {
    ApplyValues(d, CondoWrites(c), valid);
  }

  /** The address becomes the condo's address or ""; it is validated only when non-empty. */
  lemma CondoSetsAddress(d: FormData, c: Condo, valid: FieldCheck)
    ensures Lookup(AfterCondo(d, c, valid).values, BuildingAddress) ==
      Some(Text(if TruthyText(c.address) then c.address.value else ""))
    ensures BuildingAddress in Validated(CondoWrites(c)) <==> TruthyText(c.address)
  {
    CondoValues(d, c, valid);
    CondoWrittenParts(c);
    TowerWrittenKeys(c);
  }

  /** The city becomes `{city, citySlug}` when both are present, else null; it is
      validated only in the first case. */
  lemma CondoSetsCity(d: FormData, c: Condo, valid: FieldCheck)
    ensures Lookup(AfterCondo(d, c, valid).values, BuildingCity) ==
      Some(if TruthyText(c.city) && TruthyText(c.citySlug) then CityRef(c.city.value, c.citySlug.value) else Null)
    ensures BuildingCity in Validated(CondoWrites(c)) <==> TruthyText(c.city) && TruthyText(c.citySlug)
  {
    CondoValues(d, c, valid);
    CondoWrittenParts(c);
    TowerWrittenKeys(c);
  }

  /** With towers: name and id come from the chosen tower; floors and year are written
      only when truthy and otherwise keep whatever the form held (present or not). */
  lemma CondoWithTowers(d: FormData, c: Condo, valid: FieldCheck)
    requires HasTowers(c)
    ensures var t := ChosenTower(c.towers.value, c.selectedTowerId);
      var r := AfterCondo(d, c, valid);
      && Lookup(r.values, BuildingName) == Some(Text(t.name))
      && Lookup(r.values, TowerId) == Some(Number(t.id))
      && Lookup(r.values, BuildingTotalFloors) ==
           (if TruthyNumber(t.floorsCount) then Some(Number(t.floorsCount.value)) else Lookup(d.values, BuildingTotalFloors))
      && Lookup(r.values, BuildingYearBuilt) ==
           (if TruthyNumber(t.yearBuilt) then Some(Number(t.yearBuilt.value)) else Lookup(d.values, BuildingYearBuilt))
  {
    var w := Written(CondoWrites(c));
    CondoValues(d, c, valid);
    CondoWrittenTower(c);
    LookupOverride(d.values, w, BuildingName);
    LookupOverride(d.values, w, TowerId);
    LookupOverride(d.values, w, BuildingTotalFloors);
    LookupOverride(d.values, w, BuildingYearBuilt);
  }

  /** With towers, an error moves only for a field whose validation the cascade requested. */
  lemma CondoWithTowersKeepsErrors(d: FormData, c: Condo, valid: FieldCheck, k: string)
    requires HasTowers(c) && k !in Validated(CondoWrites(c))
    ensures k in AfterCondo(d, c, valid).errors <==> k in d.errors
  {
    ApplyKeepsErrors(d, CondoWrites(c), valid, k);
  }

  /** Without towers: the tower fields are reset and every error is cleared,
      whatever the form held before. */
  lemma CondoWithoutTowers(d: FormData, c: Condo, valid: FieldCheck)
    requires !HasTowers(c)
    ensures var r := AfterCondo(d, c, valid);
      && Lookup(r.values, BuildingName) == Some(Text(""))
      && Lookup(r.values, BuildingTotalFloors) == Some(Null)
      && Lookup(r.values, BuildingYearBuilt) == Some(Null)
      && Lookup(r.values, TowerId) == Some(Undefined)
      && r.errors == {}
  {
    CondoValues(d, c, valid);
    CondoWrittenParts(c);
    ResetWritten();
  }

  /** A condominium touches no field outside the six it cascades into. */
  lemma CondoLeavesOtherFields(d: FormData, c: Condo, valid: FieldCheck, k: string)
    requires k !in CascadeFields
    ensures Lookup(AfterCondo(d, c, valid).values, k) == Lookup(d.values, k)
  {
    CondoValues(d, c, valid);
    CondoWrittenParts(c);
    TowerWrittenKeys(c);
  }

  // ---------------------------------------------------------------------
  // The form controller
  // ---------------------------------------------------------------------

  /** The wizard form on one step: the library's field values and errors, and a count
      of the caller's `onNext` calls. */
  class SellFormController {
    const currentStep: Step
    /** `validationSchema[currentStep]`, asked about one field. */
    const valid: FieldCheck
    var values: map<string, Value>
    var errors: set<string>
    var nextCalls: nat

    function Data(): FormData
      reads this
    {
      FormData(values, errors)
    }

    constructor (initialValues: map<string, Value>, currentStep: Step, valid: FieldCheck)
      ensures this.currentStep == currentStep && this.valid == valid
      ensures values == DefaultValues(initialValues) && errors == {} && nextCalls == 0
    {
      this.currentStep := currentStep;
      this.valid := valid;
      values := DefaultValues(initialValues);
      errors := {};
      nextCalls := 0;
    }

    method SetValue(field: string, value: Value, shouldValidate: bool)
      modifies this
      ensures Data() == AfterSetValue(old(Data()), Write(field, value, shouldValidate), valid)
      ensures nextCalls == old(nextCalls)
    {
      values := values[field := value];
      if shouldValidate {
        if valid(field, values) {
          errors := errors - {field};
        } else {
          errors := errors + {field};
        }
      }
    }

    method ClearErrors()
      modifies this
      ensures errors == {} && values == old(values) && nextCalls == old(nextCalls)
    {
      errors := {};
    }

    method OnNext()
      modifies this
      ensures nextCalls == old(nextCalls) + 1 && Data() == old(Data())
    {
      nextCalls := nextCalls + 1;
    }

    /** The tower branch: name and id always, floors and year when truthy. */
    method SetTowerFields(tower: Tower)
      modifies this
      ensures Data() == Apply(old(Data()), TowerFieldWrites(tower), valid)
      ensures nextCalls == old(nextCalls)
    {
      ghost var d := Data();
      var name, id := Write(BuildingName, Text(tower.name), false), Write(TowerId, Number(tower.id), false);
      SetValue(BuildingName, Text(tower.name), false);
      ApplySnoc(d, [], name, valid);
      assert [] + [name] == [name];
      SetValue(TowerId, Number(tower.id), false);
      ApplySnoc(d, [name], id, valid);
      assert [name] + [id] == [name, id];
      ghost var d' := Data();
      SetTowerFigures(tower);
      ApplyAppend(d, [name, id], FloorsWrites(tower) + YearWrites(tower), valid);
      assert [name, id] + (FloorsWrites(tower) + YearWrites(tower)) == TowerFieldWrites(tower);
    }

    /** Floors, then year, each written only when the tower's value is truthy. */
    method SetTowerFigures(tower: Tower)
      modifies this
      ensures Data() == Apply(old(Data()), FloorsWrites(tower) + YearWrites(tower), valid)
      ensures nextCalls == old(nextCalls)
    {
      ghost var d := Data();
      SetTotalFloors(tower);
      SetYearBuilt(tower);
      ApplyAppend(d, FloorsWrites(tower), YearWrites(tower), valid);
    }

    method SetTotalFloors(tower: Tower)
      modifies this
      ensures Data() == Apply(old(Data()), FloorsWrites(tower), valid)
      ensures nextCalls == old(nextCalls)
    {
      if tower.floorsCount.Some? && tower.floorsCount.value != 0 {
        ApplySingle(Data(), FloorsWrites(tower)[0], valid);
        SetValue(BuildingTotalFloors, Number(tower.floorsCount.value), true);
      }
    }

    method SetYearBuilt(tower: Tower)
      modifies this
      ensures Data() == Apply(old(Data()), YearWrites(tower), valid)
      ensures nextCalls == old(nextCalls)
    {
      if tower.yearBuilt.Some? && tower.yearBuilt.value != 0 {
        ApplySingle(Data(), YearWrites(tower)[0], valid);
        SetValue(BuildingYearBuilt, Number(tower.yearBuilt.value), true);
      }
    }

    /** The branch for a condominium without towers, before the errors are cleared. */
    method ResetTowerFields()
      modifies this
      ensures Data() == Apply(old(Data()), ResetWrites, valid)
      ensures nextCalls == old(nextCalls)
    {
      ghost var d := Data();
      ghost var ws: seq<Write> := [];
      var w := ResetWrites;
      SetValue(BuildingName, Text(""), false);
      ApplySnoc(d, ws, w[0], valid);
      ws := ws + [w[0]];
      SetValue(BuildingTotalFloors, Null, false);
      ApplySnoc(d, ws, w[1], valid);
      ws := ws + [w[1]];
      SetValue(BuildingYearBuilt, Null, false);
      ApplySnoc(d, ws, w[2], valid);
      ws := ws + [w[2]];
      SetValue(TowerId, Undefined, false);
      ApplySnoc(d, ws, w[3], valid);
      ws := ws + [w[3]];
      assert ws == w;
    }

    /** The address and city writes that open the cascade. */
    method SetAddressAndCity(c: Condo)
      modifies this
      ensures Data() == Apply(old(Data()), [AddressWrite(c), CityWrite(c)], valid)
      ensures nextCalls == old(nextCalls)
    {
      ghost var d := Data();
      var addressPresent := c.address.Some? && c.address.value != "";
      SetValue(BuildingAddress, Text(if addressPresent then c.address.value else ""), addressPresent);
      ApplySnoc(d, [], AddressWrite(c), valid);
      assert [] + [AddressWrite(c)] == [AddressWrite(c)];
      if c.city.Some? && c.city.value != "" && c.citySlug.Some? && c.citySlug.value != "" {
        SetValue(BuildingCity, CityRef(c.city.value, c.citySlug.value), true);
      } else {
        SetValue(BuildingCity, Null, false);
      }
      ApplySnoc(d, [AddressWrite(c)], CityWrite(c), valid);
      assert [AddressWrite(c)] + [CityWrite(c)] == [AddressWrite(c), CityWrite(c)];
    }

    /** Applies a chosen condominium, one `setValue` at a time, then maybe advances. */
    method HandleChangeCondominium(c: Condo)
      modifies this
      ensures Data() == AfterCondo(old(Data()), c, valid)
      ensures nextCalls == old(nextCalls) + (if AutoAdvances(c, currentStep) then 1 else 0)
    {
      ghost var d := Data();
      SetAddressAndCity(c);
      ApplyAppend(d, [AddressWrite(c), CityWrite(c)], TowerWrites(c), valid);

      if c.towers.Some? && |c.towers.value| != 0 {
        var towers := c.towers.value;
        var tower := match FindTower(towers, c.selectedTowerId) case Some(i) => towers[i] case None => towers[0];
        assert tower == ChosenTower(towers, c.selectedTowerId);
        SetTowerFields(tower);
      } else {
        ResetTowerFields();
        ClearErrors();
      }

      if c.name.Some? && c.name.value != "" && currentStep == One {
        OnNext();
      }
    }
  }

  // ---------------------------------------------------------------------
  // Focus after a failed validation
  // ---------------------------------------------------------------------

  /** An `<input>` of the form, in document order. */
  datatype Input = Input(name: Option<string>, inputType: string, readOnly: bool)

  /** The key under which the errors object is read: `getAttribute("name")` gives
      null when the attribute is missing, and an object key null reads as "null". */
  function ErrorKey(i: Input): string
  {
    match i.name
    case Some(n) => n
    case None => "null"
  }

  /** The first input, in document order, whose name has an error. */
  function FirstInvalid(inputs: seq<Input>, errors: set<string>): (r: Option<nat>)
    ensures r.Some? ==> r.value < |inputs| && ErrorKey(inputs[r.value]) in errors
    ensures r.Some? ==> forall j :: 0 <= j < r.value ==> ErrorKey(inputs[j]) !in errors
    ensures r.None? ==> forall j :: 0 <= j < |inputs| ==> ErrorKey(inputs[j]) !in errors
  {
    if inputs == [] then None
    else if ErrorKey(inputs[0]) in errors then Some(0)
    else
      match FirstInvalid(inputs[1..], errors)
      case None => None
      case Some(j) => Some(j + 1)
  }

  /** The DOM effects of `onValidationError`, as positions among the inputs. */
  datatype FocusEffects = FocusEffects(focused: Option<nat>, scrolled: Option<nat>)

  function OnValidationError(inputs: seq<Input>, errors: set<string>): (e: FocusEffects)
    ensures e.scrolled == FirstInvalid(inputs, errors)
    ensures e.focused.Some? <==>
      e.scrolled.Some? && !inputs[e.scrolled.value].readOnly && inputs[e.scrolled.value].inputType == "text"
    ensures e.focused.Some? ==> e.focused == e.scrolled
  {
    match FirstInvalid(inputs, errors)
    case None => FocusEffects(None, None)
    case Some(i) =>
      if !inputs[i].readOnly && inputs[i].inputType == "text" then FocusEffects(Some(i), Some(i))
      else FocusEffects(None, Some(i))
  }

  /** The input acted on is the first with an error; nothing happens without one. */
  lemma ValidationErrorTargetsFirstInvalid(inputs: seq<Input>, errors: set<string>, i: nat)
    requires i < |inputs| && ErrorKey(inputs[i]) in errors
    requires forall j :: 0 <= j < i ==> ErrorKey(inputs[j]) !in errors
    ensures OnValidationError(inputs, errors).scrolled == Some(i)
    ensures OnValidationError(inputs, errors).focused == Some(i) <==>
      !inputs[i].readOnly && inputs[i].inputType == "text"
  {
  }

  lemma ValidationErrorWithoutMatch(inputs: seq<Input>, errors: set<string>)
    ensures OnValidationError(inputs, errors) == FocusEffects(None, None) <==>
      forall j :: 0 <= j < |inputs| ==> ErrorKey(inputs[j]) !in errors
  {
  }
}
