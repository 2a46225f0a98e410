/** The fuel screen's form logic: the price auto-derivation while typing,
    the validation of a submitted form, and the submission into `addEntry`.
    Number formatting with two decimals is a parameter. */
module FuelScreen {
  import opened Wrappers
  import opened Records
  import opened Forms
  import opened FuelService

  /** The add-fuel form, every field as typed. */
  datatype FuelForm = FuelForm(
    date: string,
    stationName: string,
    liters: string,
    pricePerLiter: string,
    totalPrice: string,
    odometerKm: string)

  /** Whether the user types the total price or the price per litre. */
  datatype PriceInputMethod = Total | PerLiter

  datatype FuelField = DateField | StationNameField | LitersField | PricePerLiterField | TotalPriceField | OdometerField

  /** The alerts a submission can raise. */
  datatype FuelFormError = MissingFields | LitersNotPositive | OdometerInvalid | OdometerNotAboveCurrent | NoCarSelected

  /** The result of pressing submit: rejected with an alert, or handed to
      `addEntry` with the result it gave. */
  datatype SubmitOutcome = SubmitRejected(reason: FuelFormError) | Submitted(result: AddResult)

  predicate IsPriceField(field: FuelField) {
    field == LitersField || field == PricePerLiterField || field == TotalPriceField
  }

  function SetField(form: FuelForm, field: FuelField, value: string): FuelForm {
    match field
    case DateField => form.(date := value)
    case StationNameField => form.(stationName := value)
    case LitersField => form.(liters := value)
    case PricePerLiterField => form.(pricePerLiter := value)
    case TotalPriceField => form.(totalPrice := value)
    case OdometerField => form.(odometerKm := value)
  }

  /** The field `field` of `form`. */
  function FieldOf(form: FuelForm, field: FuelField): string {
    match field
    case DateField => form.date
    case StationNameField => form.stationName
    case LitersField => form.liters
    case PricePerLiterField => form.pricePerLiter
    case TotalPriceField => form.totalPrice
    case OdometerField => form.odometerKm
  }

  /** The total of `liters` litres at `price` per litre. */
  function TotalFor(liters: real, price: real): real {
    liters * price
  }

  /** The price per litre of `liters` litres costing `total`. */
  function PricePerLiterFor(total: real, liters: real): real
    requires liters != 0.0
  {
    total / liters
  }

  /** `parseFloat(text) || 0`. */
  function Num(p: Parsers, text: string): real {
    OrZero(p.parseFloat(text))
  }

  /** `updateField(field)(value)`: stores the typed value and, after an edit
      of a price-related field, derives the other price when both numbers it
      needs are non-zero: the total in per-litre mode, the per-litre price in
      total mode. */
  function UpdateField(form: FuelForm, mode: PriceInputMethod, field: FuelField, value: string,
                       p: Parsers, fixed2: real -> string): (r: FuelForm)
    ensures !IsPriceField(field) ==> FieldOf(r, field) == value
    ensures !IsPriceField(field) ==> forall f :: f != field ==> FieldOf(r, f) == FieldOf(form, f)
    ensures IsPriceField(field) ==>
              r.date == form.date && r.stationName == form.stationName && r.odometerKm == form.odometerKm
    ensures IsPriceField(field) ==>
              var n := SetField(form, field, value);
              var l := Num(p, n.liters);
              var pl := Num(p, n.pricePerLiter);
              var t := Num(p, n.totalPrice);
              r.liters == n.liters
              && (mode == PerLiter && l != 0.0 && pl != 0.0 ==>
                    r.totalPrice == fixed2(TotalFor(l, pl)) && r.pricePerLiter == n.pricePerLiter)
              && (mode == Total && l != 0.0 && t != 0.0 ==>
                    r.pricePerLiter == fixed2(PricePerLiterFor(t, l)) && r.totalPrice == n.totalPrice)
              && (mode == PerLiter && (l == 0.0 || pl == 0.0) ==> r == n)
              && (mode == Total && (l == 0.0 || t == 0.0) ==> r == n)
  {
    var n := SetField(form, field, value);
    if !IsPriceField(field) then n
    else if mode == PerLiter && Num(p, n.liters) != 0.0 && Num(p, n.pricePerLiter) != 0.0
    then n.(totalPrice := fixed2(TotalFor(Num(p, n.liters), Num(p, n.pricePerLiter))))
    else if mode == Total && Num(p, n.liters) != 0.0 && Num(p, n.totalPrice) != 0.0
    then n.(pricePerLiter := fixed2(PricePerLiterFor(Num(p, n.totalPrice), Num(p, n.liters))))
    else n
  }

  /** The conditions `validateForm` checks, in one predicate. */
  predicate AcceptableFuelForm(form: FuelForm, currentCar: Option<Car>, p: Parsers) {
    && form.stationName != "" && form.liters != "" && form.odometerKm != ""
    && p.parseFloat(form.liters).Some? && p.parseFloat(form.liters).value > 0.0
    && p.parseInt(form.odometerKm).Some? && p.parseInt(form.odometerKm).value >= 0
    && (currentCar.Some? ==> p.parseInt(form.odometerKm).value > currentCar.value.currentOdometerKm)
  }

  /** `validateForm`: rejects a form with an empty station, litres or
      odometer field, litres that are not a positive number, an odometer
      that is not a non-negative integer, or (when the selected car is
      known) an odometer not above the car's current reading. */
  function ValidateForm(form: FuelForm, currentCar: Option<Car>, p: Parsers): (r: Verdict<FuelFormError>)
    ensures r.Accepted? <==> AcceptableFuelForm(form, currentCar, p)
    ensures r == Rejected(MissingFields) <==> form.stationName == "" || form.liters == "" || form.odometerKm == ""
    ensures r == Rejected(LitersNotPositive) <==>
              form.stationName != "" && form.liters != "" && form.odometerKm != ""
              && (p.parseFloat(form.liters).None? || p.parseFloat(form.liters).value <= 0.0)
    ensures r == Rejected(OdometerInvalid) <==>
              form.stationName != "" && form.liters != "" && form.odometerKm != ""
              && p.parseFloat(form.liters).Some? && p.parseFloat(form.liters).value > 0.0
              && (p.parseInt(form.odometerKm).None? || p.parseInt(form.odometerKm).value < 0)
    ensures r == Rejected(OdometerNotAboveCurrent) <==>
              form.stationName != "" && form.liters != "" && form.odometerKm != ""
              && p.parseFloat(form.liters).Some? && p.parseFloat(form.liters).value > 0.0
              && p.parseInt(form.odometerKm).Some? && p.parseInt(form.odometerKm).value >= 0
              && currentCar.Some? && p.parseInt(form.odometerKm).value <= currentCar.value.currentOdometerKm
    ensures r != Rejected(NoCarSelected)
  {
    if form.stationName == "" || form.liters == "" || form.odometerKm == "" then Rejected(MissingFields)
    else if p.parseFloat(form.liters).None? || p.parseFloat(form.liters).value <= 0.0 then Rejected(LitersNotPositive)
    else if p.parseInt(form.odometerKm).None? || p.parseInt(form.odometerKm).value < 0 then Rejected(OdometerInvalid)
    else if currentCar.Some? && p.parseInt(form.odometerKm).value <= currentCar.value.currentOdometerKm
    then Rejected(OdometerNotAboveCurrent)
    else Accepted
  }

  /** The input `handleSubmit` builds from an accepted form. The screen
      passes no full-tank flag, so the fill is never a full-tank fill. */
  function EntryInputFromForm(form: FuelForm, carId: string, p: Parsers): (r: AddEntryInput)
    requires p.parseFloat(form.liters).Some? && p.parseInt(form.odometerKm).Some?
    ensures !r.isFullTank
    ensures r.carId == carId && r.liters == p.parseFloat(form.liters).value
    ensures r.date == form.date && r.stationName == form.stationName
    ensures r.odometerKm == p.parseInt(form.odometerKm).value
    ensures r.pricePerLiter == p.parseFloat(form.pricePerLiter) && r.totalPrice == p.parseFloat(form.totalPrice)
  {
    AddEntryInput(carId, form.date, form.stationName, p.parseFloat(form.liters).value,
                  p.parseFloat(form.pricePerLiter), p.parseFloat(form.totalPrice),
                  p.parseInt(form.odometerKm).value, false)
  }

  /** `handleSubmit`: validates, requires a selected car, then adds the
      entry. `selectedCarId` is empty when no car is selected. */
  function HandleSubmit(s: Store, form: FuelForm, selectedCarId: string, currentCar: Option<Car>, p: Parsers,
                        lookupOk: bool, id: string, createdAt: string, inserted: bool): (r: SubmitOutcome)
    ensures r.Submitted? <==> AcceptableFuelForm(form, currentCar, p) && selectedCarId != ""
    ensures r.SubmitRejected? && AcceptableFuelForm(form, currentCar, p) ==> r.reason == NoCarSelected
    ensures !AcceptableFuelForm(form, currentCar, p) ==> r == SubmitRejected(ValidateForm(form, currentCar, p).reason)
    ensures r.Submitted? ==>
              r.result == AddEntry(s, EntryInputFromForm(form, selectedCarId, p), lookupOk, id, createdAt, inserted)
  {
    match ValidateForm(form, currentCar, p)
    case Rejected(reason) => SubmitRejected(reason)
    case Accepted =>
      if selectedCarId == "" then SubmitRejected(NoCarSelected)
      else Submitted(AddEntry(s, EntryInputFromForm(form, selectedCarId, p), lookupOk, id, createdAt, inserted))
  }

  /** An entry added from the screen never carries a consumption value. */
  lemma ScreenEntriesHaveNoConsumption(s: Store, form: FuelForm, selectedCarId: string, currentCar: Option<Car>,
                                       p: Parsers, lookupOk: bool, id: string, createdAt: string)
    ensures var r := HandleSubmit(s, form, selectedCarId, currentCar, p, lookupOk, id, createdAt, true);
            r.Submitted? ==> r.result.data.Some? && r.result.data.value.consumption.None?
  {
  }

  /** Typing the same value into the same field twice has the effect of
      typing it once: the derived price depends only on the fields typed. */
  lemma UpdateFieldIdempotent(form: FuelForm, mode: PriceInputMethod, field: FuelField, value: string,
                              p: Parsers, fixed2: real -> string)
    ensures var once := UpdateField(form, mode, field, value, p, fixed2);
            UpdateField(once, mode, field, value, p, fixed2) == once
  {
    var once := UpdateField(form, mode, field, value, p, fixed2);
    var n := SetField(form, field, value);
    var n2 := SetField(once, field, value);
    if IsPriceField(field) {
      // The derivation never writes the fields it reads, so the second edit
      // sees the same litres and the same typed price as the first.
      assert n2.liters == n.liters;
      if mode == PerLiter {
        var l, pl := Num(p, n.liters), Num(p, n.pricePerLiter);
        assert Num(p, n2.liters) == l && Num(p, n2.pricePerLiter) == pl;
        if l != 0.0 && pl != 0.0 {
          assert UpdateField(once, mode, field, value, p, fixed2) == n2.(totalPrice := fixed2(TotalFor(l, pl)));
        } else {
          assert once == n && n2 == n;
        }
      } else {
        assert n2.totalPrice == n.totalPrice;
      }
    }
  }
}
