/** The statistics of the `useFuelEntries` hook: the fetched entry list and
    the average consumption over the most recent entries that carry one. */
module FuelEntriesHook {
  import opened Wrappers
  import opened Records

  /** Most consumption values the average takes. */
  const AverageWindow: nat := 5

  /** What the remote listing returned: rows (possibly a null body), or an
      error. */
  datatype FetchResult = Fetched(data: Option<seq<FuelEntry>>) | FetchFailed

  /** The hook's state after a fetch. */
  datatype HookState = HookState(entries: seq<FuelEntry>, averageConsumption: Option<real>, failed: bool)

  /** The consumption values the entries carry, in list order. */
  function Consumptions(entries: seq<FuelEntry>): (r: seq<real>)
    ensures |r| <= |entries|
    ensures |r| == 0 <==> forall e :: e in entries ==> e.consumption.None?
  {
    if |entries| == 0 then []
    else
      var rest := Consumptions(entries[1..]);
      assert forall e :: e in entries ==> e == entries[0] || e in entries[1..];
      match entries[0].consumption
      case Some(v) => [v] + rest
      case None => rest
  }

  /** The values that enter the average: the first five consumption values. */
  function Selected(entries: seq<FuelEntry>): (r: seq<real>)
    ensures |r| <= AverageWindow
    ensures r <= Consumptions(entries)
    ensures |r| == AverageWindow || r == Consumptions(entries)
  {
    var vs := Consumptions(entries);
    if |vs| <= AverageWindow then vs else vs[..AverageWindow]
  }

  function Sum(vs: seq<real>): real {
    if |vs| == 0 then 0.0 else vs[0] + Sum(vs[1..])
  }

  /** The arithmetic mean of a non-empty sequence. */
  function Mean(vs: seq<real>): real
    requires |vs| > 0
  {
    Sum(vs) / |vs| as real
  }

  /** `Math.round(x * 10) / 10`: the multiple of one tenth nearest to `x`,
      halves rounded up. */
  function RoundTenth(x: real): (r: real)
    ensures ((r * 10.0).Floor) as real == r * 10.0
    ensures r - 0.05 <= x < r + 0.05
  {
    var k := (x * 10.0 + 0.5).Floor;
    k as real / 10.0
  }

  /** The average consumption: null when no entry carries a value, else the
      mean of the first five values rounded to one decimal. */
  function AverageConsumption(entries: seq<FuelEntry>): (r: Option<real>)
    ensures r.None? <==> forall e :: e in entries ==> e.consumption.None?
    ensures r.Some? ==> |Selected(entries)| > 0
                        && r.value == RoundTenth(Mean(Selected(entries)))
                        && r.value - 0.05 <= Mean(Selected(entries)) < r.value + 0.05
  {
    if |entries| > 0 then
      var valid := Selected(entries);
      if |valid| > 0 then Some(RoundTenth(Mean(valid))) else None
    else None
  }

  /** `fetchEntries` from a state whose error flag is `priorFailed`: an
      empty car id clears the entries and the average without fetching and
      leaves the error flag alone; a failed fetch clears them and sets the
      flag; a successful one clears the flag, takes a null body as an empty
      list and recomputes the average. */
  function FetchEntries(carId: string, fetched: FetchResult, priorFailed: bool): (r: HookState)
    ensures carId == "" ==> r.entries == [] && r.averageConsumption.None? && r.failed == priorFailed
    ensures carId != "" && fetched.FetchFailed? ==> r.entries == [] && r.averageConsumption.None? && r.failed
    ensures carId != "" && fetched.Fetched? ==>
              !r.failed && r.entries == fetched.data.GetOr([])
              && r.averageConsumption == AverageConsumption(r.entries)
    ensures r.averageConsumption.None? <==> forall e :: e in r.entries ==> e.consumption.None?
  {
    if carId == "" then HookState([], None, priorFailed)
    else match fetched
      case FetchFailed => HookState([], None, true)
      case Fetched(data) =>
        var entries := data.GetOr([]);
        HookState(entries, AverageConsumption(entries), false)
  }

  lemma {:induction false} SumBounds(vs: seq<real>, lo: real, hi: real)
    requires forall i :: 0 <= i < |vs| ==> lo <= vs[i] <= hi
    ensures |vs| as real * lo <= Sum(vs) <= |vs| as real * hi
  {
    if |vs| > 0 {
      SumBounds(vs[1..], lo, hi);
    }
  }

  lemma QuotientBounds(s: real, n: real, lo: real, hi: real)
    requires n > 0.0 && n * lo <= s <= n * hi
    ensures lo <= s / n <= hi
  {
    assert s / n * n == s;
  }

  /** The unrounded average lies between any lower and upper bound of the
      selected values, in particular between their minimum and maximum. */
  lemma MeanWithinBounds(entries: seq<FuelEntry>, lo: real, hi: real)
    requires |Selected(entries)| > 0
    requires forall i :: 0 <= i < |Selected(entries)| ==> lo <= Selected(entries)[i] <= hi
    ensures lo <= Mean(Selected(entries)) <= hi
  {
    var vs := Selected(entries);
    SumBounds(vs, lo, hi);
    QuotientBounds(Sum(vs), |vs| as real, lo, hi);
  }

  /** A value is among the consumption values exactly when some entry
      carries it. */
  lemma {:induction false} ConsumptionsMembers(entries: seq<FuelEntry>)
    ensures forall v :: v in Consumptions(entries) <==> exists e :: e in entries && e.consumption == Some(v)
  {
    if |entries| > 0 {
      var rest := entries[1..];
      ConsumptionsMembers(rest);
      assert forall e :: e in entries <==> e == entries[0] || e in rest;
    }
  }

  /** One entry contributes its own value, if it carries one. */
  lemma ConsumptionsOfOne(e: FuelEntry)
    ensures Consumptions([e]) == (if e.consumption.Some? then [e.consumption.value] else [])
  {
    assert [e][1..] == [];
  }

  lemma {:induction false} ConsumptionsAppend(a: seq<FuelEntry>, b: seq<FuelEntry>)
    ensures Consumptions(a + b) == Consumptions(a) + Consumptions(b)
  {
    if |a| == 0 {
      assert a + b == b;
    } else {
      assert (a + b)[1..] == a[1..] + b;
      ConsumptionsAppend(a[1..], b);
    }
  }

  /** An entry without a value adds nothing to the consumption values. */
  lemma ConsumptionsSkipNone(a: seq<FuelEntry>, e: FuelEntry, b: seq<FuelEntry>)
    requires e.consumption.None?
    ensures Consumptions(a + [e] + b) == Consumptions(a + b)
  {
    ConsumptionsOfOne(e);
    ConsumptionsAppend(a, [e]);
    ConsumptionsAppend(a + [e], b);
    ConsumptionsAppend(a, b);
  }

  /** The average depends on the entries only through their consumption
      values. */
  lemma AverageFromConsumptions(x: seq<FuelEntry>, y: seq<FuelEntry>)
    requires Consumptions(x) == Consumptions(y)
    ensures AverageConsumption(x) == AverageConsumption(y)
  {
    assert Selected(x) == Selected(y);
  }

  /** An entry without a consumption value does not change the average,
      wherever it sits in the list. */
  lemma EntryWithoutConsumptionIgnored(a: seq<FuelEntry>, e: FuelEntry, b: seq<FuelEntry>)
    requires e.consumption.None?
    ensures AverageConsumption(a + [e] + b) == AverageConsumption(a + b)
  {
    ConsumptionsSkipNone(a, e, b);
    AverageFromConsumptions(a + [e] + b, a + b);
  }

  /** Once the list holds five consumption values, whatever follows does not
      change the average. */
  lemma OnlyFirstFiveCount(a: seq<FuelEntry>, b: seq<FuelEntry>)
    requires |Consumptions(a)| >= AverageWindow
    ensures AverageConsumption(a + b) == AverageConsumption(a)
  {
    ConsumptionsAppend(a, b);
    assert Consumptions(a + b)[..AverageWindow] == Consumptions(a)[..AverageWindow];
    assert Selected(a + b) == Selected(a);
  }

  /** Consumptions keeps list order: the values of the entries before a
      fill come before its own value, followed by those after it. */
  lemma {:induction false} ConsumptionsSplit(a: seq<FuelEntry>, e: FuelEntry, b: seq<FuelEntry>)
    requires e.consumption.Some?
    ensures Consumptions(a + [e] + b) == Consumptions(a) + [e.consumption.value] + Consumptions(b)
  {
    ConsumptionsOfOne(e);
    ConsumptionsAppend(a, [e]);
    ConsumptionsAppend(a + [e], b);
  }
}
