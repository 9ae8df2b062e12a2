/**
 * ml/CAR_PRICE_PREDICTION_LGBM/app.py: the LightGBM server. At start-up it
 * standardizes the owner labels, drops incomplete rows and builds the
 * option lists and the make-to-models map; `predict` reads eleven fields,
 * checks five ranges in order, derives the car's age and its product with
 * the distance driven, and hands the rest to the pipeline.
 */
module MlApi {
  import opened Wrappers
  import opened Numbers
  import opened Limits
  import opened Server
  import opened Catalog

  // ---------------------------------------------------------------------
  // standardize_owner
  // ---------------------------------------------------------------------

  /** `p` occurs in `s` starting at position `i`. */
  predicate OccursAt(s: string, p: string, i: nat)
  {
    i + |p| <= |s| && s[i..i + |p|] == p
  }

  /** Python's `p in s` on strings: `p` occurs somewhere in `s`. */
  predicate Contains(s: string, p: string)
  {
    exists i: nat | i <= |s| :: OccursAt(s, p, i)
  }

  /** An occurrence in a suffix of `s` is an occurrence in `s`, and back. */
  lemma OccursInSuffix(s: string, p: string, c: nat, i: nat)
    requires c <= |s|
    ensures OccursAt(s[c..], p, i) <==> OccursAt(s, p, c + i)
  {
    if c + i + |p| <= |s| {
      assert s[c..][i..i + |p|] == s[c + i..c + i + |p|];
    }
  }

  /** An occurrence in `u` is one in `a + u`, moved by `|a|`. */
  lemma OccursAfter(a: string, u: string, p: string, i: nat)
    requires OccursAt(u, p, i)
    ensures OccursAt(a + u, p, |a| + i)
  {
    assert (a + u)[|a| + i..|a| + i + |p|] == u[i..i + |p|];
  }

  /**
   * `s.replace(pat, rep)`: the occurrences of `pat` found scanning from the
   * left, each resumed after, are replaced by `rep`; the rest is copied.
   */
  function ReplaceAll(s: string, pat: string, rep: string): string
    requires pat != []
    decreases |s|
  {
    if |s| < |pat| then s
    else if s[..|pat|] == pat then rep + ReplaceAll(s[|pat|..], pat, rep)
    else [s[0]] + ReplaceAll(s[1..], pat, rep)
  }

  /** A string without `pat` is left as it is. */
  lemma {:induction false} ReplaceAbsent(s: string, pat: string, rep: string)
    requires pat != [] && !Contains(s, pat)
    ensures ReplaceAll(s, pat, rep) == s
  {
    if |s| >= |pat| {
      assert !OccursAt(s, pat, 0);
      forall i: nat
        ensures !OccursAt(s[1..], pat, i)
      {
        OccursInSuffix(s, pat, 1, i);
      }
      ReplaceAbsent(s[1..], pat, rep);
    }
  }

  /** No replacement starts before the first `pat[0]`: that much of `s` is copied as it is. */
  lemma {:induction false} ReplaceKeepsPrefix(s: string, pat: string, rep: string, k: nat)
    requires pat != [] && k <= |s|
    requires forall j :: 0 <= j < k ==> s[j] != pat[0]
    ensures |ReplaceAll(s, pat, rep)| >= k && ReplaceAll(s, pat, rep)[..k] == s[..k]
  {
    if k > 0 {
      var t := s[1..];
      assert |s| >= |pat| ==> s[..|pat|][0] == s[0];
      ReplaceKeepsPrefix(t, pat, rep, k - 1);
      assert s[..k] == [s[0]] + t[..k - 1];
    }
  }

  /**
   * Replacing `pat` keeps every occurrence of a `q` that cannot overlap an
   * occurrence of `pat`: `q` does not contain `pat[0]` and `pat` does not
   * contain `q[0]`.
   */
  lemma {:induction false} ReplaceKeeps(s: string, pat: string, rep: string, q: string)
    requires pat != [] && q != []
    requires pat[0] !in q && q[0] !in pat
    requires Contains(s, q)
    ensures Contains(ReplaceAll(s, pat, rep), q)
    decreases |s|, 1
  {
    var i: nat :| i <= |s| && OccursAt(s, q, i);
    if |s| < |pat| {
    } else if s[..|pat|] == pat {
      assert i >= |pat| by {
        assert s[i..i + |q|][0] == q[0];
      }
      ReplaceKeepsAfterMatch(s, pat, rep, q, i);
    } else if i == 0 {
      forall j | 0 <= j < |q|
        ensures s[j] != pat[0]
      {
        assert s[j] == s[..|q|][j];
      }
      ReplaceKeepsPrefix(s, pat, rep, |q|);
      assert OccursAt(ReplaceAll(s, pat, rep), q, 0);
    } else {
      OccursInSuffix(s, q, 1, i - 1);
      ReplaceKeeps(s[1..], pat, rep, q);
      var u := ReplaceAll(s[1..], pat, rep);
      var k: nat :| k <= |u| && OccursAt(u, q, k);
      OccursAfter([s[0]], u, q, k);
    }
  }

  /** The step of `ReplaceKeeps` where `s` starts with `pat` and `q` occurs after it. */
  lemma {:induction false} ReplaceKeepsAfterMatch(s: string, pat: string, rep: string, q: string, i: nat)
    requires pat != [] && q != []
    requires pat[0] !in q && q[0] !in pat
    requires |pat| <= |s| && s[..|pat|] == pat
    requires i >= |pat| && OccursAt(s, q, i)
    ensures Contains(ReplaceAll(s, pat, rep), q)
    decreases |s|, 0
  {
    var t := s[|pat|..];
    OccursInSuffix(s, q, |pat|, i - |pat|);
    ReplaceKeeps(t, pat, rep, q);
    var u := ReplaceAll(t, pat, rep);
    var k: nat :| k <= |u| && OccursAt(u, q, k);
    OccursAfter(rep, u, q, k);
  }

  const OwnerWord := "Owner"
  const OldSuffix := "th & Above"
  const NewSuffix := "Fourth & Above"

  /**
   * `standardize_owner`: a label without "Owner" gets " Owner" appended;
   * one with it has every "th & Above" spelled "Fourth & Above". Either
   * way the result names an owner.
   */
  function StandardizeOwner(o: string): (r: string)
    ensures Contains(r, OwnerWord)
    ensures !Contains(o, OwnerWord) ==> r == o + " " + OwnerWord
    ensures Contains(o, OwnerWord) ==> r == ReplaceAll(o, OldSuffix, NewSuffix)
    ensures Contains(o, OwnerWord) && !Contains(o, OldSuffix) ==> r == o
  {
    if !Contains(o, OwnerWord) then
      OccursAfter(o + " ", OwnerWord, OwnerWord, 0);
      o + " " + OwnerWord
    else
      assert OldSuffix[0] == 't' && OwnerWord[0] == 'O';
      ReplaceKeeps(o, OldSuffix, NewSuffix, OwnerWord);
      assert !Contains(o, OldSuffix) ==> ReplaceAll(o, OldSuffix, NewSuffix) == o by {
        if !Contains(o, OldSuffix) {
          ReplaceAbsent(o, OldSuffix, NewSuffix);
        }
      }
      ReplaceAll(o, OldSuffix, NewSuffix)
  }

  /** A lead-in without `pat[0]` is copied and the rest replaced on its own. */
  lemma {:induction false} ReplaceAfterLeadIn(a: string, s: string, pat: string, rep: string)
    requires pat != [] && pat[0] !in a
    ensures ReplaceAll(a + s, pat, rep) == a + ReplaceAll(s, pat, rep)
  {
    if a != [] {
      var w := a + s;
      assert a[0] != pat[0];
      assert |w| >= |pat| ==> w[..|pat|][0] == a[0];
      assert w[1..] == a[1..] + s;
      assert ReplaceAll(w, pat, rep) == [a[0]] + ReplaceAll(w[1..], pat, rep) by {
        if |w| < |pat| {
          assert ReplaceAll(w[1..], pat, rep) == w[1..];
          assert w == [a[0]] + w[1..];
        }
      }
      ReplaceAfterLeadIn(a[1..], s, pat, rep);
      assert a == [a[0]] + a[1..];
    } else {
      assert a + s == s;
    }
  }

  /** A text that starts with the pattern has it replaced, and the rest scanned on its own. */
  lemma ReplaceAtStart(pat: string, t: string, rep: string)
    requires pat != []
    ensures ReplaceAll(pat + t, pat, rep) == rep + ReplaceAll(t, pat, rep)
  {
    assert (pat + t)[..|pat|] == pat && (pat + t)[|pat|..] == t;
  }

  /** A text shorter than the pattern is left as it is. */
  lemma ReplaceShort(s: string, pat: string, rep: string)
    requires pat != [] && |s| < |pat|
    ensures ReplaceAll(s, pat, rep) == s
  {
  }

  /** The owner label the dataset abbreviates, "th & Above Owner". */
  const ShortFourth := OldSuffix + " " + OwnerWord

  /** "th & Above Owner" is spelled out as "Fourth & Above Owner". */
  lemma StandardizeOwnerSpellsOut()
    ensures StandardizeOwner(ShortFourth) == NewSuffix + " " + OwnerWord
  {
    assert ShortFourth == OldSuffix + (" " + OwnerWord);
    assert OccursAt(ShortFourth, OwnerWord, |OldSuffix| + 1) by {
      assert ShortFourth[|OldSuffix| + 1..] == OwnerWord;
    }
    ReplaceAtStart(OldSuffix, " " + OwnerWord, NewSuffix);
    ReplaceShort(" " + OwnerWord, OldSuffix, NewSuffix);
  }

  /**
   * Standardizing twice is not standardizing once: "Fourth & Above Owner"
   * still holds "th & Above", which gains a second "Four".
   */
  lemma StandardizeOwnerNotIdempotent()
    ensures var once := StandardizeOwner(ShortFourth); StandardizeOwner(once) == "Four" + once
    ensures var once := StandardizeOwner(ShortFourth); StandardizeOwner(once) != once
  {
    var once := StandardizeOwner(ShortFourth);
    StandardizeOwnerSpellsOut();
    assert NewSuffix == "Four" + OldSuffix;
    assert once == "Four" + ShortFourth;
    assert 't' !in "Four";
    ReplaceAfterLeadIn("Four", ShortFourth, OldSuffix, NewSuffix);
    StandardizeOwnerSpellsOut();
  }

  // ---------------------------------------------------------------------
  // The option lists built at start-up
  // ---------------------------------------------------------------------

  /**
   * A row of the dataset, reduced to the columns the option lists read;
   * `complete` says that power, engine, torque and drivetrain all parsed,
   * so that `dropna` keeps the row.
   */
  datatype Row = Row(
    make: string, model: string, fuel: string, transmission: string, owner: string,
    drivetrain: string, complete: bool)

  /** The owner column after `apply(standardize_owner)`. */
  function WithStandardOwner(row: Row): Row
  {
    row.(owner := StandardizeOwner(row.owner))
  }

  /**
   * `df_clean`: the complete rows, with their owner labels standardized.
   * Standardizing before dropping rows, as the source does, gives the same
   * rows as dropping first.
   */
  function Cleaned(rows: seq<Row>): (r: seq<Row>)
    ensures forall x :: x in r <==> exists row :: row in rows && row.complete && x == WithStandardOwner(row)
  {
    if rows == [] then []
    else
      var last := rows[|rows| - 1];
      var r := Cleaned(rows[..|rows| - 1]);
      assert forall row :: row in rows <==> row in rows[..|rows| - 1] || row == last by {
        assert rows == rows[..|rows| - 1] + [last];
      }
      if last.complete then r + [WithStandardOwner(last)] else r
  }

  /** One column of the cleaned rows, in row order. */
  function Column(rows: seq<Row>, f: Row -> string): (r: seq<string>)
    ensures forall y :: y in r <==> exists row :: row in rows && f(row) == y
  {
    if rows == [] then []
    else
      var last := rows[|rows| - 1];
      assert forall row :: row in rows <==> row in rows[..|rows| - 1] || row == last by {
        assert rows == rows[..|rows| - 1] + [last];
      }
      Column(rows[..|rows| - 1], f) + [f(last)]
  }

  /** The (make, model) pairs the grouping reads. */
  function Listings(rows: seq<Row>): (r: seq<Listing>)
    ensures forall l :: l in r <==> exists row :: row in rows && Listing(row.make, row.model) == l
  {
    if rows == [] then []
    else
      var last := rows[|rows| - 1];
      assert forall row :: row in rows <==> row in rows[..|rows| - 1] || row == last by {
        assert rows == rows[..|rows| - 1] + [last];
      }
      Listings(rows[..|rows| - 1]) + [Listing(last.make, last.model)]
  }

  /**
   * `sorted(df_clean[column].unique().tolist())`: strictly increasing, and
   * holding exactly the values the column takes in the complete rows,
   * after the owner labels are standardized.
   */
  function OptionList(rows: seq<Row>, f: Row -> string): (r: seq<string>)
    ensures StrictlySorted(r)
    ensures forall y :: y in r <==> exists row :: row in rows && row.complete && f(WithStandardOwner(row)) == y
  {
    var clean := Cleaned(rows);
    forall y
      ensures y in Column(clean, f) <==> exists row :: row in rows && row.complete && f(WithStandardOwner(row)) == y
    {
      if exists row :: row in rows && row.complete && f(WithStandardOwner(row)) == y {
        var row :| row in rows && row.complete && f(WithStandardOwner(row)) == y;
        assert WithStandardOwner(row) in clean;
      }
    }
    SortedUnique(Column(clean, f))
  }

  /**
   * The `manufacturer_models` loop over the cleaned rows: one key per make
   * of a complete row, and a model under a make exactly when a complete
   * row pairs them.
   */
  method ModelsByMake(rows: seq<Row>) returns (mm: map<string, seq<string>>)
    ensures forall m :: m in mm <==> exists row :: row in rows && row.complete && row.make == m
    ensures forall m :: m in mm ==> StrictlySorted(mm[m])
    ensures forall m, x :: m in mm ==>
      (x in mm[m] <==> exists row :: row in rows && row.complete && row.make == m && row.model == x)
  {
    mm := GroupModels(Listings(Cleaned(rows)));
    forall m
      ensures m in mm <==> exists row :: row in rows && row.complete && row.make == m
    {
      CleanedMakes(rows, m);
    }
    forall m, x | m in mm
      ensures x in mm[m] <==> exists row :: row in rows && row.complete && row.make == m && row.model == x
    {
      CleanedListings(rows, m, x);
    }
  }

  /** The grouping sees exactly the makes of the complete rows. */
  lemma CleanedMakes(rows: seq<Row>, m: string)
    ensures (exists l :: l in Listings(Cleaned(rows)) && l.make == m) <==>
            exists row :: row in rows && row.complete && row.make == m
  {
    if exists row :: row in rows && row.complete && row.make == m {
      var row :| row in rows && row.complete && row.make == m;
      assert Listing(m, row.model) in Listings(Cleaned(rows)) by {
        assert WithStandardOwner(row) in Cleaned(rows);
      }
    }
  }

  /** The grouping sees exactly the (make, model) pairs of the complete rows. */
  lemma CleanedListings(rows: seq<Row>, m: string, x: string)
    ensures Listing(m, x) in Listings(Cleaned(rows)) <==>
            exists row :: row in rows && row.complete && row.make == m && row.model == x
  {
    if exists row :: row in rows && row.complete && row.make == m && row.model == x {
      var row :| row in rows && row.complete && row.make == m && row.model == x;
      assert WithStandardOwner(row) in Cleaned(rows);
    }
  }

  /** What the options endpoint serves. */
  datatype OptionLists = OptionLists(
    companies: seq<string>, manufacturerModels: map<string, seq<string>>, fuelTypes: seq<string>,
    transmissions: seq<string>, owners: seq<string>, drivetrains: seq<string>)

  /**
   * The start-up code: the five lists and the make-to-models map. Every
   * owner label the endpoint serves names an owner, and the map's keys are
   * the companies.
   */
  method BuildOptions(rows: seq<Row>) returns (o: OptionLists)
    ensures o.companies == OptionList(rows, (r: Row) => r.make)
    ensures o.fuelTypes == OptionList(rows, (r: Row) => r.fuel)
    ensures o.transmissions == OptionList(rows, (r: Row) => r.transmission)
    ensures o.owners == OptionList(rows, (r: Row) => r.owner)
    ensures o.drivetrains == OptionList(rows, (r: Row) => r.drivetrain)
    ensures forall y :: y in o.owners ==> Contains(y, OwnerWord)
    ensures forall m :: m in o.manufacturerModels <==> m in o.companies
    ensures forall m :: m in o.manufacturerModels ==> StrictlySorted(o.manufacturerModels[m])
    ensures forall m, x :: m in o.manufacturerModels ==>
      (x in o.manufacturerModels[m] <==> exists row :: row in rows && row.complete && row.make == m && row.model == x)
  {
    var mm := ModelsByMake(rows);
    o := OptionLists(
      OptionList(rows, (r: Row) => r.make), mm, OptionList(rows, (r: Row) => r.fuel),
      OptionList(rows, (r: Row) => r.transmission), OptionList(rows, (r: Row) => r.owner),
      OptionList(rows, (r: Row) => r.drivetrain));
  }

  // ---------------------------------------------------------------------
  // predict
  // ---------------------------------------------------------------------

  /** The fields `predict` reads, each as its extraction ends (ml/CAR_PRICE_PREDICTION_LGBM/app.py:87-97). */
  datatype Input = Input(
    year: Conv<int>, kmDriven: Conv<int>, manufacturer: Conv<string>, modelName: Conv<string>,
    fuel: Conv<string>, transmission: Conv<string>, owner: Conv<string>,
    maxPowerBhp: Conv<Float>, engineCc: Conv<Float>, maxTorqueNm: Conv<Float>, drivetrain: Conv<string>)

  /** The row handed to the pipeline, with the two derived features. */
  datatype Features = Features(
    year: int, kmDriven: int, maxPowerBhp: Float, engineCc: Float, carAge: int, ageKm: int,
    maxTorqueNm: Float, fuel: string, transmission: string, owner: string, drivetrain: string,
    manufacturer: string, modelName: string)

  /** The first extraction that raises, in the order the source performs them. */
  function FirstRaise(input: Input): (r: Option<string>)
    ensures r.None? <==>
      && input.year.Given? && input.kmDriven.Given? && input.manufacturer.Given? && input.modelName.Given?
      && input.fuel.Given? && input.transmission.Given? && input.owner.Given?
      && input.maxPowerBhp.Given? && input.engineCc.Given? && input.maxTorqueNm.Given? && input.drivetrain.Given?
    ensures input.year.Raises? ==> r == Some(input.year.message)
    ensures input.year.Given? && input.kmDriven.Raises? ==> r == Some(input.kmDriven.message)
    ensures (
      && input.year.Given? && input.kmDriven.Given? && input.manufacturer.Raises?)
      ==> r == Some(input.manufacturer.message)
    ensures (
      && input.year.Given? && input.kmDriven.Given? && input.manufacturer.Given?
      && input.modelName.Raises?)
      ==> r == Some(input.modelName.message)
    ensures (
      && input.year.Given? && input.kmDriven.Given? && input.manufacturer.Given?
      && input.modelName.Given? && input.fuel.Raises?)
      ==> r == Some(input.fuel.message)
    ensures (
      && input.year.Given? && input.kmDriven.Given? && input.manufacturer.Given?
      && input.modelName.Given? && input.fuel.Given? && input.transmission.Raises?)
      ==> r == Some(input.transmission.message)
    ensures (
      && input.year.Given? && input.kmDriven.Given? && input.manufacturer.Given?
      && input.modelName.Given? && input.fuel.Given? && input.transmission.Given?
      && input.owner.Raises?)
      ==> r == Some(input.owner.message)
    ensures (
      && input.year.Given? && input.kmDriven.Given? && input.manufacturer.Given?
      && input.modelName.Given? && input.fuel.Given? && input.transmission.Given?
      && input.owner.Given? && input.maxPowerBhp.Raises?)
      ==> r == Some(input.maxPowerBhp.message)
    ensures (
      && input.year.Given? && input.kmDriven.Given? && input.manufacturer.Given?
      && input.modelName.Given? && input.fuel.Given? && input.transmission.Given?
      && input.owner.Given? && input.maxPowerBhp.Given? && input.engineCc.Raises?)
      ==> r == Some(input.engineCc.message)
    ensures (
      && input.year.Given? && input.kmDriven.Given? && input.manufacturer.Given?
      && input.modelName.Given? && input.fuel.Given? && input.transmission.Given?
      && input.owner.Given? && input.maxPowerBhp.Given? && input.engineCc.Given?
      && input.maxTorqueNm.Raises?)
      ==> r == Some(input.maxTorqueNm.message)
    ensures (
      && input.year.Given? && input.kmDriven.Given? && input.manufacturer.Given?
      && input.modelName.Given? && input.fuel.Given? && input.transmission.Given?
      && input.owner.Given? && input.maxPowerBhp.Given? && input.engineCc.Given?
      && input.maxTorqueNm.Given? && input.drivetrain.Raises?)
      ==> r == Some(input.drivetrain.message)
  {
    if input.year.Raises? then Some(input.year.message)
    else if input.kmDriven.Raises? then Some(input.kmDriven.message)
    else if input.manufacturer.Raises? then Some(input.manufacturer.message)
    else if input.modelName.Raises? then Some(input.modelName.message)
    else if input.fuel.Raises? then Some(input.fuel.message)
    else if input.transmission.Raises? then Some(input.transmission.message)
    else if input.owner.Raises? then Some(input.owner.message)
    else if input.maxPowerBhp.Raises? then Some(input.maxPowerBhp.message)
    else if input.engineCc.Raises? then Some(input.engineCc.message)
    else if input.maxTorqueNm.Raises? then Some(input.maxTorqueNm.message)
    else if input.drivetrain.Raises? then Some(input.drivetrain.message)
    else None
  }

  /**
   * The range checks of `predict`: the message of the first failing check
   * among year, km, power, engine and torque, every bound inclusive. A NaN
   * power, engine or torque fails no comparison.
   */
  function CheckRanges(year: int, km: int, power: Float, engine: Float, torque: Float): (r: Option<string>)
    ensures r == None <==>
      YearMin <= year <= YearMax && KmMin <= km <= KmMax && !OutOfRange(power, PowerMin, PowerMax)
      && !OutOfRange(engine, EngineMin, EngineMax) && !OutOfRange(torque, TorqueMin, TorqueMax)
    ensures r == Some(YearMessage) <==> year < YearMin || year > YearMax
    ensures r == Some(KmMessage) <==> YearMin <= year <= YearMax && (km < KmMin || km > KmMax)
    ensures r == Some(PowerMessage) <==>
      YearMin <= year <= YearMax && KmMin <= km <= KmMax && OutOfRange(power, PowerMin, PowerMax)
    ensures r == Some(EngineMessage) <==>
      YearMin <= year <= YearMax && KmMin <= km <= KmMax && !OutOfRange(power, PowerMin, PowerMax)
      && OutOfRange(engine, EngineMin, EngineMax)
    ensures r == Some(TorqueMessage) <==>
      YearMin <= year <= YearMax && KmMin <= km <= KmMax && !OutOfRange(power, PowerMin, PowerMax)
      && !OutOfRange(engine, EngineMin, EngineMax) && OutOfRange(torque, TorqueMin, TorqueMax)
  {
    if year < YearMin || year > YearMax then Some(YearMessage)
    else if km < KmMin || km > KmMax then Some(KmMessage)
    else if Below(power, PowerMin as real) || Above(power, PowerMax as real) then Some(PowerMessage)
    else if Below(engine, EngineMin as real) || Above(engine, EngineMax as real) then Some(EngineMessage)
    else if Below(torque, TorqueMin as real) || Above(torque, TorqueMax as real) then Some(TorqueMessage)
    else None
  }

  /**
   * `car_age` and `age_km_interaction`: for an accepted year and distance
   * the age lies between 0 and 35 years, and the product between 0 and
   * 35 times the largest distance.
   */
  lemma DerivedFeatureBounds(year: int, km: int)
    requires YearMin <= year <= YearMax && KmMin <= km <= KmMax
    ensures 0 <= CurrentYear - year <= CurrentYear - YearMin == 35
    ensures 0 <= (CurrentYear - year) * km <= (CurrentYear - YearMin) * KmMax
  {
    var age := CurrentYear - year;
    assert age * km <= 35 * km;
  }

  /**
   * Everything `predict` does before the pipeline: the extractions, the
   * range checks and the derived features.
   */
  function Validated(input: Input): (r: Result<Features>)
    ensures r.Ok? <==>
      && FirstRaise(input).None?
      && CheckRanges(input.year.value, input.kmDriven.value, input.maxPowerBhp.value, input.engineCc.value,
                     input.maxTorqueNm.value).None?
    ensures r.Ok? ==>
      && r.value.year == input.year.value && r.value.kmDriven == input.kmDriven.value
      && r.value.carAge == CurrentYear - r.value.year && 0 <= r.value.carAge <= 35
      && r.value.ageKm == r.value.carAge * r.value.kmDriven && 0 <= r.value.ageKm <= 35 * KmMax
      && r.value.maxTorqueNm == input.maxTorqueNm.value && !OutOfRange(r.value.maxTorqueNm, TorqueMin, TorqueMax)
    ensures r.Ok? ==> r.value == Features(
      input.year.value, input.kmDriven.value, input.maxPowerBhp.value, input.engineCc.value,
      CurrentYear - input.year.value, (CurrentYear - input.year.value) * input.kmDriven.value,
      input.maxTorqueNm.value, input.fuel.value, input.transmission.value, input.owner.value,
      input.drivetrain.value, input.manufacturer.value, input.modelName.value)
    ensures FirstRaise(input).Some? ==> r == Err(FirstRaise(input).value)
    ensures FirstRaise(input).None? && CheckRanges(input.year.value, input.kmDriven.value,
        input.maxPowerBhp.value, input.engineCc.value, input.maxTorqueNm.value).Some? ==>
      r == Err(CheckRanges(input.year.value, input.kmDriven.value, input.maxPowerBhp.value,
                           input.engineCc.value, input.maxTorqueNm.value).value)
  {
    match FirstRaise(input)
    case Some(message) => Err(message)
    case None =>
      var year, km := input.year.value, input.kmDriven.value;
      var power, engine, torque := input.maxPowerBhp.value, input.engineCc.value, input.maxTorqueNm.value;
      match CheckRanges(year, km, power, engine, torque)
      case Some(message) => Err(message)
      case None =>
        DerivedFeatureBounds(year, km);
        var carAge := CurrentYear - year;
        Ok(Features(year, km, power, engine, carAge, carAge * km, torque, input.fuel.value,
                    input.transmission.value, input.owner.value, input.drivetrain.value,
                    input.manufacturer.value, input.modelName.value))
  }

  /**
   * `predict`, with the pipeline as `infer`: every exception, from the
   * extractions, the checks or `infer`, is answered with its message and
   * status 400; a success carries the pipeline's prediction for the
   * validated row.
   */
  function Predict(input: Input, infer: Features -> Conv<real>): (r: Response)
    ensures r.Failure? ==> r.status == BadRequest
    ensures r.Success? <==> Validated(input).Ok? && infer(Validated(input).value).Given?
    ensures r.Success? ==> r.predictedPrice == infer(Validated(input).value).value
    ensures Validated(input).Err? ==> r == Failure(BadRequest, Validated(input).error)
    ensures Validated(input).Ok? && infer(Validated(input).value).Raises? ==>
      r == Failure(BadRequest, infer(Validated(input).value).message)
  {
    match Validated(input)
    case Err(message) => Failure(BadRequest, message)
    case Ok(features) =>
      match infer(features)
      case Given(prediction) => Success(prediction)
      case Raises(message) => Failure(BadRequest, message)
  }

  /** An accepted request had every checked value in range, torque included. */
  lemma AcceptedInRange(input: Input, infer: Features -> Conv<real>)
    requires Predict(input, infer).Success?
    ensures input.year.Given? && YearMin <= input.year.value <= YearMax
    ensures input.kmDriven.Given? && KmMin <= input.kmDriven.value <= KmMax
    ensures input.maxPowerBhp.Given? && !OutOfRange(input.maxPowerBhp.value, PowerMin, PowerMax)
    ensures input.engineCc.Given? && !OutOfRange(input.engineCc.value, EngineMin, EngineMax)
    ensures input.maxTorqueNm.Given? && !OutOfRange(input.maxTorqueNm.value, TorqueMin, TorqueMax)
  {
    assert Validated(input).Ok?;
  }

}
