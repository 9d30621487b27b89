/** The client's food-log state: the entries in memory, the daily goal, and the two form
    fields, with the derived views the page shows (today's entries, totals, per-meal
    subtotals, progress) and the body it sends to saveAll. The current date and fresh entry
    ids are supplied by the caller. */
module App {
  import opened Wrappers

  /** The client-local key of an entry (a timestamp-based number), never sent to the server. */
  type EntryId = int

  /** An `<input type="number">` as the handlers see it: empty (falsy, and NaN to
      `parseInt`), or non-empty text that `parseInt` reads as an integer. Non-empty text
      that `parseInt` cannot read (such as ".5e1") is not represented. */
  datatype NumberField = Blank | Entered(value: int)

  /** The add-food form. */
  datatype Draft = Draft(name: string, calories: NumberField, meal: string)

  /** An entry of the in-memory log. */
  datatype Entry = Entry(id: EntryId, name: string, calories: int, meal: string, date: string)

  /** An entry as sent to and received from the server: no client-local id. */
  datatype Record = Record(name: string, calories: int, meal: string, date: string)

  const MEALS: seq<string> := ["breakfast", "lunch", "dinner", "snacks"]
  const EMPTY_DRAFT: Draft := Draft("", Blank, "breakfast")
  const INITIAL_GOAL: int := 2000

  // ---------------------------------------------------------------------------------------
  // Array filters and folds

  /** The entries of `s` that satisfy `p`, in their order. */
  function Filter<T(!new)>(s: seq<T>, p: T -> bool): (r: seq<T>)
    ensures |r| <= |s|
    ensures forall x :: x in r <==> x in s && p(x)
  {
    if s == [] then [] else (if p(s[0]) then [s[0]] else []) + Filter(s[1..], p)
  }

  /** A filter keeps every copy of what it keeps and no copy of anything else. */
  lemma {:induction false} FilterCount<T(!new)>(s: seq<T>, p: T -> bool)
    ensures forall x :: multiset(Filter(s, p))[x] == if p(x) then multiset(s)[x] else 0
  {
    if s != [] {
      FilterCount(s[1..], p);
      assert s == [s[0]] + s[1..];
    }
  }

  /** Filtering keeps order: the kept entries of a prefix come before those of the rest. */
  lemma {:induction false} FilterAppend<T(!new)>(a: seq<T>, b: seq<T>, p: T -> bool)
    ensures Filter(a + b, p) == Filter(a, p) + Filter(b, p)
  {
    if a != [] {
      FilterAppend(a[1..], b, p);
      assert (a + b)[0] == a[0] && (a + b)[1..] == a[1..] + b;
      assert Filter(a + b, p) == (if p(a[0]) then [a[0]] else []) + Filter(a[1..] + b, p);
    } else {
      assert a + b == b;
    }
  }

  /** A filter that keeps nothing. */
  lemma {:induction false} FilterNone<T(!new)>(s: seq<T>, p: T -> bool)
    ensures (forall x :: x in s ==> !p(x)) ==> Filter(s, p) == []
  {
    if s != [] {
      FilterNone(s[1..], p);
      assert forall x :: x in s[1..] ==> x in s;
    }
  }

  /** No entry has negative calories. */
  predicate NonNegative(s: seq<Entry>)
  {
    forall e :: e in s ==> e.calories >= 0
  }

  /** The calories of the entries added up, as the total and meal subtotals fold them. */
  function Sum(s: seq<Entry>): (r: int)
    ensures NonNegative(s) ==> r >= 0
    ensures s == [] ==> r == 0
  {
    if s == [] then 0 else s[0].calories + Sum(s[1..])
  }

  /** Leaving entries out of a list of non-negative entries never raises its sum. */
  lemma {:induction false} SumFilterBound(s: seq<Entry>, p: Entry -> bool)
    ensures NonNegative(s) ==> 0 <= Sum(Filter(s, p)) <= Sum(s)
  {
    if s != [] {
      SumFilterBound(s[1..], p);
      var head := if p(s[0]) then [s[0]] else [];
      SumAppend(head, Filter(s[1..], p));
    }
  }

  lemma {:induction false} SumAppend(a: seq<Entry>, b: seq<Entry>)
    ensures Sum(a + b) == Sum(a) + Sum(b)
  {
    if a != [] {
      SumAppend(a[1..], b);
      assert (a + b)[0] == a[0] && (a + b)[1..] == a[1..] + b;
    } else {
      assert a + b == b;
    }
  }

  // ---------------------------------------------------------------------------------------
  // The derived views

  /** getTodayFoods. */
  function TodayFoods(foods: seq<Entry>, today: string): (r: seq<Entry>)
    ensures forall e :: e in r <==> e in foods && e.date == today
  {
    Filter(foods, (e: Entry) => e.date == today)
  }

  /** getTotalCalories. */
  function TotalCalories(foods: seq<Entry>, today: string): (r: int)
    ensures NonNegative(foods) ==> 0 <= r
    ensures (forall e :: e in foods ==> e.date != today) ==> r == 0
  {
    FilterNone(foods, (e: Entry) => e.date == today);
    Sum(TodayFoods(foods, today))
  }

  /** The entries of `s` logged under `meal`. */
  function OfMeal(s: seq<Entry>, meal: string): (r: seq<Entry>)
    ensures forall e :: e in r <==> e in s && e.meal == meal
  {
    Filter(s, (e: Entry) => e.meal == meal)
  }

  /** getMealFoods. */
  function MealFoods(foods: seq<Entry>, today: string, meal: string): (r: seq<Entry>)
    ensures forall e :: e in r <==> e in foods && e.date == today && e.meal == meal
  {
    OfMeal(TodayFoods(foods, today), meal)
  }

  /** getMealCalories. */
  function MealCalories(foods: seq<Entry>, today: string, meal: string): (r: int)
    ensures NonNegative(foods) ==> 0 <= r <= TotalCalories(foods, today)
    ensures (forall e :: e in foods && e.date == today ==> e.meal != meal) ==> r == 0
  {
    var t := TodayFoods(foods, today);
    SumFilterBound(t, (e: Entry) => e.meal == meal);
    FilterNone(t, (e: Entry) => e.meal == meal);
    Sum(MealFoods(foods, today, meal))
  }

  /** When every entry has one of the four meals, the four meal subtotals add up to the
      whole. */
  lemma {:induction false} MealPartition(s: seq<Entry>)
    requires forall e :: e in s ==> e.meal in MEALS
    ensures MealSums(s) == Sum(s)
  {
    if s == [] {
      assert forall m :: OfMeal(s, m) == [];
    } else {
      assert forall e :: e in s[1..] ==> e in s;
      MealPartition(s[1..]);
      assert s[0] in s;
      MealStep(s);
    }
  }

  /** The four meal subtotals of `s`. */
  function MealSums(s: seq<Entry>): int
  {
    Sum(OfMeal(s, MEALS[0])) + Sum(OfMeal(s, MEALS[1])) + Sum(OfMeal(s, MEALS[2])) + Sum(OfMeal(s, MEALS[3]))
  }

  /** Adding an entry filed under one of the four meals adds its calories to exactly one
      subtotal. */
  lemma MealStep(s: seq<Entry>)
    requires s != [] && s[0].meal in MEALS
    ensures MealSums(s) == s[0].calories + MealSums(s[1..])
  {
    OfMealCons(s, MEALS[0]);
    OfMealCons(s, MEALS[1]);
    OfMealCons(s, MEALS[2]);
    OfMealCons(s, MEALS[3]);
  }

  lemma OfMealCons(s: seq<Entry>, meal: string)
    requires s != []
    ensures Sum(OfMeal(s, meal)) == (if s[0].meal == meal then s[0].calories else 0) + Sum(OfMeal(s[1..], meal))
  {
    var head := if s[0].meal == meal then [s[0]] else [];
    assert OfMeal(s, meal) == head + OfMeal(s[1..], meal);
    SumAppend(head, OfMeal(s[1..], meal));
  }

  /** The per-meal subtotals shown for today add up to today's total, provided every entry
      of today is filed under one of the four meals. */
  lemma MealCaloriesAddUp(foods: seq<Entry>, today: string)
    requires forall e :: e in foods && e.date == today ==> e.meal in MEALS
    ensures MealCalories(foods, today, "breakfast") + MealCalories(foods, today, "lunch")
          + MealCalories(foods, today, "dinner") + MealCalories(foods, today, "snacks")
         == TotalCalories(foods, today)
  {
    MealPartition(TodayFoods(foods, today));
  }

  /** An entry logged today adds its calories to today's total; one of another day does not
      change it. */
  lemma AppendToTotal(foods: seq<Entry>, e: Entry, today: string)
    ensures TotalCalories(foods + [e], today) == TotalCalories(foods, today) + (if e.date == today then e.calories else 0)
  {
    FilterAppend(foods, [e], (x: Entry) => x.date == today);
    SumAppend(TodayFoods(foods, today), Filter([e], (x: Entry) => x.date == today));
  }

  /** getProgressPercentage: today's total as a percentage of the goal, capped at 100, in
      exact arithmetic. */
  function ProgressPercentage(foods: seq<Entry>, today: string, goal: int): (r: real)
    requires goal != 0
    ensures r <= 100.0
    ensures (TotalCalories(foods, today) * 100) as real / goal as real < 100.0 ==>
      r == (TotalCalories(foods, today) * 100) as real / goal as real
    ensures (TotalCalories(foods, today) * 100) as real / goal as real >= 100.0 ==> r == 100.0
    ensures goal > 0 && TotalCalories(foods, today) >= 0 ==> r >= 0.0
  {
    var p := (TotalCalories(foods, today) as real / goal as real) * 100.0;
    ScaleQuotient(TotalCalories(foods, today) as real, goal as real);
    if p < 100.0 then p else 100.0
  }

  lemma ScaleQuotient(total: real, goal: real)
    requires goal != 0.0
    ensures (total / goal) * 100.0 == (total * 100.0) / goal
    ensures goal > 0.0 && total >= 0.0 ==> total / goal >= 0.0
  {
  }

  // ---------------------------------------------------------------------------------------
  // Deleting and clearing

  /** deleteFood's new log: the entries whose id differs from `id`. */
  function WithoutId(foods: seq<Entry>, id: EntryId): (r: seq<Entry>)
    ensures forall e :: multiset(r)[e] == if e.id != id then multiset(foods)[e] else 0
    ensures forall e :: e in r <==> e in foods && e.id != id
  {
    FilterCount(foods, (e: Entry) => e.id != id);
    Filter(foods, (e: Entry) => e.id != id)
  }

  /** clearToday's new log: the entries dated on another day. */
  function NotOn(foods: seq<Entry>, today: string): (r: seq<Entry>)
    ensures forall e :: multiset(r)[e] == if e.date != today then multiset(foods)[e] else 0
    ensures forall e :: e in r <==> e in foods && e.date != today
    ensures TodayFoods(r, today) == []
  {
    var r := Filter(foods, (e: Entry) => e.date != today);
    FilterCount(foods, (e: Entry) => e.date != today);
    FilterNone(r, (e: Entry) => e.date == today);
    r
  }

  // ---------------------------------------------------------------------------------------
  // What is sent to and taken from the server

  /** handleSaveAll's payload record for one entry: every field but the id. */
  function Strip(e: Entry): Record
  {
    Record(e.name, e.calories, e.meal, e.date)
  }

  function SavePayload(foods: seq<Entry>): (r: seq<Record>)
    ensures |r| == |foods|
  {
    seq(|foods|, i requires 0 <= i < |foods| => Strip(foods[i]))
  }

  /** loadUserData's copy of the server's records, each given one of the fresh ids. */
  function Attach(records: seq<Record>, ids: seq<EntryId>): (r: seq<Entry>)
    requires |ids| == |records|
    ensures |r| == |records|
  {
    seq(|records|, i requires 0 <= i < |records| =>
      Entry(ids[i], records[i].name, records[i].calories, records[i].meal, records[i].date))
  }

  function Ids(foods: seq<Entry>): (r: seq<EntryId>)
    ensures |r| == |foods|
  {
    seq(|foods|, i requires 0 <= i < |foods| => foods[i].id)
  }

  /** The payload loses only the ids: the i-th record is the i-th entry without its id, and
      attaching the ids again gives the log back; attaching ids to records and stripping
      them gives the records back. */
  lemma PayloadRoundTrip(foods: seq<Entry>, records: seq<Record>, ids: seq<EntryId>)
    requires |ids| == |records|
    ensures forall i :: 0 <= i < |foods| ==>
      SavePayload(foods)[i] == Record(foods[i].name, foods[i].calories, foods[i].meal, foods[i].date)
    ensures Attach(SavePayload(foods), Ids(foods)) == foods
    ensures SavePayload(Attach(records, ids)) == records
  {
    var back := Attach(SavePayload(foods), Ids(foods));
    assert forall i :: 0 <= i < |foods| ==> back[i] == foods[i];
  }

  /** The saveAll request handleSaveAll sends. */
  datatype SaveRequest = SaveRequest(authorization: string, foods: seq<Record>, calorieGoal: int)

  /** handleSaveAll: nothing is sent without a stored token. */
  function SaveAllRequest(token: Option<string>, foods: seq<Entry>, dailyGoal: int): (r: Option<SaveRequest>)
    ensures r.None? <==> token.None? || token.value == ""
    ensures r.Some? ==>
      r.value.authorization == "Bearer " + token.value && r.value.foods == SavePayload(foods) && r.value.calorieGoal == dailyGoal
  {
    if token.None? || token.value == "" then None
    else Some(SaveRequest("Bearer " + token.value, SavePayload(foods), dailyGoal))
  }

  /** The outcome of one `fetch`: it threw, it answered with an error status, or it answered
      with a body. */
  datatype Fetched<T> = NetworkError | NotOk | Ok(value: T)

  // ---------------------------------------------------------------------------------------
  // The component state

  class FoodLog {
    var foods: seq<Entry>
    var newFood: Draft
    var dailyGoal: int
    var goalInput: NumberField

    /** The goal is never zero: it starts at 2000 and is only ever replaced by a positive
        parsed goal or a truthy server goal. */
    predicate Valid()
      reads this
    {
      dailyGoal != 0
    }

    /** getProgressPercentage as the page calls it, on the log's own entries and goal. */
    function Progress(today: string): (r: real)
      reads this
      requires Valid()
      ensures r <= 100.0
      ensures (TotalCalories(foods, today) * 100) as real / dailyGoal as real < 100.0 ==>
        r == (TotalCalories(foods, today) * 100) as real / dailyGoal as real
      ensures dailyGoal > 0 && NonNegative(foods) ==> 0.0 <= r
    {
      ProgressPercentage(foods, today, dailyGoal)
    }

    constructor ()
      ensures Valid()
      ensures foods == [] && newFood == EMPTY_DRAFT && dailyGoal == INITIAL_GOAL && goalInput == Entered(INITIAL_GOAL)
    {
      foods := [];
      newFood := EMPTY_DRAFT;
      dailyGoal := INITIAL_GOAL;
      goalInput := Entered(INITIAL_GOAL);
    }

    /** The add-food form's onChange handlers. */
    method EditDraft(draft: Draft)
      modifies this
      ensures newFood == draft
      ensures foods == old(foods) && dailyGoal == old(dailyGoal) && goalInput == old(goalInput)
    {
      newFood := draft;
    }

    /** The goal form's onChange handler. */
    method EditGoalInput(input: NumberField)
      modifies this
      ensures goalInput == input
      ensures foods == old(foods) && dailyGoal == old(dailyGoal) && newFood == old(newFood)
    {
      goalInput := input;
    }

    /** addFood: with a name and calories in the form, append one entry dated today with the
        parsed calories and clear the form; otherwise change nothing. */
    method AddFood(freshId: EntryId, today: string)
      requires Valid()
      modifies this
      ensures Valid()
      ensures old(newFood).name != "" && old(newFood).calories.Entered? ==>
        && foods == old(foods) + [Entry(freshId, old(newFood).name, old(newFood).calories.value, old(newFood).meal, today)]
        && newFood == EMPTY_DRAFT
      ensures !(old(newFood).name != "" && old(newFood).calories.Entered?) ==>
        foods == old(foods) && newFood == old(newFood)
      ensures dailyGoal == old(dailyGoal) && goalInput == old(goalInput)
    {
      if newFood.name != "" && newFood.calories.Entered? {
        var entry := Entry(freshId, newFood.name, newFood.calories.value, newFood.meal, today);
        foods := foods + [entry];
        newFood := EMPTY_DRAFT;
      }
    }

    /** deleteFood: every entry with that id goes, the others stay in their order. */
    method DeleteFood(id: EntryId)
      requires Valid()
      modifies this
      ensures Valid()
      ensures foods == WithoutId(old(foods), id)
      ensures forall e :: multiset(foods)[e] == if e.id != id then multiset(old(foods))[e] else 0
      ensures newFood == old(newFood) && dailyGoal == old(dailyGoal) && goalInput == old(goalInput)
    {
      foods := WithoutId(foods, id);
    }

    /** updateGoal: only a positive parsed goal replaces the daily goal. */
    method UpdateGoal()
      requires Valid()
      modifies this
      ensures Valid()
      ensures old(goalInput).Entered? && old(goalInput).value > 0 ==> dailyGoal == old(goalInput).value
      ensures !(old(goalInput).Entered? && old(goalInput).value > 0) ==> dailyGoal == old(dailyGoal)
      ensures foods == old(foods) && newFood == old(newFood) && goalInput == old(goalInput)
    {
      if goalInput.Entered? && goalInput.value > 0 {
        dailyGoal := goalInput.value;
      }
    }

    /** clearToday: exactly today's entries go; afterwards nothing is logged for today. */
    method ClearToday(today: string)
      requires Valid()
      modifies this
      ensures Valid()
      ensures foods == NotOn(old(foods), today)
      ensures forall e :: multiset(foods)[e] == if e.date != today then multiset(old(foods))[e] else 0
      ensures TodayFoods(foods, today) == [] && TotalCalories(foods, today) == 0
      ensures newFood == old(newFood) && dailyGoal == old(dailyGoal) && goalInput == old(goalInput)
    {
      foods := NotOn(foods, today);
    }

    /** loadUserData: with a token, a non-empty server list replaces the log (with fresh ids),
        and a truthy server goal replaces the goal; a fetch that throws ends the load. */
    method LoadUserData(token: Option<string>, foodsReply: Fetched<seq<Record>>, goalReply: Fetched<int>, ids: seq<EntryId>)
      requires Valid()
      requires foodsReply.Ok? ==> |ids| == |foodsReply.value|
      modifies this
      ensures Valid()
      ensures
        var signedIn := token.Some? && token.value != "";
        foods == if signedIn && foodsReply.Ok? && |foodsReply.value| > 0 then Attach(foodsReply.value, ids) else old(foods)
      ensures
        var signedIn := token.Some? && token.value != "";
        var takeGoal := signedIn && !foodsReply.NetworkError? && goalReply.Ok? && goalReply.value != 0;
        && dailyGoal == (if takeGoal then goalReply.value else old(dailyGoal))
        && goalInput == (if takeGoal then Entered(goalReply.value) else old(goalInput))
      ensures newFood == old(newFood)
    {
      if token.None? || token.value == "" {
        return;
      }
      if foodsReply.NetworkError? {
        return;
      }
      if foodsReply.Ok? && |foodsReply.value| > 0 {
        foods := Attach(foodsReply.value, ids);
      }
      if goalReply.Ok? && goalReply.value != 0 {
        dailyGoal := goalReply.value;
        goalInput := Entered(goalReply.value);
      }
    }
  }
}
