/** How the client's save request meets the server: the header the client builds passes the
    auth middleware on the strength of its token alone, the body passes saveAll's checks
    exactly when the goal is positive, and the server stores the entries as sent unless the
    defaults for meal and date kick in. */
module Sync {
  import opened Wrappers
  import App
  import Server

  /** One payload record after JSON serialisation, as the server's body parser reads it. */
  function OnWire(r: App.Record): Server.Food
  {
    Server.Food(Some(r.name), Server.Integer(r.calories), Some(r.meal), Some(r.date))
  }

  /** The `foods` array of the saveAll body. */
  function Body(payload: seq<App.Record>): (items: seq<Option<Server.Food>>)
    ensures |items| == |payload|
    ensures forall i :: 0 <= i < |payload| ==> items[i] == Some(OnWire(payload[i]))
  {
    seq(|payload|, i requires 0 <= i < |payload| => Some(OnWire(payload[i])))
  }

  /** The entries as the client meant them to be stored. */
  function Sent(payload: seq<App.Record>): (fs: seq<Server.Food>)
    ensures |fs| == |payload|
    ensures forall i :: 0 <= i < |payload| ==> fs[i] == OnWire(payload[i])
  {
    seq(|payload|, i requires 0 <= i < |payload| => OnWire(payload[i]))
  }

  /** The server stores the client's entries exactly as sent, in the same order, if and
      only if none of them has an empty meal or an empty date. */
  lemma StoredAsSent(foods: seq<App.Entry>, today: string)
    requires today != ""
    ensures Server.NormalizeAll(Body(App.SavePayload(foods)), today).Some?
    ensures Server.NormalizeAll(Body(App.SavePayload(foods)), today).value == Sent(App.SavePayload(foods))
        <==> forall e :: e in foods ==> e.meal != "" && e.date != ""
  {
    var payload := App.SavePayload(foods);
    var stored := Server.NormalizeAll(Body(payload), today);
    assert forall i :: 0 <= i < |Body(payload)| ==> Body(payload)[i].Some?;
    if forall e :: e in foods ==> e.meal != "" && e.date != "" {
      forall i | 0 <= i < |foods|
        ensures stored.value[i] == Sent(payload)[i]
      {
        assert foods[i] in foods;
      }
    } else {
      var e :| e in foods && !(e.meal != "" && e.date != "");
      var i :| 0 <= i < |foods| && foods[i] == e;
      assert stored.value[i] != Sent(payload)[i];
    }
  }

  /** The client's save body always passes saveAll's foods check, and passes the goal check
      exactly when the client's goal is positive (a goal set through POST /api/goal may not
      be). */
  lemma SaveBodyChecked(foods: seq<App.Entry>, dailyGoal: int)
    ensures Server.CheckSaveAll(Server.FoodArray(Body(App.SavePayload(foods))), Server.Number(dailyGoal)) ==
      if dailyGoal > 0 then None else Some(Server.GOAL_REQUIRED)
  {
  }

  /** The Authorization header of the client's save request lets the request through exactly
      when the token verifies, and then as the user the token names. */
  lemma SaveHeaderAuthenticates(token: string, foods: seq<App.Entry>, dailyGoal: int, verify: string -> Option<Server.UserId>)
    requires token != "" && ' ' !in token
    ensures App.SaveAllRequest(Some(token), foods, dailyGoal).Some?
    ensures Server.Auth(Some(App.SaveAllRequest(Some(token), foods, dailyGoal).value.authorization), verify) ==
      if verify(token).Some? then Server.Granted(verify(token).value) else Server.Denied(Server.INVALID_TOKEN)
  {
    assert Server.Join(["Bearer", token]) == "Bearer " + token;
    Server.SecondFieldDecides(["Bearer", token], verify);
  }
}
