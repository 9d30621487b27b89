/** The REST backend of the calorie tracker: a user store keyed by user id, the signup and
    login handlers, the token gate in front of every data route, and the food and goal
    routes. Password hashing and token signing are supplied as oracle functions. */
module Server {
  import opened Wrappers

  /** The database's identifier of a user document, as carried in a token. */
  type UserId = string

  /** A one-way password digest. It is a type of its own so that a raw password cannot be
      stored where a digest belongs. */
  datatype Digest = Digest(text: string)

  const DEFAULT_GOAL: int := 2000
  const DEFAULT_MEAL: string := "breakfast"

  /** What `Number(x)` makes of a JSON calories field: nothing there, something that is no
      number (NaN), or an integer. */
  datatype Calories = Absent | NonNumeric | Integer(n: int)

  /** One food entry as the server receives or stores it; a string field is None when the
      JSON leaves it out or sets it to null. */
  datatype Food = Food(name: Option<string>, calories: Calories, meal: Option<string>, date: Option<string>)

  /** A user document: the schema's fields, with the password held only as a digest. */
  datatype User = User(username: string, email: string, passwordHash: Digest, calorieGoal: int, foods: seq<Food>)

  datatype Body =
    | Message(text: string)
    | TokenBody(token: string)
    | FoodsBody(foods: seq<Food>)
    | GoalBody(calorieGoal: int)
    | ProfileBody(id: UserId, username: string, email: string, calorieGoal: int, foods: seq<Food>)

  /** An HTTP status with its JSON body. */
  datatype Reply = Reply(status: int, body: Body)

  const USER_EXISTS := Reply(400, Message("User already exists"))
  const USER_CREATED := Reply(201, Message("User created"))
  const SERVER_ERROR := Reply(500, Message("Server error"))
  const INVALID_CREDENTIALS := Reply(400, Message("Invalid credentials"))
  const NO_TOKEN := Reply(401, Message("No token provided"))
  const INVALID_TOKEN := Reply(403, Message("Invalid token"))
  const USER_NOT_FOUND := Reply(404, Message("User not found"))
  const FOOD_ADDED := Reply(201, Message("Food added"))
  const GOAL_UPDATED := Reply(200, Message("Goal updated"))
  const FOODS_REQUIRED := Reply(400, Message("Foods array is required"))
  const GOAL_REQUIRED := Reply(400, Message("Valid calorieGoal is required"))
  const ALL_SAVED := Reply(200, Message("All data saved successfully"))
  /** The reply of saveAll's catch block when the normalisation reads a field of a null
      element. The text after the prefix is the TypeError message of current V8 versions;
      older Node versions word it differently. */
  const NULL_ENTRY_ERROR := Reply(500, Message("Error saving data: Cannot read properties of null (reading 'name')"))

  // ---------------------------------------------------------------------------------------
  // The Authorization header

  /** The inverse of `Split`: the pieces joined with single spaces. */
  function Join(parts: seq<string>): string
    requires |parts| >= 1
  {
    if |parts| == 1 then parts[0] else parts[0] + " " + Join(parts[1..])
  }

  /** JavaScript's `s.split(' ')`: the maximal space-free pieces between single spaces,
      empty pieces included, at least one of them. */
  function Split(s: string): (r: seq<string>)
    ensures |r| >= 1
    ensures Join(r) == s
    ensures forall i :: 0 <= i < |r| ==> ' ' !in r[i]
  {
    if s == "" then [""]
    else if s[0] == ' ' then
      var rest := Split(s[1..]);
      assert [""] + rest == [""] + rest[..];
      [""] + rest
    else
      var rest := Split(s[1..]);
      var r := [[s[0]] + rest[0]] + rest[1..];
      assert r[1..] == rest[1..];
      assert s == [s[0]] + s[1..];
      r
  }

  lemma {:induction false} SplitWord(w: string)
    requires ' ' !in w
    ensures Split(w) == [w]
  {
    if w != "" {
      SplitWord(w[1..]);
    }
  }

  lemma {:induction false} SplitLeadingWord(w: string, tail: string)
    requires ' ' !in w
    ensures Split(w + " " + tail) == [w] + Split(tail)
  {
    if w == "" {
      assert w + " " + tail == " " + tail;
      assert (" " + tail)[1..] == tail;
    } else {
      SplitLeadingWord(w[1..], tail);
      assert (w + " " + tail)[1..] == w[1..] + " " + tail;
      assert [w[0]] + w[1..] == w;
    }
  }

  /** Splitting a header built from space-free pieces gives those pieces back. */
  lemma {:induction false} SplitJoin(parts: seq<string>)
    requires |parts| >= 1
    requires forall i :: 0 <= i < |parts| ==> ' ' !in parts[i]
    ensures Split(Join(parts)) == parts
  {
    if |parts| == 1 {
      SplitWord(parts[0]);
    } else {
      SplitJoin(parts[1..]);
      SplitLeadingWord(parts[0], Join(parts[1..]));
      assert [parts[0]] + parts[1..] == parts;
    }
  }

  /** The auth middleware's token: the second space-separated field of the Authorization
      header, or nothing when the header is absent or that field is missing or empty. */
  function BearerToken(header: Option<string>): (t: Option<string>)
    ensures t.Some? ==> t.value != "" && ' ' !in t.value
  {
    if header.None? || header.value == "" then None
    else
      var fields := Split(header.value);
      if |fields| >= 2 && fields[1] != "" then Some(fields[1]) else None
  }

  /** What the auth middleware decides: a reply that ends the request, or the user id that
      the following handler sees as `req.userId`. */
  datatype Gate = Denied(reply: Reply) | Granted(userId: UserId)

  /** The auth middleware; `verify` is the token library's verification (signature and
      expiry), giving the id carried in a good token. */
  function Auth(header: Option<string>, verify: string -> Option<UserId>): (g: Gate)
    ensures g.Denied? ==> g.reply == NO_TOKEN || g.reply == INVALID_TOKEN
    ensures g == Denied(NO_TOKEN) <==> BearerToken(header).None?
    ensures g.Granted? <==> BearerToken(header).Some? && verify(BearerToken(header).value).Some?
    ensures g.Granted? ==> verify(BearerToken(header).value) == Some(g.userId)
  {
    match BearerToken(header)
    case None => Denied(NO_TOKEN)
    case Some(token) =>
      match verify(token)
      case None => Denied(INVALID_TOKEN)
      case Some(id) => Granted(id)
  }

  /** The token is the second space-separated field of the header, whatever the first field
      (the scheme) says and whatever follows; an empty second field is no token. */
  lemma SecondFieldDecides(parts: seq<string>, verify: string -> Option<UserId>)
    requires |parts| >= 2
    requires forall i :: 0 <= i < |parts| ==> ' ' !in parts[i]
    ensures parts[1] == "" ==> Auth(Some(Join(parts)), verify) == Denied(NO_TOKEN)
    ensures parts[1] != "" ==>
      Auth(Some(Join(parts)), verify) ==
        (if verify(parts[1]).Some? then Granted(verify(parts[1]).value) else Denied(INVALID_TOKEN))
  {
    SplitJoin(parts);
  }

  /** A header with no space in it (the token alone, or the scheme alone) carries no token. */
  lemma {:induction false} NoSecondField(header: string, verify: string -> Option<UserId>)
    requires ' ' !in header
    ensures Auth(Some(header), verify) == Denied(NO_TOKEN)
    ensures Auth(None, verify) == Denied(NO_TOKEN)
  {
    SplitWord(header);
  }

  /** The scheme word is not checked: any space-free word in place of "Bearer" gives the same
      outcome. */
  lemma SchemeIgnored(scheme: string, token: string, verify: string -> Option<UserId>)
    requires ' ' !in scheme && ' ' !in token
    ensures Auth(Some(scheme + " " + token), verify) == Auth(Some("Bearer " + token), verify)
  {
    assert Join([scheme, token]) == scheme + " " + token;
    assert Join(["Bearer", token]) == "Bearer " + token;
    SecondFieldDecides([scheme, token], verify);
    SecondFieldDecides(["Bearer", token], verify);
  }

  /** A token that login issued for `id`, sent back as "Bearer <token>", lets that user in,
      as long as the token library verifies its own tokens (a token has no spaces). */
  lemma IssuedTokenAuthorizes(id: UserId, sign: UserId -> string, verify: string -> Option<UserId>)
    requires sign(id) != "" && ' ' !in sign(id)
    requires verify(sign(id)) == Some(id)
    ensures Auth(Some("Bearer " + sign(id)), verify) == Granted(id)
  {
    assert Join(["Bearer", sign(id)]) == "Bearer " + sign(id);
    SecondFieldDecides(["Bearer", sign(id)], verify);
  }

  // ---------------------------------------------------------------------------------------
  // saveAll's input checks and normalisation

  /** The `foods` field of a saveAll body: missing (or null), present but no array, or an
      array whose elements are entries or null. An element that is some other non-object
      value reads as Food(None, Absent, None, None). */
  datatype FoodsField = NoFoods | NotAnArray | FoodArray(items: seq<Option<Food>>)

  /** The `calorieGoal` field of a saveAll body: missing, of another type than number, or a
      number. */
  datatype GoalField = NoGoal | NotANumber | Number(n: int)

  /** The two validation steps of saveAll, in their order: the rejecting reply, or None when
      the body passes. */
  function CheckSaveAll(foods: FoodsField, calorieGoal: GoalField): (r: Option<Reply>)
    ensures r.None? <==> foods.FoodArray? && calorieGoal.Number? && calorieGoal.n > 0
    ensures r.Some? ==> r.value.status == 400
    ensures !foods.FoodArray? ==> r == Some(FOODS_REQUIRED)
    ensures foods.FoodArray? && r.Some? ==> r == Some(GOAL_REQUIRED)
  {
    if !foods.FoodArray? then Some(FOODS_REQUIRED)
    else if !calorieGoal.Number? || calorieGoal.n <= 0 then Some(GOAL_REQUIRED)
    else None
  }

  /** A string field, or the fallback when the field is missing or empty. */
  function Or(value: Option<string>, fallback: string): string
  {
    if value.Some? && value.value != "" then value.value else fallback
  }

  /** saveAll's calories default: the numeric value, or 0 when there is none. */
  function NumberOrZero(c: Calories): int
  {
    if c.Integer? then c.n else 0
  }

  /** The form in which saveAll stores every entry: all four fields present, calories a
      number, meal and date non-empty. */
  predicate Normal(food: Food)
  {
    && food.name.Some?
    && food.calories.Integer?
    && food.meal.Some? && food.meal.value != ""
    && food.date.Some? && food.date.value != ""
  }

  /** saveAll's normalisation of one entry: missing name becomes "", missing or non-numeric
      calories 0, missing meal "breakfast", missing date today. */
  function NormalizeFood(food: Food, today: string): (r: Food)
    ensures today != "" ==> Normal(r)
    ensures r.name == Some(if food.name.Some? then food.name.value else "")
    ensures (food.calories.Integer? ==> r.calories == food.calories) && (!food.calories.Integer? ==> r.calories == Integer(0))
    ensures r.meal == Some(if food.meal.Some? && food.meal.value != "" then food.meal.value else DEFAULT_MEAL)
    ensures r.date == Some(if food.date.Some? && food.date.value != "" then food.date.value else today)
  {
    Food(Some(Or(food.name, "")), Integer(NumberOrZero(food.calories)), Some(Or(food.meal, DEFAULT_MEAL)), Some(Or(food.date, today)))
  }

  /** An entry is left as it is exactly when it is already in stored form. */
  lemma NormalizeFixpoint(food: Food, today: string)
    requires today != ""
    ensures NormalizeFood(food, today) == food <==> Normal(food)
  {
  }

  /** Normalising an entry twice gives what normalising it once gives. */
  lemma NormalizeIdempotent(food: Food, today: string)
    ensures NormalizeFood(NormalizeFood(food, today), today) == NormalizeFood(food, today)
  {
  }

  /** saveAll's normalisation of the whole list: None when an element is null (reading
      its name throws), otherwise the normalised entries in the same order. */
  function NormalizeAll(items: seq<Option<Food>>, today: string): (r: Option<seq<Food>>)
    ensures r.None? <==> exists i :: 0 <= i < |items| && items[i].None?
    ensures r.Some? ==> |r.value| == |items|
    ensures r.Some? ==> forall i :: 0 <= i < |items| ==> items[i].Some? && r.value[i] == NormalizeFood(items[i].value, today)
  {
    if items == [] then Some([])
    else if items[0].None? then None
    else
      match NormalizeAll(items[1..], today)
      case None => None
      case Some(rest) => Some([NormalizeFood(items[0].value, today)] + rest)
  }

  /** Entries as they arrive in a request's array, none of them null. */
  function Present(foods: seq<Food>): (r: seq<Option<Food>>)
    ensures |r| == |foods| && forall i :: 0 <= i < |foods| ==> r[i] == Some(foods[i])
  {
    seq(|foods|, i requires 0 <= i < |foods| => Some(foods[i]))
  }

  /** The list saveAll stores is in stored form, and sending it again stores the same list. */
  lemma {:induction false} NormalizeAllIdempotent(items: seq<Option<Food>>, today: string)
    requires NormalizeAll(items, today).Some?
    ensures today != "" ==> forall i :: 0 <= i < |items| ==> Normal(NormalizeAll(items, today).value[i])
    ensures NormalizeAll(Present(NormalizeAll(items, today).value), today) == NormalizeAll(items, today)
  {
    var fs := NormalizeAll(items, today).value;
    var again := NormalizeAll(Present(fs), today);
    assert again.Some?;
    forall i | 0 <= i < |fs|
      ensures again.value[i] == fs[i]
    {
      NormalizeIdempotent(items[i].value, today);
    }
    assert again.value == fs;
  }

  // ---------------------------------------------------------------------------------------
  // The user store

  /** No two users share an email (the schema's unique index, and signup's check). */
  predicate EmailsUnique(users: map<UserId, User>)
  {
    forall a, b :: a in users && b in users && users[a].email == users[b].email ==> a == b
  }

  predicate EmailTaken(users: map<UserId, User>, email: string)
  {
    exists id :: id in users && users[id].email == email
  }

  /** A request to one of the routes behind the auth middleware, with its body. */
  datatype Route =
    | ProfileRoute
    | FoodsRoute
    | AddFoodRoute(food: Food)
    | GoalRoute
    | SetGoalRoute(newGoal: int)
    | SaveAllRoute(entries: FoodsField, goalField: GoalField)

  /** The users collection and the route handlers that read and write it. */
  class Store {
    var users: map<UserId, User>

    /** Emails are unique, and every stored user has the username and email the schema
        requires (a required string field rejects the empty string). */
    predicate Valid()
      reads this
    {
      && EmailsUnique(users)
      && forall id :: id in users ==> users[id].username != "" && users[id].email != ""
    }

    constructor ()
      ensures Valid() && users == map[]
    {
      users := map[];
    }

    /** The lookup of a user by email in signup and login: a user with that email, if there
        is one. */
    method FindByEmail(email: string) returns (r: Option<UserId>)
      ensures r.Some? ==> r.value in users && users[r.value].email == email
      ensures r.None? <==> !EmailTaken(users, email)
    {
      var unseen := users.Keys;
      while unseen != {}
        invariant unseen <= users.Keys
        invariant forall id :: id in users && id !in unseen ==> users[id].email != email
        decreases unseen
      {
        var id :| id in unseen;
        if users[id].email == email {
          return Some(id);
        }
        unseen := unseen - {id};
      }
      return None;
    }

    /** POST /api/signup. `hash` is the salted one-way hash; `newId` is the id the database
        gives the new document. The save fails, and the handler reports a server error, when
        the username or email is empty (the schema requires both) or the id clashes. */
    method Signup(username: string, email: string, password: string, newId: UserId, hash: string -> Digest)
      returns (r: Reply)
      requires Valid()
      modifies this
      ensures Valid()
      ensures EmailTaken(old(users), email) ==> r == USER_EXISTS && users == old(users)
      ensures !EmailTaken(old(users), email) && (username == "" || email == "" || newId in old(users)) ==>
        r == SERVER_ERROR && users == old(users)
      ensures !EmailTaken(old(users), email) && username != "" && email != "" && newId !in old(users) ==>
        r == USER_CREATED && users == old(users)[newId := User(username, email, hash(password), DEFAULT_GOAL, [])]
    {
      var existing := FindByEmail(email);
      if existing.Some? {
        return USER_EXISTS;
      }
      if username == "" || email == "" || newId in users {
        return SERVER_ERROR;
      }
      users := users[newId := User(username, email, hash(password), DEFAULT_GOAL, [])];
      return USER_CREATED;
    }

    /** POST /api/login. `compare` is the password check against a digest, `sign` issues a
        token carrying the user id. Both failures give the same reply. */
    method Login(email: string, password: string, compare: (string, Digest) -> bool, sign: UserId -> string)
      returns (r: Reply)
      requires Valid()
      ensures r.status == 200 <==>
        exists id :: id in users && users[id].email == email && compare(password, users[id].passwordHash)
      ensures r.status == 200 ==>
        exists id :: id in users && users[id].email == email && r.body == TokenBody(sign(id))
      ensures r.status != 200 ==> r == INVALID_CREDENTIALS
    {
      var found := FindByEmail(email);
      if found.None? {
        return INVALID_CREDENTIALS;
      }
      var id := found.value;
      if !compare(password, users[id].passwordHash) {
        return INVALID_CREDENTIALS;
      }
      return Reply(200, TokenBody(sign(id)));
    }

    /** GET /api/profile: the user without the password digest. */
    method Profile(id: UserId) returns (r: Reply)
      ensures id !in users ==> r == USER_NOT_FOUND
      ensures id in users ==>
        var u := users[id];
        r == Reply(200, ProfileBody(id, u.username, u.email, u.calorieGoal, u.foods))
    {
      if id !in users {
        return USER_NOT_FOUND;
      }
      var u := users[id];
      return Reply(200, ProfileBody(id, u.username, u.email, u.calorieGoal, u.foods));
    }

    /** GET /api/foods. */
    method GetFoods(id: UserId) returns (r: Reply)
      ensures id !in users ==> r == USER_NOT_FOUND
      ensures id in users ==> r == Reply(200, FoodsBody(users[id].foods))
    {
      if id !in users {
        return USER_NOT_FOUND;
      }
      return Reply(200, FoodsBody(users[id].foods));
    }

    /** POST /api/foods: the entry is appended as it came, without checks. */
    method AddFood(id: UserId, food: Food) returns (r: Reply)
      requires Valid()
      modifies this
      ensures Valid()
      ensures id !in old(users) ==> r == USER_NOT_FOUND && users == old(users)
      ensures id in old(users) ==>
        r == FOOD_ADDED && users == old(users)[id := old(users)[id].(foods := old(users)[id].foods + [food])]
    {
      if id !in users {
        return USER_NOT_FOUND;
      }
      var u := users[id];
      users := users[id := u.(foods := u.foods + [food])];
      return FOOD_ADDED;
    }

    /** GET /api/goal. */
    method GetGoal(id: UserId) returns (r: Reply)
      ensures id !in users ==> r == USER_NOT_FOUND
      ensures id in users ==> r == Reply(200, GoalBody(users[id].calorieGoal))
    {
      if id !in users {
        return USER_NOT_FOUND;
      }
      return Reply(200, GoalBody(users[id].calorieGoal));
    }

    /** POST /api/goal: the goal is replaced with no bounds check. */
    method SetGoal(id: UserId, calorieGoal: int) returns (r: Reply)
      requires Valid()
      modifies this
      ensures Valid()
      ensures id !in old(users) ==> r == USER_NOT_FOUND && users == old(users)
      ensures id in old(users) ==>
        r == GOAL_UPDATED && users == old(users)[id := old(users)[id].(calorieGoal := calorieGoal)]
    {
      if id !in users {
        return USER_NOT_FOUND;
      }
      var u := users[id];
      users := users[id := u.(calorieGoal := calorieGoal)];
      return GOAL_UPDATED;
    }

    /** POST /api/saveAll: validate the body, normalise the entries, then look the user up
        and replace its whole food list and goal. `today` is the server's current date. */
    method SaveAll(id: UserId, foods: FoodsField, calorieGoal: GoalField, today: string) returns (r: Reply)
      requires Valid()
      modifies this
      ensures Valid()
      ensures CheckSaveAll(foods, calorieGoal).Some? ==>
        r == CheckSaveAll(foods, calorieGoal).value && users == old(users)
      ensures CheckSaveAll(foods, calorieGoal).None? && NormalizeAll(foods.items, today).None? ==>
        r == NULL_ENTRY_ERROR && users == old(users)
      ensures CheckSaveAll(foods, calorieGoal).None? && NormalizeAll(foods.items, today).Some? && id !in old(users) ==>
        r == USER_NOT_FOUND && users == old(users)
      ensures CheckSaveAll(foods, calorieGoal).None? && NormalizeAll(foods.items, today).Some? && id in old(users) ==>
        r == ALL_SAVED &&
        users == old(users)[id := old(users)[id].(foods := NormalizeAll(foods.items, today).value,
                                                  calorieGoal := calorieGoal.n)]
    {
      var rejected := CheckSaveAll(foods, calorieGoal);
      if rejected.Some? {
        return rejected.value;
      }
      var normalized := NormalizeAll(foods.items, today);
      if normalized.None? {
        return NULL_ENTRY_ERROR;
      }
      if id !in users {
        return USER_NOT_FOUND;
      }
      var u := users[id];
      users := users[id := u.(foods := normalized.value, calorieGoal := calorieGoal.n)];
      return ALL_SAVED;
    }

    /** A request to a protected route: the auth middleware runs first and, when it lets the
        request through, the route's handler runs as the user the token names. */
    method Handle(header: Option<string>, verify: string -> Option<UserId>, route: Route, today: string)
      returns (r: Reply)
      requires Valid()
      modifies this
      ensures Valid()
      ensures Auth(header, verify).Denied? ==> r == Auth(header, verify).reply && users == old(users)
      ensures users.Keys == old(users).Keys
      ensures forall other :: other in old(users) && !(Auth(header, verify).Granted? && Auth(header, verify).userId == other) ==>
        users[other] == old(users)[other]
      ensures route.ProfileRoute? || route.FoodsRoute? || route.GoalRoute? ==> users == old(users)
      ensures Auth(header, verify).Granted? && Auth(header, verify).userId !in old(users) && !route.SaveAllRoute? ==>
        r == USER_NOT_FOUND && users == old(users)
      ensures Auth(header, verify).Granted? && Auth(header, verify).userId in old(users) ==>
        var id := Auth(header, verify).userId;
        var u := old(users)[id];
        match route
        case ProfileRoute =>
          r == Reply(200, ProfileBody(id, u.username, u.email, u.calorieGoal, u.foods))
        case FoodsRoute =>
          r == Reply(200, FoodsBody(u.foods))
        case AddFoodRoute(food) =>
          r == FOOD_ADDED && users == old(users)[id := u.(foods := u.foods + [food])]
        case GoalRoute =>
          r == Reply(200, GoalBody(u.calorieGoal))
        case SetGoalRoute(goal) =>
          r == GOAL_UPDATED && users == old(users)[id := u.(calorieGoal := goal)]
        case SaveAllRoute(foods, goal) =>
          CheckSaveAll(foods, goal).None? && NormalizeAll(foods.items, today).Some? ==>
            r == ALL_SAVED && users == old(users)[id := u.(foods := NormalizeAll(foods.items, today).value, calorieGoal := goal.n)]
      ensures Auth(header, verify).Granted? && route.SaveAllRoute? ==>
        var id := Auth(header, verify).userId;
        var check := CheckSaveAll(route.entries, route.goalField);
        && (check.Some? ==> r == check.value && users == old(users))
        && (check.None? && NormalizeAll(route.entries.items, today).None? ==> r == NULL_ENTRY_ERROR && users == old(users))
        && (check.None? && NormalizeAll(route.entries.items, today).Some? && id !in old(users) ==>
              r == USER_NOT_FOUND && users == old(users))
    {
      var gate := Auth(header, verify);
      if gate.Denied? {
        return gate.reply;
      }
      var id := gate.userId;
      match route
      case ProfileRoute => r := Profile(id);
      case FoodsRoute => r := GetFoods(id);
      case AddFoodRoute(food) => r := AddFood(id, food);
      case GoalRoute => r := GetGoal(id);
      case SetGoalRoute(goal) => r := SetGoal(id, goal);
      case SaveAllRoute(foods, goal) => r := SaveAll(id, foods, goal, today);
    }
  }
}
