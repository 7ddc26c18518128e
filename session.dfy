/** Sequences of user actions against the form values: what every session
    keeps (a non-empty hobby list) and what none can reach (a filled address,
    hence a submit that calls the API), next to the same sessions run with
    the dotted-name change handler the address inputs evidently expect. */
module Session {
  import opened FormState
  import opened FormUpdates
  import opened Validation

  /** One user action on the rendered form. */
  datatype Action =
    | Change(name: string, value: FieldValue)
    | EditHobby(idx: nat, text: string)
    | RemoveAt(idx: nat)
    | Add
    | SetSubscribe(checked: bool)

  /** Whether the action can reach the handlers: every change event the
      change handler could be given (any name that is not a structured key,
      a superset of the rendered inputs, including the referral box while
      it is hidden), only hobby rows that exist, and Remove only while more
      than one hobby is listed. */
  predicate Offered(d: FormData, a: Action)
  {
    match a
    case Change(name, value) => FitsField(name, value)
    case EditHobby(idx, _) => idx < |d.hobbies|
    case RemoveAt(idx) => 1 < |d.hobbies| && idx < |d.hobbies|
    case Add => true
    case SetSubscribe(_) => true
  }

  /** The values after one offered action. `dotted` selects the change
      handler: the flat one the component has, or the one that follows a
      dotted name into the address. */
  function Step(d: FormData, a: Action, dotted: bool): (r: FormData)
    requires Offered(d, a)
    ensures |d.hobbies| >= 1 ==> |r.hobbies| >= 1
  {
    match a
    case Change(name, value) => if dotted then WithPath(d, name, value) else WithField(d, name, value)
    case EditHobby(idx, text) => WithHobbyName(d, idx, text)
    case RemoveAt(idx) => WithoutHobby(d, idx)
    case Add => WithNewHobby(d)
    case SetSubscribe(checked) => WithSubscribe(d, checked)
  }

  /** The values after a session; an action the form does not offer at that
      point cannot be performed and changes nothing. */
  function Run(d: FormData, actions: seq<Action>, dotted: bool): (r: FormData)
    decreases |actions|
  {
    if actions == [] then d
    else
      var next := if Offered(d, actions[0]) then Step(d, actions[0], dotted) else d;
      Run(next, actions[1..], dotted)
  }

  /** Every session keeps at least one hobby. */
  lemma {:induction false} HobbiesNeverEmpty(d: FormData, actions: seq<Action>, dotted: bool)
    requires |d.hobbies| >= 1
    ensures |Run(d, actions, dotted).hobbies| >= 1
    decreases |actions|
  {
    if actions != [] {
      var next := if Offered(d, actions[0]) then Step(d, actions[0], dotted) else d;
      HobbiesNeverEmpty(next, actions[1..], dotted);
    }
  }

  /** With the component's flat change handler no session changes the
      address. */
  lemma {:induction false} AddressUnreached(d: FormData, actions: seq<Action>)
    ensures Run(d, actions, false).address == d.address
    decreases |actions|
  {
    if actions != [] {
      var next := if Offered(d, actions[0]) then Step(d, actions[0], false) else d;
      assert next.address == d.address;
      AddressUnreached(next, actions[1..]);
    }
  }

  /** Hence, from the mounted values, every session ends with both address
      errors, and every submit stops at validation without calling the API. */
  lemma NeverSubmittable(actions: seq<Action>)
    ensures Validate(Run(InitialFormData(), actions, false)).address
            == Some(AddressErrors(Some(CityRequired), Some(StateRequired)))
    ensures !Validate(Run(InitialFormData(), actions, false)).IsEmpty()
  {
    AddressUnreached(InitialFormData(), actions);
  }

  /** With the dotted handler, filling both address boxes clears the address
      errors and leaves every other key of the record as it was. */
  lemma DottedAddressClearsErrors(d: FormData, city: string, state: string)
    requires city != "" && state != ""
    ensures var r := WithPath(WithPath(d, "address.city", Text(city)), "address.state", Text(state));
            Validate(r).address == None && Validate(r).(address := None) == Validate(d).(address := None)
  {
  }

  /** A session, with either handler, whose first action is offered and
      leads to `next` runs on from `next`. */
  lemma RunStep(d: FormData, a: Action, rest: seq<Action>, next: FormData, dotted: bool)
    requires Offered(d, a) && Step(d, a, dotted) == next
    ensures Run(d, [a] + rest, dotted) == Run(next, rest, dotted)
  {
    assert ([a] + rest)[1..] == rest;
  }

  /** The session that types the given text into both name boxes, the
      email box, the gender select, both address boxes and the first hobby,
      and the given number into the age box. */
  function FillEverything(first: string, last: string, email: string, age: int, gender: string,
                          city: string, state: string, hobby: string): (r: seq<Action>)
  {
    [ Change("firstName", Text(first)), Change("lastName", Text(last)),
      Change("email", Text(email)), Change("age", Num(age)),
      Change("gender", Text(gender)), Change("address.city", Text(city)),
      Change("address.state", Text(state)), EditHobby(0, hobby) ]
  }

  /** The first four actions of that session: the two names, the email
      and the age. */
  lemma DottedSessionFirstHalf(d: FormData, first: string, last: string, email: string, age: int,
                               rest: seq<Action>)
    ensures Run(d, [Change("firstName", Text(first)), Change("lastName", Text(last)),
                    Change("email", Text(email)), Change("age", Num(age))] + rest, true)
            == Run(d.(firstName := first, lastName := last, email := email, age := age), rest, true)
  {
    var r3 := [Change("age", Num(age))] + rest;
    var r2 := [Change("email", Text(email))] + r3;
    var r1 := [Change("lastName", Text(last))] + r2;
    assert [Change("firstName", Text(first)), Change("lastName", Text(last)),
            Change("email", Text(email)), Change("age", Num(age))] + rest
           == [Change("firstName", Text(first))] + r1;
    var d1 := d.(firstName := first);
    var d2 := d1.(lastName := last);
    var d3 := d2.(email := email);
    RunStep(d, Change("firstName", Text(first)), r1, d1, true);
    RunStep(d1, Change("lastName", Text(last)), r2, d2, true);
    RunStep(d2, Change("email", Text(email)), r3, d3, true);
    RunStep(d3, Change("age", Num(age)), rest, d3.(age := age), true);
  }

  /** Typing into both address boxes of that session. */
  lemma DottedSessionAddress(d: FormData, city: string, state: string, rest: seq<Action>)
    ensures Run(d, [Change("address.city", Text(city)), Change("address.state", Text(state))] + rest, true)
            == Run(d.(address := Address(city, state)), rest, true)
  {
    var r1 := [Change("address.state", Text(state))] + rest;
    assert [Change("address.city", Text(city)), Change("address.state", Text(state))] + rest
           == [Change("address.city", Text(city))] + r1;
    var d1 := d.(address := d.address.(city := city));
    RunStep(d, Change("address.city", Text(city)), r1, d1, true);
    RunStep(d1, Change("address.state", Text(state)), rest, d.(address := Address(city, state)), true);
  }

  /** The last four actions of that session: the gender, both address boxes
      and the first hobby. */
  lemma DottedSessionSecondHalf(d: FormData, gender: string, city: string, state: string, hobby: string)
    requires |d.hobbies| == 1
    ensures Run(d, [Change("gender", Text(gender)), Change("address.city", Text(city)),
                    Change("address.state", Text(state)), EditHobby(0, hobby)], true)
            == d.(gender := gender, address := Address(city, state), hobbies := [Hobby(hobby)])
  {
    var r3 := [EditHobby(0, hobby)];
    var r1 := [Change("address.city", Text(city)), Change("address.state", Text(state))] + r3;
    assert [Change("gender", Text(gender)), Change("address.city", Text(city)),
            Change("address.state", Text(state)), EditHobby(0, hobby)]
           == [Change("gender", Text(gender))] + r1;
    var d1 := d.(gender := gender);
    var d3 := d1.(address := Address(city, state));
    RunStep(d, Change("gender", Text(gender)), r1, d1, true);
    DottedSessionAddress(d1, city, state, r3);
    assert r3 == [EditHobby(0, hobby)] + [];
    RunStep(d3, EditHobby(0, hobby), [], d3.(hobbies := [Hobby(hobby)]), true);
  }

  /** With the dotted handler, that session from the mounted values holds
      exactly the typed values. */
  lemma DottedSessionValues(first: string, last: string, email: string, age: int, gender: string,
                            city: string, state: string, hobby: string)
    ensures Run(InitialFormData(), FillEverything(first, last, email, age, gender, city, state, hobby), true)
            == FormData(first, last, email, age, gender, Address(city, state), [Hobby(hobby)], false, "", map[])
  {
    var tail := [Change("gender", Text(gender)), Change("address.city", Text(city)),
                 Change("address.state", Text(state)), EditHobby(0, hobby)];
    assert FillEverything(first, last, email, age, gender, city, state, hobby)
           == [Change("firstName", Text(first)), Change("lastName", Text(last)),
               Change("email", Text(email)), Change("age", Num(age))] + tail;
    var d0 := InitialFormData();
    DottedSessionFirstHalf(d0, first, last, email, age, tail);
    DottedSessionSecondHalf(d0.(firstName := first, lastName := last, email := email, age := age),
                            gender, city, state, hobby);
  }

  /** With the dotted handler, any such session whose typed values meet
      every rule passes validation from the mounted values, so the submit
      goes on to call the API. */
  lemma DottedSessionSubmittable(first: string, last: string, email: string, age: int, gender: string,
                                 city: string, state: string, hobby: string)
    requires first != "" && last != "" && MatchesEmailPattern(email) && age >= 18 && gender != ""
    requires city != "" && state != "" && hobby != ""
    ensures Validate(Run(InitialFormData(), FillEverything(first, last, email, age, gender, city, state, hobby), true)).IsEmpty()
  {
    DottedSessionValues(first, last, email, age, gender, city, state, hobby);
    var d := FormData(first, last, email, age, gender, Address(city, state), [Hobby(hobby)], false, "", map[]);
    ValidateEmptyIff(d);
  }
}
