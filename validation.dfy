/** The submit-time validator of the SimpleForm component: nine independent
    rules, each adding a fixed message under its field's key in the error
    record. `Validate` is the reference definition, rule by rule;
    `CollectErrors` builds the same record the way the component does, by
    successive assignments and a pass over the hobbies. */
module Validation {
  import opened FormState

  const FirstNameRequired := "First Name is Required"
  const LastNameRequired := "Last Name is Required"
  const InvalidEmail := "Invalid email address"
  const AgeTooLow := "You must be over the 18 years"
  const GenderRequired := "Gender must be requried"
  const CityRequired := "City is requried"
  const StateRequired := "State is requried"
  const HobbyRequired := "Hobby name is requried"
  const ReferralRequired := "Referral source is requried if you are subscribing"

  /** The error shown under one hobby's input. */
  datatype HobbyError = HobbyError(name: string)

  /** The nested `address` entry of the error record; either key may be
      absent. */
  datatype AddressErrors = AddressErrors(city: Option<string>, state: Option<string>)

  /** The error record. `None` is an absent key. `hobbies` is a sparse list:
      its length is one past the last index written and unwritten indices are
      holes. `root` carries a submission failure. */
  datatype FormErrors = FormErrors(
    firstName: Option<string>,
    lastName: Option<string>,
    email: Option<string>,
    age: Option<string>,
    gender: Option<string>,
    address: Option<AddressErrors>,
    hobbies: Option<seq<Option<HobbyError>>>,
    referral: Option<string>,
    root: Option<string>)
  {
    /** The record has no keys at all. */
    predicate IsEmpty()
    {
      && firstName.None? && lastName.None? && email.None? && age.None?
      && gender.None? && address.None? && hobbies.None? && referral.None? && root.None?
    }
  }

  function NoErrors(): (e: FormErrors)
    ensures e.IsEmpty()
  {
    FormErrors(None, None, None, None, None, None, None, None, None)
  }

  /** The record that holds only a submission failure. */
  function RootError(message: string): (e: FormErrors)
    ensures !e.IsEmpty() && e.root == Some(message)
    ensures e.(root := None) == NoErrors()
  {
    NoErrors().(root := Some(message))
  }

  /** The characters JavaScript's `\s` class matches. */
  predicate IsWhitespace(c: char)
  {
    || c == ' ' || c == '\t' || c == '\n' || c == '\r'
    || c == '\U{000B}' || c == '\U{000C}' || c == '\U{00A0}' || c == '\U{1680}'
    || ('\U{2000}' <= c <= '\U{200A}')
    || c == '\U{2028}' || c == '\U{2029}' || c == '\U{202F}' || c == '\U{205F}'
    || c == '\U{3000}' || c == '\U{FEFF}'
  }

  predicate NoWhitespace(s: string)
  {
    forall i :: 0 <= i < |s| ==> !IsWhitespace(s[i])
  }

  /** The email check: the whole string is non-whitespace and has an '@'
      with at least one character on each side. */
  predicate IsEmail(s: string)
  {
    |s| >= 3 && NoWhitespace(s) && '@' in s[1..|s| - 1]
  }

  /** The language of the pattern `^\S+@\S+$`: one or more non-whitespace
      characters, an '@', one or more non-whitespace characters, and nothing
      else. The case-insensitive flag changes nothing for these classes. */
  ghost predicate MatchesEmailPattern(s: string)
  {
    exists k :: 0 < k < |s| - 1 && s[k] == '@' && NoWhitespace(s[..k]) && NoWhitespace(s[k + 1..])
  }

  lemma EmailPattern(s: string)
    ensures IsEmail(s) <==> MatchesEmailPattern(s)
  {
    if IsEmail(s) {
      var j :| 0 <= j < |s| - 2 && s[1..|s| - 1][j] == '@';
      var k := j + 1;
      assert s[k] == '@';
      assert NoWhitespace(s[..k]) && NoWhitespace(s[k + 1..]);
    }
    if MatchesEmailPattern(s) {
      var k :| 0 < k < |s| - 1 && s[k] == '@' && NoWhitespace(s[..k]) && NoWhitespace(s[k + 1..]);
      forall i | 0 <= i < |s| ensures !IsWhitespace(s[i]) {
        if i < k {
          assert s[i] == s[..k][i];
        } else if i > k {
          assert s[i] == s[k + 1..][i - k - 1];
        }
      }
      assert s[1..|s| - 1][k - 1] == '@';
    }
  }

  /** `list[idx] = x` on a JavaScript array: writing past the end lengthens
      the list and leaves holes in between. */
  function SetAt<T>(list: seq<Option<T>>, idx: nat, x: T): (r: seq<Option<T>>)
    ensures |r| == if idx < |list| then |list| else idx + 1
    ensures r[idx] == Some(x)
    ensures forall j :: 0 <= j < |r| && j != idx ==> r[j] == if j < |list| then list[j] else None
  {
    if idx < |list| then list[idx := Some(x)]
    else list + seq(idx - |list|, _ => None) + [Some(x)]
  }

  /** The `hobbies` entry of the error record after the pass over `hs`. */
  function HobbyErrors(hs: seq<Hobby>): (r: Option<seq<Option<HobbyError>>>)
    ensures r.None? <==> forall i :: 0 <= i < |hs| ==> hs[i].name != ""
    ensures r.Some? ==> 0 < |r.value| <= |hs| && hs[|r.value| - 1].name == ""
    ensures r.Some? ==> forall i :: 0 <= i < |r.value| ==>
              r.value[i] == if hs[i].name == "" then Some(HobbyError(HobbyRequired)) else None
    ensures r.Some? ==> forall i :: |r.value| <= i < |hs| ==> hs[i].name != ""
    decreases |hs|
  {
    if hs == [] then None
    else
      var n := |hs| - 1;
      var before := HobbyErrors(hs[..n]);
      if hs[n].name == "" then
        Some(SetAt(if before.None? then [] else before.value, n, HobbyError(HobbyRequired)))
      else before
  }

  /** The `address` entry: each key present exactly when its field is empty,
      the entry absent when both are filled. */
  function AddressErrorsOf(a: Address): (r: Option<AddressErrors>)
    ensures r.Some? <==> a.city == "" || a.state == ""
    ensures r.Some? ==> (r.value.city == Some(CityRequired) <==> a.city == "")
    ensures r.Some? ==> (r.value.state == Some(StateRequired) <==> a.state == "")
    ensures r.Some? ==> (r.value.city.Some? <==> a.city == "") && (r.value.state.Some? <==> a.state == "")
  {
    if a.city != "" && a.state != "" then None
    else Some(AddressErrors(if a.city == "" then Some(CityRequired) else None,
                            if a.state == "" then Some(StateRequired) else None))
  }

  /** The entry a rule leaves: absent when it holds, its message otherwise. */
  function Require(ok: bool, message: string): (r: Option<string>)
  {
    if ok then None else Some(message)
  }

  /** The reference validator: the error record for the values `d`, one
      rule per key, no rule looking at another's outcome. */
  function Validate(d: FormData): (e: FormErrors)
    ensures e.root.None?
  {
    FormErrors(
      firstName := Require(d.firstName != "", FirstNameRequired),
      lastName := Require(d.lastName != "", LastNameRequired),
      email := Require(IsEmail(d.email), InvalidEmail),
      age := Require(d.age >= 18, AgeTooLow),
      gender := Require(d.gender != "", GenderRequired),
      address := AddressErrorsOf(d.address),
      hobbies := HobbyErrors(d.hobbies),
      referral := Require(!(d.referral == "" && d.subscribe), ReferralRequired),
      root := None)
  }

  /** The `forEach` over the hobbies: each empty name writes the message at
      its index, creating the list on the first write. */
  method CollectHobbyErrors(hobbies: seq<Hobby>) returns (errs: Option<seq<Option<HobbyError>>>)
    ensures errs == HobbyErrors(hobbies)
  {
    errs := None;
    var i := 0;
    while i < |hobbies|
      invariant 0 <= i <= |hobbies|
      invariant errs == HobbyErrors(hobbies[..i])
    {
      assert hobbies[..i + 1][..i] == hobbies[..i];
      if hobbies[i].name == "" {
        var list := if errs.None? then [] else errs.value;
        errs := Some(SetAt(list, i, HobbyError(HobbyRequired)));
      }
      i := i + 1;
    }
    assert hobbies[..i] == hobbies;
  }

  /** The validation block of the submit handler, step by step. */
  method CollectErrors(d: FormData) returns (e: FormErrors)
    ensures e == Validate(d)
  {
    e := NoErrors();
    if d.firstName == "" { e := e.(firstName := Some(FirstNameRequired)); }
    if d.lastName == "" { e := e.(lastName := Some(LastNameRequired)); }
    if !IsEmail(d.email) { e := e.(email := Some(InvalidEmail)); }
    if d.age < 18 { e := e.(age := Some(AgeTooLow)); }
    if d.gender == "" { e := e.(gender := Some(GenderRequired)); }
    assert e == Validate(d).(address := None, hobbies := None, referral := None);
    if d.address.city == "" {
      e := e.(address := Some(AddressErrors(Some(CityRequired), None)));
    }
    if d.address.state == "" {
      var city := if e.address.Some? then e.address.value.city else None;
      e := e.(address := Some(AddressErrors(city, Some(StateRequired))));
    }
    assert e == Validate(d).(hobbies := None, referral := None);
    var hobbyErrors := CollectHobbyErrors(d.hobbies);
    e := e.(hobbies := hobbyErrors);
    if d.referral == "" && d.subscribe {
      e := e.(referral := Some(ReferralRequired));
    }
  }

  /** The record is empty exactly when every rule passes. */
  lemma ValidateEmptyIff(d: FormData)
    ensures Validate(d).IsEmpty() <==>
      && d.firstName != "" && d.lastName != ""
      && MatchesEmailPattern(d.email)
      && d.age >= 18
      && d.gender != ""
      && d.address.city != "" && d.address.state != ""
      && (forall i :: 0 <= i < |d.hobbies| ==> d.hobbies[i].name != "")
      && !(d.subscribe && d.referral == "")
  {
    EmailPattern(d.email);
  }

  /** Each key of the record depends only on the fields its rule reads: no
      rule's outcome hides or changes another's. */
  lemma RulesIndependent(d: FormData, d': FormData)
    ensures d.firstName == d'.firstName ==> Validate(d).firstName == Validate(d').firstName
    ensures d.lastName == d'.lastName ==> Validate(d).lastName == Validate(d').lastName
    ensures d.email == d'.email ==> Validate(d).email == Validate(d').email
    ensures d.age == d'.age ==> Validate(d).age == Validate(d').age
    ensures d.gender == d'.gender ==> Validate(d).gender == Validate(d').gender
    ensures d.address == d'.address ==> Validate(d).address == Validate(d').address
    ensures d.hobbies == d'.hobbies ==> Validate(d).hobbies == Validate(d').hobbies
    ensures d.subscribe == d'.subscribe && d.referral == d'.referral ==> Validate(d).referral == Validate(d').referral
  {
  }

  /** A referral error appears exactly when subscribing with an empty
      referral; while not subscribing the referral text affects nothing. */
  lemma ReferralRule(d: FormData, referral: string)
    ensures Validate(d).referral.Some? <==> d.subscribe && d.referral == ""
    ensures !d.subscribe ==> Validate(d.(referral := referral)) == Validate(d)
  {
  }

  /** The email key is set exactly when the address fails the pattern. */
  lemma EmailRule(d: FormData)
    ensures Validate(d).email == Some(InvalidEmail) <==> !MatchesEmailPattern(d.email)
    ensures Validate(d).email.None? <==> MatchesEmailPattern(d.email)
  {
    EmailPattern(d.email);
  }

  /** An empty first name is reported whatever the other fields hold. */
  lemma FirstNameRule(d: FormData)
    ensures d.firstName == "" ==> Validate(d).firstName == Some(FirstNameRequired) && !Validate(d).IsEmpty()
  {
  }

  /** Sample values with every field filled in. */
  function SampleValues(): (d: FormData)
  {
    FormData("Jo", "Doe", "jo@x.com", 20, "male", Address("NYC", "NY"), [Hobby("chess")], false, "", map[])
  }

  /** The sample values pass every rule. */
  lemma SampleValuesPass()
    ensures Validate(SampleValues()).IsEmpty()
  {
    var s := SampleValues().email;
    assert s[1..|s| - 1][1] == '@';
  }

  /** With an email that lacks an '@' the record is exactly the email error. */
  lemma SampleBadEmailFails()
    ensures Validate(SampleValues().(email := "not-an-email")) == NoErrors().(email := Some(InvalidEmail))
  {
    var s := "not-an-email";
    assert forall i :: 0 <= i < |s| ==> s[i] != '@';
    assert '@' !in s[1..|s| - 1];
  }
}
