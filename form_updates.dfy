/** The record updates the component performs on `formData`: the flat field
    change, the three hobby-list edits and the subscribe checkbox. Each is a
    function from the old record to the new one; the component's methods
    assign their results. */
module FormUpdates {
  import opened FormState

  /** What the change handler is ever handed: the age input reports a
      number, every other input text, and no input reports a key whose value
      is structured. */
  predicate FitsField(name: string, value: FieldValue)
  {
    !IsStructuredKey(name) && (value.Num? <==> name == "age")
  }

  /** `handleChange`: writes `value` under the top-level key `name`. A name
      the record does not declare becomes a new top-level key; a dotted name
      is not followed into the nested address. */
  function WithField(d: FormData, name: string, value: FieldValue): (r: FormData)
    requires FitsField(name, value)
    ensures Lookup(r, name) == Some(value)
    ensures forall key :: key != name ==> Lookup(r, key) == Lookup(d, key)
    ensures r.address == d.address && r.hobbies == d.hobbies && r.subscribe == d.subscribe
  {
    match name
    case "firstName" => d.(firstName := value.text)
    case "lastName" => d.(lastName := value.text)
    case "email" => d.(email := value.text)
    case "age" => d.(age := value.num)
    case "gender" => d.(gender := value.text)
    case "referral" => d.(referral := value.text)
    case _ => d.(stray := d.stray[name := value.text])
  }

  /** `handleHobbyChange`: the name of the hobby at `idx` becomes `value`. */
  function WithHobbyName(d: FormData, idx: nat, value: string): (r: FormData)
    requires idx < |d.hobbies|
    ensures |r.hobbies| == |d.hobbies| && r.hobbies[idx] == Hobby(value)
    ensures forall j :: 0 <= j < |d.hobbies| && j != idx ==> r.hobbies[j] == d.hobbies[j]
    ensures r.(hobbies := d.hobbies) == d
  {
    var hobbies := d.hobbies;
    d.(hobbies := hobbies[idx := Hobby(value)])
  }

  /** `removeHobby`: `splice(idx, 1)` on a copy of the list. */
  function WithoutHobby(d: FormData, idx: nat): (r: FormData)
    requires idx < |d.hobbies|
    ensures |r.hobbies| == |d.hobbies| - 1
    ensures forall j :: 0 <= j < idx ==> r.hobbies[j] == d.hobbies[j]
    ensures forall j :: idx <= j < |r.hobbies| ==> r.hobbies[j] == d.hobbies[j + 1]
    ensures multiset(r.hobbies) + multiset{d.hobbies[idx]} == multiset(d.hobbies)
    ensures r.(hobbies := d.hobbies) == d
  {
    var hobbies := d.hobbies;
    assert hobbies == hobbies[..idx] + [hobbies[idx]] + hobbies[idx + 1..];
    d.(hobbies := hobbies[..idx] + hobbies[idx + 1..])
  }

  /** `addHobby`: one empty hobby at the end of the list. */
  function WithNewHobby(d: FormData): (r: FormData)
    ensures |r.hobbies| == |d.hobbies| + 1
    ensures r.hobbies[..|d.hobbies|] == d.hobbies && r.hobbies[|d.hobbies|].name == ""
    ensures r.(hobbies := d.hobbies) == d
  {
    d.(hobbies := d.hobbies + [Hobby("")])
  }

  /** The subscribe checkbox's change handler. */
  function WithSubscribe(d: FormData, checked: bool): (r: FormData)
    ensures r.subscribe == checked && r.(subscribe := d.subscribe) == d
  {
    d.(subscribe := checked)
  }

  /** Removing the hobby that `addHobby` just appended gives back the record. */
  lemma AddThenRemoveRestores(d: FormData)
    ensures WithoutHobby(WithNewHobby(d), |d.hobbies|) == d
  {
    var added := WithNewHobby(d);
    var back := WithoutHobby(added, |d.hobbies|);
    assert back.hobbies == d.hobbies;
  }

  /** Writing a hobby's old name back undoes a hobby edit. */
  lemma HobbyEditUndone(d: FormData, idx: nat, value: string)
    requires idx < |d.hobbies|
    ensures WithHobbyName(WithHobbyName(d, idx, value), idx, d.hobbies[idx].name) == d
  {
    var back := WithHobbyName(WithHobbyName(d, idx, value), idx, d.hobbies[idx].name);
    assert back.hobbies == d.hobbies;
  }

  /** Writing a declared field's old value back undoes a change. */
  lemma ChangeUndone(d: FormData, name: string, value: FieldValue)
    requires FitsField(name, value) && IsScalarKey(name)
    ensures WithField(WithField(d, name, value), name, Lookup(d, name).value) == d
  {
  }

  /** The change handler never reaches the nested address, whatever name
      the address inputs report. */
  lemma ChangeLeavesAddress(d: FormData, name: string, value: FieldValue)
    requires FitsField(name, value)
    ensures WithField(d, name, value).address == d.address
    ensures name == "address.city" ==> Lookup(WithField(d, name, value), "address.city") == Some(value)
  {
  }

  /** `removeHobby` itself has no length guard: only the component's
      rendering, which offers removal while more than one hobby is listed,
      keeps the last hobby from going. */
  lemma RemovingOnlyHobbyEmptiesList(d: FormData)
    requires |d.hobbies| == 1
    ensures WithoutHobby(d, 0).hobbies == []
  {
  }

  /** The evidently intended change handler: a dotted name addresses the
      nested field it spells out, any other name behaves as `WithField`. */
  function WithPath(d: FormData, name: string, value: FieldValue): (r: FormData)
    requires FitsField(name, value)
    ensures name == "address.city" ==> r.address == Address(value.text, d.address.state) && r.(address := d.address) == d
    ensures name == "address.state" ==> r.address == Address(d.address.city, value.text) && r.(address := d.address) == d
    ensures name != "address.city" && name != "address.state" ==> r == WithField(d, name, value)
  {
    if name == "address.city" then d.(address := d.address.(city := value.text))
    else if name == "address.state" then d.(address := d.address.(state := value.text))
    else WithField(d, name, value)
  }
}
