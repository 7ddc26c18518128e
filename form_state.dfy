/** The values held by the SimpleForm component: the record behind its
    `formData` state and the defaults it is mounted with. */
module FormState {

  datatype Option<T> = None | Some(value: T)

  datatype Address = Address(city: string, state: string)

  datatype Hobby = Hobby(name: string)

  /** A value delivered by an input's change event: text from a text box or
      a select, a number from the age input. */
  datatype FieldValue = Text(text: string) | Num(num: int)

  /** The form record. `gender` is the select's raw value ("" while unset).
      `stray` holds the top-level keys that a change event can add although
      the record does not declare them (the address inputs report the names
      "address.city" and "address.state"). The start date is not modelled. */
  datatype FormData = FormData(
    firstName: string,
    lastName: string,
    email: string,
    age: int,
    gender: string,
    address: Address,
    hobbies: seq<Hobby>,
    subscribe: bool,
    referral: string,
    stray: map<string, string>)

  /** Keys the record declares whose value is an address, a list, a date or a
      flag; no change event carries a plain value for them. */
  predicate IsStructuredKey(key: string)
  {
    key in {"address", "hobbies", "startDate", "subscribe"}
  }

  /** Keys the record declares whose value is one text or number. */
  predicate IsScalarKey(key: string)
  {
    key in {"firstName", "lastName", "email", "age", "gender", "referral"}
  }

  /** Reading a scalar property of the record by its key, as `formData[key]`
      does; a key the record never received reads as absent. */
  function Lookup(d: FormData, key: string): (r: Option<FieldValue>)
    ensures IsScalarKey(key) ==> r.Some?
    ensures r.Some? && r.value.Num? ==> key == "age"
  {
    if key == "firstName" then Some(Text(d.firstName))
    else if key == "lastName" then Some(Text(d.lastName))
    else if key == "email" then Some(Text(d.email))
    else if key == "age" then Some(Num(d.age))
    else if key == "gender" then Some(Text(d.gender))
    else if key == "referral" then Some(Text(d.referral))
    else if !IsStructuredKey(key) && key in d.stray then Some(Text(d.stray[key]))
    else None
  }

  /** The values the form is mounted with. */
  function InitialFormData(): (d: FormData)
    ensures |d.hobbies| == 1 && d.hobbies[0].name == ""
    ensures d.age == 18 && !d.subscribe && d.stray == map[] && d.address == Address("", "")
    ensures forall key :: IsScalarKey(key) && key != "age" ==> Lookup(d, key) == Some(Text(""))
  {
    FormData("", "", "", 18, "", Address("", ""), [Hobby("")], false, "", map[])
  }
}
