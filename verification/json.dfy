/** The parsed JSON document handed to the activity converter, and the two element
    accessors it uses: property lookup and string extraction. */
module Json {

  /** A parsed JSON value. Numbers keep their literal text; object members are keyed by
      their exact (case-sensitive) name. */
  datatype Json =
    | JNull
    | JBool(b: bool)
    | JNumber(literal: string)
    | JString(text: string)
    | JArray(items: seq<Json>)
    | JObject(members: map<string, Json>)

  /** The three outcomes of looking a property up on an element: the element is not an
      object (the library throws), the property is absent, or it is present. */
  datatype Lookup = NotAnObject | Absent | Present(value: Json)

  /** Property lookup by exact, ordinal name. */
  function TryGetProperty(element: Json, name: string): (r: Lookup)
    ensures r.NotAnObject? <==> !element.JObject?
    ensures r.Present? <==> element.JObject? && name in element.members
    ensures r.Present? ==> r.value == element.members[name]
  {
    match element
    case JObject(members) => if name in members then Present(members[name]) else Absent
    case _ => NotAnObject
  }

  /** The three outcomes of reading an element as a string: its text, a null reference
      (for a JSON null), or an exception (for any other kind of element). */
  datatype StringValue = Text(text: string) | NullText | NotText

  function GetString(element: Json): (r: StringValue)
    ensures r.Text? <==> element.JString?
    ensures r.Text? ==> r.text == element.text
    ensures r.NullText? <==> element.JNull?
  {
    match element
    case JString(s) => Text(s)
    case JNull => NullText
    case _ => NotText
  }
}
