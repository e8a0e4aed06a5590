/** What the recognition service sends back, as the application sees it once
    `res.json()` has parsed it, and the one rule the view applies to it: the
    recognised name is shown red when it is the sentinel "Unknown" and green
    otherwise (src/App.jsx:115-135). */
module Reply {
  import opened Wrappers

  /** A parsed JSON value. Numbers are exact reals: the application never
      computes with them, it only stores and shows them. */
  datatype Json =
    | Null
    | Boolean(b: bool)
    | Number(value: real)
    | Text(text: string)
    | List(items: seq<Json>)
    | Object(fields: map<string, Json>)

  /** JavaScript property access `v.name` or `v.similarity` on a parsed
      value that is not null (the view reads them only from a truthy value):
      only an object can carry these keys; on a boolean, number, string or
      array the access yields `undefined`. Other keys, such as `length` on
      strings and arrays, and the TypeError that `null.name` raises, are not
      modelled because the application never reaches them. */
  function Property(v: Json, key: string): (r: Option<Json>)
    ensures r.Some? <==> v.Object? && key in v.fields
    ensures r.Some? ==> r.value == v.fields[key]
  {
    match v
    case Object(fields) => if key in fields then Some(fields[key]) else None
    case _ => None
  }

  /** JavaScript truthiness of a parsed value, as used by
      `serverResponse && (...)`: null, false, 0 and "" are falsy; arrays and
      objects, even empty ones, are truthy. */
  predicate Truthy(v: Json) {
    match v
    case Null => false
    case Boolean(b) => b
    case Number(x) => x != 0.0
    case Text(s) => s != ""
    case List(_) => true
    case Object(_) => true
  }

  /** The sentinel name by which the service says "no match". */
  const UnknownName: string := "Unknown"

  /** The value stored in place of a reply when the request or the parsing
      throws: `{ name: "Error", similarity: "-" }`. */
  const ErrorReply: Json := Object(map["name" := Text("Error"), "similarity" := Text("-")])

  datatype Colour = Red | Green

  /** The colour of the name label: strict equality with the string
      "Unknown", so a missing name, a non-string name or any other string is
      green. */
  function NameColour(name: Option<Json>): (c: Colour)
    ensures c == Red <==> name == Some(Text(UnknownName))
  {
    if name == Some(Text(UnknownName)) then Red else Green
  }

  /** What the result panel shows: the name with its colour and the
      similarity, each `None` when the property is absent. */
  datatype Panel = Panel(name: Option<Json>, colour: Colour, similarity: Option<Json>)

  /** The result panel for the stored result; `None` when nothing is shown
      because the stored result is `null` (the initial value) or falsy. */
  function ResultPanel(result: Option<Json>): (p: Option<Panel>)
    ensures p.Some? <==> result.Some? && Truthy(result.value)
    ensures p.Some? ==>
              && p.value.name == Property(result.value, "name")
              && p.value.similarity == Property(result.value, "similarity")
              && (p.value.colour == Red <==> Property(result.value, "name") == Some(Text(UnknownName)))
  {
    match result
    case None => None
    case Some(v) =>
      if Truthy(v) then
        var name := Property(v, "name");
        Some(Panel(name, NameColour(name), Property(v, "similarity")))
      else None
  }

  /** The stored error reply is shown, and shown green: its name is "Error",
      not the "no match" sentinel. */
  lemma ErrorReplyShownGreen()
    ensures ResultPanel(Some(ErrorReply)) == Some(Panel(Some(Text("Error")), Green, Some(Text("-"))))
  {
  }
}
