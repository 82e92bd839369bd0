/** The HTTP transport as the login core sees it: the requests it issues and the replies an
    oracle hands back for them (a response body, or a transport failure). */
module Transport {

  /** One name=value pair of an url-encoded form (an entry of a NameValueCollection). */
  datatype Field = Field(name: string, value: string)

  /** A request the core issues. */
  datatype Request =
    | Get(url: string)
    | Post(url: string, form: seq<Field>)

  /** What the transport yields for one request: the response body decoded as text, or a WebException. */
  datatype Reply =
    | Page(text: string)
    | WebFailure

  /** The form that pairs each name with the value at the same position. */
  function Pairs(names: seq<string>, values: seq<string>): (form: seq<Field>)
    requires |names| == |values|
    ensures |form| == |names|
    ensures forall i :: 0 <= i < |form| ==> form[i] == Field(names[i], values[i])
  {
    if names == [] then [] else [Field(names[0], values[0])] + Pairs(names[1..], values[1..])
  }

  /** The names of a form's fields, in the order they were added. */
  function Names(form: seq<Field>): (names: seq<string>)
    ensures |names| == |form|
    ensures forall i :: 0 <= i < |form| ==> names[i] == form[i].name
  {
    if form == [] then [] else [form[0].name] + Names(form[1..])
  }
}
