/**
 * The white-collar personal-info form: it renders a required input for
 * each of full name, email, phone and location that is listed in its
 * `fields` prop, and writes each input's value under the input's name.
 * Submitting only calls `onNext`.
 */
module WhiteCollarPersonalInfo {
  import opened Forms

  /** The inputs the form knows, in the order it renders them. */
  const FieldOrder: seq<string> := ["fullName", "email", "phone", "location"]

  /** A rendered input: its `name`, its `type`, and whether it is `required`. */
  datatype Input = Input(name: string, inputType: string, required: bool)

  /** `{fields.includes(name) && <input name=... required/>}` for each known input, in order. */
  function RenderedInputs(fields: seq<string>): (inputs: seq<Input>)
    ensures forall i :: 0 <= i < |inputs| ==> inputs[i].required
    ensures forall i :: 0 <= i < |inputs| ==> inputs[i].name in fields && inputs[i].name in FieldOrder
  {
    (if "fullName" in fields then [Input("fullName", "text", true)] else [])
    + (if "email" in fields then [Input("email", "email", true)] else [])
    + (if "phone" in fields then [Input("phone", "tel", true)] else [])
    + (if "location" in fields then [Input("location", "text", true)] else [])
  }

  /** A known input is rendered iff it is listed in `fields`. */
  lemma ShownIffListed(fields: seq<string>, n: string)
    requires n in FieldOrder
    ensures (exists i :: 0 <= i < |RenderedInputs(fields)| && RenderedInputs(fields)[i].name == n) <==> n in fields
  {
    var a := if "fullName" in fields then [Input("fullName", "text", true)] else [];
    var b := if "email" in fields then [Input("email", "email", true)] else [];
    var c := if "phone" in fields then [Input("phone", "tel", true)] else [];
    var d := if "location" in fields then [Input("location", "text", true)] else [];
    var r := RenderedInputs(fields);
    assert r == a + b + c + d;
    if n in fields {
      var i := if n == "fullName" then 0 else if n == "email" then |a| else if n == "phone" then |a| + |b|
               else |a| + |b| + |c|;
      assert r[i].name == n;
    }
  }

  /** `handleChange` for an event from rendered input `k`: only that input's key changes. */
  function HandleChange(fd: FormData, fields: seq<string>, k: nat, value: string): (next: FormData)
    requires k < |RenderedInputs(fields)|
    ensures RenderedInputs(fields)[k].name in fields
    ensures SameExcept(fd, next, RenderedInputs(fields)[k].name)
    ensures next[RenderedInputs(fields)[k].name] == Str(value)
  {
    Put(fd, RenderedInputs(fields)[k].name, Str(value))
  }

  /** The same change twice is the same change once. */
  lemma HandleChangeIdempotent(fd: FormData, fields: seq<string>, k: nat, value: string)
    requires k < |RenderedInputs(fields)|
    ensures HandleChange(HandleChange(fd, fields, k, value), fields, k, value) == HandleChange(fd, fields, k, value)
  {
  }
}
