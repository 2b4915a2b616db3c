/** The error handler that the authentication and workshop services attach to
    their requests: it turns an `HttpErrorResponse` into the message of the
    `Error` the subscriber receives. */
module HttpErrors {
  import opened Common
  import opened Text

  /** `Object.values(v)` for a value of type `object`: property values in
      insertion order for an object, the items for an array. */
  function Values(body: Json): seq<Json>
    requires body.Obj? || body.Arr?
  {
    if body.Arr? then body.items else PropValues(body.props)
  }

  function PropValues(props: seq<(string, Json)>): (vs: seq<Json>)
    ensures |vs| == |props| && forall i :: 0 <= i < |props| ==> vs[i] == props[i].1
  {
    if props == [] then [] else [props[0].1] + PropValues(props[1..])
  }

  /** `.filter(value => typeof value === 'string')`, keeping the strings:
      a text is in the result exactly when it is one of the string values. */
  function StringValues(vs: seq<Json>): (r: seq<string>)
    ensures |r| <= |vs|
    ensures forall t :: t in r <==> Str(t) in vs
  {
    if vs == [] then []
    else (if vs[0].Str? then [vs[0].s] else []) + StringValues(vs[1..])
  }

  lemma {:induction false} StringValuesAppend(a: seq<Json>, b: seq<Json>)
    ensures StringValues(a + b) == StringValues(a) + StringValues(b)
  {
    if a == [] {
      assert a + b == b;
    } else {
      var head := if a[0].Str? then [a[0].s] else [];
      assert (a + b)[0] == a[0] && (a + b)[1..] == a[1..] + b;
      calc {
        StringValues(a + b);
        head + StringValues(a[1..] + b);
        { StringValuesAppend(a[1..], b); }
        head + (StringValues(a[1..]) + StringValues(b));
        (head + StringValues(a[1..])) + StringValues(b);
      }
    }
  }

  /** Every string value, and nothing else, survives the filter, in order. */
  lemma {:induction false} StringValuesAllStrings(vs: seq<Json>)
    requires forall i :: 0 <= i < |vs| ==> vs[i].Str?
    ensures |StringValues(vs)| == |vs|
    ensures forall i :: 0 <= i < |vs| ==> StringValues(vs)[i] == vs[i].s
  {
    if vs != [] {
      StringValuesAllStrings(vs[1..]);
    }
  }

  lemma {:induction false} StringValuesNoStrings(vs: seq<Json>)
    requires forall i :: 0 <= i < |vs| ==> !vs[i].Str?
    ensures StringValues(vs) == []
  {
    if vs != [] {
      StringValuesNoStrings(vs[1..]);
    }
  }

  /** The message derived from the body alone: the string values of an object
      or array body joined by newlines, or "" when there is no such body. */
  function BodyMessage(body: Json): string {
    if body.Obj? || body.Arr? then Join(StringValues(Values(body)), "\n") else ""
  }

  /** The message of the `Error` that `handleError` throws. */
  function HandleError(e: HttpError): (msg: string)
    ensures BodyMessage(e.body) != "" ==> msg == BodyMessage(e.body)
    ensures BodyMessage(e.body) == "" ==>
              msg == "Error Code: " + NatToString(e.status) + "\n" + e.message
  {
    var fromBody := BodyMessage(e.body);
    if fromBody != "" then fromBody
    else "Error Code: " + NatToString(e.status) + "\n" + e.message
  }

  /** A call piped through `catchError(this.handleError)`: the payload passes
      through, an error reaches the subscriber as the derived message. */
  function Handled<T>(o: Outcome<T>): (r: Reply<T>)
    ensures o.Success? <==> r.Ok?
    ensures o.Success? ==> r.value == o.value
    ensures o.Failure? ==> r.message == HandleError(o.error)
  {
    match o
    case Success(v) => Ok(v)
    case Failure(e) => Err(HandleError(e))
  }

  /** The body's messages are used exactly when it is an object or array with
      a string value that is not the single empty string; two empty strings
      join to a lone newline, which is used. */
  lemma BodyUsedIff(body: Json)
    ensures BodyMessage(body) != "" <==>
              (body.Obj? || body.Arr?)
              && var ss := StringValues(Values(body));
                 |ss| >= 2 || (|ss| == 1 && ss[0] != "")
  {
    if body.Obj? || body.Arr? {
      JoinEmptyIff(StringValues(Values(body)), "\n");
    }
  }

  /** A body without any string value falls back to the status line, whatever
      else it holds. */
  lemma FallbackWithoutStrings(e: HttpError)
    requires e.body.Obj? || e.body.Arr?
    requires forall i :: 0 <= i < |Values(e.body)| ==> !Values(e.body)[i].Str?
    ensures HandleError(e) == "Error Code: " + NatToString(e.status) + "\n" + e.message
  {
    StringValuesNoStrings(Values(e.body));
  }

  /** A body that is not an object (null, a number, a bare string) is never
      consulted. */
  lemma NonObjectBodyIgnored(e: HttpError)
    requires !(e.body.Obj? || e.body.Arr?)
    ensures HandleError(e) == "Error Code: " + NatToString(e.status) + "\n" + e.message
  {
  }

  lemma NonStringValueIgnored(a: seq<Json>, b: seq<Json>, v: Json)
    requires !v.Str?
    ensures StringValues(a + [v] + b) == StringValues(a + b)
  {
    assert StringValues([v]) == [] by {
      assert [v][1..] == [];
    }
    StringValuesAppend(a + [v], b);
    StringValuesAppend(a, [v]);
    StringValuesAppend(a, b);
  }

  /** Adding a property whose value is not a string leaves the message as it
      was. */
  lemma NonStringPropertyIgnored(e: HttpError, before: seq<(string, Json)>,
                                 after: seq<(string, Json)>, key: string, v: Json)
    requires !v.Str?
    requires e.body == Obj(before + after)
    ensures HandleError(e.(body := Obj(before + [(key, v)] + after))) == HandleError(e)
  {
    var body' := Obj(before + [(key, v)] + after);
    var a, b := PropValues(before), PropValues(after);
    assert Values(body') == a + [v] + b;
    assert Values(e.body) == a + b;
    NonStringValueIgnored(a, b, v);
    assert BodyMessage(body') == BodyMessage(e.body);
  }

  /** A validation error from the server: one string message and one numeric
      field. */
  lemma ValidationExample(status: nat, message: string)
    ensures HandleError(HttpError(status, message,
              Obj([("email", Str("must not be blank")), ("telefono", Num(123.0))])))
            == "must not be blank"
  {
    var props := [("email", Str("must not be blank")), ("telefono", Num(123.0))];
    assert PropValues(props) == [Str("must not be blank"), Num(123.0)];
    assert StringValues([Num(123.0)]) == [];
    assert StringValues(PropValues(props)) == ["must not be blank"];
  }
}
