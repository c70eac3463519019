/** The game API's request wrapper: the parsed JSON body and the name the
    request was authenticated as, with typed getters over the body.

    json-simple parses integral numbers as `Long` (`JNumber`); a boxed
    `Integer` (`JInteger`) only appears when Java code put one into the map.
    The body itself can be null when the request text was the JSON literal
    `null`. */
module ApiRequests {
  import opened Common
  import opened Json

  /** What a getter can throw. `IllegalArgument` is the exception the server
      answers with 400; anything else ends in the 500 catch-all. */
  datatype Thrown = IllegalArgument(message: string) | OtherException(message: string)

  /** A getter's outcome: the boxed value, null (None), or an exception. */
  datatype Got<+T> = Got(value: Option<T>) | Threw(exception: Thrown)

  /** The constructor's two arguments, returned unchanged by `getBody` and
      `getAuthenticatedUsername`. */
  datatype ApiRequest = ApiRequest(body: Option<JsonObject>, authenticatedUsername: string)

  /** `Long.intValue()`: the low 32 bits read as a two's-complement int. */
  function IntValue(n: int): (r: int)
    ensures IsInt32(r)
    ensures (r - n) % 0x1_0000_0000 == 0
  {
    var low := n % 0x1_0000_0000;
    if low > INT_MAX then low - 0x1_0000_0000 else low
  }

  /** The two defining facts pin the value down: an int congruent to `n`
      modulo 2^32 is `IntValue(n)`, so values already in int range pass
      through unchanged. */
  lemma IntValueUnique(n: int, r: int)
    requires IsInt32(r) && (r - n) % 0x1_0000_0000 == 0
    ensures r == IntValue(n)
  {
    var v := IntValue(n);
    assert (r - v) % 0x1_0000_0000 == 0 by {
      assert r - v == (r - n) - (v - n);
    }
    assert -0x1_0000_0000 < r - v < 0x1_0000_0000;
  }

  lemma IntValueInRange(n: int)
    requires IsInt32(n)
    ensures IntValue(n) == n
  {
    IntValueUnique(n, n);
  }

  /** A Long just past the int range wraps to the most negative int. */
  lemma IntValueWraps()
    ensures IntValue(INT_MAX + 1) == INT_MIN
    ensures IntValue(0x1_0000_0005) == 5
    ensures IntValue(-0x1_0000_0000) == 0
  {
  }

  /** `getString`: a cast of whatever the key holds, so a value of another
      type throws a ClassCastException rather than an illegal argument. */
  function GetString(req: ApiRequest, key: string): (r: Got<string>)
    ensures req.body.None? ==> r == Threw(OtherException(NULL_POINTER))
    ensures req.body.Some? && Get(req.body.value, key).None? ==> r == Got(None)
    ensures req.body.Some? && Get(req.body.value, key).Some? ==>
      (r.Got? <==> Get(req.body.value, key).value.JString?)
    ensures r.Got? && r.value.Some? ==> req.body.Some? && Get(req.body.value, key) == Some(JString(r.value.value))
    ensures r.Threw? ==> r.exception.OtherException?
  {
    if req.body.None? then Threw(OtherException(NULL_POINTER))
    else match Get(req.body.value, key)
      case None => Got(None)
      case Some(JString(s)) => Got(Some(s))
      case Some(_) => Threw(OtherException(CLASS_CAST))
  }

  /** `getInt`: a Long is narrowed with `intValue`, an Integer passes
      through, null stays null, and anything else is an illegal argument. */
  function GetInt(req: ApiRequest, key: string): (r: Got<int>)
    ensures req.body.None? ==> r == Threw(OtherException(NULL_POINTER))
    ensures req.body.Some? && Get(req.body.value, key).None? ==> r == Got(None)
    ensures req.body.Some? && Get(req.body.value, key).Some? ==>
      match Get(req.body.value, key).value
      case JNumber(n) => r.Got? && r.value.Some? && IsInt32(r.value.value)
                         && (r.value.value - n) % 0x1_0000_0000 == 0
      case JInteger(n) => r == Got(Some(n))
      case _ => r == Threw(IllegalArgument("Parameter '" + key + "' is not an integer"))
  {
    if req.body.None? then Threw(OtherException(NULL_POINTER))
    else match Get(req.body.value, key)
      case None => Got(None)
      case Some(JNumber(n)) => Got(Some(IntValue(n)))
      case Some(JInteger(n)) => Got(Some(n))
      case Some(_) => Threw(IllegalArgument("Parameter '" + key + "' is not an integer"))
  }

  /** `getBoolean`: a Boolean or null, anything else an illegal argument. */
  function GetBoolean(req: ApiRequest, key: string): (r: Got<bool>)
    ensures req.body.None? ==> r == Threw(OtherException(NULL_POINTER))
    ensures req.body.Some? && Get(req.body.value, key).None? ==> r == Got(None)
    ensures req.body.Some? && Get(req.body.value, key).Some? ==>
      if Get(req.body.value, key).value.JBool? then r == Got(Some(Get(req.body.value, key).value.b))
      else r == Threw(IllegalArgument("Parameter '" + key + "' is not a boolean"))
  {
    if req.body.None? then Threw(OtherException(NULL_POINTER))
    else match Get(req.body.value, key)
      case None => Got(None)
      case Some(JBool(b)) => Got(Some(b))
      case Some(_) => Threw(IllegalArgument("Parameter '" + key + "' is not a boolean"))
  }

  /** A number that fits in an int is read back exactly, whichever way it
      was boxed. */
  lemma GetIntExact(body: JsonObject, user: string, key: string, n: int)
    requires IsInt32(n)
    requires key in body && (body[key] == JNumber(n) || body[key] == JInteger(n))
    ensures GetInt(ApiRequest(Some(body), user), key) == Got(Some(n))
  {
    IntValueInRange(n);
  }

  /** The typed getters differ in what they do with a value of the wrong
      type: `getInt` and `getBoolean` raise an illegal argument naming the
      key, `getString` a failed cast. */
  lemma WrongTypeExceptions(body: JsonObject, user: string, key: string, s: string)
    requires key in body && body[key] == JString(s)
    ensures GetInt(ApiRequest(Some(body), user), key).Threw?
    ensures GetInt(ApiRequest(Some(body), user), key).exception.IllegalArgument?
    ensures GetBoolean(ApiRequest(Some(body), user), key).exception.IllegalArgument?
    ensures GetString(ApiRequest(Some(body), user), key) == Got(Some(s))
    ensures GetString(ApiRequest(Some(body[key := JBool(true)]), user), key).Threw?
  {
  }
}
