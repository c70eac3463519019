/** The /finditem command: search the channel's server for items by name
    and list up to fifty of them, one line each, in the order the server
    returned them. */
module FindItemCommands {
  import opened Common
  import opened Json
  import opened ServerConfigs
  import opened GameClient
  import opened CommandManagement

  /** At most this many items are listed. */
  const MAX_LISTED: nat := 50

  /** What `Integer.parseInt` and `toString()` of a non-number, non-text id
      raise; the exact text is not part of this model. */
  const NUMBER_FORMAT: string := "NumberFormatException"

  /** The longest value an embed field may hold; a longer one makes the
      field's construction throw an IllegalArgumentException. */
  const FIELD_VALUE_MAX: nat := 1024

  /** What adding an over-long field raises; the exact text is not part of
      this model. */
  const FIELD_TOO_LONG: string := "IllegalArgumentException"

  datatype FindItemReply =
    | Escaped(message: string)
    | Error(message: string)
    | Found(description: string, itemList: string)

  /** `(String) item.get("name")`: a missing name is appended as "null". */
  function ItemName(item: JsonObject): (r: Result<string>)
    ensures Get(item, "name").None? ==> r == Ok("null")
    ensures Get(item, "name").Some? ==>
      (r.Ok? <==> Get(item, "name").value.JString?) && (r.Ok? ==> r.value == Get(item, "name").value.s)
  {
    match Get(item, "name")
    case None => Ok("null")
    case Some(JString(s)) => Ok(s)
    case Some(_) => Err(CLASS_CAST)
  }

  /** The id conversion: a number as it is, text through `Integer.parseInt`,
      a missing id a NullPointerException, anything else unparsable. */
  function ItemId(item: JsonObject): (r: Result<int>)
    ensures Get(item, "id").None? ==> r == Err(NULL_POINTER)
    ensures Get(item, "id").Some? && (Get(item, "id").value.JNumber? || Get(item, "id").value.JInteger?) ==>
      r == Ok(Get(item, "id").value.n)
    ensures Get(item, "id").Some? && Get(item, "id").value.JString? ==>
      var s := Get(item, "id").value.s;
      r == if ParseInt(s).Some? then Ok(ParseInt(s).value) else Err("For input string: \"" + s + "\"")
    ensures Get(item, "id").Some? && (Get(item, "id").value.JBool? || Get(item, "id").value.JArray? || Get(item, "id").value.JObject?) ==>
      r == Err(NUMBER_FORMAT)
  {
    match Get(item, "id")
    case None => Err(NULL_POINTER)
    case Some(JNumber(n)) => Ok(n)
    case Some(JInteger(n)) => Ok(n)
    case Some(JString(s)) =>
      var parsed := ParseInt(s);
      if parsed.Some? then Ok(parsed.value) else Err("For input string: \"" + s + "\"")
    case Some(_) => Err(NUMBER_FORMAT)
  }

  /** The for-each loop's implicit cast of an element to a Map: objects and
      JSON null pass, anything else is a ClassCastException. */
  predicate CastsToMap(item: JsonValue) {
    item.JObject? || item.JNull?
  }

  /** One listed line for an element that passed the cast; the name is read
      before the id is converted, and a null element fails at its first
      `item.get`. */
  function ItemLine(item: JsonValue): (r: Result<string>)
    ensures item.JNull? ==> r == Err(NULL_POINTER)
    ensures !CastsToMap(item) ==> r == Err(CLASS_CAST)
    ensures item.JObject? && ItemName(item.fields).Err? ==> r == Err(ItemName(item.fields).error)
    ensures item.JObject? && ItemName(item.fields).Ok? && ItemId(item.fields).Err? ==> r == Err(ItemId(item.fields).error)
    ensures r.Ok? <==> item.JObject? && ItemName(item.fields).Ok? && ItemId(item.fields).Ok?
    ensures r.Ok? ==>
      r.value == "**" + ItemName(item.fields).value + "** - ID: `" + IntToString(ItemId(item.fields).value) + "`\n"
  {
    if item.JNull? then Err(NULL_POINTER)
    else if !item.JObject? then Err(CLASS_CAST)
    else
      var name := ItemName(item.fields);
      if name.Err? then Err(name.error)
      else
        var id := ItemId(item.fields);
        if id.Err? then Err(id.error)
        else Ok("**" + name.value + "** - ID: `" + IntToString(id.value) + "`\n")
  }

  /** The lines `line` produces for `items`, in order, or the first
      item's failure. */
  function Lines(items: seq<JsonValue>, line: JsonValue -> Result<string>): Result<string>
  {
    if |items| == 0 then Ok("")
    else
      var init := Lines(items[..|items| - 1], line);
      if init.Err? then init
      else
        var last := line(items[|items| - 1]);
        if last.Err? then Err(last.error) else Ok(init.value + last.value)
  }

  /** The items whose lines are built: the first fifty. */
  function Listed(items: seq<JsonValue>): (r: seq<JsonValue>)
    ensures |r| <= MAX_LISTED && r <= items
    ensures |items| <= MAX_LISTED ==> r == items
    ensures |items| > MAX_LISTED ==> |r| == MAX_LISTED
  {
    if |items| <= MAX_LISTED then items else items[..MAX_LISTED]
  }

  /** The item list the command builds: one `ItemLine` per listed item; the
      pass that stops at fifty still casts the fifty-first element first. */
  function ItemList(items: seq<JsonValue>): Result<string> {
    var listing := Lines(Listed(items), ItemLine);
    if listing.Ok? && |items| > MAX_LISTED && !CastsToMap(items[MAX_LISTED]) then Err(CLASS_CAST)
    else listing
  }

  /** A fifty-first element that is not an object fails the whole listing,
      although its line is never built. */
  lemma FiftyFirstIsCast(items: seq<JsonValue>)
    requires |items| > MAX_LISTED && !CastsToMap(items[MAX_LISTED])
    ensures ItemList(items).Err?
    ensures Lines(items[..MAX_LISTED], ItemLine).Ok? ==> ItemList(items) == Err(CLASS_CAST)
  {
  }

  /** Nothing after the fifty-first element is looked at. */
  lemma TailIgnored(items: seq<JsonValue>, rest: seq<JsonValue>)
    requires |items| > MAX_LISTED
    ensures ItemList(items + rest) == ItemList(items)
  {
    assert (items + rest)[..MAX_LISTED] == items[..MAX_LISTED];
    assert (items + rest)[MAX_LISTED] == items[MAX_LISTED];
  }

  /** One more item: its line goes after the others, unless something failed. */
  lemma LinesSnoc(items: seq<JsonValue>, item: JsonValue, line: JsonValue -> Result<string>)
    ensures Lines(items + [item], line) ==
      if Lines(items, line).Err? then Lines(items, line)
      else if line(item).Err? then Err(line(item).error)
      else Ok(Lines(items, line).value + line(item).value)
  {
    assert (items + [item])[..|items|] == items;
  }

  /** Listing is order-preserving: the listing of a concatenation is the
      first part's lines followed by the second part's. */
  lemma {:induction false} LinesAppend(a: seq<JsonValue>, b: seq<JsonValue>, line: JsonValue -> Result<string>)
    requires Lines(a, line).Ok? && Lines(b, line).Ok?
    ensures Lines(a + b, line) == Ok(Lines(a, line).value + Lines(b, line).value)
    decreases |b|
  {
    if |b| == 0 {
      assert a + b == a && Lines(b, line) == Ok("");
      assert Lines(a, line).value + "" == Lines(a, line).value;
    } else {
      var init, last := b[..|b| - 1], b[|b| - 1];
      assert b == init + [last];
      assert a + b == (a + init) + [last];
      LinesSnoc(init, last, line);
      LinesAppend(a, init, line);
      LinesSnoc(a + init, last, line);
      var A, I, L := Lines(a, line).value, Lines(init, line).value, line(last).value;
      assert (A + I) + L == A + (I + L);
    }
  }

  /** Once an item fails, longer prefixes fail with the same error. */
  lemma {:induction false} FailureSticks(items: seq<JsonValue>, i: nat, j: nat, line: JsonValue -> Result<string>)
    requires i <= j <= |items| && Lines(items[..i], line).Err?
    ensures Lines(items[..j], line) == Lines(items[..i], line)
    decreases j - i
  {
    if i < j {
      FailureSticks(items, i, j - 1, line);
      assert items[..j][..j - 1] == items[..j - 1];
    }
  }

  /** The loop ends with the lines of the first `i` items: either all of
      them or the first fifty. */
  lemma ListedPrefix(items: seq<JsonValue>, i: nat)
    requires i <= |items| && i <= MAX_LISTED && (i == |items| || i == MAX_LISTED)
    ensures Listed(items) == items[..i]
  {
  }

  /** A failing item among the first fifty is the listing's failure. */
  lemma FailureIsListed(items: seq<JsonValue>, i: nat)
    requires i < |items| && i < MAX_LISTED && Lines(items[..i + 1], ItemLine).Err?
    ensures ItemList(items) == Lines(items[..i + 1], ItemLine)
  {
    FailureSticks(items, i + 1, |Listed(items)|, ItemLine);
    assert Listed(items) == items[..|Listed(items)|];
  }

  /** The for-each loop with its cast, its `count` and the `break` at fifty. */
  method BuildItemList(items: seq<JsonValue>) returns (r: Result<string>)
    ensures r == ItemList(items)
  {
    var itemList := "";
    var count := 0;
    var i := 0;
    while i < |items|
      invariant 0 <= i <= |items| && count == i && count <= MAX_LISTED
      invariant Lines(items[..i], ItemLine) == Ok(itemList)
      decreases |items| - i
    {
      if !CastsToMap(items[i]) && count >= MAX_LISTED {
        ListedPrefix(items, i);
        return Err(CLASS_CAST);
      }
      if count >= MAX_LISTED {
        break;
      }
      var line := ItemLine(items[i]);
      assert items[..i + 1] == items[..i] + [items[i]];
      LinesSnoc(items[..i], items[i], ItemLine);
      if line.Err? {
        FailureIsListed(items, i);
        return Err(line.error);
      }
      itemList := itemList + line.value;
      count := count + 1;
      i := i + 1;
    }
    ListedPrefix(items, i);
    return Ok(itemList);
  }

  /** Every line holds the fixed format, the name and at least one digit. */
  lemma LineLength(item: JsonValue)
    requires ItemLine(item).Ok?
    ensures |ItemLine(item).value| >= 15 + |ItemName(item.fields).value|
  {
    var name, id := ItemName(item.fields).value, IntToString(ItemId(item.fields).value);
    IntToStringTrimmed(ItemId(item.fields).value);
    assert ItemLine(item).value == "**" + name + "** - ID: `" + id + "`\n";
    assert |"**" + name + "** - ID: `" + id + "`\n"| == 14 + |name| + |id|;
  }

  lemma MulSucc(c: nat, n: nat)
    ensures c * (n + 1) == c * n + c
  {
  }

  lemma LinesLengthStep(init: seq<JsonValue>, last: JsonValue, k: nat)
    requires Lines(init, ItemLine).Ok? && ItemLine(last).Ok? && |ItemName(last.fields).value| >= k
    requires |Lines(init, ItemLine).value| >= (15 + k) * |init|
    ensures Lines(init + [last], ItemLine).Ok?
    ensures |Lines(init + [last], ItemLine).value| >= (15 + k) * (|init| + 1)
  {
    LinesSnoc(init, last, ItemLine);
    LineLength(last);
    MulSucc(15 + k, |init|);
  }

  /** Names of at least `k` characters each make a listing of `n` items at
      least `(15 + k) * n` characters long. */
  lemma {:induction false} LinesLength(items: seq<JsonValue>, k: nat)
    requires Lines(items, ItemLine).Ok?
    requires forall i | 0 <= i < |items| ::
      items[i].JObject? && ItemName(items[i].fields).Ok? && |ItemName(items[i].fields).value| >= k
    ensures |Lines(items, ItemLine).value| >= (15 + k) * |items|
    decreases |items|
  {
    if |items| > 0 {
      var init, last := items[..|items| - 1], items[|items| - 1];
      assert items == init + [last];
      assert forall i | 0 <= i < |init| :: init[i] == items[i];
      LinesSnoc(init, last, ItemLine);
      LinesLength(init, k);
      LinesLengthStep(init, last, k);
    }
  }

  /** Fifty listed items whose names have six characters or more no longer
      fit one embed field. */
  lemma FullListingOverflows(items: seq<JsonValue>)
    requires |items| >= MAX_LISTED && ItemList(items).Ok?
    requires forall i | 0 <= i < MAX_LISTED ::
      items[i].JObject? && ItemName(items[i].fields).Ok? && |ItemName(items[i].fields).value| >= 6
    ensures |ItemList(items).value| > FIELD_VALUE_MAX
  {
    var listed := Listed(items);
    assert |listed| == MAX_LISTED && forall i | 0 <= i < |listed| :: listed[i] == items[i];
    LinesLength(listed, 6);
  }

  function Description(total: int, itemName: string): string {
    "Found " + IntToString(total) + " item(s) matching: **" + itemName + "**"
  }

  /** `execute`: the search request issued (None: no call) and the reply.
      The description counts every item returned, listed or not. */
  method Execute(server: Option<ServerConfig>, itemName: string, apiKey: Result<string>,
                 outcome: Result<JsonObject>) returns (request: Option<ClientRequest>, reply: FindItemReply)
    ensures server.None? ==> request.None? && reply == Error(NOT_SERVER_CHANNEL)
    ensures request.Some? <==> server.Some? && apiKey.Ok?
    ensures server.Some? && apiKey.Err? ==> reply == Escaped(apiKey.error)
    ensures request.Some? ==> request.value == FindItem(NewClient(server.value.GetUrl(), apiKey.value), itemName)
    ensures request.Some? && outcome.Err? ==> reply == Error("Failed to search items: " + outcome.error)
    ensures request.Some? && outcome.Ok? ==>
      match Get(outcome.value, "items")
      case None => reply == Error("No items found matching: " + itemName)
      case Some(JArray(items)) =>
        if |items| == 0 then reply == Error("No items found matching: " + itemName)
        else
          var listing := ItemList(items);
          reply == if listing.Err? then Error("Failed to search items: " + listing.error)
                   else if |listing.value| > FIELD_VALUE_MAX then Error("Failed to search items: " + FIELD_TOO_LONG)
                   else Found(Description(|items|, itemName), listing.value)
      case Some(_) => reply == Error("Failed to search items: " + CLASS_CAST)
  {
    if server.None? {
      return None, Error(NOT_SERVER_CHANNEL);
    }
    if apiKey.Err? {
      return None, Escaped(apiKey.error);
    }
    request := Some(FindItem(NewClient(server.value.GetUrl(), apiKey.value), itemName));
    if outcome.Err? {
      return request, Error("Failed to search items: " + outcome.error);
    }
    var items := Get(outcome.value, "items");
    if items.Some? && !items.value.JArray? {
      return request, Error("Failed to search items: " + CLASS_CAST);
    }
    if items.None? || |items.value.items| == 0 {
      return request, Error("No items found matching: " + itemName);
    }
    var description := Description(|items.value.items|, itemName);
    var itemList := BuildItemList(items.value.items);
    if itemList.Err? {
      return request, Error("Failed to search items: " + itemList.error);
    }
    if |itemList.value| > FIELD_VALUE_MAX {
      return request, Error("Failed to search items: " + FIELD_TOO_LONG);
    }
    reply := Found(description, itemList.value);
  }
}
