/**
 * Signal extraction: from the text of an e-mail body to a trade signal, the
 * first half of `process_email_signal`. `json.loads` is a parameter.
 */
module SignalExtraction {
  import opened Outcomes
  import opened PyText

  /** A JSON value, as far as the extractor looks at it: a string, or anything without `.upper()`. */
  datatype JsonValue = JString(text: string) | JOther

  /**
   * The outcome of `json.loads`: an object, some other JSON document, or
   * `JSONDecodeError`. The payload always starts with `{` and ends with `}`
   * (CleanJsonStringSlice), so the real `json.loads` returns an object or
   * raises; `JsonNotObject` arises only for a `loads` that departs from JSON.
   */
  datatype JsonDoc = JsonObject(fields: map<string, JsonValue>) | JsonNotObject | JsonDecodeError

  datatype Direction = Call | Put

  /** A validated signal: the upper-cased symbol and the trade direction. */
  datatype Signal = Signal(symbol: string, direction: Direction)

  /** Why an e-mail body yields no trade. */
  datatype Rejection =
    | NoPayloadFound   // no `{...}` piece in the body, or an empty one
    | MalformedPayload // `json.loads` raised `JSONDecodeError`
    | NotAnObject      // the document has no `.get` (a list, a number, ...)
    | FieldNotText     // "symbol" or "side" is not a string, so `.upper()`/`.capitalize()` raised
    | MissingField     // "symbol" or "side" is missing or empty
    | UnknownSide      // "side" is neither "buy" nor "sell" in any casing

  /** The direction string handed to the brokerage's `buy`. */
  function DirectionName(d: Direction): string {
    match d
    case Call => "call"
    case Put => "put"
  }

  /**
   * `clean_json_string(content)`: the piece from the first `{` to the last `}`,
   * both included; None when either bracket is missing. When the last `}`
   * precedes the first `{` the slice is empty.
   */
  function CleanJsonString(content: string): (r: Option<string>)
    ensures r == None <==> '{' !in content || '}' !in content
  {
    var start := Find(content, '{');
    var end := RFind(content, '}');
    if start != -1 && end != -1 then Some(Slice(content, start, end + 1)) else None
  }

  /**
   * With `i` the first `{` and `j` the last `}`, `clean_json_string` returns
   * `content[i..j+1]`, which starts with `{` and ends with `}`, when `i <= j`,
   * and the empty string otherwise.
   */
  lemma CleanJsonStringSlice(content: string, i: nat, j: nat)
    requires i < |content| && content[i] == '{' && '{' !in content[..i]
    requires j < |content| && content[j] == '}' && '}' !in content[j + 1..]
    ensures i <= j ==> CleanJsonString(content) == Some(content[i..j + 1])
    ensures i <= j ==> content[i..j + 1][0] == '{' && content[i..j + 1][j - i] == '}'
    ensures j < i ==> CleanJsonString(content) == Some([])
  {
  }

  /**
   * `clean_json_string` returns a non-empty payload exactly when some `{`
   * comes before some `}`.
   */
  lemma PayloadPresentIff(content: string)
    ensures (CleanJsonString(content).Some? && CleanJsonString(content).value != [])
        <==> exists i, j :: 0 <= i < j < |content| && content[i] == '{' && content[j] == '}'
  {
    var start := Find(content, '{');
    var end := RFind(content, '}');
    if exists i, j :: 0 <= i < j < |content| && content[i] == '{' && content[j] == '}' {
      var i, j :| 0 <= i < j < |content| && content[i] == '{' && content[j] == '}';
    }
  }

  /** `data.get(key, "")` followed by a string method: the text, or a rejection when it is not a string. */
  function TextField(fields: map<string, JsonValue>, key: string): Result<string, Rejection> {
    if key !in fields then Ok("")
    else
      match fields[key]
      case JString(s) => Ok(s)
      case JOther => Err(FieldNotText)
  }

  /** Lines 20-39 of `process_email_signal`: the validated signal, or why there is none. */
  function ExtractSignal(content: string, loads: string -> JsonDoc): Result<Signal, Rejection> {
    match CleanJsonString(content)
    case None => Err(NoPayloadFound)
    case Some(payload) =>
      if payload == [] then Err(NoPayloadFound)
      else
        match loads(payload)
        case JsonDecodeError => Err(MalformedPayload)
        case JsonNotObject => Err(NotAnObject)
        case JsonObject(fields) =>
          match TextField(fields, "symbol")
          case Err(e) => Err(e)
          case Ok(rawSymbol) =>
            match TextField(fields, "side")
            case Err(e) => Err(e)
            case Ok(rawSide) => Classify(rawSymbol, rawSide)
  }

  /** Lines 27-39: upper-case the symbol, capitalize the side, and map the side to a direction. */
  function Classify(rawSymbol: string, rawSide: string): Result<Signal, Rejection> {
    var symbol := Upper(rawSymbol);
    var side := Capitalize(rawSide);
    if symbol == [] || side == [] then Err(MissingField)
    else if side == "Buy" then Ok(Signal(symbol, Call))
    else if side == "Sell" then Ok(Signal(symbol, Put))
    else Err(UnknownSide)
  }

  /** On a parsed object with string fields, extraction is the classification of those fields. */
  lemma ExtractSignalOfObject(content: string, loads: string -> JsonDoc, rawSymbol: string, rawSide: string)
    requires CleanJsonString(content).Some? && CleanJsonString(content).value != []
    requires loads(CleanJsonString(content).value).JsonObject?
    requires var fields := loads(CleanJsonString(content).value).fields;
      TextField(fields, "symbol") == Ok(rawSymbol) && TextField(fields, "side") == Ok(rawSide)
    ensures ExtractSignal(content, loads) == Classify(rawSymbol, rawSide)
  {
  }

  /**
   * The classification: an empty symbol or side is MissingField; otherwise a
   * call exactly when side is "buy" in some casing, a put exactly when it is
   * "sell" in some casing, and UnknownSide for every other side.
   */
  lemma ClassifySide(rawSymbol: string, rawSide: string)
    ensures rawSymbol == [] || rawSide == [] ==> Classify(rawSymbol, rawSide) == Err(MissingField)
    ensures rawSymbol != [] && rawSide != [] ==>
      && (Classify(rawSymbol, rawSide) == Ok(Signal(Upper(rawSymbol), Call)) <==> Lower(rawSide) == "buy")
      && (Classify(rawSymbol, rawSide) == Ok(Signal(Upper(rawSymbol), Put)) <==> Lower(rawSide) == "sell")
      && (Classify(rawSymbol, rawSide) == Err(UnknownSide) <==> Lower(rawSide) != "buy" && Lower(rawSide) != "sell")
  {
    CapitalizeMatchesIgnoringCase(rawSide, "Buy");
    CapitalizeMatchesIgnoringCase(rawSide, "Sell");
    assert Lower("Buy") == "buy";
    assert Lower("Sell") == "sell";
  }

  /** A body without both brackets is rejected as having no payload, whatever `json.loads` would do. */
  lemma NoBracketsNoPayload(content: string, loads: string -> JsonDoc)
    requires '{' !in content || '}' !in content
    ensures ExtractSignal(content, loads) == Err(NoPayloadFound)
  {
  }

  /**
   * The decision on a parsed object with string fields "symbol" and "side"
   * (absent fields read as ""): missing or empty either one is MissingField;
   * otherwise the signal carries the upper-cased symbol and is a call exactly
   * when side is "buy" in some casing, a put exactly when it is "sell" in some
   * casing, and UnknownSide for any other side.
   */
  lemma SignalFromObject(content: string, loads: string -> JsonDoc, rawSymbol: string, rawSide: string)
    requires CleanJsonString(content).Some? && CleanJsonString(content).value != []
    requires loads(CleanJsonString(content).value).JsonObject?
    requires var fields := loads(CleanJsonString(content).value).fields;
      TextField(fields, "symbol") == Ok(rawSymbol) && TextField(fields, "side") == Ok(rawSide)
    ensures rawSymbol == [] || rawSide == [] ==> ExtractSignal(content, loads) == Err(MissingField)
    ensures rawSymbol != [] && rawSide != [] ==>
      && (ExtractSignal(content, loads) == Ok(Signal(Upper(rawSymbol), Call)) <==> Lower(rawSide) == "buy")
      && (ExtractSignal(content, loads) == Ok(Signal(Upper(rawSymbol), Put)) <==> Lower(rawSide) == "sell")
      && (ExtractSignal(content, loads) == Err(UnknownSide) <==> Lower(rawSide) != "buy" && Lower(rawSide) != "sell")
  {
    ExtractSignalOfObject(content, loads, rawSymbol, rawSide);
    ClassifySide(rawSymbol, rawSide);
  }

  /**
   * An accepted signal came from a non-empty payload that parsed to an object
   * whose "symbol" is a non-empty string, upper-cased into the signal, and
   * whose "side" is "buy" (for a call) or "sell" (for a put) in some casing.
   */
  lemma AcceptedSignal(content: string, loads: string -> JsonDoc)
    requires ExtractSignal(content, loads).Ok?
    ensures CleanJsonString(content).Some? && CleanJsonString(content).value != []
    ensures loads(CleanJsonString(content).value).JsonObject?
    ensures var fields := loads(CleanJsonString(content).value).fields;
      && "symbol" in fields && fields["symbol"].JString?
      && "side" in fields && fields["side"].JString?
      && var signal := ExtractSignal(content, loads).value;
      && signal.symbol == Upper(fields["symbol"].text) && signal.symbol != []
      && (signal.direction == Call <==> Lower(fields["side"].text) == "buy")
      && (signal.direction == Put <==> Lower(fields["side"].text) == "sell")
  {
    var fields := loads(CleanJsonString(content).value).fields;
    var rawSymbol := TextField(fields, "symbol").value;
    var rawSide := TextField(fields, "side").value;
    SignalFromObject(content, loads, rawSymbol, rawSide);
  }
}
