/**
 The discovery exchange with the control host (internal/magic/control_discovery.go), and the frame the
 tunnel builds from it (internal/magic/tunnel.go, Dial).
 */
module ControlDiscovery {
  import opened Wrappers
  import opened Decimal
  import opened RelayOpens

  const MODE_WEB2 := 2

  datatype AppRequest = AppRequest(magicUUID: string, targetPort: int, mode: int, sessionName: string)

  datatype AppResponse = AppResponse(
    fields: nat, connectionNumber: int, streamHost: string, controlHost: string,
    targetPort: int, directIP: string, directPort: int, mode: int)

  datatype DiscoveryError =
    | NotApp
    | BadNumber
    | RelayRefused(connectionNumber: int)
    | BadFieldCount(count: nat)
    | BadHost
    | BadPort
    | BadMode
    | BadRequest
    | NotWEB2
    | OpenFrame(error: FrameError)

  // ---- fields of a line ----

  /** strings.Split on a single space: empty fields are kept. */
  function Split(text: string): (fields: seq<string>)
    ensures |fields| > 0
  {
    if text == "" then [""]
    else
      var rest := Split(text[1..]);
      if text[0] == ' ' then [""] + rest else [[text[0]] + rest[0]] + rest[1..]
  }

  function Join(fields: seq<string>): string
    requires |fields| > 0
  {
    if |fields| == 1 then fields[0] else fields[0] + " " + Join(fields[1..])
  }

  function TrimLineEnd(text: string): string {
    if text != "" && text[|text| - 1] in {'\r', '\n'} then TrimLineEnd(text[..|text| - 1]) else text
  }

  predicate Spaceless(field: string) { ' ' !in field }

  lemma {:induction false} SplitField(field: string)
    requires Spaceless(field)
    ensures Split(field) == [field]
  {
    if field == "" {
    } else {
      SplitField(field[1..]);
      assert field == [field[0]] + field[1..];
    }
  }

  lemma {:induction false} SplitFirst(field: string, rest: string)
    requires Spaceless(field)
    ensures Split(field + " " + rest) == [field] + Split(rest)
  {
    var text := field + " " + rest;
    if field == "" {
      assert text[1..] == rest;
    } else {
      SplitFirst(field[1..], rest);
      assert text[1..] == field[1..] + " " + rest;
      assert field == [field[0]] + field[1..];
    }
  }

  /** Splitting inverts joining fields without spaces: a field cannot smuggle in another. */
  lemma {:induction false} SplitJoin(fields: seq<string>)
    requires |fields| > 0 && forall i :: 0 <= i < |fields| ==> Spaceless(fields[i])
    ensures Split(Join(fields)) == fields
  {
    if |fields| == 1 {
      SplitField(fields[0]);
    } else {
      SplitJoin(fields[1..]);
      SplitFirst(fields[0], Join(fields[1..]));
      assert fields == [fields[0]] + fields[1..];
    }
  }

  lemma {:induction false} TrimTerminated(text: string)
    requires text == "" || text[|text| - 1] !in {'\r', '\n'}
    ensures TrimLineEnd(text + "\n") == text
  {
    assert (text + "\n")[..|text|] == text;
  }

  // ---- the request ----

  function MarshalRequest(r: AppRequest): Result<string, FrameError> {
    if !ValidIdentifier(r.magicUUID, 999) then Err(BadMagicUUID)
    else if r.targetPort < 0 || r.targetPort > 99999 then Err(BadTargetPort)
    else if r.mode < 0 || r.mode > 999 then Err(BadVersion)
    else if !ValidIdentifier(r.sessionName, 9999) then Err(BadSessionName)
    else Ok(Join(RequestFields(r)) + "\n")
  }

  function RequestFields(r: AppRequest): seq<string> {
    ["app", r.magicUUID, Itoa(r.targetPort), Itoa(r.mode), r.sessionName]
  }

  lemma DigitsAreSpaceless(s: string)
    requires AllDigits(s)
    ensures Spaceless(s)
  {
  }

  lemma ItoaIsSpaceless(n: int)
    ensures Spaceless(Itoa(n)) && Itoa(n)[|Itoa(n)| - 1] !in {'\r', '\n'}
  {
    var digits := Digits(if n < 0 then -n else n);
    DigitsAreSpaceless(digits);
    assert Itoa(n)[|Itoa(n)| - 1] == digits[|digits| - 1];
    assert IsDigit(digits[|digits| - 1]);
  }

  lemma IdentifierIsSpaceless(value: string, maximum: nat)
    requires ValidIdentifier(value, maximum)
    ensures Spaceless(value) && value[|value| - 1] !in {'\r', '\n'}
  {
    assert Printable(value[|value| - 1]);
  }

  lemma {:induction false} JoinEnd(fields: seq<string>)
    requires |fields| > 0 && fields[|fields| - 1] != ""
    ensures Join(fields) != "" && Join(fields)[|Join(fields)| - 1] == fields[|fields| - 1][|fields[|fields| - 1]| - 1]
  {
    if |fields| == 1 {
    } else {
      JoinEnd(fields[1..]);
    }
  }

  /** What the relay reads off a marshalled request is its five fields and nothing else. */
  lemma RequestCarriesItsFields(r: AppRequest)
    requires MarshalRequest(r).Ok?
    ensures var fields := Split(TrimLineEnd(MarshalRequest(r).value));
            && |fields| == 5 && fields[0] == "app" && fields[1] == r.magicUUID && fields[4] == r.sessionName
            && Atoi(fields[2]) == Some(r.targetPort) && Atoi(fields[3]) == Some(r.mode)
  {
    hide Itoa, Atoi, Join, Split, TrimLineEnd;
    IdentifierIsSpaceless(r.magicUUID, 999);
    IdentifierIsSpaceless(r.sessionName, 9999);
    ItoaIsSpaceless(r.targetPort);
    ItoaIsSpaceless(r.mode);
    AtoiItoa(r.targetPort);
    AtoiItoa(r.mode);
    hide ValidIdentifier;
    SplitJoin(RequestFields(r));
    JoinEnd(RequestFields(r));
    TrimTerminated(Join(RequestFields(r)));
  }

  /** A request prints exactly if each number fits its digits and each name its length. */
  lemma RequestPrintsIff(r: AppRequest)
    ensures MarshalRequest(r).Ok? <==>
              && IsName(r.magicUUID, 999) && 0 <= r.targetPort < 100000 && 0 <= r.mode < 1000
              && IsName(r.sessionName, 9999)
  {
    NameIsIdentifier(r.magicUUID, 999);
    NameIsIdentifier(r.sessionName, 9999);
  }

  // ---- the response ----

  /** strings.EqualFold with "app": no other character folds to a or p. */
  predicate IsApp(field: string) {
    |field| == 3 && field[0] in {'a', 'A'} && field[1] in {'p', 'P'} && field[2] in {'p', 'P'}
  }

  predicate ValidHost(value: string) { ValidIdentifier(value, 253) }

  function ParsePort(field: string): Option<int> {
    var value := Atoi(field);
    if value.None? || value.value < 0 || value.value > 99999 then None else value
  }

  function ParseAppResponse(data: string): Result<AppResponse, DiscoveryError> {
    ParseFields(Split(TrimLineEnd(data)))
  }

  function ParseFields(fields: seq<string>): Result<AppResponse, DiscoveryError> {
    if |fields| < 2 || !IsApp(fields[0]) then Err(NotApp)
    else
      var num := Atoi(fields[1]);
      if num.None? then Err(BadNumber)
      else if num.value <= 0 then Err(RelayRefused(num.value))
      else if |fields| != 4 && |fields| != 8 then Err(BadFieldCount(|fields|))
      else if !ValidHost(fields[2]) || !ValidHost(fields[3]) then Err(BadHost)
      else if |fields| == 4 then Ok(AppResponse(4, num.value, fields[2], fields[3], 0, "", 0, 0))
      else
        var target := ParsePort(fields[4]);
        var direct := ParsePort(fields[6]);
        var mode := Atoi(fields[7]);
        if target.None? || direct.None? then Err(BadPort)
        else if mode.None? then Err(BadMode)
        else if !ValidHost(fields[5]) then Err(BadHost)
        else Ok(AppResponse(8, num.value, fields[2], fields[3], target.value, fields[5], direct.value, mode.value))
  }

  /** The responses the relay can give: four fields, or eight. */
  predicate ValidResponse(r: AppResponse) {
    && 0 < r.connectionNumber <= MAX_INT && ValidHost(r.streamHost) && ValidHost(r.controlHost)
    && if r.fields == 4 then r.targetPort == 0 && r.directIP == "" && r.directPort == 0 && r.mode == 0
       else
         && r.fields == 8 && 0 <= r.targetPort <= 99999 && 0 <= r.directPort <= 99999
         && ValidHost(r.directIP) && MIN_INT <= r.mode <= MAX_INT
  }

  /** How a relay writes a response. */
  function ResponseFields(r: AppResponse): seq<string> {
    var head := ["app", Itoa(r.connectionNumber), r.streamHost, r.controlHost];
    if r.fields == 4 then head else head + [Itoa(r.targetPort), r.directIP, Itoa(r.directPort), Itoa(r.mode)]
  }

  function PrintResponse(r: AppResponse): string { Join(ResponseFields(r)) + "\n" }

  lemma ResponseSplits(r: AppResponse)
    requires ValidResponse(r)
    ensures Split(TrimLineEnd(PrintResponse(r))) == ResponseFields(r)
  {
    IdentifierIsSpaceless(r.streamHost, 253);
    IdentifierIsSpaceless(r.controlHost, 253);
    ItoaIsSpaceless(r.connectionNumber);
    if r.fields == 8 {
      IdentifierIsSpaceless(r.directIP, 253);
      ItoaIsSpaceless(r.targetPort);
      ItoaIsSpaceless(r.directPort);
      ItoaIsSpaceless(r.mode);
    }
    hide Itoa, Join, Split;
    SplitJoin(ResponseFields(r));
    JoinEnd(ResponseFields(r));
    TrimTerminated(Join(ResponseFields(r)));
  }

  /** Printing any valid response and parsing it gives it back. */
  lemma ParsePrintedResponse(r: AppResponse)
    requires ValidResponse(r)
    ensures ParseAppResponse(PrintResponse(r)) == Ok(r)
  {
    ResponseSplits(r);
    AtoiItoa(r.connectionNumber);
    AtoiItoa(r.targetPort);
    AtoiItoa(r.directPort);
    AtoiItoa(r.mode);
    FieldsParse(r);
  }

  lemma FieldsParse(r: AppResponse)
    requires ValidResponse(r)
    requires Atoi(Itoa(r.connectionNumber)) == Some(r.connectionNumber)
    requires Atoi(Itoa(r.targetPort)) == Some(r.targetPort)
    requires Atoi(Itoa(r.directPort)) == Some(r.directPort) && Atoi(Itoa(r.mode)) == Some(r.mode)
    ensures ParseFields(ResponseFields(r)) == Ok(r)
  {
    hide Itoa, Atoi, ValidHost;
    assert IsApp("app");
  }

  /** And nothing but a valid response is ever accepted. */
  lemma ParsedResponseIsValid(data: string)
    requires ParseAppResponse(data).Ok?
    ensures ValidResponse(ParseAppResponse(data).value)
  {
    hide Atoi, Split, TrimLineEnd;
  }

  function LowerCase(c: char): char { if 'A' <= c <= 'Z' then (c as int + 32) as char else c }

  /** An accepted answer says what its fields say, and begins with the keyword in any case. */
  lemma ParsedSaysTheFields(data: string)
    requires ParseAppResponse(data).Ok?
    ensures var fields := Split(TrimLineEnd(data));
            var r := ParseAppResponse(data).value;
            && |fields| == r.fields && (r.fields == 4 || r.fields == 8)
            && |fields[0]| == 3 && [LowerCase(fields[0][0]), LowerCase(fields[0][1]), LowerCase(fields[0][2])] == "app"
            && Atoi(fields[1]) == Some(r.connectionNumber)
            && fields[2] == r.streamHost && fields[3] == r.controlHost
            && (r.fields == 8 ==>
                  && Atoi(fields[4]) == Some(r.targetPort) && fields[5] == r.directIP
                  && Atoi(fields[6]) == Some(r.directPort) && Atoi(fields[7]) == Some(r.mode))
  {
    hide Atoi, Split, TrimLineEnd, ValidHost;
  }

  /** The relay refuses with a number that is not positive, and that is heard before anything else in its answer. */
  lemma RefusalIsHeard(n: int, rest: seq<string>)
    requires MIN_INT <= n <= 0 && forall i :: 0 <= i < |rest| ==> Spaceless(rest[i])
    requires rest != [] ==> rest[|rest| - 1] != "" && rest[|rest| - 1][|rest[|rest| - 1]| - 1] !in {'\r', '\n'}
    ensures ParseAppResponse(Join(["app", Itoa(n)] + rest) + "\n") == Err(RelayRefused(n))
  {
    var fields := ["app", Itoa(n)] + rest;
    ItoaIsSpaceless(n);
    AtoiItoa(n);
    hide Itoa, Atoi, Join, Split, TrimLineEnd;
    SplitJoin(fields);
    JoinEnd(fields);
    TrimTerminated(Join(fields));
    assert IsApp("app");
  }

  /** And nothing else counts as a refusal. */
  lemma OnlyNumbersRefuse(data: string, n: int)
    requires ParseAppResponse(data) == Err(RelayRefused(n))
    ensures n <= 0 && |Split(TrimLineEnd(data))| >= 2 && Atoi(Split(TrimLineEnd(data))[1]) == Some(n)
  {
    hide Atoi, Split, TrimLineEnd, ValidHost;
  }

  // ---- opening a stream ----

  /** The relay-open frame Dial sends after the control host answered `line`. */
  function OpenFrameFor(
      magicUUID: string, targetPort: int, sessionName: string, line: string): Result<string, DiscoveryError> {
    if MarshalRequest(AppRequest(magicUUID, targetPort, MODE_WEB2, sessionName)).Err? then Err(BadRequest)
    else
      var response := ParseAppResponse(line);
      if response.Err? then Err(response.error)
      else if response.value.fields == 8 && response.value.mode != MODE_WEB2 then Err(NotWEB2)
      else
        var target := if response.value.fields == 8 then response.value.targetPort else targetPort;
        var open := Marshal(RelayOpen(2, response.value.connectionNumber, target, magicUUID, sessionName));
        if open.Err? then Err(OpenFrame(open.error)) else Ok(open.value)
  }

  /**
   Once the request marshals and the answer is accepted in WEB2 or short form, only a connection number above
   999 keeps the frame from being built; and the frame says what was asked and answered.
   */
  lemma OpenFrameFailsOnlyOnNumber(magicUUID: string, targetPort: int, sessionName: string, line: string)
    requires MarshalRequest(AppRequest(magicUUID, targetPort, 2, sessionName)).Ok?
    requires ParseAppResponse(line).Ok?
    requires ParseAppResponse(line).value.fields == 8 ==> ParseAppResponse(line).value.mode == 2
    ensures var response := ParseAppResponse(line).value;
            var frame := OpenFrameFor(magicUUID, targetPort, sessionName, line);
            && (frame.Err? <==> response.connectionNumber > 999)
            && (frame.Ok? ==>
                  Parse(frame.value) == Ok(RelayOpen(2, response.connectionNumber,
                                                     if response.fields == 8 then response.targetPort else targetPort,
                                                     magicUUID, sessionName)))
  {
    ParsedResponseIsValid(line);
    var response := ParseAppResponse(line).value;
    var port := if response.fields == 8 then response.targetPort else targetPort;
    var open := RelayOpen(2, response.connectionNumber, port,
                          magicUUID, sessionName);
    hide Parse, Frame;
    if response.connectionNumber <= 999 { ParseMarshal(open); }
  }

  /** A stream is opened exactly if the request prints and the answer is accepted, in WEB2 mode, with a fit number. */
  lemma OpensIff(magicUUID: string, targetPort: int, sessionName: string, line: string)
    ensures var request := MarshalRequest(AppRequest(magicUUID, targetPort, 2, sessionName));
            var response := ParseAppResponse(line);
            var frame := OpenFrameFor(magicUUID, targetPort, sessionName, line);
            && (frame == Err(BadRequest) <== request.Err?)
            && (request.Ok? && response.Err? ==> frame == Err(response.error))
            && (frame.Ok? <==>
                  && request.Ok? && response.Ok? && (response.value.fields == 8 ==> response.value.mode == 2)
                  && response.value.connectionNumber < 1000)
  {
    var response := ParseAppResponse(line);
    hide Parse, Frame, ParseAppResponse, MarshalRequest, Marshal, ValidResponse;
    if MarshalRequest(AppRequest(magicUUID, targetPort, 2, sessionName)).Ok? && response.Ok?
       && (response.value.fields == 8 ==> response.value.mode == 2) {
      OpenFrameFailsOnlyOnNumber(magicUUID, targetPort, sessionName, line);
    }
  }
}
