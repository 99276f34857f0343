/** The plaintext frame that opens a relay stream (internal/magic/relay_open.go). */
module RelayOpens {
  import opened Wrappers
  import opened Decimal

  datatype RelayOpen = RelayOpen(version: int, connectionNumber: int, targetPort: int, magicUUID: string,
      sessionName: string)

  datatype FrameError = BadVersion | BadConnectionNumber | BadTargetPort | BadMagicUUID | BadSessionName | Truncated

  /** Printable and not a space. Anything else, multi-byte characters included, is refused. */
  predicate Printable(c: char) { '!' <= c <= '~' }

  predicate ValidIdentifier(value: string, maximum: nat) {
    0 < |value| <= maximum && forall i :: 0 <= i < |value| ==> Printable(value[i])
  }

  predicate Valid(f: RelayOpen) {
    && 0 <= f.version <= 999 && 0 <= f.connectionNumber <= 999 && 0 <= f.targetPort <= 99999
    && ValidIdentifier(f.magicUUID, 999) && ValidIdentifier(f.sessionName, 9999)
  }

  function Marshal(f: RelayOpen): Result<string, FrameError> {
    if f.version < 0 || f.version > 999 then Err(BadVersion)
    else if f.connectionNumber < 0 || f.connectionNumber > 999 then Err(BadConnectionNumber)
    else if f.targetPort < 0 || f.targetPort > 99999 then Err(BadTargetPort)
    else if !ValidIdentifier(f.magicUUID, 999) then Err(BadMagicUUID)
    else if !ValidIdentifier(f.sessionName, 9999) then Err(BadSessionName)
    else
      Ok(Frame(Pad(f.version, 3), Pad(f.connectionNumber, 3), Pad(f.targetPort, 5),
               Pad(|f.magicUUID|, 3), f.magicUUID, Pad(|f.sessionName|, 4), f.sessionName))
  }

  function Frame(
      version: string, connection: string, target: string, uuidLength: string, uuid: string, nameLength: string,
      name: string): string {
    "v" + version + " " + connection + " " + target + " " + uuidLength + " " + uuid + " " + nameLength + " " + name
  }

  function FixedDecimal(data: string, offset: nat, width: nat): Option<nat> {
    if offset + width > |data| || !AllDigits(data[offset..offset + width]) then None
    else Some(Value(data[offset..offset + width]))
  }

  function Parse(data: string): Result<RelayOpen, FrameError> {
    if |data| < 24 || data[0] != 'v' then Err(Truncated)
    else
      var version := FixedDecimal(data, 1, 3);
      if version.None? || data[4] != ' ' then Err(BadVersion)
      else
        var connection := FixedDecimal(data, 5, 3);
        if connection.None? || data[8] != ' ' then Err(BadConnectionNumber)
        else
          var target := FixedDecimal(data, 9, 5);
          if target.None? || data[14] != ' ' then Err(BadTargetPort)
          else
            var uuidLength := FixedDecimal(data, 15, 3);
            if uuidLength.None? || data[18] != ' ' then Err(BadMagicUUID)
            else
              ParseNames(data, version.value, connection.value, target.value, 19 + uuidLength.value)
  }

  function ParseNames(
      data: string, version: nat, connection: nat, target: nat, uuidEnd: nat): Result<RelayOpen, FrameError>
    requires uuidEnd >= 19
  {
    if uuidEnd + 6 > |data| || data[uuidEnd] != ' ' then Err(Truncated)
    else
      var nameLength := FixedDecimal(data, uuidEnd + 1, 4);
      if nameLength.None? || data[uuidEnd + 5] != ' ' then Err(BadSessionName)
      else if uuidEnd + 6 + nameLength.value != |data| then Err(Truncated)
      else
        var result := RelayOpen(version, connection, target, data[19..uuidEnd], data[uuidEnd + 6..]);
        if !ValidIdentifier(result.magicUUID, 999) then Err(BadMagicUUID)
        else if !ValidIdentifier(result.sessionName, 9999) then Err(BadSessionName)
        else Ok(result)
  }

  // ---- the layout ----

  /** The fixed part of a frame, up to the identifier. */
  lemma HeadLayout(version: string, connection: string, target: string, uuidLength: string)
    requires |version| == 3 && |connection| == 3 && |target| == 5 && |uuidLength| == 3
    ensures var head := "v" + version + " " + connection + " " + target + " " + uuidLength + " ";
            && |head| == 19 && head[0] == 'v' && head[4] == head[8] == head[14] == head[18] == ' '
            && head[1..4] == version && head[5..8] == connection && head[9..14] == target && head[15..18] == uuidLength
  {
  }

  /** The rest of it, after a head of 19 characters. */
  lemma TailLayout(head: string, uuid: string, nameLength: string, name: string)
    requires |head| == 19 && |nameLength| == 4
    ensures var data := head + uuid + " " + nameLength + " " + name;
            var end := 19 + |uuid|;
            && |data| == end + 6 + |name| && data[..19] == head
            && data[end] == data[end + 5] == ' '
            && data[19..end] == uuid && data[end + 1..end + 5] == nameLength && data[end + 6..] == name
  {
  }

  /** Where each field of a frame with correct field widths is. */
  lemma FrameLayout(
      version: string, connection: string, target: string, uuidLength: string, uuid: string, nameLength: string,
      name: string)
    requires |version| == 3 && |connection| == 3 && |target| == 5 && |uuidLength| == 3 && |nameLength| == 4
    ensures var data := Frame(version, connection, target, uuidLength, uuid, nameLength, name);
            var end := 19 + |uuid|;
            && |data| == end + 6 + |name|
            && data[0] == 'v' && data[4] == data[8] == data[14] == data[18] == data[end] == data[end + 5] == ' '
            && data[1..4] == version && data[5..8] == connection && data[9..14] == target && data[15..18] == uuidLength
            && data[19..end] == uuid && data[end + 1..end + 5] == nameLength && data[end + 6..] == name
  {
    var head := "v" + version + " " + connection + " " + target + " " + uuidLength + " ";
    var data := Frame(version, connection, target, uuidLength, uuid, nameLength, name);
    assert data == head + uuid + " " + nameLength + " " + name;
    hide Frame;
    HeadLayout(version, connection, target, uuidLength);
    TailLayout(head, uuid, nameLength, name);
    HeadOfFrame(data, head);
  }

  lemma HeadOfFrame(data: string, head: string)
    requires |head| == 19 <= |data| && data[..19] == head
    ensures data[0] == head[0] && data[4] == head[4] && data[8] == head[8] && data[14] == head[14]
    ensures data[18] == head[18]
    ensures data[1..4] == head[1..4] && data[5..8] == head[5..8] && data[9..14] == head[9..14]
    ensures data[15..18] == head[15..18]
  {
    assert forall i :: 0 <= i < 19 ==> data[i] == head[i];
  }

  /** A text with the separators in their places is the frame of its fields. */
  lemma LayoutIsFrame(data: string, end: nat)
    requires 19 <= end && end + 6 <= |data|
    requires data[0] == 'v' && data[4] == data[8] == data[14] == data[18] == data[end] == data[end + 5] == ' '
    ensures data == Frame(
              data[1..4], data[5..8], data[9..14], data[15..18], data[19..end], data[end + 1..end + 5],
              data[end + 6..])
  {
  }

  lemma PowersOfTen()
    ensures Pow10(3) == 1000 && Pow10(4) == 10000 && Pow10(5) == 100000
  {
    assert Pow10(1) == 10 && Pow10(2) == 100 && Pow10(3) == 1000 && Pow10(4) == 10000;
  }

  lemma MarshalSucceedsIff(f: RelayOpen)
    ensures Marshal(f).Ok? <==> Valid(f)
  {
  }

  /** A name of 1 to `most` characters, all of them printable and none a space. */
  predicate IsName(value: string, most: nat) {
    1 <= |value| && |value| <= most && forall c :: c in value ==> 33 <= c as int <= 126
  }

  /** A value prints exactly if each number fits its digits and each name its length. */
  lemma PrintsIff(f: RelayOpen)
    ensures Marshal(f).Ok? <==>
              && 0 <= f.version < 1000 && 0 <= f.connectionNumber < 1000 && 0 <= f.targetPort < 100000
              && IsName(f.magicUUID, 999) && IsName(f.sessionName, 9999)
  {
    NameIsIdentifier(f.magicUUID, 999);
    NameIsIdentifier(f.sessionName, 9999);
  }

  lemma NameIsIdentifier(value: string, most: nat)
    ensures IsName(value, most) <==> ValidIdentifier(value, most)
  {
    assert forall i :: 0 <= i < |value| ==> value[i] in value;
  }

  /** The digits of `data` from `start` on, `width` of them, say `n`. */
  predicate SaysAt(data: string, start: nat, width: nat, n: int) {
    start + width <= |data| && AllDigits(data[start..start + width]) && Value(data[start..start + width]) == n
  }

  /** What a printed value looks like: each field at its place, in its width, with one space between. */
  lemma PrintedLayout(f: RelayOpen)
    requires Marshal(f).Ok?
    ensures var data := Marshal(f).value;
            var end := 19 + |f.magicUUID|;
            && |data| == end + 6 + |f.sessionName| && data[0] == 'v'
            && data[4] == data[8] == data[14] == data[18] == data[end] == data[end + 5] == ' '
            && SaysAt(data, 1, 3, f.version) && SaysAt(data, 5, 3, f.connectionNumber)
            && SaysAt(data, 9, 5, f.targetPort) && SaysAt(data, 15, 3, |f.magicUUID|)
            && data[19..end] == f.magicUUID && SaysAt(data, end + 1, 4, |f.sessionName|)
            && data[end + 6..] == f.sessionName
  {
    hide Frame;
    PowersOfTen();
    FrameLayout(Pad(f.version, 3), Pad(f.connectionNumber, 3), Pad(f.targetPort, 5),
                Pad(|f.magicUUID|, 3), f.magicUUID, Pad(|f.sessionName|, 4), f.sessionName);
    PadValue(f.version, 3);
    PadValue(f.connectionNumber, 3);
    PadValue(f.targetPort, 5);
    PadValue(|f.magicUUID|, 3);
    PadValue(|f.sessionName|, 4);
    hide Pad, Value, AllDigits;
  }

  /** Every valid value parses back from what it prints to. */
  lemma ParseMarshal(f: RelayOpen)
    requires Marshal(f).Ok?
    ensures Parse(Marshal(f).value) == Ok(f)
  {
    var data := Marshal(f).value;
    hide Frame;
    PowersOfTen();
    FrameLayout(Pad(f.version, 3), Pad(f.connectionNumber, 3), Pad(f.targetPort, 5),
                Pad(|f.magicUUID|, 3), f.magicUUID, Pad(|f.sessionName|, 4), f.sessionName);
    PadValue(f.version, 3);
    PadValue(f.connectionNumber, 3);
    PadValue(f.targetPort, 5);
    PadValue(|f.magicUUID|, 3);
    PadValue(|f.sessionName|, 4);
    hide Pad, Value;
    assert Parse(data) == ParseNames(data, f.version, f.connectionNumber, f.targetPort, 19 + |f.magicUUID|);
  }

  /** Every accepted frame reprints to the same bytes. */
  lemma MarshalParse(data: string)
    requires Parse(data).Ok?
    ensures Marshal(Parse(data).value) == Ok(data)
  {
    var f := Parse(data).value;
    var end := 19 + FixedDecimal(data, 15, 3).value;
    PowersOfTen();
    LayoutIsFrame(data, end);
    hide Frame;
    ValuePad(data[1..4]);
    ValuePad(data[5..8]);
    ValuePad(data[9..14]);
    ValuePad(data[15..18]);
    ValuePad(data[end + 1..end + 5]);
  }

  /** Exactly the texts that valid values print to are accepted. */
  lemma AcceptedAreThePrinted(data: string)
    ensures Parse(data).Ok? <==> exists f :: Valid(f) && Marshal(f) == Ok(data)
  {
    hide Parse, Valid, Marshal;
    if Parse(data).Ok? {
      MarshalParse(data);
      MarshalSucceedsIff(Parse(data).value);
    }
    forall f | Valid(f) && Marshal(f) == Ok(data) ensures Parse(data).Ok? { ParseMarshal(f); }
  }

  /** A frame ends where its own lengths say: frame plus ciphertext splits in only one way. */
  lemma FramesDelimitThemselves(f: RelayOpen, g: RelayOpen, afterF: string, afterG: string)
    requires Marshal(f).Ok? && Marshal(g).Ok?
    requires Marshal(f).value + afterF == Marshal(g).value + afterG
    ensures f == g && afterF == afterG
  {
    var a, b := Marshal(f).value, Marshal(g).value;
    var whole := a + afterF;
    SameLength(f, g, whole);
    assert a == whole[..|a|] && b == whole[..|b|];
    assert afterF == whole[|a|..] && afterG == whole[|b|..];
    ParseMarshal(f);
    ParseMarshal(g);
  }

  lemma SameLength(f: RelayOpen, g: RelayOpen, whole: string)
    requires Marshal(f).Ok? && Marshal(g).Ok?
    requires Marshal(f).value <= whole && Marshal(g).value <= whole
    ensures |Marshal(f).value| == |Marshal(g).value|
  {
    hide Marshal, Pad, Frame;
    PowersOfTen();
    LengthsAt(f, whole);
    LengthsAt(g, whole);
    PadValue(|f.magicUUID|, 3);
    PadValue(|g.magicUUID|, 3);
    PadValue(|f.sessionName|, 4);
    PadValue(|g.sessionName|, 4);
  }

  lemma LengthsAt(f: RelayOpen, whole: string)
    requires Marshal(f).Ok? && Marshal(f).value <= whole
    ensures var end := 19 + |f.magicUUID|;
            && |f.magicUUID| <= 999 && |f.sessionName| <= 9999
            && |Marshal(f).value| == end + 6 + |f.sessionName| <= |whole|
            && whole[15..18] == Pad(|f.magicUUID|, 3)
            && whole[end + 1..end + 5] == Pad(|f.sessionName|, 4)
  {
    FrameLayout(Pad(f.version, 3), Pad(f.connectionNumber, 3), Pad(f.targetPort, 5),
                Pad(|f.magicUUID|, 3), f.magicUUID, Pad(|f.sessionName|, 4), f.sessionName);
    hide Frame, Pad;
    var data, end := Marshal(f).value, 19 + |f.magicUUID|;
    assert data == whole[..|data|];
    assert data[15..18] == whole[15..18] && data[end + 1..end + 5] == whole[end + 1..end + 5];
  }
}
