/** The SPL transfer message signed for devnet payments, and a reader for its layout. */
module SolanaWire {
  import opened Numerals
  import opened Results
  import opened Base58

  type Bytes = seq<Byte>

  datatype WireError = CompactOutOfRange | MissingBlockhash | BadKey(cause: DecodeError) | AmountOverflow

  // ----- Compact integers: unsigned LEB128, section 7.6 of the DWARF 5 standard

  const COMPACT_LIMIT: nat := 0x1_0000_0000

  function Leb128(n: nat): Bytes {
    if n < 128 then [n] else [n % 128 + 128] + Leb128(n / 128)
  }

  /** A reader for one unsigned LEB128 number, giving the number and what follows it. */
  function ReadLeb128(input: Bytes): Option<(nat, Bytes)> {
    if input == [] then None
    else if input[0] < 128 then Some((input[0], input[1..]))
    else
      match ReadLeb128(input[1..])
      case None => None
      case Some((high, rest)) => Some((input[0] - 128 + 128 * high, rest))
  }

  method CompactU16(value: int) returns (r: Result<Bytes, WireError>)
    ensures r == if 0 <= value < COMPACT_LIMIT then Success(Leb128(value)) else Failure(CompactOutOfRange)
  {
    if value < 0 || value >= COMPACT_LIMIT {
      return Failure(CompactOutOfRange);
    }
    var output: Bytes := [];
    var remaining: nat := value;
    while true
      invariant output + Leb128(remaining) == Leb128(value)
      decreases remaining
    {
      var digit := remaining % 128;
      ghost var before := remaining;
      remaining := remaining / 128;
      if remaining > 0 {
        output := output + [digit + 128];
        assert output + Leb128(remaining) == output[..|output| - 1] + Leb128(before);
      } else {
        output := output + [digit];
        return Success(output);
      }
    }
  }

  /** The reader inverts the encoder whatever bytes follow. */
  lemma {:induction false} ReadAfterLeb128(n: nat, rest: Bytes)
    ensures ReadLeb128(Leb128(n) + rest) == Some((n, rest))
  {
    if n < 128 {
      assert ([n as Byte] + rest)[1..] == rest;
    } else {
      ReadAfterLeb128(n / 128, rest);
      assert (Leb128(n) + rest)[1..] == Leb128(n / 128) + rest;
    }
  }

  /** No encoding is a proper prefix of another. */
  lemma Leb128PrefixFree(m: nat, n: nat)
    ensures Leb128(m) <= Leb128(n) <==> m == n
  {
    if Leb128(m) <= Leb128(n) {
      var tail := Leb128(n)[|Leb128(m)|..];
      assert Leb128(n) == Leb128(m) + tail == Leb128(n) + [];
      ReadAfterLeb128(m, tail);
      ReadAfterLeb128(n, []);
    }
  }

  /** k bytes are enough exactly for the numbers below 128^k. */
  lemma {:induction false} Leb128Length(n: nat, k: nat)
    requires k >= 1
    ensures |Leb128(n)| <= k <==> n < Pow(128, k)
  {
    if k == 1 {
      assert Pow(128, 1) == 128 * Pow(128, 0);
      if n >= 128 {
        assert |Leb128(n / 128)| >= 1;
      }
    } else if n < 128 {
      PowMonotone(128, 1, k);
      assert Pow(128, 1) == 128 * Pow(128, 0);
    } else {
      Leb128Length(n / 128, k - 1);
      assert n / 128 < Pow(128, k - 1) <==> n < 128 * Pow(128, k - 1);
    }
  }

  /** Everything CompactU16 accepts takes one to five bytes. */
  lemma CompactSize(n: nat)
    requires n < COMPACT_LIMIT
    ensures 1 <= |Leb128(n)| <= 5
  {
    assert Pow(128, 3) == 2097152;
    assert Pow(128, 5) == 128 * (128 * Pow(128, 3));
    Leb128Length(n, 5);
  }

  // ----- Little-endian amounts

  function LittleEndian(n: nat, width: nat): (s: Bytes)
    ensures |s| == width
  {
    if width == 0 then [] else [n % 256] + LittleEndian(n / 256, width - 1)
  }

  function FromLittleEndian(s: Bytes): nat {
    if s == [] then 0 else s[0] + 256 * FromLittleEndian(s[1..])
  }

  lemma {:induction false} LittleEndianRoundTrip(n: nat, width: nat)
    requires n < Pow(256, width)
    ensures FromLittleEndian(LittleEndian(n, width)) == n
  {
    if width > 0 {
      LittleEndianRoundTrip(n / 256, width - 1);
      assert LittleEndian(n, width)[1..] == LittleEndian(n / 256, width - 1);
    }
  }

  // ----- The transfer message

  const AMOUNT_LIMIT: nat := 0x1_0000_0000_0000_0000

  /** What a devnet request contributes to the message; absent optional accounts are read as "". */
  datatype Transfer = Transfer(
    walletPublicKey: string,
    sourceTokenAccount: Option<string>,
    recipientTokenAccount: Option<string>,
    programId: string,
    recentBlockhash: Option<string>,
    amountUnits: nat)

  function OrEmpty(s: Option<string>): string {
    if s.Some? then s.value else ""
  }

  function Key(text: string): (r: Result<Bytes, WireError>)
    ensures r.Success? ==> |r.value| == KEY_BYTES && DecodeText(text) == Success(r.value)
  {
    match DecodeKey(text)
    case Success(raw) => Success(raw)
    case Failure(e) => Failure(BadKey(e))
  }

  function BuildMessage(t: Transfer): Result<Bytes, WireError> {
    if OrEmpty(t.recentBlockhash) == "" then Failure(MissingBlockhash)
    else
      var wallet :- Key(t.walletPublicKey);
      var source :- Key(OrEmpty(t.sourceTokenAccount));
      var recipient :- Key(OrEmpty(t.recipientTokenAccount));
      var program :- Key(t.programId);
      if t.amountUnits >= AMOUNT_LIMIT then Failure(AmountOverflow)
      else
        var instruction: Bytes := [3] + LittleEndian(t.amountUnits, 8);
        var accountIndices: Bytes := [1, 2, 0];
        var compiled := [3] + Leb128(|accountIndices|) + accountIndices + Leb128(|instruction|) + instruction;
        var blockhash :- Key(OrEmpty(t.recentBlockhash));
        Success([1, 0, 1] + Leb128(4) + wallet + source + recipient + program + blockhash + Leb128(1) + compiled)
  }

  // ----- A reader for the layout, written from the format and not from the builder

  datatype Instruction = Instruction(program: Byte, accounts: Bytes, data: Bytes)
  datatype Message = Message(header: Bytes, keys: seq<Bytes>, blockhash: Bytes, instructions: seq<Instruction>)

  function Take(n: nat, input: Bytes): Option<(Bytes, Bytes)> {
    if |input| < n then None else Some((input[..n], input[n..]))
  }

  function ReadCounted(input: Bytes): Option<(Bytes, Bytes)> {
    match ReadLeb128(input)
    case None => None
    case Some((n, rest)) => Take(n, rest)
  }

  function ReadKeys(n: nat, input: Bytes): Option<(seq<Bytes>, Bytes)> {
    if n == 0 then Some(([], input))
    else
      match Take(KEY_BYTES, input)
      case None => None
      case Some((key, rest)) =>
        match ReadKeys(n - 1, rest)
        case None => None
        case Some((keys, rest')) => Some(([key] + keys, rest'))
  }

  function ReadInstructions(n: nat, input: Bytes): Option<(seq<Instruction>, Bytes)> {
    if n == 0 then Some(([], input))
    else if input == [] then None
    else
      match ReadCounted(input[1..])
      case None => None
      case Some((accounts, rest)) =>
        match ReadCounted(rest)
        case None => None
        case Some((data, rest')) =>
          match ReadInstructions(n - 1, rest')
          case None => None
          case Some((more, rest'')) => Some(([Instruction(input[0], accounts, data)] + more, rest''))
  }

  function ReadMessage(input: Bytes): Option<Message> {
    match Take(3, input)
    case None => None
    case Some((header, r0)) =>
      match ReadLeb128(r0)
      case None => None
      case Some((keyCount, r1)) =>
        match ReadKeys(keyCount, r1)
        case None => None
        case Some((keys, r2)) =>
          match Take(KEY_BYTES, r2)
          case None => None
          case Some((blockhash, r3)) =>
            match ReadLeb128(r3)
            case None => None
            case Some((count, r4)) =>
              match ReadInstructions(count, r4)
              case None => None
              case Some((instructions, r5)) =>
                if r5 == [] then Some(Message(header, keys, blockhash, instructions)) else None
  }

  lemma TakeConcat(a: Bytes, rest: Bytes)
    ensures Take(|a|, a + rest) == Some((a, rest))
  {
  }

  lemma {:induction false} ReadKeysOf(keys: seq<Bytes>, rest: Bytes)
    requires forall k :: 0 <= k < |keys| ==> |keys[k]| == KEY_BYTES
    ensures ReadKeys(|keys|, Flatten(keys) + rest) == Some((keys, rest))
  {
    if keys != [] {
      assert Flatten(keys) + rest == keys[0] + (Flatten(keys[1..]) + rest);
      TakeConcat(keys[0], Flatten(keys[1..]) + rest);
      ReadKeysOf(keys[1..], rest);
      assert [keys[0]] + keys[1..] == keys;
    } else {
      assert Flatten(keys) + rest == rest;
    }
  }

  function Flatten(keys: seq<Bytes>): Bytes {
    if keys == [] then [] else keys[0] + Flatten(keys[1..])
  }

  lemma ReadCountedOf(a: Bytes, rest: Bytes)
    ensures ReadCounted(Leb128(|a|) + (a + rest)) == Some((a, rest))
  {
    ReadAfterLeb128(|a|, a + rest);
    TakeConcat(a, rest);
  }

  function Layout(m: Message): Bytes
    requires |m.instructions| == 1
  {
    m.header + (Leb128(|m.keys|)
                + (Flatten(m.keys) + (m.blockhash + (Leb128(1) + InstructionBytes(m.instructions[0])))))
  }

  function InstructionBytes(i: Instruction): Bytes {
    [i.program] + (Leb128(|i.accounts|) + (i.accounts + (Leb128(|i.data|) + (i.data + []))))
  }

  lemma ReadInstructionOf(i: Instruction)
    ensures ReadInstructions(1, InstructionBytes(i)) == Some(([i], []))
  {
    var tail := Leb128(|i.data|) + (i.data + []);
    assert InstructionBytes(i)[1..] == Leb128(|i.accounts|) + (i.accounts + tail);
    ReadCountedOf(i.accounts, tail);
    ReadCountedOf(i.data, []);
    assert ReadInstructions(0, []) == Some(([], []));
    assert [i] + [] == [i];
  }

  lemma ReadLayout(m: Message)
    requires |m.header| == 3 && |m.blockhash| == KEY_BYTES && |m.instructions| == 1
    requires forall k :: 0 <= k < |m.keys| ==> |m.keys[k]| == KEY_BYTES
    ensures ReadMessage(Layout(m)) == Some(m)
  {
    var r4 := InstructionBytes(m.instructions[0]);
    var r3 := Leb128(1) + r4;
    var r2 := m.blockhash + r3;
    var r1 := Flatten(m.keys) + r2;
    TakeConcat(m.header, Leb128(|m.keys|) + r1);
    ReadAfterLeb128(|m.keys|, r1);
    ReadKeysOf(m.keys, r2);
    TakeConcat(m.blockhash, r3);
    ReadAfterLeb128(1, r4);
    ReadInstructionOf(m.instructions[0]);
    assert [m.instructions[0]] == m.instructions;
  }

  /** The message a transfer stands for, once its keys are decoded. */
  predicate Describes(m: Message, t: Transfer) {
    && m.header == [1, 0, 1]
    && |m.keys| == 4
    && DecodeText(t.walletPublicKey) == Success(m.keys[0])
    && DecodeText(OrEmpty(t.sourceTokenAccount)) == Success(m.keys[1])
    && DecodeText(OrEmpty(t.recipientTokenAccount)) == Success(m.keys[2])
    && DecodeText(t.programId) == Success(m.keys[3])
    && DecodeText(OrEmpty(t.recentBlockhash)) == Success(m.blockhash)
    && |m.instructions| == 1
    && m.instructions[0].program == 3 && m.instructions[0].accounts == [1, 2, 0]
    && |m.instructions[0].data| == 9 && m.instructions[0].data[0] == 3
    && FromLittleEndian(m.instructions[0].data[1..]) == t.amountUnits
  }

  predicate KeysDecode(t: Transfer) {
    && Key(t.walletPublicKey).Success? && Key(OrEmpty(t.sourceTokenAccount)).Success?
    && Key(OrEmpty(t.recipientTokenAccount)).Success? && Key(t.programId).Success?
    && Key(OrEmpty(t.recentBlockhash)).Success?
  }

  lemma BuiltFromKeys(t: Transfer)
    requires BuildMessage(t).Success?
    ensures KeysDecode(t) && t.amountUnits < AMOUNT_LIMIT
  {
  }

  predicate WellSized(m: Message) {
    && |m.keys| == 4 && |m.instructions| == 1 && m.header == [1, 0, 1] && |m.blockhash| == KEY_BYTES
    && |m.keys[0]| == KEY_BYTES && |m.keys[1]| == KEY_BYTES && |m.keys[2]| == KEY_BYTES && |m.keys[3]| == KEY_BYTES
  }

  function MessageWith(wallet: Bytes, source: Bytes, recipient: Bytes, program: Bytes, blockhash: Bytes,
                       amount: nat): Message {
    Message([1, 0, 1], [wallet, source, recipient, program], blockhash, [TransferInstruction(amount)])
  }

  /** The message the builder lays out, field by field. */
  function MessageOf(t: Transfer): Message
    requires KeysDecode(t)
  {
    MessageWith(KeyOf(t.walletPublicKey), KeyOf(OrEmpty(t.sourceTokenAccount)), KeyOf(OrEmpty(t.recipientTokenAccount)),
                KeyOf(t.programId), KeyOf(OrEmpty(t.recentBlockhash)), t.amountUnits)
  }

  function TransferInstruction(amount: nat): Instruction {
    Instruction(3, [1, 2, 0], [3] + LittleEndian(amount, 8))
  }

  function KeyOf(text: string): (key: Bytes)
    requires Key(text).Success?
    ensures |key| == KEY_BYTES
  {
    Key(text).value
  }

  lemma LayoutConcat(m: Message)
    requires |m.keys| == 4 && |m.instructions| == 1
    ensures var i := m.instructions[0];
            Layout(m) == m.header + Leb128(4) + m.keys[0] + m.keys[1] + m.keys[2] + m.keys[3] + m.blockhash + Leb128(1)
                         + ([i.program] + Leb128(|i.accounts|) + i.accounts + Leb128(|i.data|) + i.data)
  {
    FlattenFour(m.keys[0], m.keys[1], m.keys[2], m.keys[3]);
    assert m.keys == [m.keys[0], m.keys[1], m.keys[2], m.keys[3]];
  }

  lemma BuiltIsLayout(t: Transfer)
    requires BuildMessage(t).Success?
    ensures KeysDecode(t) && t.amountUnits < AMOUNT_LIMIT && BuildMessage(t).value == Layout(MessageOf(t))
  {
    BuiltFromKeys(t);
    LayoutConcat(MessageOf(t));
  }

  lemma LayoutSize(m: Message)
    requires WellSized(m) && |m.instructions[0].accounts| == 3 && |m.instructions[0].data| == 9
    ensures |Layout(m)| == 180
  {
    LayoutConcat(m);
  }

  lemma InstructionReadsBack(amount: nat)
    requires amount < AMOUNT_LIMIT
    ensures var data := TransferInstruction(amount).data;
      |data| == 9 && data[0] == 3 && FromLittleEndian(data[1..]) == amount
  {
    AmountReadsBack(amount);
  }

  lemma MessageDescribes(t: Transfer)
    requires KeysDecode(t) && t.amountUnits < AMOUNT_LIMIT
    ensures Describes(MessageOf(t), t) && WellSized(MessageOf(t))
  {
    InstructionReadsBack(t.amountUnits);
  }

  lemma WellSizedReadsBack(m: Message)
    requires WellSized(m) && |m.instructions[0].accounts| == 3 && |m.instructions[0].data| == 9
    ensures |Layout(m)| == 180 && ReadMessage(Layout(m)) == Some(m)
  {
    LayoutSize(m);
    ReadLayout(m);
  }

  lemma LayoutReadsBack(t: Transfer, built: Bytes)
    requires KeysDecode(t) && t.amountUnits < AMOUNT_LIMIT && built == Layout(MessageOf(t))
    ensures |built| == 180 && ReadMessage(built).Some? && Describes(ReadMessage(built).value, t)
  {
    MessageDescribes(t);
    WellSizedReadsBack(MessageOf(t));
  }

  /** Every message is 180 bytes long and the reader recovers the four keys, the blockhash and the amount. */
  lemma MessageReadsBack(t: Transfer)
    requires BuildMessage(t).Success?
    ensures |BuildMessage(t).value| == 180
    ensures ReadMessage(BuildMessage(t).value).Some?
    ensures Describes(ReadMessage(BuildMessage(t).value).value, t)
  {
    BuiltIsLayout(t);
    LayoutReadsBack(t, BuildMessage(t).value);
  }

  lemma AmountReadsBack(amount: nat)
    requires amount < AMOUNT_LIMIT
    ensures FromLittleEndian(([3] + LittleEndian(amount, 8))[1..]) == amount
  {
    assert Pow(256, 4) == 4294967296;
    PowAdd(256, 4, 4);
    LittleEndianRoundTrip(amount, 8);
    assert ([3] + LittleEndian(amount, 8))[1..] == LittleEndian(amount, 8);
  }

  lemma FlattenFour(a: Bytes, b: Bytes, c: Bytes, d: Bytes)
    ensures Flatten([a, b, c, d]) == a + b + c + d
  {
    assert [a, b, c, d][1..] == [b, c, d];
    assert [b, c, d][1..] == [c, d];
    assert [c, d][1..] == [d];
    assert Flatten([d]) == d + Flatten([]);
    assert Flatten([c, d]) == c + Flatten([d]);
    assert Flatten([b, c, d]) == b + Flatten([c, d]);
    assert Flatten([a, b, c, d]) == a + Flatten([b, c, d]);
  }

  /** Equal messages come from equal key strings, equal blockhashes and equal amounts. */
  lemma MessageInjective(t: Transfer, u: Transfer)
    requires BuildMessage(t).Success? && BuildMessage(t) == BuildMessage(u)
    ensures t == u
  {
    MessageReadsBack(t);
    MessageReadsBack(u);
    DecodeInjective(t.walletPublicKey, u.walletPublicKey);
    DecodeInjective(OrEmpty(t.sourceTokenAccount), OrEmpty(u.sourceTokenAccount));
    DecodeInjective(OrEmpty(t.recipientTokenAccount), OrEmpty(u.recipientTokenAccount));
    DecodeInjective(t.programId, u.programId);
    DecodeInjective(OrEmpty(t.recentBlockhash), OrEmpty(u.recentBlockhash));
  }
}
