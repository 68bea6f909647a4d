/** The gateway's check of a submitted payment: split the wire bytes, verify the signatures and walk
    the instructions.  What the Solana library computes is a parameter (`Chain`). */
module ProofVerifier {
  import opened Wrappers
  import opened Shortvec

  // A public key, by its base58 text.
  type Key = string

  const TOKEN_PROGRAM_ID: Key := "TokenkegQfeZyiNwAJbNbGKPFXCWuBvf9Ss623VQ5DA"
  const ATA_PROGRAM_ID: Key := "ATokenGPvbdGVxr1b2hvZbsiqW5xWH25efTNsLJA8knL"
  const MEMO_PROGRAM_ID: Key := "MemoSq4gqABAXKb96qnH8TysNcWxMyWCqXgDLGmfcHr"
  const USDC_DECIMALS := 6
  const TRANSFER_CHECKED := 12
  const MEMO_NONCE_PREFIX := "x402-nonce:"

  // An instruction whose program and accounts are indices into the message's account keys.
  datatype CompiledInstruction = CompiledInstruction(program: nat, accounts: seq<nat>, data: Bytes)

  datatype Message = Message(numRequired: nat, keys: seq<Key>, instructions: seq<CompiledInstruction>)

  // Library code: base64, message parsing, Ed25519, address derivation, UTF-8 and base58.
  datatype Chain = Chain(
    base64Decode: string -> Option<Bytes>,
    parseMessage: Bytes -> Option<Message>,
    sigVerifies: (Bytes, Key, Bytes) -> bool,
    ata: (Key, Key) -> Key,
    utf8Decode: Bytes -> Option<string>,
    base58: Bytes -> string)

  datatype Expectation = Expectation(owner: Key, amount: nat, nonce: string, mint: Key)

  datatype ProofResult = ProofResult(payer: Key, amount: nat, recipientAta: Key, memo: string, signature: string)

  // IndexOutOfRange is the IndexError the walk raises on a message with a dangling index; every
  // other value is a ProofError.
  datatype ProofError =
    | Base64Invalid | Malformed(cause: ShortvecError) | NoSignatures | SignaturesTruncated | EmptyMessage
    | MessageInvalid | ZeroRequired | TooFewSignatures | TooFewKeys | BadSignature(index: nat)
    | MultipleTransfers | EmptyTokenData | NotTransferChecked | TransferTruncated | WrongDecimals
    | WrongAmount | TooFewAccounts | WrongMint | WrongDestination
    | MultipleMemos | MemoNotUtf8 | MemoPrefixMissing | WrongNonce
    | NoTransfer | NoMemo | IndexOutOfRange

  // ---------- splitting the wire bytes ----------

  /** The i-th 64-byte signature after a length prefix of `used` bytes. */
  function SignatureAt(wire: Bytes, used: nat, i: nat): (sig: Bytes)
    requires used + (i + 1) * 64 <= |wire|
    ensures |sig| == 64
  {
    wire[used + i * 64..used + i * 64 + 64]
  }

  function SplitWire(wire: Bytes): (r: Result<(seq<Bytes>, Bytes), ProofError>)
    ensures r.Ok? ==> forall sig <- r.value.0 :: |sig| == 64
  {
    match Decode(wire, 0)
    case Err(e) => Err(Malformed(e))
    case Ok((n, used)) =>
      if n == 0 then Err(NoSignatures)
      else if |wire| < used + n * 64 then Err(SignaturesTruncated)
      else if wire[used + n * 64..] == [] then Err(EmptyMessage)
      else Ok((seq(n, i requires 0 <= i < n => SignatureAt(wire, used, i)), wire[used + n * 64..]))
  }

  method ParseLegacyTx(wire: Bytes) returns (r: Result<(seq<Bytes>, Bytes), ProofError>)
    ensures r == SplitWire(wire)
  {
    var prefix := ShortvecDecode(wire, 0);
    if prefix.Err? {
      return Err(Malformed(prefix.error));
    }
    var (n, used) := prefix.value;
    if n == 0 {
      return Err(NoSignatures);
    }
    if |wire| < used + n * 64 {
      return Err(SignaturesTruncated);
    }
    var sigs: seq<Bytes> := [];
    for i := 0 to n
      invariant |sigs| == i
      invariant forall j | 0 <= j < i :: sigs[j] == SignatureAt(wire, used, j)
    {
      var start := used + i * 64;
      sigs := sigs + [wire[start..start + 64]];
    }
    var message := wire[used + n * 64..];
    if message == [] {
      return Err(EmptyMessage);
    }
    assert sigs == seq(n, i requires 0 <= i < n => SignatureAt(wire, used, i));
    r := Ok((sigs, message));
  }

  function Concat(parts: seq<Bytes>): Bytes {
    if parts == [] then [] else parts[0] + Concat(parts[1..])
  }

  lemma {:induction false} ConcatPieces(parts: seq<Bytes>, i: nat, rest: Bytes)
    requires forall p <- parts :: |p| == 64
    requires i < |parts|
    ensures |Concat(parts)| == 64 * |parts|
    ensures (Concat(parts) + rest)[i * 64..i * 64 + 64] == parts[i]
  {
    var tail := parts[1..];
    if tail == [] {
      assert Concat(tail) == [];
    } else {
      ConcatPieces(tail, if i == 0 then 0 else i - 1, rest);
      var whole, later := Concat(parts) + rest, Concat(tail) + rest;
      assert whole == parts[0] + later;
      if i > 0 {
        var at := (i - 1) * 64;
        assert whole[at + 64..at + 128] == later[at..at + 64];
      }
    }
  }

  /** Signatures laid out behind their count come back one by one, with the message untouched. */
  lemma {:induction false} SplitBuiltWire(sigs: seq<Bytes>, message: Bytes)
    requires 1 <= |sigs| <= 0xFFFF && (forall sig <- sigs :: |sig| == 64) && message != []
    ensures SplitWire(Encode(|sigs|) + Concat(sigs) + message) == Ok((sigs, message))
  {
    DecodeBehindPrefix(|sigs|, Concat(sigs), message);
    SplitBehindPrefix(Encode(|sigs|), sigs, message);
  }

  lemma DecodeBehindPrefix(n: nat, middle: Bytes, message: Bytes)
    requires n <= 0xFFFF
    ensures Decode(Encode(n) + middle + message, 0) == Ok((n, |Encode(n)|))
  {
    DecodeEncode(n, [], middle + message);
    assert [] + Encode(n) + (middle + message) == Encode(n) + middle + message;
  }

  lemma {:induction false} SplitBehindPrefix(prefix: Bytes, sigs: seq<Bytes>, message: Bytes)
    requires sigs != [] && (forall sig <- sigs :: |sig| == 64) && message != []
    requires Decode(prefix + Concat(sigs) + message, 0) == Ok((|sigs|, |prefix|))
    ensures SplitWire(prefix + Concat(sigs) + message) == Ok((sigs, message))
  {
    SignaturesBehindPrefix(prefix, sigs, message);
    var wire := prefix + Concat(sigs) + message;
    assert wire[|prefix + Concat(sigs)|..] == message;
  }

  lemma SignaturesBehindPrefix(prefix: Bytes, sigs: seq<Bytes>, message: Bytes)
    requires sigs != [] && forall sig <- sigs :: |sig| == 64
    ensures |Concat(sigs)| == 64 * |sigs|
    ensures var wire := prefix + Concat(sigs) + message;
            seq(|sigs|, i requires 0 <= i < |sigs| => SignatureAt(wire, |prefix|, i)) == sigs
  {
    ConcatPieces(sigs, 0, message);
    var body := Concat(sigs) + message;
    var wire, used := prefix + Concat(sigs) + message, |prefix|;
    assert wire == prefix + body;
    forall i | 0 <= i < |sigs| ensures SignatureAt(wire, used, i) == sigs[i] {
      ConcatPieces(sigs, i, message);
      assert wire[used + i * 64..used + i * 64 + 64] == body[i * 64..i * 64 + 64];
    }
  }

  /** Conversely, accepted wire bytes are a length prefix, that many 64-byte signatures and a
      non-empty message, and nothing is lost. */
  lemma SplitLosesNothing(wire: Bytes)
    requires SplitWire(wire).Ok?
    ensures var (sigs, message) := SplitWire(wire).value;
            && Decode(wire, 0).Ok? && Decode(wire, 0).value.0 == |sigs| >= 1 && message != []
            && wire == wire[..Decode(wire, 0).value.1] + Concat(sigs) + message
  {
    var (n, used) := Decode(wire, 0).value;
    var (sigs, message) := SplitWire(wire).value;
    ConcatSlices(wire, used, sigs);
    assert wire == wire[..used] + wire[used..used + n * 64] + wire[used + n * 64..];
  }

  lemma {:induction false} ConcatSlices(wire: Bytes, at: nat, sigs: seq<Bytes>)
    requires at + |sigs| * 64 <= |wire|
    requires forall i | 0 <= i < |sigs| :: sigs[i] == SignatureAt(wire, at, i)
    ensures Concat(sigs) == wire[at..at + |sigs| * 64]
    decreases |sigs|
  {
    if sigs != [] {
      var tail := sigs[1..];
      forall i | 0 <= i < |tail| ensures tail[i] == SignatureAt(wire, at + 64, i) {
        assert tail[i] == sigs[i + 1] == SignatureAt(wire, at, i + 1);
      }
      ConcatSlices(wire, at + 64, tail);
      assert sigs[0] == SignatureAt(wire, at, 0);
      assert wire[at..at + |sigs| * 64] == wire[at..at + 64] + wire[at + 64..at + |sigs| * 64];
    }
  }

  // ---------- little-endian amounts ----------

  function LittleEndian(n: nat, width: nat): (r: Bytes)
    ensures |r| == width
  {
    if width == 0 then [] else [n % 256] + LittleEndian(n / 256, width - 1)
  }

  function FromLittleEndian(b: Bytes): nat {
    if b == [] then 0 else b[0] + 256 * FromLittleEndian(b[1..])
  }

  function Pow256(k: nat): (p: nat)
    ensures p >= 1
  {
    if k == 0 then 1 else 256 * Pow256(k - 1)
  }

  lemma {:induction false} LittleEndianInverse(n: nat, width: nat)
    requires n < Pow256(width)
    ensures FromLittleEndian(LittleEndian(n, width)) == n
  {
    if width > 0 {
      LittleEndianInverse(n / 256, width - 1);
      assert LittleEndian(n, width)[1..] == LittleEndian(n / 256, width - 1);
    }
  }

  /** The unsigned 64-bit reading: eight bytes, the least significant first. */
  lemma EightBytesRead(b: Bytes)
    requires |b| == 8
    ensures var d := (k: nat) requires k < 8 => b[k] as int;
            FromLittleEndian(b) == d(0) + 0x100 * d(1) + 0x1_0000 * d(2) + 0x100_0000 * d(3) + 0x1_0000_0000 * d(4)
                                 + 0x100_0000_0000 * d(5) + 0x1_0000_0000_0000 * d(6) + 0x100_0000_0000_0000 * d(7)
  {
    assert b[0..] == b && b[8..] == [];
    forall i | 0 <= i < 8 ensures FromLittleEndian(b[i..]) == b[i] + 256 * FromLittleEndian(b[i + 1..]) {
      assert b[i..][1..] == b[i + 1..];
    }
  }

  // ---------- what an accepted transaction is, declaratively ----------

  predicate AccountsResolve(m: Message, ix: CompiledInstruction) {
    forall k | 0 <= k < |ix.accounts| :: ix.accounts[k] < |m.keys|
  }

  predicate Resolves(m: Message, ix: CompiledInstruction) {
    ix.program < |m.keys| && AccountsResolve(m, ix)
  }

  predicate InRange(m: Message) {
    forall i | 0 <= i < |m.instructions| :: Resolves(m, m.instructions[i])
  }

  predicate Runs(m: Message, i: nat, program: Key)
    requires i < |m.instructions| && m.instructions[i].program < |m.keys|
  {
    m.keys[m.instructions[i].program] == program
  }

  /** A TransferChecked of exactly the expected amount of the expected mint to the recipient's ATA. */
  predicate IsExpectedTransfer(chain: Chain, m: Message, ix: CompiledInstruction, exp: Expectation)
    requires AccountsResolve(m, ix)
  {
    && |ix.data| >= 10 && ix.data[0] == 12
    && FromLittleEndian(ix.data[1..9]) == exp.amount && ix.data[9] == 6
    && |ix.accounts| >= 4
    && m.keys[ix.accounts[1]] == exp.mint
    && m.keys[ix.accounts[2]] == chain.ata(exp.owner, exp.mint)
  }

  predicate IsExpectedMemo(chain: Chain, ix: CompiledInstruction, exp: Expectation) {
    chain.utf8Decode(ix.data) == Some("x402-nonce:" + exp.nonce)
  }

  ghost predicate ExactlyOneTransfer(chain: Chain, m: Message, exp: Expectation)
    requires InRange(m)
  {
    exists i: nat | i < |m.instructions| ::
      && Runs(m, i, TOKEN_PROGRAM_ID) && IsExpectedTransfer(chain, m, m.instructions[i], exp)
      && forall j: nat | j < |m.instructions| && Runs(m, j, TOKEN_PROGRAM_ID) :: j == i
  }

  ghost predicate ExactlyOneMemo(chain: Chain, m: Message, exp: Expectation)
    requires InRange(m)
  {
    exists i: nat | i < |m.instructions| ::
      && Runs(m, i, MEMO_PROGRAM_ID) && IsExpectedMemo(chain, m.instructions[i], exp)
      && forall j: nat | j < |m.instructions| && Runs(m, j, MEMO_PROGRAM_ID) :: j == i
  }

  predicate SignaturesHold(chain: Chain, m: Message, sigs: seq<Bytes>, message: Bytes) {
    && 1 <= m.numRequired <= |sigs| && m.numRequired <= |m.keys|
    && forall i | 0 <= i < m.numRequired :: chain.sigVerifies(sigs[i], m.keys[i], message)
  }

  ghost predicate AcceptsMessage(chain: Chain, m: Message, sigs: seq<Bytes>, message: Bytes, exp: Expectation) {
    && SignaturesHold(chain, m, sigs, message)
    && InRange(m) && ExactlyOneTransfer(chain, m, exp) && ExactlyOneMemo(chain, m, exp)
  }

  /** The message a signed transaction string carries, with its signatures and its raw bytes. */
  function Contents(chain: Chain, tx: string): Option<(Message, seq<Bytes>, Bytes)> {
    match chain.base64Decode(tx)
    case None => None
    case Some(wire) =>
      match SplitWire(wire)
      case Err(_) => None
      case Ok((sigs, message)) =>
        match chain.parseMessage(message)
        case None => None
        case Some(m) => Some((m, sigs, message))
  }

  ghost predicate Accepts(chain: Chain, tx: string, exp: Expectation) {
    var c := Contents(chain, tx);
    c.Some? && AcceptsMessage(chain, c.value.0, c.value.1, c.value.2, exp)
  }

  // ---------- the instruction walk ----------

  // The two flags the walk carries.
  datatype Seen = Seen(transfer: bool, memo: bool)

  function CheckTransfer(chain: Chain, m: Message, ix: CompiledInstruction, exp: Expectation): (e: Option<ProofError>)
    requires AccountsResolve(m, ix)
    ensures e.None? <==> IsExpectedTransfer(chain, m, ix, exp)
  {
    if |ix.data| < 1 then Some(EmptyTokenData)
    else if ix.data[0] != TRANSFER_CHECKED then Some(NotTransferChecked)
    else if |ix.data| < 1 + 8 + 1 then Some(TransferTruncated)
    else if ix.data[9] != USDC_DECIMALS then Some(WrongDecimals)
    else if FromLittleEndian(ix.data[1..9]) != exp.amount then Some(WrongAmount)
    else if |ix.accounts| < 4 then Some(TooFewAccounts)
    else if m.keys[ix.accounts[1]] != exp.mint then Some(WrongMint)
    else if m.keys[ix.accounts[2]] != chain.ata(exp.owner, exp.mint) then Some(WrongDestination)
    else None
  }

  function CheckMemo(chain: Chain, ix: CompiledInstruction, exp: Expectation): (e: Option<ProofError>)
    ensures e.None? <==> IsExpectedMemo(chain, ix, exp)
  {
    var text := chain.utf8Decode(ix.data);
    assert text.Some? && MEMO_NONCE_PREFIX <= text.value ==>
             text.value == MEMO_NONCE_PREFIX + text.value[|MEMO_NONCE_PREFIX|..];
    if text.None? then Some(MemoNotUtf8)
    else if !(MEMO_NONCE_PREFIX <= text.value) then Some(MemoPrefixMissing)
    else if text.value[|MEMO_NONCE_PREFIX|..] != exp.nonce then Some(WrongNonce)
    else None
  }

  /** One iteration: the flags afterwards, or the error raised. */
  function StepWalk(chain: Chain, m: Message, i: nat, seen: Seen, exp: Expectation): Result<Seen, ProofError>
    requires i < |m.instructions|
  {
    var ix := m.instructions[i];
    if !Resolves(m, ix) then Err(IndexOutOfRange)
    else if Runs(m, i, TOKEN_PROGRAM_ID) then
      if seen.transfer then Err(MultipleTransfers)
      else match CheckTransfer(chain, m, ix, exp) case Some(e) => Err(e) case None => Ok(seen.(transfer := true))
    else if Runs(m, i, MEMO_PROGRAM_ID) then
      if seen.memo then Err(MultipleMemos)
      else match CheckMemo(chain, ix, exp) case Some(e) => Err(e) case None => Ok(seen.(memo := true))
    else Ok(seen)
  }

  function Walk(chain: Chain, m: Message, i: nat, seen: Seen, exp: Expectation): Result<Seen, ProofError>
    requires i <= |m.instructions|
    decreases |m.instructions| - i
  {
    if i == |m.instructions| then Ok(seen)
    else match StepWalk(chain, m, i, seen, exp)
      case Err(e) => Err(e)
      case Ok(next) => Walk(chain, m, i + 1, next, exp)
  }

  function FirstBadSignature(chain: Chain, m: Message, sigs: seq<Bytes>, message: Bytes, i: nat): (r: Option<nat>)
    requires i <= m.numRequired <= |sigs| && m.numRequired <= |m.keys|
    ensures r.None? <==> forall j | i <= j < m.numRequired :: chain.sigVerifies(sigs[j], m.keys[j], message)
    ensures r.Some? ==> i <= r.value < m.numRequired && !chain.sigVerifies(sigs[r.value], m.keys[r.value], message)
                        && forall j | i <= j < r.value :: chain.sigVerifies(sigs[j], m.keys[j], message)
    decreases m.numRequired - i
  {
    if i == m.numRequired then None
    else if !chain.sigVerifies(sigs[i], m.keys[i], message) then Some(i)
    else FirstBadSignature(chain, m, sigs, message, i + 1)
  }

  /** The verdict on a split transaction, with the first error in the order the checks are made. */
  function Verdict(chain: Chain, m: Message, sigs: seq<Bytes>, message: Bytes, exp: Expectation): Result<ProofResult, ProofError> {
    if m.numRequired == 0 then Err(ZeroRequired)
    else if |sigs| < m.numRequired then Err(TooFewSignatures)
    else if |m.keys| < m.numRequired then Err(TooFewKeys)
    else
      match FirstBadSignature(chain, m, sigs, message, 0)
      case Some(i) => Err(BadSignature(i))
      case None =>
        match Walk(chain, m, 0, Seen(false, false), exp)
        case Err(e) => Err(e)
        case Ok(seen) =>
          if !seen.transfer then Err(NoTransfer)
          else if !seen.memo then Err(NoMemo)
          else Ok(ProofResult(m.keys[0], exp.amount, chain.ata(exp.owner, exp.mint),
                              MEMO_NONCE_PREFIX + exp.nonce, chain.base58(sigs[0])))
  }

  function VerifySpec(chain: Chain, tx: string, exp: Expectation): Result<ProofResult, ProofError> {
    match chain.base64Decode(tx)
    case None => Err(Base64Invalid)
    case Some(wire) =>
      match SplitWire(wire)
      case Err(e) => Err(e)
      case Ok((sigs, message)) =>
        match chain.parseMessage(message)
        case None => Err(MessageInvalid)
        case Some(m) => Verdict(chain, m, sigs, message, exp)
  }

  method WalkInstructions(chain: Chain, m: Message, exp: Expectation) returns (r: Result<string, ProofError>)
    ensures match Walk(chain, m, 0, Seen(false, false), exp)
            case Err(e) => r == Err(e)
            case Ok(seen) => r == if !seen.transfer then Err(NoTransfer) else if !seen.memo then Err(NoMemo)
                                  else Ok(MEMO_NONCE_PREFIX + exp.nonce)
  {
    var transferSeen, memoSeen, memoText := false, false, "";
    for i := 0 to |m.instructions|
      invariant Walk(chain, m, 0, Seen(false, false), exp) == Walk(chain, m, i, Seen(transferSeen, memoSeen), exp)
      invariant memoSeen ==> memoText == MEMO_NONCE_PREFIX + exp.nonce
    {
      var ix := m.instructions[i];
      if !Resolves(m, ix) {
        return Err(IndexOutOfRange);
      }
      var program := m.keys[ix.program];
      if program == TOKEN_PROGRAM_ID {
        if transferSeen {
          return Err(MultipleTransfers);
        }
        var e := CheckTransfer(chain, m, ix, exp);
        if e.Some? {
          return Err(e.value);
        }
        transferSeen := true;
      } else if program == MEMO_PROGRAM_ID {
        if memoSeen {
          return Err(MultipleMemos);
        }
        var e := CheckMemo(chain, ix, exp);
        if e.Some? {
          return Err(e.value);
        }
        memoText := chain.utf8Decode(ix.data).value;
        memoSeen := true;
      }
    }
    if !transferSeen {
      return Err(NoTransfer);
    }
    if !memoSeen {
      return Err(NoMemo);
    }
    r := Ok(memoText);
  }

  method CheckSignatures(chain: Chain, m: Message, sigs: seq<Bytes>, message: Bytes) returns (bad: Option<nat>)
    requires m.numRequired <= |sigs| && m.numRequired <= |m.keys|
    ensures bad == FirstBadSignature(chain, m, sigs, message, 0)
  {
    for i := 0 to m.numRequired
      invariant FirstBadSignature(chain, m, sigs, message, 0) == FirstBadSignature(chain, m, sigs, message, i)
    {
      if !chain.sigVerifies(sigs[i], m.keys[i], message) {
        return Some(i);
      }
    }
    bad := None;
  }

  method VerifyMessage(chain: Chain, m: Message, sigs: seq<Bytes>, message: Bytes, exp: Expectation)
    returns (r: Result<ProofResult, ProofError>)
    ensures r == Verdict(chain, m, sigs, message, exp)
  {
    if m.numRequired == 0 {
      return Err(ZeroRequired);
    }
    if |sigs| < m.numRequired {
      return Err(TooFewSignatures);
    }
    if |m.keys| < m.numRequired {
      return Err(TooFewKeys);
    }
    var bad := CheckSignatures(chain, m, sigs, message);
    if bad.Some? {
      return Err(BadSignature(bad.value));
    }
    var memo := WalkInstructions(chain, m, exp);
    if memo.Err? {
      return Err(memo.error);
    }
    r := Ok(ProofResult(m.keys[0], exp.amount, chain.ata(exp.owner, exp.mint), memo.value, chain.base58(sigs[0])));
  }

  method VerifyProof(chain: Chain, tx: string, exp: Expectation) returns (r: Result<ProofResult, ProofError>)
    ensures r == VerifySpec(chain, tx, exp)
    ensures r.Ok? <==> Accepts(chain, tx, exp)
  {
    VerifySoundAndComplete(chain, tx, exp);
    var wire := chain.base64Decode(tx);
    if wire.None? {
      return Err(Base64Invalid);
    }
    var split := ParseLegacyTx(wire.value);
    if split.Err? {
      return Err(split.error);
    }
    var (sigs, message) := split.value;
    var parsed := chain.parseMessage(message);
    if parsed.None? {
      return Err(MessageInvalid);
    }
    r := VerifyMessage(chain, parsed.value, sigs, message, exp);
  }

  // ---------- soundness and completeness of the walk ----------

  lemma ProgramsDiffer()
    ensures TOKEN_PROGRAM_ID != MEMO_PROGRAM_ID && ATA_PROGRAM_ID != TOKEN_PROGRAM_ID && ATA_PROGRAM_ID != MEMO_PROGRAM_ID
  {
    assert TOKEN_PROGRAM_ID[0] == 'T' && MEMO_PROGRAM_ID[0] == 'M' && ATA_PROGRAM_ID[0] == 'A';
  }

  ghost predicate RangeFrom(m: Message, i: nat) {
    forall k | i <= k < |m.instructions| :: Resolves(m, m.instructions[k])
  }

  ghost predicate NoneFrom(m: Message, i: nat, program: Key)
    requires RangeFrom(m, i)
  {
    forall j: nat | i <= j < |m.instructions| :: !Runs(m, j, program)
  }

  ghost predicate OneFrom(m: Message, i: nat, program: Key, good: CompiledInstruction -> bool)
    requires RangeFrom(m, i)
  {
    exists k: nat | i <= k < |m.instructions| ::
      && Runs(m, k, program) && good(m.instructions[k])
      && forall j: nat | i <= j < |m.instructions| && Runs(m, j, program) :: j == k
  }

  /** What the instructions from i on must still contain, given whether `program` was seen before. */
  ghost predicate Remaining(m: Message, i: nat, program: Key, good: CompiledInstruction -> bool, seen: bool)
    requires RangeFrom(m, i)
  {
    if seen then NoneFrom(m, i, program) else OneFrom(m, i, program, good)
  }

  lemma RemainingShift(m: Message, i: nat, program: Key, good: CompiledInstruction -> bool, seen: bool)
    requires i < |m.instructions| && RangeFrom(m, i)
    ensures RangeFrom(m, i + 1)
    ensures Remaining(m, i, program, good, seen) <==>
      if Runs(m, i, program) then !seen && good(m.instructions[i]) && Remaining(m, i + 1, program, good, true)
      else Remaining(m, i + 1, program, good, seen)
  {
    if Runs(m, i, program) {
      if OneFrom(m, i, program, good) {
        assert NoneFrom(m, i + 1, program) && good(m.instructions[i]);
      }
    } else {
      assert OneFrom(m, i + 1, program, good) ==> OneFrom(m, i, program, good);
    }
  }

  ghost function GoodTransfer(chain: Chain, m: Message, exp: Expectation): CompiledInstruction -> bool {
    (ix: CompiledInstruction) => AccountsResolve(m, ix) && IsExpectedTransfer(chain, m, ix, exp)
  }

  ghost function GoodMemo(chain: Chain, exp: Expectation): CompiledInstruction -> bool {
    (ix: CompiledInstruction) => IsExpectedMemo(chain, ix, exp)
  }

  /** From any instruction and any flags, the walk ends with both flags up exactly when what remains
      is what is still owed. */
  lemma {:induction false} WalkMeaning(chain: Chain, m: Message, i: nat, seen: Seen, exp: Expectation)
    requires i <= |m.instructions|
    ensures Walk(chain, m, i, seen, exp) == Ok(Seen(true, true)) <==>
      && RangeFrom(m, i)
      && Remaining(m, i, TOKEN_PROGRAM_ID, GoodTransfer(chain, m, exp), seen.transfer)
      && Remaining(m, i, MEMO_PROGRAM_ID, GoodMemo(chain, exp), seen.memo)
    decreases |m.instructions| - i
  {
    ProgramsDiffer();
    if i < |m.instructions| {
      var step := StepWalk(chain, m, i, seen, exp);
      if step.Ok? { WalkMeaning(chain, m, i + 1, step.value, exp); }
      if RangeFrom(m, i) {
        RemainingShift(m, i, TOKEN_PROGRAM_ID, GoodTransfer(chain, m, exp), seen.transfer);
        RemainingShift(m, i, MEMO_PROGRAM_ID, GoodMemo(chain, exp), seen.memo);
      }
    }
  }

  lemma AcceptedMessages(chain: Chain, m: Message, sigs: seq<Bytes>, message: Bytes, exp: Expectation)
    ensures Verdict(chain, m, sigs, message, exp).Ok? <==> AcceptsMessage(chain, m, sigs, message, exp)
  {
    WalkMeaning(chain, m, 0, Seen(false, false), exp);
    if InRange(m) {
      assert OneFrom(m, 0, TOKEN_PROGRAM_ID, GoodTransfer(chain, m, exp)) <==> ExactlyOneTransfer(chain, m, exp);
      assert OneFrom(m, 0, MEMO_PROGRAM_ID, GoodMemo(chain, exp)) <==> ExactlyOneMemo(chain, m, exp);
    }
  }

  /** The verifier accepts a transaction exactly when it is one the protocol describes. */
  lemma VerifySoundAndComplete(chain: Chain, tx: string, exp: Expectation)
    ensures VerifySpec(chain, tx, exp).Ok? <==> Accepts(chain, tx, exp)
  {
    var c := Contents(chain, tx);
    if c.Some? {
      AcceptedMessages(chain, c.value.0, c.value.1, c.value.2, exp);
    }
  }

  /** In full: every required signer has signed, every index resolves, one instruction runs the token program and is a
      TransferChecked of the amount with 6 decimals, the mint second and the recipient's token account third, and one runs
      the memo program and says "x402-nonce:" and the nonce. */
  lemma AcceptedExactly(chain: Chain, m: Message, sigs: seq<Bytes>, message: Bytes, exp: Expectation)
    ensures Verdict(chain, m, sigs, message, exp).Ok? <==>
      && 1 <= m.numRequired <= |sigs| && m.numRequired <= |m.keys|
      && (forall i | 0 <= i < m.numRequired :: chain.sigVerifies(sigs[i], m.keys[i], message))
      && (forall i | 0 <= i < |m.instructions| :: var ix := m.instructions[i];
            ix.program < |m.keys| && forall k | 0 <= k < |ix.accounts| :: ix.accounts[k] < |m.keys|)
      && (exists t | 0 <= t < |m.instructions| :: var ix := m.instructions[t];
            && m.keys[ix.program] == "TokenkegQfeZyiNwAJbNbGKPFXCWuBvf9Ss623VQ5DA"
            && |ix.data| >= 10 && ix.data[0] == 12 && FromLittleEndian(ix.data[1..9]) == exp.amount && ix.data[9] == 6
            && |ix.accounts| >= 4 && m.keys[ix.accounts[1]] == exp.mint && m.keys[ix.accounts[2]] == chain.ata(exp.owner, exp.mint)
            && forall j | 0 <= j < |m.instructions| && m.keys[m.instructions[j].program] == m.keys[ix.program] :: j == t)
      && (exists n | 0 <= n < |m.instructions| :: var ix := m.instructions[n];
            && m.keys[ix.program] == "MemoSq4gqABAXKb96qnH8TysNcWxMyWCqXgDLGmfcHr"
            && chain.utf8Decode(ix.data) == Some("x402-nonce:" + exp.nonce)
            && forall j | 0 <= j < |m.instructions| && m.keys[m.instructions[j].program] == m.keys[ix.program] :: j == n)
  {
    AcceptedMessages(chain, m, sigs, message, exp);
    hide Verdict, FromLittleEndian;
    if InRange(m) {
      assert forall j: nat | j < |m.instructions| ::
        && (Runs(m, j, TOKEN_PROGRAM_ID) <==> m.keys[m.instructions[j].program] == "TokenkegQfeZyiNwAJbNbGKPFXCWuBvf9Ss623VQ5DA")
        && (Runs(m, j, MEMO_PROGRAM_ID) <==> m.keys[m.instructions[j].program] == "MemoSq4gqABAXKb96qnH8TysNcWxMyWCqXgDLGmfcHr");
    }
  }

  /** What is read back: the first signer and signature, and the values that were asked for. */
  lemma AcceptedProofReads(chain: Chain, tx: string, exp: Expectation)
    requires VerifySpec(chain, tx, exp).Ok?
    ensures Contents(chain, tx).Some?
    ensures var (m, sigs, _) := Contents(chain, tx).value;
            && m.keys != [] && sigs != []
            && VerifySpec(chain, tx, exp)
               == Ok(ProofResult(m.keys[0], exp.amount, chain.ata(exp.owner, exp.mint), "x402-nonce:" + exp.nonce, chain.base58(sigs[0])))
  {
    hide SplitWire, Walk, FirstBadSignature;
  }

  /** A transaction accepted for two expectations pins amount, nonce, mint and destination. */
  lemma OneTransactionOneExpectation(chain: Chain, tx: string, a: Expectation, b: Expectation)
    requires Accepts(chain, tx, a) && Accepts(chain, tx, b)
    ensures a.amount == b.amount && a.nonce == b.nonce && a.mint == b.mint
    ensures chain.ata(a.owner, a.mint) == chain.ata(b.owner, b.mint)
  {
    var (m, sigs, message) := Contents(chain, tx).value;
    var t: nat :| t < |m.instructions| && Runs(m, t, TOKEN_PROGRAM_ID) && IsExpectedTransfer(chain, m, m.instructions[t], a);
    var n: nat :| n < |m.instructions| && Runs(m, n, MEMO_PROGRAM_ID) && IsExpectedMemo(chain, m.instructions[n], a);
    assert IsExpectedTransfer(chain, m, m.instructions[t], b);
    assert IsExpectedMemo(chain, m.instructions[n], b);
    assert a.nonce == (MEMO_NONCE_PREFIX + a.nonce)[|MEMO_NONCE_PREFIX|..];
    assert b.nonce == (MEMO_NONCE_PREFIX + b.nonce)[|MEMO_NONCE_PREFIX|..];
  }
}
