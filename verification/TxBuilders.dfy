/** The two transaction builders, the gateway's and the SDK's, and their agreement with the verifier.
    Account compilation, message layout and signing are library code and appear as parameters. */
module TxBuilders {
  import opened Wrappers
  import opened Shortvec
  import opened ProofVerifier

  datatype AccountMeta = AccountMeta(key: Key, signer: bool, writable: bool)
  datatype Instruction = Instruction(program: Key, accounts: seq<AccountMeta>, data: Bytes)

  // 2^64: the first amount struct.pack("<Q") refuses.
  const U64 := 0x1_0000_0000_0000_0000

  const SYSTEM_PROGRAM_ID: Key := "11111111111111111111111111111111"

  // StructError is the struct.error of packing an amount that does not fit 64 bits.
  datatype BuildError = AmountNotPositive | NonceMissing | InvalidInput | StructError | BadSignatureLength

  function TransferData(amount: nat): Bytes {
    [TRANSFER_CHECKED] + LittleEndian(amount, 8) + [USDC_DECIMALS]
  }

  function TransferCheckedIx(sourceAta: Key, mint: Key, destAta: Key, owner: Key, amount: nat): Instruction {
    Instruction(TOKEN_PROGRAM_ID,
                [AccountMeta(sourceAta, false, true), AccountMeta(mint, false, false),
                 AccountMeta(destAta, false, true), AccountMeta(owner, true, false)],
                TransferData(amount))
  }

  function CreateAtaIdempotentIx(payer: Key, owner: Key, mint: Key, ata: Key): Instruction {
    Instruction(ATA_PROGRAM_ID,
                [AccountMeta(payer, true, true), AccountMeta(ata, false, true), AccountMeta(owner, false, false),
                 AccountMeta(mint, false, false), AccountMeta(SYSTEM_PROGRAM_ID, false, false),
                 AccountMeta(TOKEN_PROGRAM_ID, false, false)],
                [1])
  }

  /** The gateway's memo lists no account; the SDK's names the payer as a signer. */
  function MemoIx(memo: Bytes, signers: seq<Key>): Instruction {
    Instruction(MEMO_PROGRAM_ID, seq(|signers|, i requires 0 <= i < |signers| => AccountMeta(signers[i], true, false)), memo)
  }

  /** The instruction list of build_x402_payment_tx. */
  method GatewayInstructions(chain: Chain, utf8: string -> Bytes, payer: Key, recipientOwner: Key, mint: Key,
                             amount: int, nonce: string, ensureDestAta: bool)
    returns (r: Result<seq<Instruction>, BuildError>)
    ensures r.Ok? <==> 0 < amount < U64
    ensures r.Ok? ==> IsPayment(chain, utf8, payer, Expectation(recipientOwner, amount, nonce, mint), r.value)
    ensures r.Ok? ==> var sourceAta, destAta := chain.ata(payer, mint), chain.ata(recipientOwner, mint);
      r.value == (if ensureDestAta then
                    [Instruction("ATokenGPvbdGVxr1b2hvZbsiqW5xWH25efTNsLJA8knL",
                                 [AccountMeta(payer, true, true), AccountMeta(destAta, false, true), AccountMeta(recipientOwner, false, false),
                                  AccountMeta(mint, false, false), AccountMeta("11111111111111111111111111111111", false, false),
                                  AccountMeta("TokenkegQfeZyiNwAJbNbGKPFXCWuBvf9Ss623VQ5DA", false, false)],
                                 [1])]
                  else [])
               + [Instruction("TokenkegQfeZyiNwAJbNbGKPFXCWuBvf9Ss623VQ5DA",
                              [AccountMeta(sourceAta, false, true), AccountMeta(mint, false, false),
                               AccountMeta(destAta, false, true), AccountMeta(payer, true, false)],
                              [12] + LittleEndian(amount, 8) + [6]),
                  Instruction("MemoSq4gqABAXKb96qnH8TysNcWxMyWCqXgDLGmfcHr", [], utf8("x402-nonce:" + nonce))]
    ensures r.Err? ==> r.error == if amount <= 0 then AmountNotPositive else StructError
  {
    if amount <= 0 {
      return Err(AmountNotPositive);
    }
    var sourceAta, destAta := chain.ata(payer, mint), chain.ata(recipientOwner, mint);
    var instructions: seq<Instruction> := [];
    if ensureDestAta {
      instructions := instructions + [CreateAtaIdempotentIx(payer, recipientOwner, mint, destAta)];
    }
    if amount >= U64 {
      return Err(StructError);
    }
    ghost var at := |instructions|;
    instructions := instructions + [TransferCheckedIx(sourceAta, mint, destAta, payer, amount)];
    var memo := MemoIx(utf8(MEMO_NONCE_PREFIX + nonce), []);
    instructions := instructions + [memo];
    assert memo.accounts == [];
    ProgramsDiffer();
    assert PaymentAt(chain, utf8, payer, Expectation(recipientOwner, amount, nonce, mint), instructions, at);
    r := Ok(instructions);
  }

  // The library's parsers of keys and blockhashes, its message compiler and the wallet.
  datatype Wallet = Wallet(keyParses: string -> bool, hashParses: string -> bool,
                           compile: (seq<Instruction>, Key, string) -> Bytes, sign: Bytes -> Bytes)

  /** The wire bytes of build_and_sign_usdc_transfer, before base64. */
  method SdkWire(chain: Chain, utf8: string -> Bytes, w: Wallet, payer: Key, recipient: Key, mint: Key, amount: int, nonce: string,
                 blockhash: string)
    returns (r: Result<Bytes, BuildError>, ghost ixs: seq<Instruction>)
    ensures 0 < amount < U64 && nonce != "" && w.keyParses(payer) && w.keyParses(recipient) && w.keyParses(mint) && w.hashParses(blockhash) ==>
      && IsPayment(chain, utf8, payer, Expectation(recipient, amount, nonce, mint), ixs)
      && ixs == [Instruction("TokenkegQfeZyiNwAJbNbGKPFXCWuBvf9Ss623VQ5DA",
                             [AccountMeta(chain.ata(payer, mint), false, true), AccountMeta(mint, false, false),
                              AccountMeta(chain.ata(recipient, mint), false, true), AccountMeta(payer, true, false)],
                             [12] + LittleEndian(amount, 8) + [6]),
                 Instruction("MemoSq4gqABAXKb96qnH8TysNcWxMyWCqXgDLGmfcHr", [AccountMeta(payer, true, false)], utf8("x402-nonce:" + nonce))]
      && var message := w.compile(ixs, payer, blockhash);
         r == if |w.sign(message)| != 64 then Err(BadSignatureLength)
              else Ok([1] + w.sign(message) + message)
    ensures r == Err(AmountNotPositive) <==> amount <= 0
    ensures r == Err(NonceMissing) <==> amount > 0 && nonce == ""
    ensures r == Err(InvalidInput) <==>
              amount > 0 && nonce != "" && !(w.keyParses(payer) && w.keyParses(recipient) && w.keyParses(mint) && w.hashParses(blockhash))
    ensures r == Err(StructError) <==>
              amount >= U64 && nonce != "" && w.keyParses(payer) && w.keyParses(recipient) && w.keyParses(mint) && w.hashParses(blockhash)
  {
    ixs := [];
    if amount <= 0 {
      return Err(AmountNotPositive), ixs;
    }
    if nonce == "" {
      return Err(NonceMissing), ixs;
    }
    if !w.keyParses(payer) || !w.keyParses(recipient) || !w.keyParses(mint) || !w.hashParses(blockhash) {
      return Err(InvalidInput), ixs;
    }
    var sourceAta, destAta := chain.ata(payer, mint), chain.ata(recipient, mint);
    if amount >= U64 {
      return Err(StructError), ixs;
    }
    var instructions := [TransferCheckedIx(sourceAta, mint, destAta, payer, amount),
                         MemoIx(utf8(MEMO_NONCE_PREFIX + nonce), [payer])];
    ixs := instructions;
    assert ixs[1].accounts == [AccountMeta(payer, true, false)];
    ProgramsDiffer();
    assert PaymentAt(chain, utf8, payer, Expectation(recipient, amount, nonce, mint), ixs, 0);
    var message := w.compile(instructions, payer, blockhash);
    var sig := w.sign(message);
    if |sig| != 64 {
      return Err(BadSignatureLength), ixs;
    }
    var prefix := ShortvecEncode(1);
    r := Ok(prefix.value + sig + message);
  }

  // ---------- what both lists have in common ----------

  /** The list pays `exp` at position t and says so in the memo right after; nothing else runs the
      token or the memo program, and nobody but the payer signs. */
  ghost predicate PaymentAt(chain: Chain, utf8: string -> Bytes, payer: Key, exp: Expectation, ixs: seq<Instruction>, t: nat) {
    && t + 1 < |ixs|
    && ixs[t] == Instruction("TokenkegQfeZyiNwAJbNbGKPFXCWuBvf9Ss623VQ5DA",
                             [AccountMeta(chain.ata(payer, exp.mint), false, true), AccountMeta(exp.mint, false, false),
                              AccountMeta(chain.ata(exp.owner, exp.mint), false, true), AccountMeta(payer, true, false)],
                             [12] + LittleEndian(exp.amount, 8) + [6])
    && ixs[t + 1].program == MEMO_PROGRAM_ID && ixs[t + 1].data == utf8("x402-nonce:" + exp.nonce)
    && (forall j | 0 <= j < |ixs| && j != t :: ixs[j].program != TOKEN_PROGRAM_ID)
    && (forall j | 0 <= j < |ixs| && j != t + 1 :: ixs[j].program != MEMO_PROGRAM_ID)
    && (forall j, k | 0 <= j < |ixs| && 0 <= k < |ixs[j].accounts| && ixs[j].accounts[k].signer :: ixs[j].accounts[k].key == payer)
  }

  ghost predicate IsPayment(chain: Chain, utf8: string -> Bytes, payer: Key, exp: Expectation, ixs: seq<Instruction>) {
    exists t: nat :: PaymentAt(chain, utf8, payer, exp, ixs, t)
  }

  // ---------- what is assumed of the library ----------

  ghost function Signers(ixs: seq<Instruction>, payer: Key): set<Key> {
    {payer} + set j, k | 0 <= j < |ixs| && 0 <= k < |ixs[j].accounts| && ixs[j].accounts[k].signer :: ixs[j].accounts[k].key
  }

  /** The compiled message resolves to the instructions it was built from, lists the payer first and
      requires one signature per signer. */
  ghost predicate Compiles(m: Message, ixs: seq<Instruction>, payer: Key) {
    && m.keys != [] && m.keys[0] == payer
    && m.numRequired == |Signers(ixs, payer)|
    && |m.instructions| == |ixs|
    && (forall i | 0 <= i < |ixs| :: Resolves(m, m.instructions[i]) && ResolvesTo(m, m.instructions[i], ixs[i]))
  }

  ghost predicate ResolvesTo(m: Message, ix: CompiledInstruction, source: Instruction)
    requires Resolves(m, ix)
  {
    && m.keys[ix.program] == source.program && ix.data == source.data
    && |ix.accounts| == |source.accounts|
    && forall k | 0 <= k < |ix.accounts| :: m.keys[ix.accounts[k]] == source.accounts[k].key
  }

  // ---------- round trip ----------

  lemma Pow256Eight()
    ensures Pow256(8) == U64
  {
    assert Pow256(4) == 256 * (256 * (256 * (256 * Pow256(0))));
    assert Pow256(8) == 256 * (256 * (256 * (256 * Pow256(4))));
  }

  lemma TransferDataReads(amount: nat)
    requires amount < U64
    ensures var d := TransferData(amount);
            |d| == 10 && d[0] == TRANSFER_CHECKED && d[9] == USDC_DECIMALS && FromLittleEndian(d[1..9]) == amount
  {
    Pow256Eight();
    LittleEndianInverse(amount, 8);
    assert TransferData(amount)[1..9] == LittleEndian(amount, 8);
  }

  lemma OnlyPayerSigns(chain: Chain, utf8: string -> Bytes, payer: Key, exp: Expectation, ixs: seq<Instruction>, t: nat)
    requires PaymentAt(chain, utf8, payer, exp, ixs, t)
    ensures |Signers(ixs, payer)| == 1
  {
    assert Signers(ixs, payer) == {payer};
  }

  lemma PaymentPositions(chain: Chain, utf8: string -> Bytes, payer: Key, exp: Expectation,
                         ixs: seq<Instruction>, t: nat, m: Message, j: nat)
    requires PaymentAt(chain, utf8, payer, exp, ixs, t) && Compiles(m, ixs, payer) && j < |ixs|
    ensures Runs(m, j, TOKEN_PROGRAM_ID) <==> j == t
    ensures Runs(m, j, MEMO_PROGRAM_ID) <==> j == t + 1
  {
    hide LittleEndian, Signers;
    assert ResolvesTo(m, m.instructions[j], ixs[j]);
    ProgramsDiffer();
  }

  lemma TransferResolves(chain: Chain, m: Message, ix: CompiledInstruction, payer: Key, exp: Expectation)
    requires exp.amount < U64 && Resolves(m, ix)
    requires ResolvesTo(m, ix, TransferCheckedIx(chain.ata(payer, exp.mint), exp.mint, chain.ata(exp.owner, exp.mint), payer, exp.amount))
    ensures IsExpectedTransfer(chain, m, ix, exp)
  {
    TransferDataReads(exp.amount);
  }

  lemma PaymentMessageAccepted(chain: Chain, utf8: string -> Bytes, payer: Key, exp: Expectation,
                               ixs: seq<Instruction>, m: Message, sig: Bytes, message: Bytes)
    requires IsPayment(chain, utf8, payer, exp, ixs) && exp.amount < U64
    requires Compiles(m, ixs, payer) && chain.sigVerifies(sig, payer, message)
    requires var text := MEMO_NONCE_PREFIX + exp.nonce; chain.utf8Decode(utf8(text)) == Some(text)
    ensures AcceptsMessage(chain, m, [sig], message, exp)
  {
    var t: nat :| PaymentAt(chain, utf8, payer, exp, ixs, t);
    OnlyPayerSigns(chain, utf8, payer, exp, ixs, t);
    forall j: nat | j < |ixs| ensures Runs(m, j, TOKEN_PROGRAM_ID) <==> j == t
                              ensures Runs(m, j, MEMO_PROGRAM_ID) <==> j == t + 1
    {
      PaymentPositions(chain, utf8, payer, exp, ixs, t, m, j);
    }
    assert ResolvesTo(m, m.instructions[t], ixs[t]) && ResolvesTo(m, m.instructions[t + 1], ixs[t + 1]);
    TransferResolves(chain, m, m.instructions[t], payer, exp);
    assert ExactlyOneTransfer(chain, m, exp);
    assert IsExpectedMemo(chain, m.instructions[t + 1], exp);
    assert ExactlyOneMemo(chain, m, exp);
  }

  lemma OneSignatureWire(sig: Bytes, message: Bytes)
    requires |sig| == 64 && message != []
    ensures SplitWire(Encode(1) + Concat([sig]) + message) == Ok(([sig], message))
  {
    SplitBuiltWire([sig], message);
  }

  /** What either builder produces is split and accepted for the values it was built from, with the
      payer, memo and signature read back. */
  lemma BuiltTransactionVerifies(chain: Chain, utf8: string -> Bytes, payer: Key, exp: Expectation,
                                 ixs: seq<Instruction>, m: Message, sig: Bytes, message: Bytes, tx: string)
    requires IsPayment(chain, utf8, payer, exp, ixs) && 0 < exp.amount < U64
    requires Compiles(m, ixs, payer) && chain.parseMessage(message) == Some(m) && message != []
    requires |sig| == 64 && chain.sigVerifies(sig, payer, message)
    requires chain.base64Decode(tx) == Some(Encode(1) + Concat([sig]) + message)
    requires var text := MEMO_NONCE_PREFIX + exp.nonce; chain.utf8Decode(utf8(text)) == Some(text)
    ensures VerifySpec(chain, tx, exp)
         == Ok(ProofResult(payer, exp.amount, chain.ata(exp.owner, exp.mint), MEMO_NONCE_PREFIX + exp.nonce, chain.base58(sig)))
  {
    hide IsPayment, AcceptsMessage, LittleEndian, ResolvesTo, Signers, Walk;
    OneSignatureWire(sig, message);
    PaymentMessageAccepted(chain, utf8, payer, exp, ixs, m, sig, message);
    AcceptedMessages(chain, m, [sig], message, exp);
    assert VerifySpec(chain, tx, exp) == Verdict(chain, m, [sig], message, exp);
  }

  /** It is accepted for no other amount, nonce, mint or destination. */
  lemma BuiltTransactionIsSpecific(chain: Chain, utf8: string -> Bytes, payer: Key, exp: Expectation,
                                   ixs: seq<Instruction>, m: Message, sig: Bytes, message: Bytes, tx: string, other: Expectation)
    requires IsPayment(chain, utf8, payer, exp, ixs) && 0 < exp.amount < U64
    requires Compiles(m, ixs, payer) && chain.parseMessage(message) == Some(m) && message != []
    requires |sig| == 64 && chain.sigVerifies(sig, payer, message)
    requires chain.base64Decode(tx) == Some(Encode(1) + Concat([sig]) + message)
    requires var text := MEMO_NONCE_PREFIX + exp.nonce; chain.utf8Decode(utf8(text)) == Some(text)
    ensures VerifySpec(chain, tx, other).Ok? <==>
              && other.amount == exp.amount && other.nonce == exp.nonce && other.mint == exp.mint
              && chain.ata(other.owner, other.mint) == chain.ata(exp.owner, exp.mint)
  {
    BuiltTransactionVerifies(chain, utf8, payer, exp, ixs, m, sig, message, tx);
    VerifySoundAndComplete(chain, tx, exp);
    VerifySoundAndComplete(chain, tx, other);
    if Accepts(chain, tx, other) {
      OneTransactionOneExpectation(chain, tx, other, exp);
    } else if && other.amount == exp.amount && other.nonce == exp.nonce && other.mint == exp.mint
              && chain.ata(other.owner, other.mint) == chain.ata(exp.owner, exp.mint) {
      SameDestinationSameVerdict(chain, tx, exp, other);
    }
  }

  lemma SameDestinationSameVerdict(chain: Chain, tx: string, a: Expectation, b: Expectation)
    requires a.amount == b.amount && a.nonce == b.nonce && a.mint == b.mint
    requires chain.ata(a.owner, a.mint) == chain.ata(b.owner, b.mint)
    requires Accepts(chain, tx, a)
    ensures Accepts(chain, tx, b)
  {
    var (m, sigs, message) := Contents(chain, tx).value;
    var t: nat :| t < |m.instructions| && Runs(m, t, TOKEN_PROGRAM_ID) && IsExpectedTransfer(chain, m, m.instructions[t], a)
               && forall j: nat | j < |m.instructions| && Runs(m, j, TOKEN_PROGRAM_ID) :: j == t;
    assert IsExpectedTransfer(chain, m, m.instructions[t], b);
    var n: nat :| n < |m.instructions| && Runs(m, n, MEMO_PROGRAM_ID) && IsExpectedMemo(chain, m.instructions[n], a)
               && forall j: nat | j < |m.instructions| && Runs(m, j, MEMO_PROGRAM_ID) :: j == n;
    assert IsExpectedMemo(chain, m.instructions[n], b);
  }
}
