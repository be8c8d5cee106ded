/** The constant encoding tables of the Hack assembler and the token and
    command vocabularies shared by the lexer, the parser and the coder
    (base.rs). The tables are built once and never changed, so they are
    Dafny constants. */
module Base {

  /** The three instruction shapes: `@value`, `dest=comp;jump` and `(label)`. */
  datatype CommandType = ACommand | CCommand | LCommand

  /** The token kinds of the lexer (TOKENTYPE). */
  datatype TokenType = At | Number | Symbol | LeftBrace | RightBrace | Equal | Semicolon | Expression

  /** A token keeps the text it was made from. */
  datatype Token = Token(repr: string, tokenType: TokenType)

  /** Destination mnemonics to their 3-bit codes. */
  const DEST: map<string, string> := map[
    "M" := "001", "D" := "010", "MD" := "011", "A" := "100",
    "AM" := "101", "AD" := "110", "AMD" := "111"]

  /** Jump mnemonics to their 3-bit codes. */
  const JUMP: map<string, string> := map[
    "JGT" := "001", "JEQ" := "010", "JGE" := "011", "JLT" := "100",
    "JNE" := "101", "JLE" := "110", "JMP" := "111"]

  /** Names bound before assembly starts: SP, LCL, ARG, THIS and THAT,
      the two memory-mapped devices and the sixteen registers R0-R15. */
  const PREDEFINED: map<string, nat> := map[
    "SP" := 0, "LCL" := 1, "ARG" := 2, "THIS" := 3, "THAT" := 4,
    "SCREEN" := 16384, "KBD" := 24576,
    "R0" := 0, "R1" := 1, "R2" := 2, "R3" := 3, "R4" := 4, "R5" := 5,
    "R6" := 6, "R7" := 7, "R8" := 8, "R9" := 9, "R10" := 10, "R11" := 11,
    "R12" := 12, "R13" := 13, "R14" := 14, "R15" := 15]

  /** Computation mnemonics to their 7-bit codes; the first bit selects M
      (memory) instead of A as the ALU's second operand. */
  const COMP: map<string, string> := map[
    "0" := "0101010", "1" := "0111111", "-1" := "0111010",
    "D" := "0001100", "A" := "0110000", "M" := "1110000",
    "!D" := "0001101", "!A" := "0110001", "!M" := "1110001",
    "-D" := "0001111", "-A" := "0110011", "-M" := "1110011",
    "D+1" := "0011111", "A+1" := "0110111", "M+1" := "1110111",
    "D-1" := "0001110", "A-1" := "0110010", "M-1" := "1110010",
    "D+A" := "0000010", "D+M" := "1000010",
    "D-A" := "0010011", "D-M" := "1010011",
    "A-D" := "0000111", "M-D" := "1000111",
    "D&A" := "0000000", "D&M" := "1000000",
    "D|A" := "0010101", "D|M" := "1010101"]

  predicate IsBits(s: string) {
    forall i :: 0 <= i < |s| ==> s[i] == '0' || s[i] == '1'
  }

  /** A table whose codes are all `width`-character bit strings. */
  ghost predicate CodesAreBits(table: map<string, string>, width: nat) {
    forall k :: k in table ==> |table[k]| == width && IsBits(table[k])
  }

  /** No two mnemonics share a code, so a code can be decoded. */
  ghost predicate Injective(table: map<string, string>) {
    forall k1, k2 :: k1 in table && k2 in table && table[k1] == table[k2] ==> k1 == k2
  }

  /** `k` with every `M` replaced by `A`. */
  function MToA(k: string): (r: string)
    ensures |r| == |k| && 'M' !in r
    ensures forall i :: 0 <= i < |k| ==> r[i] == (if k[i] == 'M' then 'A' else k[i])
  {
    if k == [] then [] else [if k[0] == 'M' then 'A' else k[0]] + MToA(k[1..])
  }

  // The table lemmas below reason about each table through the list of
  // its keys and the list of their codes, in the order the source inserts
  // them: looking up a string literal in a large map display is costly for
  // the verifier, indexing a list is not.

  ghost predicate Distinct<T>(s: seq<T>) {
    forall i, j :: 0 <= i < j < |s| ==> s[i] != s[j]
  }

  /** `keys` lists the keys of `table` and `values[i]` is the value of `keys[i]`. */
  ghost predicate Lists<V>(table: map<string, V>, keys: seq<string>, values: seq<V>) {
    && |keys| == |values|
    && (forall i :: 0 <= i < |keys| ==> keys[i] in table && table[keys[i]] == values[i])
    && (forall k :: k in table ==> k in keys)
  }

  lemma {:induction false} ListedCard(keys: seq<string>)
    requires Distinct(keys)
    ensures |set k | k in keys| == |keys|
  {
    if keys != [] {
      var init := keys[..|keys| - 1];
      ListedCard(init);
      assert (set k | k in keys) == (set k | k in init) + {keys[|keys| - 1]};
    }
  }

  /** A table listed without repeated keys has as many entries as the list. */
  lemma ListedSize<V>(table: map<string, V>, keys: seq<string>, values: seq<V>)
    requires Lists(table, keys, values) && Distinct(keys)
    ensures |table| == |keys|
  {
    ListedCard(keys);
    assert table.Keys == set k | k in keys;
  }

  /** A table listed with distinct codes is injective, has distinct keys
      and so as many entries as the list. */
  lemma ListedInjective(table: map<string, string>, keys: seq<string>, codes: seq<string>)
    requires Lists(table, keys, codes) && Distinct(codes)
    ensures Injective(table) && Distinct(keys) && |table| == |keys|
  {
    forall k1, k2 | k1 in table && k2 in table && table[k1] == table[k2]
      ensures k1 == k2
    {
      var i :| 0 <= i < |keys| && keys[i] == k1;
      var j :| 0 <= j < |keys| && keys[j] == k2;
      assert codes[i] == codes[j];
    }
    ListedSize(table, keys, codes);
  }

  lemma ListedBits(table: map<string, string>, keys: seq<string>, codes: seq<string>, width: nat)
    requires Lists(table, keys, codes)
    requires forall i :: 0 <= i < |codes| ==> |codes[i]| == width && IsBits(codes[i])
    ensures CodesAreBits(table, width)
  {
  }

  ghost const DestKeys: seq<string> := ["M", "D", "MD", "A", "AM", "AD", "AMD"]
  ghost const DestCodes: seq<string> := ["001", "010", "011", "100", "101", "110", "111"]
  ghost const JumpKeys: seq<string> := ["JGT", "JEQ", "JGE", "JLT", "JNE", "JLE", "JMP"]
  ghost const JumpCodes: seq<string> := DestCodes
  ghost const CompKeys: seq<string> := [
    "0", "1", "-1", "D", "A", "M", "!D",
    "!A", "!M", "-D", "-A", "-M", "D+1", "A+1",
    "M+1", "D-1", "A-1", "M-1", "D+A", "D+M", "D-A",
    "D-M", "A-D", "M-D", "D&A", "D&M", "D|A", "D|M"]
  ghost const CompCodes: seq<string> := [
    "0101010", "0111111", "0111010", "0001100", "0110000", "1110000", "0001101",
    "0110001", "1110001", "0001111", "0110011", "1110011", "0011111", "0110111",
    "1110111", "0001110", "0110010", "1110010", "0000010", "1000010", "0010011",
    "1010011", "0000111", "1000111", "0000000", "1000000", "0010101", "1010101"]
  ghost const PredefinedKeys: seq<string> := [
    "SP", "LCL", "ARG", "THIS", "THAT", "SCREEN", "KBD",
    "R0", "R1", "R2", "R3", "R4", "R5", "R6", "R7", "R8", "R9",
    "R10", "R11", "R12", "R13", "R14", "R15"]
  ghost const PredefinedValues: seq<nat> := [
    0, 1, 2, 3, 4, 16384, 24576,
    0, 1, 2, 3, 4, 5, 6, 7, 8, 9, 10, 11, 12, 13, 14, 15]

  lemma DestListed()
    ensures Lists(DEST, DestKeys, DestCodes)
  {
    assert forall k :: k in DEST ==> k in DestKeys;
  }

  lemma JumpListed()
    ensures Lists(JUMP, JumpKeys, JumpCodes)
  {
    assert forall k :: k in JUMP ==> k in JumpKeys;
  }

  lemma ThreeBitCodes()
    ensures |DestCodes| == 7 && Distinct(DestCodes)
    ensures forall i :: 0 <= i < |DestCodes| ==> |DestCodes[i]| == 3 && IsBits(DestCodes[i]) && DestCodes[i] != "000"
  {
  }

  /** A listed table whose codes all differ from `c` has no entry coded `c`. */
  lemma ListedAvoids(table: map<string, string>, keys: seq<string>, codes: seq<string>, c: string)
    requires Lists(table, keys, codes)
    requires forall i :: 0 <= i < |codes| ==> codes[i] != c
    ensures c !in table.Values
  {
    forall k | k in table ensures table[k] != c {
      var i :| 0 <= i < |keys| && keys[i] == k;
    }
  }

  /** The table of a 3-bit field: seven entries, distinct non-zero codes. */
  lemma ThreeBitTable(table: map<string, string>, keys: seq<string>)
    requires Lists(table, keys, DestCodes)
    ensures |table| == 7 && CodesAreBits(table, 3) && Injective(table) && "000" !in table.Values
  {
    ThreeBitCodes();
    ListedInjective(table, keys, DestCodes);
    ListedBits(table, keys, DestCodes, 3);
    ListedAvoids(table, keys, DestCodes, "000");
  }

  lemma DestJumpShape()
    ensures |DEST| == 7 && |JUMP| == 7
    ensures CodesAreBits(DEST, 3) && CodesAreBits(JUMP, 3)
    ensures Injective(DEST) && Injective(JUMP)
    ensures "000" !in DEST.Values && "000" !in JUMP.Values
  {
    DestListed();
    ThreeBitTable(DEST, DestKeys);
    JumpListed();
    ThreeBitTable(JUMP, JumpKeys);
  }

  lemma CompListedFirst()
    ensures |CompKeys| == 28 && |CompCodes| == 28
    ensures forall i :: 0 <= i < 7 ==> CompKeys[i] in COMP && COMP[CompKeys[i]] == CompCodes[i]
  {
  }

  lemma CompListedSecond()
    ensures |CompKeys| == 28 && |CompCodes| == 28
    ensures forall i :: 7 <= i < 14 ==> CompKeys[i] in COMP && COMP[CompKeys[i]] == CompCodes[i]
  {
  }

  lemma CompListedThird()
    ensures |CompKeys| == 28 && |CompCodes| == 28
    ensures forall i :: 14 <= i < 21 ==> CompKeys[i] in COMP && COMP[CompKeys[i]] == CompCodes[i]
  {
  }

  lemma CompListedFourth()
    ensures |CompKeys| == 28 && |CompCodes| == 28
    ensures forall i :: 21 <= i < 28 ==> CompKeys[i] in COMP && COMP[CompKeys[i]] == CompCodes[i]
  {
  }

  lemma CompListed()
    ensures Lists(COMP, CompKeys, CompCodes)
  {
    CompListedFirst();
    CompListedSecond();
    CompListedThird();
    CompListedFourth();
  }

  lemma CompCodesDistinctFirst()
    ensures |CompCodes| == 28
    ensures forall i, j :: 0 <= i < 7 && i < j < 28 ==> CompCodes[i] != CompCodes[j]
  {
  }

  lemma CompCodesDistinctSecond()
    ensures |CompCodes| == 28
    ensures forall i, j :: 7 <= i < 14 && i < j < 28 ==> CompCodes[i] != CompCodes[j]
  {
  }

  lemma CompCodesDistinctThird()
    ensures |CompCodes| == 28
    ensures forall i, j :: 14 <= i < 28 && i < j < 28 ==> CompCodes[i] != CompCodes[j]
  {
  }

  lemma CompCodesDistinct()
    ensures |CompCodes| == 28 && Distinct(CompCodes)
  {
    CompCodesDistinctFirst();
    CompCodesDistinctSecond();
    CompCodesDistinctThird();
  }

  lemma SevenBitCodes()
    ensures |CompCodes| == 28 && Distinct(CompCodes)
    ensures forall i :: 0 <= i < |CompCodes| ==> |CompCodes[i]| == 7 && IsBits(CompCodes[i])
  {
    CompCodesDistinct();
  }

  lemma CompShape()
    ensures |COMP| == 28 && CodesAreBits(COMP, 7) && Injective(COMP)
  {
    CompListed();
    SevenBitCodes();
    ListedInjective(COMP, CompKeys, CompCodes);
    ListedBits(COMP, CompKeys, CompCodes, 7);
  }

  lemma CompBitsFirst()
    ensures |CompKeys| == 28 && |CompCodes| == 28
    ensures forall i :: 0 <= i < 14 ==> (CompCodes[i][0] == '1' <==> 'M' in CompKeys[i])
  {
  }

  lemma CompBitsSecond()
    ensures |CompKeys| == 28 && |CompCodes| == 28
    ensures forall i :: 14 <= i < 28 ==> (CompCodes[i][0] == '1' <==> 'M' in CompKeys[i])
  {
  }

  lemma MToAPointwise(m: string, a: string)
    requires |m| == |a|
    requires forall i :: 0 <= i < |m| ==> a[i] == (if m[i] == 'M' then 'A' else m[i])
    ensures MToA(m) == a
  {
  }

  /** The mnemonics on M sit at these indices, each right after its twin on A. */
  ghost const MemoryIndices: set<int> := {5, 8, 11, 14, 17, 19, 21, 23, 25, 27}

  lemma CompTwinsFirst(i: int)
    requires i in {5, 8, 11}
    ensures |CompKeys| == 28 && |CompCodes| == 28
    ensures MToA(CompKeys[i]) == CompKeys[i - 1] && CompCodes[i - 1] == "0" + CompCodes[i][1..]
  {
    MToAPointwise(CompKeys[i], CompKeys[i - 1]);
  }

  lemma CompTwinsSecond(i: int)
    requires i in {14, 17}
    ensures |CompKeys| == 28 && |CompCodes| == 28
    ensures MToA(CompKeys[i]) == CompKeys[i - 1] && CompCodes[i - 1] == "0" + CompCodes[i][1..]
  {
    MToAPointwise(CompKeys[i], CompKeys[i - 1]);
  }

  lemma CompTwinsThird(i: int)
    requires i in {19, 21, 23}
    ensures |CompKeys| == 28 && |CompCodes| == 28
    ensures MToA(CompKeys[i]) == CompKeys[i - 1] && CompCodes[i - 1] == "0" + CompCodes[i][1..]
  {
    MToAPointwise(CompKeys[i], CompKeys[i - 1]);
  }

  lemma CompTwinsFourth(i: int)
    requires i in {25, 27}
    ensures |CompKeys| == 28 && |CompCodes| == 28
    ensures MToA(CompKeys[i]) == CompKeys[i - 1] && CompCodes[i - 1] == "0" + CompCodes[i][1..]
  {
    MToAPointwise(CompKeys[i], CompKeys[i - 1]);
  }

  lemma CompTwinAt(i: int)
    requires i in MemoryIndices
    ensures 0 < i < 28 && |CompKeys| == 28 && |CompCodes| == 28
    ensures MToA(CompKeys[i]) == CompKeys[i - 1] && CompCodes[i - 1] == "0" + CompCodes[i][1..]
  {
    if i <= 11 {
      CompTwinsFirst(i);
    } else if i <= 17 {
      CompTwinsSecond(i);
    } else if i <= 23 {
      CompTwinsThird(i);
    } else {
      CompTwinsFourth(i);
    }
  }

  lemma CompMemoryIndices()
    ensures |CompKeys| == 28
    ensures forall i :: 0 <= i < 28 && 'M' in CompKeys[i] ==> i in MemoryIndices
  {
  }

  /** The memory bit is set exactly for the mnemonics that read M, and
      reading A instead of M changes only that bit. */
  /** The row of the COMP listing that holds mnemonic `k`. */
  lemma CompRow(k: string) returns (i: int)
    requires k in COMP
    ensures 0 <= i < 28 && |CompKeys| == 28 && |CompCodes| == 28
    ensures CompKeys[i] == k && COMP[k] == CompCodes[i]
  {
    CompListed();
    i :| 0 <= i < |CompKeys| && CompKeys[i] == k;
  }

  lemma CompMemoryBit()
    ensures forall k :: k in COMP ==> (COMP[k][0] == '1' <==> 'M' in k)
    ensures forall k :: k in COMP && 'M' in k ==>
      MToA(k) in COMP && COMP[MToA(k)] == "0" + COMP[k][1..]
  {
    CompListed();
    SevenBitCodes();
    CompBitsFirst();
    CompBitsSecond();
    CompMemoryIndices();
    forall k | k in COMP
      ensures COMP[k][0] == '1' <==> 'M' in k
      ensures 'M' in k ==> MToA(k) in COMP && COMP[MToA(k)] == "0" + COMP[k][1..]
    {
      var i := CompRow(k);
      if 'M' in k {
        CompTwinAt(i);
        assert CompKeys[i - 1] in COMP && COMP[CompKeys[i - 1]] == CompCodes[i - 1];
      }
    }
  }

  lemma PredefinedListedFirst()
    ensures |PredefinedKeys| == 23 && |PredefinedValues| == 23
    ensures forall i :: 0 <= i < 8 ==> PredefinedKeys[i] in PREDEFINED && PREDEFINED[PredefinedKeys[i]] == PredefinedValues[i]
  {
  }

  lemma PredefinedListedSecond()
    ensures |PredefinedKeys| == 23 && |PredefinedValues| == 23
    ensures forall i :: 8 <= i < 16 ==> PredefinedKeys[i] in PREDEFINED && PREDEFINED[PredefinedKeys[i]] == PredefinedValues[i]
  {
  }

  lemma PredefinedListedThird()
    ensures |PredefinedKeys| == 23 && |PredefinedValues| == 23
    ensures forall i :: 16 <= i < 23 ==> PredefinedKeys[i] in PREDEFINED && PREDEFINED[PredefinedKeys[i]] == PredefinedValues[i]
  {
  }

  lemma PredefinedKeysListed()
    ensures forall k :: k in PREDEFINED ==> k in PredefinedKeys
  {
  }

  lemma PredefinedListed()
    ensures Lists(PREDEFINED, PredefinedKeys, PredefinedValues)
  {
    PredefinedListedFirst();
    PredefinedListedSecond();
    PredefinedListedThird();
    PredefinedKeysListed();
  }

  lemma PredefinedKeysDistinctFirst()
    ensures |PredefinedKeys| == 23
    ensures forall i, j :: 0 <= i < 8 && i < j < 23 ==> PredefinedKeys[i] != PredefinedKeys[j]
  {
  }

  lemma PredefinedKeysDistinctSecond()
    ensures |PredefinedKeys| == 23
    ensures forall i, j :: 8 <= i < 23 && i < j < 23 ==> PredefinedKeys[i] != PredefinedKeys[j]
  {
  }

  lemma PredefinedKeysDistinct()
    ensures Distinct(PredefinedKeys)
  {
    PredefinedKeysDistinctFirst();
    PredefinedKeysDistinctSecond();
  }

  lemma PredefinedValuesBelow()
    ensures forall i :: 0 <= i < |PredefinedValues| ==> PredefinedValues[i] < 32768
  {
  }

  /** The predefined table binds 23 names, all to 15-bit addresses. */
  lemma PredefinedShape()
    ensures |PREDEFINED| == 23
    ensures "SP" in PREDEFINED && PREDEFINED["SP"] == 0
    ensures "SCREEN" in PREDEFINED && PREDEFINED["SCREEN"] == 16384
    ensures "KBD" in PREDEFINED && PREDEFINED["KBD"] == 24576
    ensures forall k :: k in PREDEFINED ==> PREDEFINED[k] < 32768
  {
    PredefinedSize();
    PredefinedBelow();
    PredefinedDevices();
  }

  /** SP and the two memory-mapped devices, SCREEN and KBD. */
  lemma PredefinedDevices()
    ensures "SP" in PREDEFINED && PREDEFINED["SP"] == 0
    ensures "SCREEN" in PREDEFINED && PREDEFINED["SCREEN"] == 16384
    ensures "KBD" in PREDEFINED && PREDEFINED["KBD"] == 24576
  {
    PredefinedListedFirst();
    assert PredefinedKeys[0] == "SP" && PredefinedKeys[5] == "SCREEN" && PredefinedKeys[6] == "KBD";
  }

  lemma PredefinedSize()
    ensures |PREDEFINED| == 23
  {
    PredefinedListed();
    PredefinedKeysDistinct();
    ListedSize(PREDEFINED, PredefinedKeys, PredefinedValues);
  }

  /** Every predefined symbol names an address below 32768. */
  lemma PredefinedBelow()
    ensures forall k :: k in PREDEFINED ==> PREDEFINED[k] < 32768
  {
    PredefinedListed();
    PredefinedValuesBelow();
    forall k | k in PREDEFINED ensures PREDEFINED[k] < 32768 {
      var i :| 0 <= i < |PredefinedKeys| && PredefinedKeys[i] == k;
    }
  }
}
