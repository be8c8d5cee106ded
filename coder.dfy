/** The code generator of coder.rs: an A command becomes `0` and its
    address in binary, a C command `111` and the codes of its parts. */
module Coding {
  import opened Errors
  import opened Base
  import opened Parsing
  import Lexing

  const I32Min: int := -0x8000_0000
  const I32Max: int := 0x7FFF_FFFF

  /** The value of a string of decimal digits. */
  function DigitsValue(s: string): nat
    requires forall i :: 0 <= i < |s| ==> Lexing.IsDigit(s[i])
  {
    if s == [] then 0 else 10 * DigitsValue(s[..|s| - 1]) + DigitOf(s[|s| - 1])
  }

  function DigitOf(c: char): nat
    requires Lexing.IsDigit(c)
  {
    c as int - '0' as int
  }

  /** `str::parse::<i32>`: an optional sign, then at least one ASCII
      digit, and the value must fit 32 signed bits. */
  function ParseI32(s: string): (r: Option<int>)
    ensures r.Some? ==> I32Min <= r.value <= I32Max
  {
    if s == [] then None
    else
      var digits := if s[0] == '-' || s[0] == '+' then s[1..] else s;
      if !Lexing.IsNumeral(digits) then None
      else
        var v: int := if s[0] == '-' then -(DigitsValue(digits) as int) else DigitsValue(digits);
        if I32Min <= v <= I32Max then Some(v) else None
  }

  function DigitChar(d: nat): char
    requires d < 10
  {
    ('0' as int + d) as char
  }

  /** The decimal numeral of `n`, without leading zeros. */
  function Decimal(n: nat): (r: string)
    ensures Lexing.IsNumeral(r)
  {
    if n < 10 then [DigitChar(n)] else Decimal(n / 10) + [DigitChar(n % 10)]
  }

  lemma {:induction false} DecimalValue(n: nat)
    ensures DigitsValue(Decimal(n)) == n
  {
    if n >= 10 {
      DecimalValue(n / 10);
      assert Decimal(n)[..|Decimal(n)| - 1] == Decimal(n / 10);
    }
  }

  /** Numerals are read back as the number they show. */
  lemma DecimalRoundTrip(n: nat)
    requires n <= I32Max
    ensures ParseI32(Decimal(n)) == Some(n)
  {
    DecimalValue(n);
  }

  /** A numeral parses iff its value fits 31 bits; larger numerals are
      not numbers to `translate_a`. */
  lemma NumeralParse(s: string)
    requires Lexing.IsNumeral(s)
    ensures ParseI32(s) == if DigitsValue(s) <= I32Max then Some(DigitsValue(s)) else None
  {
  }

  /** A SYMBOL never parses as a number. */
  lemma IdentifierNotNumber(s: string)
    requires Lexing.IsIdentifier(s)
    ensures ParseI32(s) == None
  {
    assert !Lexing.IsDigit(s[0]);
  }

  function Bit(b: nat): char
    requires b < 2
  {
    if b == 0 then '0' else '1'
  }

  /** `{:b}`: the binary numeral of `n`, without leading zeros. */
  function Binary(n: nat): (r: string)
    ensures |r| >= 1 && IsBits(r)
  {
    if n < 2 then [Bit(n)] else Binary(n / 2) + [Bit(n % 2)]
  }

  /** The number a bit string stands for, most significant bit first. */
  function BitsValue(s: string): nat
    requires IsBits(s)
  {
    if s == [] then 0 else 2 * BitsValue(s[..|s| - 1]) + (if s[|s| - 1] == '1' then 1 else 0)
  }

  function Pow2(k: nat): nat {
    if k == 0 then 1 else 2 * Pow2(k - 1)
  }

  lemma {:induction false} BinaryValue(n: nat)
    ensures BitsValue(Binary(n)) == n
  {
    if n >= 2 {
      BinaryValue(n / 2);
      assert Binary(n)[..|Binary(n)| - 1] == Binary(n / 2);
    }
  }

  /** `n` needs at most `k` binary digits exactly when it is below 2^k. */
  lemma {:induction false} BinaryWidth(n: nat, k: nat)
    requires k >= 1
    ensures |Binary(n)| <= k <==> n < Pow2(k)
  {
    if n >= 2 {
      if k == 1 {
        assert |Binary(n)| >= 2;
        assert Pow2(1) == 2;
      } else {
        BinaryWidth(n / 2, k - 1);
      }
    } else {
      PowAtLeastTwo(k);
    }
  }

  lemma {:induction false} PowAtLeastTwo(k: nat)
    requires k >= 1
    ensures Pow2(k) >= 2
  {
    if k > 1 {
      PowAtLeastTwo(k - 1);
    }
  }

  function Zeros(n: nat): (r: string)
    ensures |r| == n && IsBits(r) && forall i :: 0 <= i < n ==> r[i] == '0'
  {
    if n == 0 then [] else Zeros(n - 1) + ['0']
  }

  /** `{:0w}`: zeros in front of `s` up to width `w`; a longer `s` is
      kept whole. */
  function Pad(s: string, w: nat): string {
    if |s| < w then Zeros(w - |s|) + s else s
  }

  lemma {:induction false} ZerosValue(z: string, s: string)
    requires IsBits(z) && IsBits(s) && (forall i :: 0 <= i < |z| ==> z[i] == '0')
    ensures IsBits(z + s) && BitsValue(z + s) == BitsValue(s)
    decreases |s|
  {
    if s == [] {
      assert z + s == z;
      ZerosOnly(z);
    } else {
      var s' := s[..|s| - 1];
      ZerosValue(z, s');
      assert (z + s)[..|z + s| - 1] == z + s';
    }
  }

  lemma {:induction false} ZerosOnly(z: string)
    requires IsBits(z) && (forall i :: 0 <= i < |z| ==> z[i] == '0')
    ensures BitsValue(z) == 0
  {
    if z != [] {
      ZerosOnly(z[..|z| - 1]);
    }
  }

  /** `format!("0{:015b}", n)`: the word for address `n`. */
  function AWord(n: nat): string {
    "0" + Pad(Binary(n), 15)
  }

  /** An address below 2^15 becomes a 16-bit word with a leading `0`
      that reads back as the address. */
  lemma AWordRoundTrip(n: nat)
    requires n < 0x8000
    ensures |AWord(n)| == 16 && AWord(n)[0] == '0' && IsBits(AWord(n))
    ensures BitsValue(AWord(n)) == n
  {
    BinaryWidth(n, 15);
    assert Pow2(15) == 0x8000;
    BinaryValue(n);
    var b := Binary(n);
    var z := "0" + Zeros(15 - |b|);
    AWordSplit(n, z);
    ZerosValue(z, b);
  }

  lemma AWordSplit(n: nat, z: string)
    requires |Binary(n)| <= 15 && z == "0" + Zeros(15 - |Binary(n)|)
    ensures AWord(n) == z + Binary(n) && |z| == 16 - |Binary(n)|
    ensures IsBits(z) && forall i :: 0 <= i < |z| ==> z[i] == '0'
  {
  }

  /** An address of 2^15 or more gives a word longer than 16 bits:
      nothing narrows it. */
  lemma AWordTooWide(n: nat)
    requires n >= 0x8000
    ensures |AWord(n)| > 16
  {
    BinaryWidth(n, 15);
    assert Pow2(15) == 0x8000;
  }

  /** `{:b}` of a negative `i32` prints its 32-bit two's complement. */
  function I32Word(n: int): string
    requires I32Min <= n <= I32Max
  {
    AWord(if n < 0 then n + 0x1_0000_0000 else n)
  }

  /** The outcome of resolving an A command's value: the word, and the
      symbol table and next free variable address afterwards. */
  datatype Resolution = Resolution(word: string, symbols: map<string, nat>, varmem: nat)

  /** `translate_a`: a number stands for itself, then a predefined name,
      then a known symbol; any other name is a new variable placed at
      `varmem`. */
  function ResolveA(symbols: map<string, nat>, varmem: nat, value: string): Resolution {
    match ParseI32(value)
    case Some(n) => Resolution(I32Word(n), symbols, varmem)
    case None =>
      if value in PREDEFINED then Resolution(AWord(PREDEFINED[value]), symbols, varmem)
      else if value in symbols then Resolution(AWord(symbols[value]), symbols, varmem)
      else Resolution(AWord(varmem), symbols[value := varmem], varmem + 1)
  }

  /** Resolution adds at most the one value to the table, bound to the
      old `varmem`, and bumps `varmem` exactly when it does. */
  lemma ResolveAFrame(symbols: map<string, nat>, varmem: nat, value: string)
    ensures var r := ResolveA(symbols, varmem, value);
      && ((r.symbols == symbols && r.varmem == varmem)
          || (value !in symbols && r.symbols == symbols[value := varmem] && r.varmem == varmem + 1))
      && (ParseI32(value).Some? || value in PREDEFINED || value in r.symbols)
  {
  }

  /** Every A command becomes a word with a leading `0`. */
  lemma ResolveAWord(symbols: map<string, nat>, varmem: nat, value: string)
    ensures var r := ResolveA(symbols, varmem, value);
      r.word != [] && r.word[0] == '0'
  {
  }

  /** Resolving the same value a second time gives the same word and
      changes nothing. */
  lemma ResolveAStable(symbols: map<string, nat>, varmem: nat, value: string)
    ensures var r := ResolveA(symbols, varmem, value);
      ResolveA(r.symbols, r.varmem, value) == r
  {
  }

  /** A numeral below 2^15 is its own address. */
  lemma ResolveNumber(symbols: map<string, nat>, varmem: nat, value: string)
    requires Lexing.IsNumeral(value) && DigitsValue(value) < 0x8000
    ensures var r := ResolveA(symbols, varmem, value);
      && r.symbols == symbols && r.varmem == varmem
      && |r.word| == 16 && IsBits(r.word) && BitsValue(r.word) == DigitsValue(value)
  {
    NumeralParse(value);
    AWordRoundTrip(DigitsValue(value));
  }

  /** A predefined name resolves to its fixed address whatever the
      table holds. */
  lemma ResolvePredefined(symbols: map<string, nat>, varmem: nat, value: string)
    requires Lexing.IsIdentifier(value) && value in PREDEFINED
    ensures var r := ResolveA(symbols, varmem, value);
      && r.symbols == symbols && r.varmem == varmem
      && |r.word| == 16 && IsBits(r.word) && BitsValue(r.word) == PREDEFINED[value]
  {
    IdentifierNotNumber(value);
    PredefinedBelow();
    AWordRoundTrip(PREDEFINED[value]);
  }

  /** A name that is not predefined but already in the table resolves
      to its bound address, and the table and `varmem` stay as they are. */
  lemma ResolveKnown(symbols: map<string, nat>, varmem: nat, value: string)
    requires Lexing.IsIdentifier(value) && value !in PREDEFINED && value in symbols && symbols[value] < 0x8000
    ensures var r := ResolveA(symbols, varmem, value);
      && r.symbols == symbols && r.varmem == varmem
      && |r.word| == 16 && IsBits(r.word) && BitsValue(r.word) == symbols[value]
  {
    IdentifierNotNumber(value);
    AWordRoundTrip(symbols[value]);
  }

  /** An unknown name becomes a variable at `varmem`. */
  lemma ResolveNewVariable(symbols: map<string, nat>, varmem: nat, value: string)
    requires Lexing.IsIdentifier(value) && value !in PREDEFINED && value !in symbols && varmem < 0x8000
    ensures var r := ResolveA(symbols, varmem, value);
      && r.symbols == symbols[value := varmem] && r.varmem == varmem + 1
      && |r.word| == 16 && IsBits(r.word) && BitsValue(r.word) == varmem
  {
    IdentifierNotNumber(value);
    AWordRoundTrip(varmem);
  }

  /** `translate_a` on the parser's table and `varmem`. */
  method TranslateA(parser: Parser, value: string) returns (word: string)
    modifies parser`symbols, parser`varmem
    ensures Resolution(word, parser.symbols, parser.varmem) == ResolveA(old(parser.symbols), old(parser.varmem), value)
  {
    var n := ParseI32(value);
    if n.Some? {
      return I32Word(n.value);
    }
    if value in PREDEFINED {
      return AWord(PREDEFINED[value]);
    }
    if value in parser.symbols {
      return AWord(parser.symbols[value]);
    }
    parser.symbols := parser.symbols[value := parser.varmem];
    word := AWord(parser.varmem);
    parser.varmem := parser.varmem + 1;
  }

  /** The code of an optional C part, or `blank` when it is absent. */
  function PartCode(table: map<string, string>, part: Option<string>, blank: string): string
    requires part.Some? ==> part.value in table
  {
    if part.Some? then table[part.value] else blank
  }

  /** `translate_c`: `111`, then the codes of comp, dest and jump. An
      absent part is filled with three zeros, the comp included, although
      the comp field is seven bits wide. */
  function TranslateC(cmd: Command): string
    requires cmd.C? && ValidC(cmd)
  {
    "111" + PartCode(COMP, cmd.comp, "000") + PartCode(DEST, cmd.dest, "000") + PartCode(JUMP, cmd.jump, "000")
  }

  /** `D= ;JMP` parses to a dest and a jump with no comp, and is
      translated to the 12-character `111000010111`. */
  lemma MissingCompExample(cmd: Command)
    requires cmd == C(Some("D"), None, Some("JMP"))
    ensures TranslateC(cmd) == "111000010111"
  {
    assert "D" in DEST && DEST["D"] == "010";
    assert "JMP" in JUMP && JUMP["JMP"] == "111";
  }

  /** The code of a part is as wide as its field. */
  lemma PartCodeShape(table: map<string, string>, part: Option<string>, blank: string, width: nat)
    requires part.Some? ==> part.value in table
    requires CodesAreBits(table, width) && |blank| == width && IsBits(blank)
    ensures |PartCode(table, part, blank)| == width && IsBits(PartCode(table, part, blank))
  {
  }

  /** A 3-bit prefix, a comp field of any width, and 3-bit dest and
      jump fields joined, and where each field then sits. */
  lemma Fields(a: string, c: string, d: string, j: string)
    requires |a| == 3 && |d| == 3 && |j| == 3
    requires IsBits(a) && IsBits(c) && IsBits(d) && IsBits(j)
    ensures var w := a + c + d + j; var n := |c|;
      && |w| == n + 9 && IsBits(w)
      && w[..3] == a && w[3..n + 3] == c && w[n + 3..n + 6] == d && w[n + 6..] == j
  {
    var w := a + c + d + j;
    var n := |c|;
    assert w[..3] == a;
    assert w[3..n + 3] == c;
    assert w[n + 3..n + 6] == d;
    assert w[n + 6..] == j;
  }

  lemma CodeWidths()
    ensures CodesAreBits(COMP, 7) && CodesAreBits(DEST, 3) && CodesAreBits(JUMP, 3)
  {
    CompShape();
    DestJumpShape();
  }

  /** A C command with a comp becomes a 16-bit word: `111`, the 7 comp
      bits, then 3 dest and 3 jump bits, each the table code of its part
      or zeros. Without a comp the word is 12 bits: `111`, three zeros,
      dest and jump. */
  lemma TranslateCShape(cmd: Command)
    requires cmd.C? && ValidC(cmd)
    ensures var w := TranslateC(cmd);
      && IsBits(w) && w[..3] == "111"
      && (cmd.comp.Some? ==>
            && |w| == 16 && w[3..10] == COMP[cmd.comp.value]
            && w[10..13] == PartCode(DEST, cmd.dest, "000")
            && w[13..] == PartCode(JUMP, cmd.jump, "000"))
      && (cmd.comp.None? ==>
            && |w| == 12 && w[3..6] == "000"
            && w[6..9] == PartCode(DEST, cmd.dest, "000")
            && w[9..] == PartCode(JUMP, cmd.jump, "000"))
  {
    CodeWidths();
    var c := PartCode(COMP, cmd.comp, "000");
    var d := PartCode(DEST, cmd.dest, "000");
    var j := PartCode(JUMP, cmd.jump, "000");
    if cmd.comp.Some? {
      PartCodeShape(COMP, cmd.comp, "0000000", 7);
    }
    PartCodeShape(DEST, cmd.dest, "000", 3);
    PartCodeShape(JUMP, cmd.jump, "000", 3);
    Fields("111", c, d, j);
  }

  /** The `a` bit (the fourth) is set exactly when the comp reads M. */
  lemma TranslateCMemoryBit(cmd: Command)
    requires cmd.C? && ValidC(cmd) && cmd.comp.Some?
    ensures TranslateC(cmd)[3] == '1' <==> 'M' in cmd.comp.value
  {
    TranslateCShape(cmd);
    CompMemoryBit();
    assert TranslateC(cmd)[3] == TranslateC(cmd)[3..10][0];
  }

  /** Two C commands with a comp that give the same word are the same
      command: the word can be decoded. */
  lemma TranslateCInjective(c1: Command, c2: Command)
    requires c1.C? && ValidC(c1) && c1.comp.Some?
    requires c2.C? && ValidC(c2) && c2.comp.Some?
    requires TranslateC(c1) == TranslateC(c2)
    ensures c1 == c2
  {
    TranslateCShape(c1);
    TranslateCShape(c2);
    CompShape();
    DestJumpShape();
    var w1, w2 := TranslateC(c1), TranslateC(c2);
    assert w1[10..13] == w2[10..13] && w1[13..] == w2[13..] && w1[3..10] == w2[3..10];
  }

  /** The encoder as evidently intended: a C command must compute
      something, so one with no comp is rejected rather than given a
      12-bit word; any other is encoded by `translate_c`. */
  function TranslateCChecked(cmd: Command): Result<string>
    requires cmd.C? && ValidC(cmd)
  {
    if cmd.comp.None? then Failure(HackError(None, None, "No comp found"))
    else Success(TranslateC(cmd))
  }

  /** The intended encoder accepts exactly the commands with a comp, and
      then gives a 16-bit word starting `111`, whose `a` bit says whether
      the comp reads M. */
  lemma TranslateCCheckedWords(cmd: Command)
    requires cmd.C? && ValidC(cmd)
    ensures var r := TranslateCChecked(cmd);
      && (r.Success? <==> cmd.comp.Some?)
      && (r.Success? ==>
            && |r.value| == 16 && IsBits(r.value) && r.value[..3] == "111"
            && (r.value[3] == '1' <==> 'M' in cmd.comp.value))
  {
    TranslateCShape(cmd);
    if cmd.comp.Some? {
      TranslateCMemoryBit(cmd);
    }
  }

  /** Every word the intended encoder gives names one command, with no
      side condition: the 12-bit words of comp-less commands are gone. */
  lemma TranslateCCheckedInjective(c1: Command, c2: Command)
    requires c1.C? && ValidC(c1) && c2.C? && ValidC(c2)
    requires TranslateCChecked(c1).Success? && TranslateCChecked(c1) == TranslateCChecked(c2)
    ensures c1 == c2
  {
    TranslateCInjective(c1, c2);
  }

  /** `MD=M-1;JMP`. */
  lemma TranslateCExample(cmd: Command)
    requires cmd == C(Some("MD"), Some("M-1"), Some("JMP"))
    ensures TranslateC(cmd) == "1111110010011111"
  {
    assert "MD" in DEST && DEST["MD"] == "011";
    assert "M-1" in COMP && COMP["M-1"] == "1110010";
    assert "JMP" in JUMP && JUMP["JMP"] == "111";
  }

  lemma AWordZero()
    ensures AWord(0) == "0000000000000000"
  {
  }

  lemma AWordFifteen()
    ensures AWord(15) == "0000000000001111"
  {
    assert Binary(15) == "1111";
  }

  lemma AWordTwenty()
    ensures AWord(20) == "0000000000010100"
  {
    assert Binary(20) == "10100";
  }

  lemma RegisterLookups(r0: string, r15: string, foo: string)
    requires r0 == "R0" && r15 == "R15" && foo == "FOO"
    ensures ParseI32(r0) == None && ParseI32(r15) == None && ParseI32(foo) == None
    ensures r0 in PREDEFINED && PREDEFINED[r0] == 0
    ensures r15 in PREDEFINED && PREDEFINED[r15] == 15
    ensures foo !in PREDEFINED
  {
  }

  /** `@R0`, `@R15`, and `@FOO` with `FOO` bound to 20. */
  lemma TranslateAExamples(symbols: map<string, nat>, varmem: nat, r0: string, r15: string, foo: string)
    requires r0 == "R0" && r15 == "R15" && foo == "FOO" && "FOO" in symbols && symbols["FOO"] == 20
    ensures ResolveA(symbols, varmem, r0).word == "0000000000000000"
    ensures ResolveA(symbols, varmem, r15).word == "0000000000001111"
    ensures ResolveA(symbols, varmem, foo).word == "0000000000010100"
  {
    RegisterLookups(r0, r15, foo);
    AWordZero();
    AWordFifteen();
    AWordTwenty();
  }
}
