/** The driver of assembler.rs over lines held in memory: every line is
    trimmed, the first pass runs over all of them and stops at the first
    error, then the second pass runs over all of them again, writing each
    non-empty word as it goes and stopping at the first error.

    `FirstPassAll` and `SecondPassAll` fold the per-line steps of the
    passes over the first `k` lines, and `Assemble` chains the two passes;
    `Assembler.Run` is proved to do exactly that. The lemmas show that
    the first pass counts the instructions, that the second pass writes one
    word per instruction, and that so a label no later line rebinds names
    the index of the word that follows it. */
module Driver {
  import opened Errors
  import opened Base
  import opened StrUtil
  import opened Lexing
  import opened Parsing
  import opened Passes

  /** The machine of a fresh `HPU`. */
  const Start: Machine := Machine(map[], 16, None, 0, [], None)

  /** What a line is to the passes once trimmed: skipped (blank or a
      comment), a label line with the name it binds, or an instruction. */
  datatype LineKind = Skipped | Label(name: string) | Instruction

  function KindOf(line: string): LineKind {
    var l := Trim(line);
    if ShouldSkip(l) then Skipped
    else if CommandTypeOf(l) == LCommand then Label(LabelName(l))
    else Instruction
  }

  /** The name a good label line binds: the token after LEFTBRACE. */
  function LabelName(l: string): string {
    var t := LexTokens(l);
    if |t| >= 2 then t[1].repr else ""
  }

  /** The number of instruction lines among `lines`. */
  function InstructionCount(kind: string -> LineKind, lines: seq<string>): (n: nat)
    ensures n <= |lines|
  {
    if lines == [] then 0
    else InstructionCount(kind, lines[..|lines| - 1]) + (if kind(lines[|lines| - 1]).Instruction? then 1 else 0)
  }

  /** One line of the first or second pass, as the driver hands it over
      (numbered, not yet trimmed). */
  type FirstStep = (Machine, nat, string) -> (Machine, Outcome)
  type SecondStep = (Machine, nat, string) -> (Machine, Result<string>)

  /** `polish` then `HPU::first_pass`. */
  function FirstLine(m: Machine, num: nat, line: string): (Machine, Outcome) {
    FirstPassStep(m, num, Trim(line))
  }

  /** `polish` then `HPU::second_pass`. */
  function SecondLine(m: Machine, num: nat, line: string): (Machine, Result<string>) {
    SecondPassStep(m, num, Trim(line))
  }

  /** The loop of `Assembler::first_pass` over the first `k` lines,
      numbered from 0; `?` ends it at the first error. */
  function FirstPassAll(step: FirstStep, m: Machine, lines: seq<string>, k: nat): (Machine, Outcome)
    requires k <= |lines|
  {
    if k == 0 then (m, Pass)
    else
      var (m', o) := FirstPassAll(step, m, lines, k - 1);
      if o.Fail? then (m', o) else step(m', k - 1, lines[k - 1])
  }

  /** The loop of `Assembler::second_pass` over the first `k` lines: the
      machine, the words written so far and whether the pass goes on. */
  function SecondPassAll(step: SecondStep, m: Machine, lines: seq<string>, k: nat): (Machine, seq<string>, Outcome)
    requires k <= |lines|
  {
    if k == 0 then (m, [], Pass)
    else
      var (m', out, o) := SecondPassAll(step, m, lines, k - 1);
      if o.Fail? then (m', out, o)
      else
        var (m'', w) := step(m', k - 1, lines[k - 1]);
        if w.Failure? then (m'', out, Fail(w.error))
        else (m'', if |w.value| > 0 then out + [w.value] else out, Pass)
  }

  /** `Assembler::run`: the first pass, then the second if the first
      succeeded; nothing is written when the first pass fails. */
  function Assemble(m: Machine, lines: seq<string>): (Machine, seq<string>, Outcome) {
    var (m1, o1) := FirstPassAll(FirstLine, m, lines, |lines|);
    if o1.Fail? then (m1, [], o1) else SecondPassAll(SecondLine, m1, lines, |lines|)
  }

  /** A first-pass step that succeeds counts an instruction line and
      nothing else, and leaves `varmem` alone. */
  ghost predicate CountsInstructions(step: FirstStep, kind: string -> LineKind) {
    forall m, num, line :: step(m, num, line).1.Pass? ==>
      && step(m, num, line).0.validLine == m.validLine + (if kind(line).Instruction? then 1 else 0)
      && step(m, num, line).0.varmem == m.varmem
  }

  /** A first-pass step that succeeds binds the name of a label line to
      the instruction count, and touches the table for no other line. */
  ghost predicate BindsLabels(step: FirstStep, kind: string -> LineKind) {
    forall m, num, line :: step(m, num, line).1.Pass? ==>
      step(m, num, line).0.symbols ==
        if kind(line).Label? then m.symbols[kind(line).name := m.validLine] else m.symbols
  }

  /** A second-pass step that succeeds writes a word exactly for an
      instruction line, and leaves the instruction count alone. */
  ghost predicate WritesInstructions(step: SecondStep, kind: string -> LineKind) {
    forall m, num, line :: step(m, num, line).1.Success? ==>
      && (|step(m, num, line).1.value| > 0 <==> kind(line).Instruction?)
      && step(m, num, line).0.validLine == m.validLine
  }

  /** The first pass of hpu.rs, on trimmed lines, is such a step. */
  lemma FirstLineSteps()
    ensures CountsInstructions(FirstLine, KindOf) && BindsLabels(FirstLine, KindOf)
  {
    forall m, num, line
      ensures FirstLine(m, num, line).1.Pass? ==>
        && FirstLine(m, num, line).0.validLine == m.validLine + (if KindOf(line).Instruction? then 1 else 0)
        && FirstLine(m, num, line).0.varmem == m.varmem
        && FirstLine(m, num, line).0.symbols ==
             if KindOf(line).Label? then m.symbols[KindOf(line).name := m.validLine] else m.symbols
    {
      FirstPassFrame(m, num, Trim(line));
    }
  }

  /** The second pass of hpu.rs, on trimmed lines, is such a step. */
  lemma SecondLineSteps()
    ensures WritesInstructions(SecondLine, KindOf)
  {
    forall m, num, line
      ensures SecondLine(m, num, line).1.Success? ==>
        && (|SecondLine(m, num, line).1.value| > 0 <==> KindOf(line).Instruction?)
        && SecondLine(m, num, line).0.validLine == m.validLine
    {
      SecondLineStep(m, num, line);
    }
  }

  lemma SecondLineStep(m: Machine, num: nat, line: string)
    ensures var (m', o) := SecondLine(m, num, line);
      o.Success? ==> (|o.value| > 0 <==> KindOf(line).Instruction?) && m'.validLine == m.validLine
  {
    var l := Trim(line);
    var (m', o) := SecondPassStep(m, num, l);
    SecondPassEmits(m, num, l);
    if o.Success? && !ShouldSkip(l) {
      TrimIdempotent(line);
      assert CommandTypeOf(Trim(l)) == CommandTypeOf(l);
    }
  }

  lemma CountStep(kind: string -> LineKind, lines: seq<string>, k: nat)
    requires 0 < k <= |lines|
    ensures InstructionCount(kind, lines[..k]) ==
      InstructionCount(kind, lines[..k - 1]) + (if kind(lines[k - 1]).Instruction? then 1 else 0)
  {
    assert lines[..k][..k - 1] == lines[..k - 1];
  }

  /** Once the first pass has failed, later lines change nothing. */
  lemma {:induction false} FirstPassStops(step: FirstStep, m: Machine, lines: seq<string>, k: nat, n: nat)
    requires k <= n <= |lines| && FirstPassAll(step, m, lines, k).1.Fail?
    ensures FirstPassAll(step, m, lines, n) == FirstPassAll(step, m, lines, k)
    decreases n
  {
    if n > k {
      FirstPassStops(step, m, lines, k, n - 1);
    }
  }

  /** One more line of the second pass, after the first `k - 1` went
      well. */
  lemma SecondPassNext(step: SecondStep, m: Machine, lines: seq<string>, k: nat)
    requires 0 < k <= |lines| && SecondPassAll(step, m, lines, k - 1).2.Pass?
    ensures var (m', out, _) := SecondPassAll(step, m, lines, k - 1);
      var (m'', w) := step(m', k - 1, lines[k - 1]);
      SecondPassAll(step, m, lines, k) ==
        if w.Failure? then (m'', out, Fail(w.error))
        else (m'', if |w.value| > 0 then out + [w.value] else out, Pass)
  {
  }

  /** Once the second pass has failed, later lines change nothing and
      nothing more is written. */
  lemma {:induction false} SecondPassStops(step: SecondStep, m: Machine, lines: seq<string>, k: nat, n: nat)
    requires k <= n <= |lines| && SecondPassAll(step, m, lines, k).2.Fail?
    ensures SecondPassAll(step, m, lines, n) == SecondPassAll(step, m, lines, k)
    decreases n
  {
    if n > k {
      SecondPassStops(step, m, lines, k, n - 1);
    }
  }

  /** The words written so far are a prefix of the words written by the
      whole pass: the output only grows. */
  lemma {:induction false} SecondPassGrows(step: SecondStep, m: Machine, lines: seq<string>, k: nat, n: nat)
    requires k <= n <= |lines|
    ensures SecondPassAll(step, m, lines, k).1 <= SecondPassAll(step, m, lines, n).1
    decreases n
  {
    if n > k {
      SecondPassGrows(step, m, lines, k, n - 1);
    }
  }

  /** A first pass that gets through the first `k` lines has counted their
      instructions and left `varmem` alone. */
  lemma {:induction false} FirstPassCounts(step: FirstStep, kind: string -> LineKind, m: Machine, lines: seq<string>, k: nat)
    requires CountsInstructions(step, kind)
    requires k <= |lines| && FirstPassAll(step, m, lines, k).1.Pass?
    ensures FirstPassAll(step, m, lines, k).0.validLine == m.validLine + InstructionCount(kind, lines[..k])
    ensures FirstPassAll(step, m, lines, k).0.varmem == m.varmem
  {
    if k > 0 {
      FirstPassCounts(step, kind, m, lines, k - 1);
      CountStep(kind, lines, k);
    }
  }

  /** After a good first pass, a label line binds its name to the number
      of instructions before it, unless a later line binds the same name
      again. */
  lemma {:induction false} LabelAddress(step: FirstStep, kind: string -> LineKind, m: Machine, lines: seq<string>, k: nat, n: nat)
    requires CountsInstructions(step, kind) && BindsLabels(step, kind)
    requires k < n <= |lines| && FirstPassAll(step, m, lines, n).1.Pass?
    requires kind(lines[k]).Label?
    requires forall j :: k < j < n ==> kind(lines[j]) != kind(lines[k])
    ensures var m' := FirstPassAll(step, m, lines, n).0;
      kind(lines[k]).name in m'.symbols
      && m'.symbols[kind(lines[k]).name] == m.validLine + InstructionCount(kind, lines[..k])
    decreases n
  {
    if n == k + 1 {
      FirstPassCounts(step, kind, m, lines, k);
    } else {
      LabelAddress(step, kind, m, lines, k, n - 1);
    }
  }

  /** A second pass that gets through the first `k` lines has written one
      word per instruction among them, and moved no label. */
  lemma {:induction false} SecondPassCounts(step: SecondStep, kind: string -> LineKind, m: Machine, lines: seq<string>, k: nat)
    requires WritesInstructions(step, kind)
    requires k <= |lines| && SecondPassAll(step, m, lines, k).2.Pass?
    ensures |SecondPassAll(step, m, lines, k).1| == InstructionCount(kind, lines[..k])
    ensures SecondPassAll(step, m, lines, k).0.validLine == m.validLine
  {
    if k > 0 {
      SecondPassCounts(step, kind, m, lines, k - 1);
      CountStep(kind, lines, k);
    }
  }

  /** A good run writes exactly one word per instruction line. */
  lemma AssembleWords(lines: seq<string>)
    requires Assemble(Start, lines).2.Pass?
    ensures |Assemble(Start, lines).1| == InstructionCount(KindOf, lines)
  {
    var (m1, o1) := FirstPassAll(FirstLine, Start, lines, |lines|);
    assert Assemble(Start, lines) == SecondPassAll(SecondLine, m1, lines, |lines|);
    SecondLineSteps();
    SecondPassCounts(SecondLine, KindOf, m1, lines, |lines|);
    assert lines[..|lines|] == lines;
  }

  /** After a good run, a label line that no later line rebinds is bound
      to the number of words the second pass wrote for the lines before
      it, and those words begin the output: the label names the index in
      the output of the word that follows it. */
  lemma AssembleLabel(lines: seq<string>, k: nat)
    requires k < |lines| && Assemble(Start, lines).2.Pass?
    requires KindOf(lines[k]).Label?
    requires forall j :: k < j < |lines| ==> KindOf(lines[j]) != KindOf(lines[k])
    ensures var m1 := FirstPassAll(FirstLine, Start, lines, |lines|).0;
      var before := SecondPassAll(SecondLine, m1, lines, k).1;
      && KindOf(lines[k]).name in m1.symbols
      && m1.symbols[KindOf(lines[k]).name] == |before|
      && before <= Assemble(Start, lines).1
  {
    var (m1, o1) := FirstPassAll(FirstLine, Start, lines, |lines|);
    assert o1.Pass?;
    FirstLineSteps();
    LabelAddress(FirstLine, KindOf, Start, lines, k, |lines|);
    assert Assemble(Start, lines) == SecondPassAll(SecondLine, m1, lines, |lines|);
    if SecondPassAll(SecondLine, m1, lines, k).2.Fail? {
      SecondPassStops(SecondLine, m1, lines, k, |lines|);
    }
    SecondLineSteps();
    SecondPassCounts(SecondLine, KindOf, m1, lines, k);
    SecondPassGrows(SecondLine, m1, lines, k, |lines|);
  }

  /** The assembler: one line processor used by both passes. */
  class Assembler {
    const hpu: Hpu

    /** `create_assembler`. */
    constructor ()
      ensures fresh(hpu) && fresh(hpu.parser) && fresh(hpu.lexer)
      ensures hpu.Now() == Start
    {
      hpu := new Hpu();
    }

    /** `Assembler::run`: returns the words written and how it ended. */
    method Run(lines: seq<string>) returns (out: seq<string>, r: Outcome)
      modifies hpu, hpu.parser, hpu.lexer
      ensures (hpu.Now(), out, r) == Assemble(old(hpu.Now()), lines)
    {
      r := FirstPasses(lines);
      if r.Fail? {
        return [], r;
      }
      out, r := SecondPasses(lines);
    }

    /** `Assembler::first_pass`. */
    method FirstPasses(lines: seq<string>) returns (r: Outcome)
      modifies hpu, hpu.parser, hpu.lexer
      ensures (hpu.Now(), r) == FirstPassAll(FirstLine, old(hpu.Now()), lines, |lines|)
    {
      ghost var m := hpu.Now();
      var i := 0;
      while i < |lines|
        invariant i <= |lines|
        invariant (hpu.Now(), Pass) == FirstPassAll(FirstLine, m, lines, i)
      {
        r := hpu.FirstPass(i, Trim(lines[i]));
        if r.Fail? {
          FirstPassStops(FirstLine, m, lines, i + 1, |lines|);
          return;
        }
        i := i + 1;
      }
      r := Pass;
    }

    /** `Assembler::second_pass`: only non-empty words are written. */
    method SecondPasses(lines: seq<string>) returns (out: seq<string>, r: Outcome)
      modifies hpu.parser, hpu.lexer
      ensures (hpu.Now(), out, r) == SecondPassAll(SecondLine, old(hpu.Now()), lines, |lines|)
    {
      ghost var m := hpu.Now();
      out := [];
      var i := 0;
      while i < |lines|
        invariant i <= |lines|
        invariant (hpu.Now(), out, Pass) == SecondPassAll(SecondLine, m, lines, i)
      {
        ghost var before := hpu.Now();
        var w := hpu.SecondPass(i, Trim(lines[i]));
        assert (hpu.Now(), w) == SecondLine(before, i, lines[i]);
        SecondPassNext(SecondLine, m, lines, i + 1);
        if w.Failure? {
          r := Fail(w.error);
          SecondPassStops(SecondLine, m, lines, i + 1, |lines|);
          return;
        }
        if |w.value| > 0 {
          out := out + [w.value];
        }
        i := i + 1;
      }
      r := Pass;
    }
  }
}
