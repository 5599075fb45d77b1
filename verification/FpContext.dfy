/**
  Lazy switching of the floating-point unit between tasks: registers are saved only
  when the hardware has marked them dirty, and restored, or cleared, on the way in.
*/
module FpContext {
  const REGS: nat := 32

  datatype Fs = Off | Initial | Clean | Dirty

  datatype FpState = FpState(fp: seq<bv64>, fcsr: bv64, fs: Fs)

  function Zeros(): (r: seq<bv64>)
    ensures |r| == REGS && forall i :: 0 <= i < REGS ==> r[i] == 0
  {
    seq(REGS, i => 0)
  }

  function NewTask(): FpState { FpState(Zeros(), 0, Initial) }

  /** Hardware state, the saved states, and, for the statements below only, each
      task's registers as it last left them. */
  datatype Cpu = Cpu(hw: FpState, saved: map<nat, FpState>, current: nat, left: map<nat, FpState>)

  datatype Step = WriteReg(index: nat, value: bv64) | WriteFcsr(fcsr: bv64) | SwitchTo(next: nat) | Spawn(task: nat)

  function Boot(main: nat): Cpu { Cpu(NewTask(), map[main := NewTask()], main, map[main := NewTask()]) }

  predicate Enabled(c: Cpu, s: Step) {
    match s
    case WriteReg(i, v) => i < |c.hw.fp| && !c.hw.fs.Off?
    case WriteFcsr(v) => !c.hw.fs.Off?
    case SwitchTo(next) => next in c.saved && next != c.current && c.current in c.saved
    case Spawn(t) => t !in c.saved
  }

  /** The outgoing task's saved state after a switch. */
  function SavedOut(c: Cpu): FpState
    requires c.current in c.saved
  {
    if c.hw.fs.Dirty? then c.hw.(fs := Clean) else c.saved[c.current]
  }

  /** What the unit holds after switching to `next`. A dirty saved state would be the
      unreachable case; clearing does not touch the control register. */
  function SwitchedHw(hw: FpState, next: FpState): FpState {
    match next.fs
    case Clean => next
    case Initial => FpState(Zeros(), hw.fcsr, Initial)
    case _ => hw.(fs := next.fs)
  }

  function Apply(c: Cpu, s: Step): Cpu
    requires Enabled(c, s)
  {
    match s
    case WriteReg(i, v) => c.(hw := FpState(c.hw.fp[i := v], c.hw.fcsr, Dirty))
    case WriteFcsr(v) => c.(hw := FpState(c.hw.fp, v, Dirty))
    case SwitchTo(next) =>
      Cpu(SwitchedHw(c.hw, c.saved[next]), c.saved[c.current := SavedOut(c)], next, c.left[c.current := c.hw])
    case Spawn(t) => c.(saved := c.saved[t := NewTask()], left := c.left[t := NewTask()])
  }

  ghost predicate IsRun(run: seq<Cpu>, steps: seq<Step>) {
    && |run| == |steps| + 1 && (exists main :: run[0] == Boot(main))
    && forall i :: 0 <= i < |steps| ==> Enabled(run[i], steps[i]) && run[i + 1] == Apply(run[i], steps[i])
  }

  /** A saved state stands for what its task left behind. */
  ghost predicate Stands(saved: FpState, left: FpState) {
    && (saved.fs.Clean? || saved.fs.Initial?)
    && |saved.fp| == REGS && left.fp == (if saved.fs.Clean? then saved.fp else Zeros())
    && (saved.fs.Clean? ==> left.fcsr == saved.fcsr)
  }

  ghost predicate Inv(c: Cpu) {
    && c.current in c.saved && c.saved.Keys == c.left.Keys
    && (forall t :: t in c.saved && t != c.current ==> Stands(c.saved[t], c.left[t]))
    && |c.hw.fp| == REGS && !c.hw.fs.Off?
    && (!c.hw.fs.Dirty? ==> c.hw.fs == c.saved[c.current].fs && Stands(c.saved[c.current], c.hw))
    && |c.saved[c.current].fp| == REGS && (c.saved[c.current].fs.Clean? || c.saved[c.current].fs.Initial?)
  }

  lemma StepInv(c: Cpu, s: Step)
    requires Inv(c) && Enabled(c, s)
    ensures Inv(Apply(c, s))
  {
    var c' := Apply(c, s);
    forall t | t in c'.saved && t != c'.current ensures Stands(c'.saved[t], c'.left[t]) {
      if t in c.saved && t != c.current { assert Stands(c.saved[t], c.left[t]); }
    }
    if s.SwitchTo? { assert Stands(c.saved[s.next], c.left[s.next]); }
  }

  lemma {:induction false} RunInv(run: seq<Cpu>, steps: seq<Step>, i: nat)
    requires IsRun(run, steps) && i < |run|
    ensures Inv(run[i])
  {
    hide Inv, Enabled, Apply;
    if i == 0 { BootInv(run[0]); } else { RunInv(run, steps, i - 1); StepInv(run[i - 1], steps[i - 1]); }
  }

  lemma BootInv(c: Cpu)
    requires exists main :: c == Boot(main)
    ensures Inv(c)
  {
  }

  /** At every switch of every run the incoming task is neither dirty nor off, so the
      unreachable case is never reached, and it finds f0-f31 exactly as it left them,
      or all zero if it never ran. No switched-out task is ever marked dirty. */
  lemma RegistersSurvive(run: seq<Cpu>, steps: seq<Step>, i: nat)
    requires IsRun(run, steps) && i < |steps| && steps[i].SwitchTo?
    ensures var next := steps[i].next;
      && next in run[i].saved && next in run[i].left
      && (run[i].saved[next].fs.Clean? || run[i].saved[next].fs.Initial?)
      && run[i + 1].current == next && run[i + 1].hw.fp == run[i].left[next].fp
    ensures var after := run[i + 1]; forall t :: t in after.saved && t != after.current ==> !after.saved[t].fs.Dirty?
  {
    RunInv(run, steps, i);
    assert Enabled(run[i], steps[i]) && run[i + 1] == Apply(run[i], steps[i]);
    RunInv(run, steps, i + 1);
    assert Stands(run[i].saved[steps[i].next], run[i].left[steps[i].next]);
  }

  /** Between switches only the running task's own writes change its registers. */
  lemma OnlyOwnWrites(run: seq<Cpu>, steps: seq<Step>, i: nat, t: nat)
    requires IsRun(run, steps) && i < |steps| && !steps[i].SwitchTo? && t in run[i].left
    ensures run[i + 1].current == run[i].current && t in run[i + 1].left
    ensures t != run[i].current ==> run[i + 1].left[t] == run[i].left[t] && t in run[i].saved && t in run[i + 1].saved && run[i + 1].saved[t] == run[i].saved[t]
    ensures !steps[i].WriteReg? ==> run[i + 1].hw.fp == run[i].hw.fp
  {
    RunInv(run, steps, i);
    assert Enabled(run[i], steps[i]) && run[i + 1] == Apply(run[i], steps[i]);
  }

  /** The control register survives for a task saved at least once; any other task
      inherits whatever the outgoing task left there, so a task that never ran finds
      it zero if and only if it was zero at the switch. */
  lemma ControlRegisterIff(run: seq<Cpu>, steps: seq<Step>, i: nat)
    requires IsRun(run, steps) && i < |steps| && steps[i].SwitchTo?
    ensures steps[i].next in run[i].saved && steps[i].next in run[i].left
    ensures var next := steps[i].next;
      run[i + 1].hw.fcsr == run[i].left[next].fcsr <==> run[i].saved[next].fs.Clean? || run[i].hw.fcsr == run[i].left[next].fcsr
    ensures run[i].saved[steps[i].next].fs.Initial? ==> run[i + 1].hw.fcsr == run[i].hw.fcsr
  {
    RunInv(run, steps, i);
    assert Enabled(run[i], steps[i]) && run[i + 1] == Apply(run[i], steps[i]);
    assert Stands(run[i].saved[steps[i].next], run[i].left[steps[i].next]);
  }

  /** A new task can start with another task's rounding mode. */
  lemma ControlRegisterLeaks(mode: bv64) returns (run: seq<Cpu>, steps: seq<Step>)
    ensures IsRun(run, steps) && |steps| == 3 && steps[1] == Spawn(1) && steps[2] == SwitchTo(1)
    ensures run[3].current == 1 && run[3].hw.fcsr == mode && 1 in run[2].left && run[2].left[1].fcsr == 0
  {
    steps := [WriteFcsr(mode), Spawn(1), SwitchTo(1)];
    var a := Boot(0);
    var b := Apply(a, steps[0]);
    var c := Apply(b, steps[1]);
    run := [a, b, c, Apply(c, steps[2])];
  }

  // -------------------------------------------------------------------- the unit

  /** Save if dirty, then restore, clear or leave alone, then set the status. */
  class FpUnit {
    var fp: seq<bv64>
    var fcsr: bv64
    var fs: Fs

    ghost function Hw(): FpState
      reads this
    {
      FpState(fp, fcsr, fs)
    }

    constructor ()
      ensures Hw() == NewTask()
    {
      fp, fcsr, fs := Zeros(), 0, Initial;
    }

    /** False stands for the unreachable arm, taken exactly for a dirty incoming state. */
    method Switch(self: FpState, next: FpState) returns (out: FpState, ok: bool)
      modifies this
      ensures out == if old(fs).Dirty? then old(Hw()).(fs := Clean) else self
      ensures ok <==> !next.fs.Dirty?
      ensures Hw() == if ok then SwitchedHw(old(Hw()), next) else old(Hw())
    {
      out, ok := self, true;
      if fs.Dirty? {
        out := FpState(fp, fcsr, Clean);
      }
      match next.fs {
        case Clean => fp, fcsr := next.fp, next.fcsr;
        case Initial => fp := Zeros();
        case Off =>
        case Dirty => return out, false;
      }
      fs := next.fs;
    }
  }
}
