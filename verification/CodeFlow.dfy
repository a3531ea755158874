/** Static well-formedness of bytecode: registers, jump targets, constants, and registers written
    before they are read, on every path. */
module CodeFlow {
  import opened Bytecode

  /** What the frame of a function has: preloaded registers, all registers, and callable functions. */
  datatype Room = Room(consts: set<int>, regs: nat, funcs: nat)

  function Uses(i: Instr): set<int> {
    match i.op
    case CALL => (set r <- i.args) + (set r <- i.launch)
    case RET => if i.src < 0 then {} else {i.src}
    case IF => {i.cond}
    case GOTO => {}
  }

  function Sets(i: Instr): set<int> {
    if i.op == CALL && i.dst >= 0 then {i.dst} else {}
  }

  /** Where control can go from position pc. */
  function Nexts(i: Instr, pc: int): set<int> {
    match i.op
    case CALL => {pc + 1}
    case RET => {}
    case IF => {pc + i.trueOff, pc + i.falseOff}
    case GOTO => {pc + i.off}
  }

  /** The instruction writes a register of the frame that holds no constant, and calls what exists. */
  predicate InstrOk(X: Room, i: Instr) {
    (i.op == CALL && i.dst >= 0 ==> i.dst < X.regs && i.dst !in X.consts) && (i.op == CALL ==> 0 <= i.func < X.funcs)
  }

  ghost predicate InFrame(X: Room, D: set<int>) {
    forall r <- D :: 0 <= r < X.regs
  }

  /** Registers known to be written before a position are enough for its instruction, and remain so
      wherever control goes. */
  ghost predicate StepOk(X: Room, code: seq<Instr>, cert: seq<set<int>>, pc: nat)
    requires |cert| == |code| + 1 && pc < |code|
  {
    InstrOk(X, code[pc]) && Uses(code[pc]) <= cert[pc] &&
    forall q <- Nexts(code[pc], pc) :: 0 <= q <= |code| && cert[q] <= cert[pc] + Sets(code[pc])
  }

  ghost predicate Certified(X: Room, code: seq<Instr>, cert: seq<set<int>>) {
    && |cert| == |code| + 1
    && (forall pc :: 0 <= pc <= |code| ==> InFrame(X, cert[pc]))
    && (forall pc :: 0 <= pc < |code| ==> StepOk(X, code, cert, pc))
  }

  /** If the registers in D are written on entry, those in D' are at the end. */
  ghost predicate Flows(X: Room, code: seq<Instr>, D: set<int>, D': set<int>) {
    exists cert :: Certified(X, code, cert) && cert[0] <= D && D' <= cert[|code|]
  }

  // ---------------------------------------------------------------- pieces of code

  lemma FlowsNone(X: Room, D: set<int>)
    requires InFrame(X, D)
    ensures Flows(X, [], D, D)
  {
    assert Certified(X, [], [D]);
  }

  lemma FlowsOne(X: Room, i: Instr, D: set<int>)
    requires i.op == CALL && InFrame(X, D) && InstrOk(X, i) && Uses(i) <= D
    ensures Flows(X, [i], D, D + Sets(i))
  {
    var cert := [D, D + Sets(i)];
    assert InFrame(X, D + Sets(i));
    assert StepOk(X, [i], cert, 0);
    assert Certified(X, [i], cert);
  }

  lemma ShiftStep(X: Room, a: seq<Instr>, b: seq<Instr>, certB: seq<set<int>>, cert: seq<set<int>>, pc: nat)
    requires |certB| == |b| + 1 && |cert| == |a| + |b| + 1 && pc < |b| && StepOk(X, b, certB, pc)
    requires forall k :: 0 <= k <= |b| ==> cert[|a| + k] == certB[k]
    ensures StepOk(X, a + b, cert, |a| + pc)
  {
    var code := a + b;
    assert code[|a| + pc] == b[pc];
    forall q | q in Nexts(code[|a| + pc], |a| + pc)
      ensures 0 <= q <= |code| && cert[q] <= cert[|a| + pc] + Sets(code[|a| + pc]) {
      assert q - |a| in Nexts(b[pc], pc);
      assert cert[|a| + (q - |a|)] == certB[q - |a|];
    }
  }

  lemma PrefixStep(X: Room, a: seq<Instr>, b: seq<Instr>, certA: seq<set<int>>, certB: seq<set<int>>, pc: nat)
    requires |certA| == |a| + 1 && |certB| == |b| + 1 && pc < |a| && StepOk(X, a, certA, pc) && certB[0] <= certA[|a|]
    ensures StepOk(X, a + b, certA[..|a|] + certB, pc)
  {
    var code, cert := a + b, certA[..|a|] + certB;
    assert code[pc] == a[pc];
    forall q | q in Nexts(code[pc], pc) ensures 0 <= q <= |code| && cert[q] <= cert[pc] + Sets(code[pc]) {
      if q == |a| { assert cert[q] == certB[0]; } else { assert cert[q] == certA[q]; }
    }
  }

  /** One piece of code after another. */
  lemma CertSeq(X: Room, a: seq<Instr>, b: seq<Instr>, certA: seq<set<int>>, certB: seq<set<int>>)
    requires Certified(X, a, certA) && Certified(X, b, certB) && certB[0] <= certA[|a|]
    ensures Certified(X, a + b, certA[..|a|] + certB)
  {
    hide StepOk, InFrame;
    var code, cert := a + b, certA[..|a|] + certB;
    forall pc: nat | pc < |code| ensures StepOk(X, code, cert, pc) {
      if pc < |a| {
        PrefixStep(X, a, b, certA, certB, pc);
      } else {
        ShiftStep(X, a, b, certB, cert, pc - |a|);
      }
    }
  }

  /** An instruction that may jump into the code behind it, or past it. */
  lemma CertHead(X: Room, i: Instr, b: seq<Instr>, D: set<int>, certB: seq<set<int>>)
    requires Certified(X, b, certB) && InFrame(X, D) && InstrOk(X, i) && Uses(i) <= D
    requires forall q <- Nexts(i, 0) :: 1 <= q <= |b| + 1 && certB[q - 1] <= D + Sets(i)
    ensures Certified(X, [i] + b, [D] + certB)
  {
    hide InFrame;
    var code, cert := [i] + b, [D] + certB;
    forall pc: nat | pc < |code| ensures StepOk(X, code, cert, pc) {
      if pc > 0 { ShiftStep(X, [i], b, certB, cert, pc - 1); }
    }
  }

  /** Forgetting something at the end. */
  lemma CertEnd(X: Room, code: seq<Instr>, cert: seq<set<int>>, D: set<int>)
    requires Certified(X, code, cert) && D <= cert[|code|]
    ensures Certified(X, code, cert[..|code|] + [D])
  {
    var cert' := cert[..|code|] + [D];
    forall pc: nat | pc < |code| ensures StepOk(X, code, cert', pc) { assert StepOk(X, code, cert, pc); }
  }

  lemma FlowsSeq(X: Room, a: seq<Instr>, b: seq<Instr>, D: set<int>, mid: set<int>, D': set<int>)
    requires Flows(X, a, D, mid) && Flows(X, b, mid, D')
    ensures Flows(X, a + b, D, D')
  {
    var certA :| Certified(X, a, certA) && certA[0] <= D && mid <= certA[|a|];
    var certB :| Certified(X, b, certB) && certB[0] <= mid && D' <= certB[|b|];
    hide Certified;
    CertLength(X, a, certA);
    CertLength(X, b, certB);
    CertSeq(X, a, b, certA, certB);
    var cert := certA[..|a|] + certB;
    assert cert[0] <= D && cert[|a + b|] == certB[|b|];
  }

  lemma CertLength(X: Room, code: seq<Instr>, cert: seq<set<int>>)
    requires Certified(X, code, cert)
    ensures |cert| == |code| + 1
  {
  }

  /** Knowing more on entry, and asking less at the end. */
  lemma FlowsWeaken(X: Room, code: seq<Instr>, D: set<int>, D': set<int>, more: set<int>, less: set<int>)
    requires Flows(X, code, D, D') && D <= more && less <= D'
    ensures Flows(X, code, more, less)
  {
  }

  /** A conditional without an else branch. */
  lemma FlowsIf(X: Room, c: int, thn: seq<Instr>, D: set<int>, T: set<int>, D': set<int>)
    requires InFrame(X, D) && c in D && Flows(X, thn, D, T) && D' <= D && D' <= T
    ensures Flows(X, [IfInstr(c, 1, |thn| + 1)] + thn, D, D')
  {
    var certT :| Certified(X, thn, certT) && certT[0] <= D && T <= certT[|thn|];
    var mid := certT[..|thn|] + [D'];
    CertEnd(X, thn, certT, D');
    CertHead(X, IfInstr(c, 1, |thn| + 1), thn, D, mid);
    var cert := [D] + mid;
    assert cert[|thn| + 1] == D';
  }

  lemma CertFrame(X: Room, code: seq<Instr>, cert: seq<set<int>>, pc: nat)
    requires Certified(X, code, cert) && pc <= |code|
    ensures pc < |cert| && InFrame(X, cert[pc])
  {
  }

  /** A conditional with both branches. */
  lemma FlowsIfElse(X: Room, c: int, thn: seq<Instr>, els: seq<Instr>, D: set<int>, D': set<int>)
    requires InFrame(X, D) && c in D && Flows(X, thn, D, D') && Flows(X, els, D, D')
    ensures Flows(X, [IfInstr(c, 1, |thn| + 2)] + thn + [GotoInstr(|els| + 1)] + els, D, D')
  {
    var certT :| Certified(X, thn, certT) && certT[0] <= D && D' <= certT[|thn|];
    var certE :| Certified(X, els, certE) && certE[0] <= D && D' <= certE[|els|];
    hide Certified, StepOk;
    CertLength(X, thn, certT);
    CertLength(X, els, certE);
    var n, head, skip := |thn|, IfInstr(c, 1, |thn| + 2), GotoInstr(|els| + 1);
    var endE := certE[..|els|] + [D'];
    CertEnd(X, els, certE, D');
    CertEnd(X, thn, certT, D');
    CertFrame(X, els, endE, |els|);
    assert endE[|els|] == D';
    var certTail := [D'] + endE;
    CertHead(X, skip, els, D', endE);
    var tail := [skip] + els;
    var endT := certT[..n] + [D'];
    CertSeq(X, thn, tail, endT, certTail);
    var inner := endT[..n] + certTail;
    assert inner[0] <= D;
    assert inner[n + 1] == endE[0] <= D;
    CertHead(X, head, thn + tail, D, inner);
    var cert := [D] + inner;
    assert [head] + (thn + tail) == [head] + thn + [skip] + els;
    assert cert[|[head] + (thn + tail)|] == D';
  }

  /** A loop: test, exit or body, step, back to the test. */
  lemma FlowsLoop(X: Room, test: Instr, t: int, body: seq<Instr>, step: Instr, D: set<int>, B: set<int>)
    requires InFrame(X, D) && test.op == CALL && InstrOk(X, test) && Uses(test) <= D && test.dst == t && t >= 0
    requires Flows(X, body, D + {t}, B) && D <= B && step.op == CALL && InstrOk(X, step) && Uses(step) <= B
    ensures Flows(X, [test] + [IfInstr(t, 1, |body| + 3)] + body + [step] + [GotoInstr(-(|body| + 3))], D, D)
  {
    var n := |body|;
    var certB :| Certified(X, body, certB) && certB[0] <= D + {t} && B <= certB[n];
    var exit, back := IfInstr(t, 1, n + 3), GotoInstr(-(n + 3));
    var code := [test] + [exit] + body + [step] + [back];
    var cert := [D, D + {t}] + certB + [D, D];
    assert |code| == n + 4 && |cert| == n + 5;
    forall pc: nat | pc < |code| ensures StepOk(X, code, cert, pc) {
      if pc == 0 {
        assert code[0] == test && cert[1] == D + {t};
      } else if pc == 1 {
        assert code[1] == exit && Nexts(exit, 1) == {2, n + 4} && cert[2] == certB[0] && cert[n + 4] == D;
      } else if pc < n + 2 {
        assert StepOk(X, body, certB, pc - 2) && code[pc] == body[pc - 2] && cert[pc] == certB[pc - 2];
        forall q | q in Nexts(code[pc], pc) ensures 0 <= q <= |code| && cert[q] <= cert[pc] + Sets(code[pc]) {
          assert q - 2 in Nexts(body[pc - 2], pc - 2);
          assert cert[q] == certB[q - 2];
        }
      } else if pc == n + 2 {
        assert code[pc] == step && cert[pc] == certB[n] && cert[pc + 1] == D;
      } else {
        assert code[pc] == back && Nexts(back, pc) == {0} && cert[pc] == D;
      }
    }
    assert Certified(X, code, cert);
  }

  // ---------------------------------------------------------------- every path

  /** A way through the code from its first instruction. */
  ghost predicate IsPath(code: seq<Instr>, p: seq<int>) {
    |p| > 0 && p[0] == 0 && (forall k :: 0 <= k < |p| ==> 0 <= p[k] < |code|) &&
    forall k :: 0 <= k < |p| - 1 ==> p[k + 1] in Nexts(code[p[k]], p[k])
  }

  /** What has been written before the last instruction of a path. */
  function Written(code: seq<Instr>, p: seq<int>, D: set<int>): set<int>
    requires |p| > 0 && forall k :: 0 <= k < |p| ==> 0 <= p[k] < |code|
  {
    if |p| == 1 then D else Written(code, p[..|p| - 1], D) + Sets(code[p[|p| - 2]])
  }

  lemma {:induction false} PathCovered(X: Room, code: seq<Instr>, cert: seq<set<int>>, p: seq<int>, D: set<int>)
    requires IsPath(code, p) && Certified(X, code, cert) && cert[0] <= D
    ensures cert[p[|p| - 1]] <= Written(code, p, D)
    decreases |p|
  {
    if |p| > 1 {
      var init := p[..|p| - 1];
      PathCovered(X, code, cert, init, D);
      assert StepOk(X, code, cert, p[|p| - 2]);
      assert p[|p| - 2 + 1] in Nexts(code[p[|p| - 2]], p[|p| - 2]);
    }
  }

  /** Code that ends in a return, entered with D written: on every path, control stays inside the
      code, every register is written before it is read, and instructions respect the frame. */
  ghost predicate PathsOk(X: Room, code: seq<Instr>, D: set<int>) {
    forall p :: IsPath(code, p) ==>
      var i := code[p[|p| - 1]];
      InstrOk(X, i) && Uses(i) <= Written(code, p, D) && InFrame(X, Uses(i)) && Inside(Nexts(i, p[|p| - 1]), |code|)
  }

  predicate Inside(positions: set<int>, n: nat) {
    forall q <- positions :: 0 <= q < n
  }

  lemma EndsInReturn(X: Room, front: seq<Instr>, src: int, D: set<int>, D': set<int>)
    requires Flows(X, front, D, D') && (src >= 0 ==> src in D')
    ensures PathsOk(X, front + [RetInstr(src)], D)
  {
    var cert :| Certified(X, front, cert) && cert[0] <= D && D' <= cert[|front|];
    var ret := RetInstr(src);
    var code, cert' := front + [ret], cert + [{}];
    forall pc: nat | pc < |code| ensures StepOk(X, code, cert', pc) {
      if pc < |front| { assert StepOk(X, front, cert, pc); }
    }
    assert Certified(X, code, cert');
    forall p | IsPath(code, p)
      ensures var i := code[p[|p| - 1]];
        InstrOk(X, i) && Uses(i) <= Written(code, p, D) && InFrame(X, Uses(i)) && Inside(Nexts(i, p[|p| - 1]), |code|)
    {
      var pc := p[|p| - 1];
      PathCovered(X, code, cert', p, D);
      assert StepOk(X, code, cert', pc);
      if pc < |front| { assert StepOk(X, front, cert, pc); }
    }
  }
}
