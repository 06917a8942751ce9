/** The code generator of lcode.c for expressions built from locals, constants,
    comparisons, `not`, `and` and `or`.

    Here a list of pending jumps is the sequence of its nodes, and a node is a jump without
    target.  How the lists are threaded through the instructions is the business of module
    LuaFuncState. */
module LuaCode {
  import opened Common
  import opened LuaVm

  // ----- expressions -----

  datatype Rel = EQ | NE | LT | LE | GT | GE

  datatype Expr =
    | ENil | ETrue | EFalse
    | ENum(n: real)
    | EStr(s: string)
    | ELocal(reg: nat)
    | ENot(e: Expr)
    | EAnd(l: Expr, r: Expr)
    | EOr(l: Expr, r: Expr)
    | ERel(op: Rel, l: Expr, r: Expr)

  /** The value of an expression; `None` is a run-time error.  `a > b` means `b < a`. */
  function Eval(p: Prims, e: Expr, r: Regs): Option<Value> {
    match e
    case ENil => Some(Nil)
    case ETrue => Some(Bool(true))
    case EFalse => Some(Bool(false))
    case ENum(n) => Some(Num(n))
    case EStr(s) => Some(Str(s))
    case ELocal(x) => Some(Get(r, x))
    case ENot(e1) => (match Eval(p, e1, r) case None => None case Some(v) => Some(Bool(!Truthy(v))))
    case EAnd(e1, e2) => (match Eval(p, e1, r) case None => None case Some(v) => if Truthy(v) then Eval(p, e2, r) else Some(v))
    case EOr(e1, e2) => (match Eval(p, e1, r) case None => None case Some(v) => if Truthy(v) then Some(v) else Eval(p, e2, r))
    case ERel(op, e1, e2) =>
      (match Eval(p, e1, r)
       case None => None
       case Some(v) =>
         (match Eval(p, e2, r)
          case None => None
          case Some(w) => Relate(p, op, v, w)))
  }

  function Relate(p: Prims, op: Rel, v: Value, w: Value): Option<Value> {
    match op
    case EQ => Boolean(p.eq(v, w))
    case NE => Negation(p.eq(v, w))
    case LT => Boolean(p.lt(v, w))
    case LE => Boolean(p.le(v, w))
    case GT => Boolean(p.lt(w, v))
    case GE => Boolean(p.le(w, v))
  }

  function Boolean(o: Option<bool>): Option<Value> {
    match o case None => None case Some(b) => Some(Bool(b))
  }

  function Negation(o: Option<bool>): Option<Value> {
    match o case None => None case Some(b) => Some(Bool(!b))
  }

  // ----- descriptors -----

  /** `expkind`, with the field it uses. */
  datatype Kind =
    | VNil | VTrue | VFalse
    | VK(i: nat)
    | VKNum(n: real)
    | VNonReloc(reg: nat)
    | VLocal(reg: nat)
    | VJmp(pc: nat)
    | VReloc(pc: nat)

  /** `expdesc`: `t` and `f` are the lists of jumps taken when the value is true or false. */
  datatype Exp = Exp(k: Kind, t: seq<nat>, f: seq<nat>)

  predicate HasJumps(e: Exp) { e.t != [] || e.f != [] }

  /** `FuncState`. */
  datatype Fs = Fs(code: seq<Instr>, jpc: seq<nat>, lasttarget: int, freereg: nat, nactvar: nat, maxstack: nat, k: seq<Value>)

  const MAXINDEXRK := 255
  const MAXARG_Bx := 262143
  const MAXSTACK := 250

  // ----- emitting code -----

  /** `dischargejpc`: the jumps to here go to the current position. */
  function Discharge(fs: Fs): Fs {
    fs.(code := PatchList(fs.code, fs.jpc, |fs.code|, NO_REG, |fs.code|), jpc := [])
  }

  /** `luaK_code`. */
  function Emit(fs: Fs, i: Instr): Fs {
    var d := Discharge(fs);
    d.(code := d.code + [i])
  }

  /** `luaK_jump`: a new jump, followed by the jumps to here, which go where it goes. */
  function EmitJump(fs: Fs): (Fs, seq<nat>) {
    (fs.(code := fs.code + [Jmp(NO_JUMP)], jpc := []), [|fs.code|] + fs.jpc)
  }

  /** `condjump`. */
  function CondJump(fs: Fs, test: Instr): (Fs, seq<nat>) { EmitJump(Emit(fs, test)) }

  /** `luaK_getlabel`. */
  function Label(fs: Fs): Fs { fs.(lasttarget := |fs.code|) }

  /** `luaK_patchtohere`. */
  function PatchToHere(fs: Fs, list: seq<nat>): Fs {
    fs.(lasttarget := |fs.code|, jpc := fs.jpc + list)
  }

  /** The number 0 in memory. */
  const ZERO_BYTES: string := "\0\0\0\0\0\0\0\0"

  /** What a constant is filed under: itself, but the number 0 under its bytes. */
  function KeyOf(v: Value): Value { if v == Num(0.0) then Str(ZERO_BYTES) else v }

  /** The index filed under a key, which is that of the last constant with that key. */
  function Filed(k: seq<Value>, key: Value): (i: Option<nat>)
    ensures i.Some? ==> i.value < |k| && KeyOf(k[i.value]) == key
  {
    var n := |k|;
    if n == 0 then None else if KeyOf(k[n - 1]) == key then Some(n - 1) else Filed(k[..n - 1], key)
  }

  /** `addk`: the index of a constant, which is added if there is none under its key or
      another one is there. */
  function AddK(fs: Fs, v: Value): (r: (Fs, nat))
    ensures r.1 < |r.0.k| && r.0.k[r.1] == v && fs.k <= r.0.k && r.0 == fs.(k := r.0.k)
  {
    var i := Filed(fs.k, KeyOf(v));
    if i.Some? && fs.k[i.value] == v then (fs, i.value) else (fs.(k := fs.k + [v]), |fs.k|)
  }

  lemma {:induction false} FiledLast(k: seq<Value>, key: Value, i: nat)
    requires i <= |k| && (forall j :: i <= j < |k| ==> KeyOf(k[j]) != key) && (i > 0 ==> KeyOf(k[i - 1]) == key)
    ensures Filed(k, key) == if i == 0 then None else Some(i - 1)
    decreases |k|
  {
    var n := |k|;
    if i < n {
      FiledLast(k[..n - 1], key, i);
    }
  }

  /** The two constants that have the same key. */
  predicate Twins(v: Value, w: Value) {
    (v == Num(0.0) && w == Str(ZERO_BYTES)) || (v == Str(ZERO_BYTES) && w == Num(0.0))
  }

  /** The constant is in the table, and behind it its twin. */
  ghost predicate Covered(k: seq<Value>, v: Value) {
    exists i, j :: 0 <= i < j < |k| && k[i] == v && Twins(v, k[j])
  }

  lemma {:induction false} FiledExact(k: seq<Value>, key: Value)
    ensures var i := Filed(k, key);
      if i.Some? then forall j :: i.value < j < |k| ==> KeyOf(k[j]) != key else forall j :: 0 <= j < |k| ==> KeyOf(k[j]) != key
    decreases |k|
  {
    var n := |k|;
    if n > 0 && KeyOf(k[n - 1]) != key {
      FiledExact(k[..n - 1], key);
      assert forall j :: 0 <= j < n - 1 ==> k[..n - 1][j] == k[j];
    }
  }

  /** A constant is entered a second time exactly if its twin was filed in its place. */
  lemma EnteredOnce(fs: Fs, v: Value)
    requires NoDup(fs.k)
    ensures NoDup(AddK(fs, v).0.k) <==> !Covered(fs.k, v)
  {
    var k, key := fs.k, KeyOf(v);
    FiledExact(k, key);
    var f := Filed(k, key);
    if v in k {
      var i :| 0 <= i < |k| && k[i] == v;
      assert f.Some? && i <= f.value;
      if k[f.value] != v {
        assert Twins(v, k[f.value]);
        assert (k + [v])[i] == (k + [v])[|k|];
      }
    }
  }

  /** It does happen: the number 0, the string of its bytes, and 0 again. */
  lemma ZeroTwice(fs: Fs)
    requires fs.k == []
    ensures var z := Num(0.0);
      AddK(AddK(AddK(fs, z).0, Str(ZERO_BYTES)).0, z).0.k == [z, Str(ZERO_BYTES), z]
  {
    var z, s := Num(0.0), Str(ZERO_BYTES);
    FiledLast([], s, 0);
    assert [] + [z] == [z];
    FiledLast([z], s, 1);
    assert [z] + [s] == [z, s];
    FiledLast([z, s], s, 2);
  }

  /** `luaK_codek`. */
  function EmitK(fs: Fs, reg: nat, i: nat): Fs {
    if i <= MAXARG_Bx then Emit(fs, LoadK(reg, i)) else Emit(Emit(fs, LoadKX(reg)), ExtraArg(i))
  }

  /** Does luaK_nil extend the previous instruction? */
  predicate NilJoins(fs: Fs, from: nat) {
    && |fs.code| > fs.lasttarget && |fs.code| > 0
    && fs.code[|fs.code| - 1].LoadNil?
    && var i := fs.code[|fs.code| - 1];
       var last := i.a + i.n;
       (i.a <= from <= last + 1) || (from <= i.a <= from + 1)
  }

  /** `luaK_nil` for one register: a previous LOADNIL next to it is extended, unless control
      may arrive behind it in another way. */
  function EmitNil(fs: Fs, from: nat): Fs {
    if NilJoins(fs, from) then
      var i := fs.code[|fs.code| - 1];
      var a := if i.a < from then i.a else from;
      var last := if i.a + i.n > from then i.a + i.n else from;
      fs.(code := fs.code[|fs.code| - 1 := LoadNil(a, last - a)])
    else Emit(fs, LoadNil(from, 0))
  }

  // ----- expressions to registers -----

  /** `luaK_dischargevars`. */
  function DischargeVars(e: Exp): Exp {
    if e.k.VLocal? then e.(k := VNonReloc(e.k.reg)) else e
  }

  /** SETARG_A on the instruction of a relocatable expression. */
  function Relocate(fs: Fs, pc: nat, reg: nat): Fs {
    if pc < |fs.code| && fs.code[pc].Not? then fs.(code := fs.code[pc := Not(reg, fs.code[pc].b)]) else fs
  }

  /** `discharge2reg`. */
  function Discharge2Reg(fs: Fs, e0: Exp, reg: nat): (Fs, Exp) {
    var e := DischargeVars(e0);
    match e.k
    case VNil => (EmitNil(fs, reg), e.(k := VNonReloc(reg)))
    case VTrue => (Emit(fs, LoadBool(reg, true, false)), e.(k := VNonReloc(reg)))
    case VFalse => (Emit(fs, LoadBool(reg, false, false)), e.(k := VNonReloc(reg)))
    case VK(i) => (EmitK(fs, reg, i), e.(k := VNonReloc(reg)))
    case VKNum(n) =>
      var (fs1, i) := AddK(fs, Num(n));
      (EmitK(fs1, reg, i), e.(k := VNonReloc(reg)))
    case VReloc(pc) => (Relocate(fs, pc, reg), e.(k := VNonReloc(reg)))
    case VNonReloc(r) => (if r != reg then Emit(fs, Move(reg, r)) else fs, e.(k := VNonReloc(reg)))
    case VJmp(_) => (fs, e)
    case VLocal(_) => (fs, e)
  }

  /** `need_value`: some jump of the list does not carry a value. */
  predicate NeedValue(code: seq<Instr>, list: seq<nat>) {
    exists k :: 0 <= k < |list| && list[k] < |code| && !HasValue(code, list[k])
  }

  /** The part of `exp2reg` that loads true and false for jumps without a value. */
  function LoadBooleans(fs: Fs, reg: nat, jmp: bool): (Fs, int, int) {
    var (fs1, fj) := if jmp then (fs, []) else EmitJump(fs);
    var pf := |fs1.code|;
    var fs2 := Emit(Label(fs1), LoadBool(reg, false, true));
    var pt := |fs2.code|;
    var fs3 := Emit(Label(fs2), LoadBool(reg, true, false));
    (PatchToHere(fs3, fj), pf, pt)
  }

  /** `exp2reg`: the value of the expression goes to `reg`, whichever way it is computed. */
  function Exp2Reg(fs: Fs, e0: Exp, reg: nat): (Fs, Exp) {
    var (fs1, e1) := Discharge2Reg(fs, e0, reg);
    var t := if e1.k.VJmp? then e1.t + [e1.k.pc] else e1.t;
    (JoinJumps(fs1, t, e1.f, reg, e1.k.VJmp?), Exp(VNonReloc(reg), [], []))
  }

  /** The rest of `exp2reg`: the jumps of both lists end here, with their values in `reg`. */
  function JoinJumps(fs: Fs, t: seq<nat>, f: seq<nat>, reg: nat, jmp: bool): Fs {
    if t == [] && f == [] then fs
    else
      var (fs2, pf, pt) :=
        if NeedValue(fs.code, t) || NeedValue(fs.code, f) then LoadBooleans(fs, reg, jmp) else (fs, NO_JUMP, NO_JUMP);
      var fs3 := Label(fs2);
      var final := |fs3.code|;
      fs3.(code := PatchList(PatchList(fs3.code, f, final, reg, pf), t, final, reg, pt))
  }

  /** `luaK_reserveregs` for one register.  Compilation fails when `maxstack` would reach
      `MAXSTACK`; the model goes on, and its results are about runs that stay below. */
  function Reserve(fs: Fs): Fs {
    fs.(freereg := fs.freereg + 1, maxstack := if fs.freereg + 1 > fs.maxstack then fs.freereg + 1 else fs.maxstack)
  }

  /** `freeexp`. */
  function FreeExp(fs: Fs, e: Exp): Fs {
    if e.k.VNonReloc? && e.k.reg >= fs.nactvar && fs.freereg > 0 then fs.(freereg := fs.freereg - 1) else fs
  }

  /** `luaK_exp2nextreg`. */
  function Exp2NextReg(fs: Fs, e0: Exp): (Fs, Exp) {
    var e := DischargeVars(e0);
    var fs1 := FreeExp(fs, e);
    Exp2Reg(Reserve(fs1), e, fs1.freereg)
  }

  /** `luaK_exp2anyreg`. */
  function Exp2AnyReg(fs: Fs, e0: Exp): (Fs, Exp) {
    var e := DischargeVars(e0);
    if e.k.VNonReloc? && !HasJumps(e) then (fs, e)
    else if e.k.VNonReloc? && e.k.reg >= fs.nactvar then Exp2Reg(fs, e, e.k.reg)
    else Exp2NextReg(fs, e)
  }

  /** `luaK_exp2val`. */
  function Exp2Val(fs: Fs, e: Exp): (Fs, Exp) {
    if HasJumps(e) then Exp2AnyReg(fs, e) else (fs, DischargeVars(e))
  }

  function RegOf(e: Exp): nat { if e.k.VNonReloc? then e.k.reg else 0 }

  /** `luaK_exp2RK`. */
  function Exp2RK(fs: Fs, e0: Exp): (Fs, Exp, RK) {
    var (fs1, e) := Exp2Val(fs, e0);
    match e.k
    case VNil => ConstRK(fs1, e, Nil)
    case VTrue => ConstRK(fs1, e, Bool(true))
    case VFalse => ConstRK(fs1, e, Bool(false))
    case VKNum(n) =>
      var (fs2, i) := AddK(fs1, Num(n));
      IndexRK(fs2, e.(k := VK(i)), i)
    case VK(i) => IndexRK(fs1, e, i)
    case _ => AnyRK(fs1, e)
  }

  function AnyRK(fs: Fs, e0: Exp): (Fs, Exp, RK) {
    var (fs1, e) := Exp2AnyReg(fs, e0);
    (fs1, e, R(RegOf(e)))
  }

  /** nil, true and false become constants if the table is small enough. */
  function ConstRK(fs: Fs, e: Exp, v: Value): (Fs, Exp, RK) {
    if |fs.k| <= MAXINDEXRK then
      var (fs1, i) := AddK(fs, v);
      (fs1, e.(k := VK(i)), K(i))
    else AnyRK(fs, e)
  }

  function IndexRK(fs: Fs, e: Exp, i: nat): (Fs, Exp, RK) {
    if i <= MAXINDEXRK then (fs, e, K(i)) else AnyRK(fs, e)
  }

  // ----- conditions -----

  /** `invertjump`. */
  function InvertJump(fs: Fs, pc: nat): Fs {
    if 0 < pc <= |fs.code| && fs.code[pc - 1].Cmp?
    then fs.(code := fs.code[pc - 1 := fs.code[pc - 1].(cond := !fs.code[pc - 1].cond)]) else fs
  }

  /** `discharge2anyreg`. */
  function Discharge2AnyReg(fs: Fs, e: Exp): (Fs, Exp) {
    if e.k.VNonReloc? then (fs, e) else Discharge2Reg(Reserve(fs), e, fs.freereg)
  }

  /** `jumponcond`: a NOT just emitted is taken back. */
  function JumpOnCond(fs: Fs, e: Exp, cond: bool): (Fs, seq<nat>) {
    if e.k.VReloc? && e.k.pc < |fs.code| && fs.code[e.k.pc].Not? then
      CondJump(fs.(code := fs.code[..|fs.code| - 1]), Test(fs.code[e.k.pc].b, !cond))
    else
      var (fs1, e1) := Discharge2AnyReg(fs, e);
      CondJump(FreeExp(fs1, e1), TestSet(NO_REG, RegOf(e1), cond))
  }

  /** `luaK_goiftrue`: go on if the value is true, else jump. */
  function GoIfTrue(fs: Fs, e0: Exp): (Fs, Exp) {
    var e := DischargeVars(e0);
    var (fs1, pc) :=
      match e.k
      case VJmp(j) => (InvertJump(fs, j), [j])
      case VK(_) => (fs, [])
      case VKNum(_) => (fs, [])
      case VTrue => (fs, [])
      case _ => JumpOnCond(fs, e, false);
    (PatchToHere(fs1, e.t), e.(f := e.f + pc, t := []))
  }

  /** `luaK_goiffalse`. */
  function GoIfFalse(fs: Fs, e0: Exp): (Fs, Exp) {
    var e := DischargeVars(e0);
    var (fs1, pc) :=
      match e.k
      case VJmp(j) => (fs, [j])
      case VNil => (fs, [])
      case VFalse => (fs, [])
      case _ => JumpOnCond(fs, e, true);
    (PatchToHere(fs1, e.f), e.(t := e.t + pc, f := []))
  }

  /** `removevalues`: the tests of the list no longer deliver a value. */
  function RemoveValues(fs: Fs, list: seq<nat>): Fs {
    fs.(code := DropValues(fs.code, list))
  }

  function DropValues(code: seq<Instr>, list: seq<nat>): (r: seq<Instr>)
    ensures |r| == |code|
    ensures forall i :: 0 <= i < |code| ==> r[i] == if i + 1 in list then Retarget(code[i], NO_REG) else code[i]
  {
    seq(|code|, i requires 0 <= i < |code| => if i + 1 in list then Retarget(code[i], NO_REG) else code[i])
  }

  /** The first part of codenot. */
  function FlipKind(fs: Fs, e: Exp): (Fs, Exp) {
    match e.k
    case VNil => (fs, e.(k := VTrue))
    case VFalse => (fs, e.(k := VTrue))
    case VK(_) => (fs, e.(k := VFalse))
    case VKNum(_) => (fs, e.(k := VFalse))
    case VTrue => (fs, e.(k := VFalse))
    case VJmp(j) => (InvertJump(fs, j), e)
    case _ =>
      var (fs2, e2) := Discharge2AnyReg(fs, e);
      var fs3 := FreeExp(fs2, e2);
      var fs4 := Emit(fs3, Not(0, RegOf(e2)));
      (fs4, e2.(k := VReloc(|fs4.code| - 1)))
  }

  /** `codenot`. */
  function CodeNot(fs: Fs, e0: Exp): (Fs, Exp) {
    var (fs1, e1) := FlipKind(fs, DischargeVars(e0));
    (RemoveValues(RemoveValues(fs1, e1.t), e1.f), e1.(t := e1.f, f := e1.t))
  }

  function RelOp(op: Rel): CmpOp {
    match op case EQ => OpEq case NE => OpEq case LT => OpLt case GT => OpLt case LE => OpLe case GE => OpLe
  }

  predicate RelCond(op: Rel) { op == EQ || op == LT || op == LE }

  /** The comparison of two operands. */
  function Comparison(op: Rel, o1: RK, o2: RK): Instr {
    if !RelCond(op) && op != NE then Cmp(RelOp(op), true, o2, o1) else Cmp(RelOp(op), RelCond(op), o1, o2)
  }

  /** `codecomp`: `>` and `>=` exchange their operands, `~=` negates. */
  function CodeComp(fs: Fs, op: Rel, e1: Exp, e2: Exp): (Fs, Exp) {
    var (fs1, e1', o1) := Exp2RK(fs, e1);
    var (fs2, e2', o2) := Exp2RK(fs1, e2);
    var fs3 := FreeExp(FreeExp(fs2, e2'), e1');
    var (fs4, list) := CondJump(fs3, Comparison(op, o1, o2));
    (fs4, Exp(VJmp(|fs4.code| - 1), e1'.t, e1'.f))
  }

  // ----- the driver -----

  /** What `subexpr` has the generator do for a tree: `luaK_prefix`, `luaK_infix` and
      `luaK_posfix`, in the order in which the operators and operands are read. */
  function Compile(fs: Fs, x: Expr): (Fs, Exp)
    decreases x
  {
    match x
    case ENil => (fs, Exp(VNil, [], []))
    case ETrue => (fs, Exp(VTrue, [], []))
    case EFalse => (fs, Exp(VFalse, [], []))
    case ENum(n) => (fs, Exp(VKNum(n), [], []))
    case EStr(s) =>
      var (fs1, i) := AddK(fs, Str(s));
      (fs1, Exp(VK(i), [], []))
    case ELocal(reg) => (fs, Exp(VLocal(reg), [], []))
    case ENot(e) =>
      var (fs1, d) := Compile(fs, e);
      CodeNot(fs1, d)
    case EAnd(l, r) =>
      var (fs1, d) := Compile(fs, l);
      var (fs2, d1) := GoIfTrue(fs1, d);
      var (fs3, d2) := Compile(fs2, r);
      var d3 := DischargeVars(d2);
      (fs3, d3.(f := d3.f + d1.f))
    case EOr(l, r) =>
      var (fs1, d) := Compile(fs, l);
      var (fs2, d1) := GoIfFalse(fs1, d);
      var (fs3, d2) := Compile(fs2, r);
      var d3 := DischargeVars(d2);
      (fs3, d3.(t := d3.t + d1.t))
    case ERel(op, l, r) =>
      var (fs1, d) := Compile(fs, l);
      var (fs2, d1, _) := Exp2RK(fs1, d);
      var (fs3, d2) := Compile(fs2, r);
      CodeComp(fs3, op, d1, d2)
  }
}
