/**
 * The abstract syntax tree produced by the parser of the DSL and consumed by
 * the semantic analyzer and the code generator (ast.h).
 *
 * The source keeps one flat `Command` record with a kind tag and every field
 * any kind may use; the model keeps that shape, so that each check and each
 * template reads exactly the field the source reads.
 */
module Ast {

  /** A C++ `int` on the targets the compiler runs on: 32-bit two's complement. */
  newtype Int32 = x: int | -0x8000_0000 <= x < 0x8000_0000

  /** Declared type of a variable (enum VarType). */
  datatype VarType = VarInteiro | VarTexto | VarBooleano | VarUndefined

  /**
   * A variable declaration (struct VarDecl). `isPin`, `isPWM` and `pinMode`
   * are context flags the parser leaves at their defaults.
   */
  datatype VarDecl = VarDecl(
    name: string,
    varType: VarType,
    isPin: bool,
    isPWM: bool,
    pinMode: string)

  /**
   * Command kinds (enum CmdType). `CmdLerDigital` and `CmdLerAnalogico` are
   * the two kinds the semantic dispatcher handles although ast.h does not
   * list them.
   */
  datatype CmdType =
    | CmdAssign
    | CmdConfigPin
    | CmdConfigPwm
    | CmdPwmAdjust
    | CmdWifiConnect
    | CmdWait
    | CmdLigar
    | CmdDesligar
    | CmdEnviarHttp
    | CmdEscreverSerial
    | CmdLerSerial
    | CmdIf
    | CmdWhile
    | CmdLerDigital
    | CmdLerAnalogico
    | CmdUndefined

  /**
   * A command (struct Command): a kind tag and the union of all fields.
   * `CmdIf`/`CmdWhile` keep only `conditionExpr`: there is no nested body.
   */
  datatype Command = Command(
    cmdType: CmdType,
    varName: string,
    expr: string,
    pin: string,
    pinMode: string,
    freq: Int32,
    resol: Int32,
    valueExpr: string,
    ssid: string,
    password: string,
    waitTime: string,
    digitalPin: string,
    httpUrl: string,
    httpData: string,
    serialMsg: string,
    conditionExpr: string)

  /** The whole program (struct ASTProgram): declarations, "config" block, "repita" block. */
  datatype AstProgram = AstProgram(
    declarations: seq<VarDecl>,
    configCommands: seq<Command>,
    repitaCommands: seq<Command>)

  /** True of a declaration whose context flags are still the defaults. */
  predicate HasDefaultFlags(d: VarDecl) {
    !d.isPin && !d.isPWM && d.pinMode == ""
  }

  /** The default constructor `VarDecl()`. */
  function DefaultVarDecl(): (d: VarDecl)
    ensures d.varType == VarUndefined && HasDefaultFlags(d) && d.name == ""
  {
    VarDecl("", VarUndefined, false, false, "")
  }

  /** The default constructor `Command()`. */
  function DefaultCommand(): (c: Command)
    ensures c.cmdType == CmdUndefined && c.freq == 0 && c.resol == 0
    ensures c.varName == c.expr == c.pin == c.pinMode == c.valueExpr == ""
    ensures c.ssid == c.password == c.waitTime == c.digitalPin == ""
    ensures c.httpUrl == c.httpData == c.serialMsg == c.conditionExpr == ""
  {
    Command(CmdUndefined, "", "", "", "", 0, 0, "", "", "", "", "", "", "", "", "")
  }

  /** The default constructor `ASTProgram()`. */
  function EmptyProgram(): (p: AstProgram)
    ensures p.declarations == [] && p.configCommands == [] && p.repitaCommands == []
  {
    AstProgram([], [], [])
  }
}
