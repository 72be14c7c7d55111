/**
 * Code generation (codegen.cpp): the text of an Arduino/ESP32 sketch for an
 * analyzed program. The output stream is modelled as the sequence of lines
 * written to it, each of which the source ends with a newline.
 *
 * `GenerateCommand` is the stateless per-command template; `Sketch` is the
 * whole text as a function of the program; the method `GenerateCode` builds
 * the same text with the three loops of the source.
 */
module Codegen {
  import opened Ast
  import Decimal

  /** varTypeToCpp: the C++ type of a declared variable; undefined falls back to int. */
  function VarTypeToCpp(t: VarType): (r: string)
    ensures r in {"int", "String", "bool"}
    ensures r == "int" <==> (t == VarInteiro || t == VarUndefined)
    ensures r == "String" <==> t == VarTexto
    ensures r == "bool" <==> t == VarBooleano
  {
    match t
    case VarInteiro => "int"
    case VarTexto => "String"
    case VarBooleano => "bool"
    case _ => "int"
  }

  /** Lines of a function body: the source indents every one of them by two spaces. */
  predicate Indented(line: string) {
    |line| >= 2 && line[0] == ' ' && line[1] == ' '
  }

  /** A line of a function body. */
  function Line(text: string): (line: string)
    ensures Indented(line) && line[2..] == text
  {
    "  " + text
  }

  /** The kinds for which generateCommand has no case: they emit nothing. */
  predicate EmitsNothing(k: CmdType) {
    k == CmdLerDigital || k == CmdLerAnalogico || k == CmdUndefined
  }

  /**
   * generateCommand: the lines one command translates to. It depends on the
   * command alone; PWM uses the fixed channel 0 and `ledcWrite` receives the
   * pin name as its channel, exactly as written in the source.
   */
  function GenerateCommand(cmd: Command): (lines: seq<string>)
    ensures forall k :: 0 <= k < |lines| ==> Indented(lines[k])
  {
    match cmd.cmdType
    case CmdAssign => [AssignLine(cmd.varName, cmd.expr)]
    case CmdConfigPin => [PinModeLine(cmd.pin, PinModeConstant(cmd.pinMode))]
    case CmdConfigPwm => PwmSetupLines(cmd.pin, cmd.freq, cmd.resol)
    case CmdPwmAdjust => [PwmWriteLine(cmd.pin, cmd.valueExpr)]
    case CmdLigar => [DigitalWriteLine(cmd.digitalPin, true)]
    case CmdDesligar => [DigitalWriteLine(cmd.digitalPin, false)]
    case CmdWifiConnect => WifiConnectLines(cmd.ssid, cmd.password)
    case CmdWait => [DelayLine(cmd.waitTime)]
    case CmdEnviarHttp => HttpPostLines(cmd.httpUrl, cmd.httpData)
    case CmdEscreverSerial => [SerialPrintLine(cmd.serialMsg)]
    case CmdLerSerial => SerialReadLines()
    case CmdIf => [IfWhilePlaceholder()]
    case CmdWhile => [IfWhilePlaceholder()]
    case _ => []
  }

  /** A command translates to no line exactly when generateCommand has no case for its kind. */
  lemma EmitsNothingExactly(cmd: Command)
    ensures GenerateCommand(cmd) == [] <==> EmitsNothing(cmd.cmdType)
  {
  }

  /** "<var> = <expr>;" */
  function AssignLine(name: string, expr: string): (line: string)
    ensures Indented(line)
  {
    Line(name + " = " + expr + ";")
  }

  /** Sets up PWM channel 0 with the frequency and resolution, then attaches the pin to channel 0. */
  function PwmSetupLines(pin: string, freq: Int32, resol: Int32): (lines: seq<string>)
    ensures |lines| == 2 && Indented(lines[0]) && Indented(lines[1])
  {
    [SetupLine(freq, resol),
     Line("ledcAttachPin(" + pin + ", 0);")]
  }

  /** The ledcSetup line: channel 0, then the decimal frequency and resolution. */
  function SetupLine(freq: Int32, resol: Int32): (line: string)
    ensures Indented(line)
  {
    Line("ledcSetup(0, " + (Decimal.IntToDecimal(freq as int) + ", " + Decimal.IntToDecimal(resol as int)) + ");")
  }

  /** ledcWrite with the pin in the channel position. */
  function PwmWriteLine(pin: string, value: string): (line: string)
    ensures Indented(line)
  {
    Line("ledcWrite(" + pin + ", " + value + ");")
  }

  /** digitalWrite of HIGH or LOW. */
  function DigitalWriteLine(pin: string, high: bool): (line: string)
    ensures Indented(line)
  {
    Line("digitalWrite(" + pin + (if high then ", HIGH);" else ", LOW);"))
  }

  /** delay for the given time expression. */
  function DelayLine(time: string): (line: string)
    ensures Indented(line)
  {
    Line("delay(" + time + ");")
  }

  /** Serial.println of the message expression. */
  function SerialPrintLine(msg: string): (line: string)
    ensures Indented(line)
  {
    Line("Serial.println(" + msg + ");")
  }

  /** "WiFi.begin(...)" followed by a wait loop polling the connection every 500 ms. */
  function WifiConnectLines(ssid: string, password: string): (lines: seq<string>)
    ensures |lines| == 4 && forall k :: 0 <= k < |lines| ==> Indented(lines[k])
  {
    [Line("WiFi.begin(" + ssid + ".c_str(), " + password + ".c_str());"),
     Line("while(WiFi.status() != WL_CONNECTED) {"),
     Line("  delay(500);"),
     Line("}")]
  }

  /** A braced block that POSTs the data to the URL with an HTTPClient. */
  function HttpPostLines(url: string, data: string): (lines: seq<string>)
    ensures |lines| == 7 && forall k :: 0 <= k < |lines| ==> Indented(lines[k])
    ensures lines[0] == Line("{") && lines[|lines| - 1] == Line("}")
  {
    [Line("{"),
     Line("  HTTPClient http;"),
     Line("  http.begin(" + url + ");"),
     Line("  http.addHeader(\"Content-Type\", \"application/x-www-form-urlencoded\");"),
     Line("  int httpCode = http.POST(" + data + ");"),
     Line("  http.end();"),
     Line("}")]
  }

  /** A braced block that reads a String from the serial port into a local. */
  function SerialReadLines(): (lines: seq<string>)
    ensures |lines| == 4 && forall k :: 0 <= k < |lines| ==> Indented(lines[k])
    ensures lines[0] == Line("{") && lines[|lines| - 1] == Line("}")
  {
    [Line("{"),
     Line("  String valor = Serial.readString();"),
     Line("  // se quiser fazer algo com 'valor'"),
     Line("}")]
  }

  /** The pinMode call for a pin and a mode constant. */
  function PinModeLine(pin: string, constant: string): (line: string)
    ensures Indented(line) && |line| == |pin| + |constant| + 14
  {
    Line("pinMode(" + pin + ", " + constant + ");")
  }

  /** The pin-mode constant: INPUT for "entrada", OUTPUT for any other mode text. */
  function PinModeConstant(mode: string): (c: string)
    ensures c == "INPUT" <==> mode == "entrada"
    ensures c == "OUTPUT" <==> mode != "entrada"
  {
    if mode == "entrada" then "INPUT" else "OUTPUT"
  }

  /** The comment written in place of a conditional or a loop, whose body is not kept. */
  function IfWhilePlaceholder(): (line: string)
    ensures Indented(line)
  {
    Line("// (IF/WHILE) Comandos não expandidos")
  }

  /** The translations of a block of commands, concatenated in order. */
  function Body(cmds: seq<Command>): (lines: seq<string>)
    ensures forall k :: 0 <= k < |lines| ==> Indented(lines[k])
    decreases |cmds|
  {
    if cmds == [] then [] else GenerateCommand(cmds[0]) + Body(cmds[1..])
  }

  /** The global declaration line of one variable: "<type> <name>;". */
  function GlobalLine(d: VarDecl): (line: string)
    ensures |line| >= 1 && line[|line| - 1] == ';'
  {
    VarTypeToCpp(d.varType) + " " + d.name + ";"
  }

  function Globals(decls: seq<VarDecl>): (lines: seq<string>)
    ensures |lines| == |decls|
    ensures forall i :: 0 <= i < |decls| ==> lines[i] == GlobalLine(decls[i])
  {
    seq(|decls|, i requires 0 <= i < |decls| => GlobalLine(decls[i]))
  }

  /** The include lines, then a blank line and the heading of the globals. */
  function Preamble(): (lines: seq<string>)
    ensures |lines| == 4
    ensures SetupHeader !in lines && LoopHeader !in lines && Close !in lines
  {
    ["#include <Arduino.h>",
     "#include <WiFi.h>",
     "",
     "// ========== Variáveis Globais =========="]
  }

  const SetupHeader := "void setup() {"
  const LoopHeader := "void loop() {"
  const Close := "}"

  /** The preamble followed by the global declarations. */
  function Head(decls: seq<VarDecl>): seq<string> {
    Preamble() + Globals(decls)
  }

  /** A blank line, a function header, the translated body and the closing brace. */
  function Block(header: string, cmds: seq<Command>): (lines: seq<string>)
    ensures |lines| == |Body(cmds)| + 3
    ensures lines[0] == ""
    ensures lines[1] == header && lines[|lines| - 1] == Close && lines[2..|lines| - 1] == Body(cmds)
  {
    ["", header] + Body(cmds) + [Close]
  }

  /** The whole sketch generateCode writes for a program. */
  function Sketch(p: AstProgram): (lines: seq<string>)
    ensures |lines| == |p.declarations| + |Body(p.configCommands)| + |Body(p.repitaCommands)| + 10
    ensures lines[|lines| - 1] == Close
  {
    Head(p.declarations) + Block(SetupHeader, p.configCommands) + Block(LoopHeader, p.repitaCommands)
  }

  /** Translating `a + b` is translating `a`, then `b`: one translation per command. */
  lemma {:induction false} BodyAppend(a: seq<Command>, b: seq<Command>)
    ensures Body(a + b) == Body(a) + Body(b)
    decreases |a|
  {
    if a == [] {
      assert a + b == b;
    } else {
      assert (a + b)[0] == a[0] && (a + b)[1..] == a[1..] + b;
      BodyAppend(a[1..], b);
    }
  }

  /** Translating one more command appends its translation. */
  lemma BodySnoc(cmds: seq<Command>, c: Command)
    ensures Body(cmds + [c]) == Body(cmds) + GenerateCommand(c)
  {
    BodyAppend(cmds, [c]);
    assert [c][1..] == [];
  }

  /** The translation of the first `k + 1` commands extends that of the first `k`. */
  lemma BodyStep(cmds: seq<Command>, k: nat)
    requires k < |cmds|
    ensures Body(cmds[..k + 1]) == Body(cmds[..k]) + GenerateCommand(cmds[k])
  {
    assert cmds[..k + 1] == cmds[..k] + [cmds[k]];
    BodySnoc(cmds[..k], cmds[k]);
  }

  /**
   * generateCode, writing to a sequence of lines instead of a file: the
   * preamble, one global per declaration, then setup() over the "config"
   * commands and loop() over the "repita" commands.
   */
  method GenerateCode(program: AstProgram) returns (out: seq<string>)
    ensures out == Sketch(program)
  {
    out := Preamble();
    var decls := program.declarations;
    var i := 0;
    while i < |decls|
      invariant 0 <= i <= |decls|
      invariant out == Preamble() + Globals(decls[..i])
    {
      out := out + [GlobalLine(decls[i])];
      i := i + 1;
    }
    assert decls[..i] == decls;
    var setupBody := GenerateBlock(program.configCommands);
    out := out + (["", SetupHeader] + setupBody + [Close]);
    var loopBody := GenerateBlock(program.repitaCommands);
    out := out + (["", LoopHeader] + loopBody + [Close]);
  }

  /** The loop of generateCode over one block of commands, translating each in order. */
  method GenerateBlock(cmds: seq<Command>) returns (lines: seq<string>)
    ensures lines == Body(cmds)
  {
    lines := [];
    var i := 0;
    while i < |cmds|
      invariant 0 <= i <= |cmds|
      invariant lines == Body(cmds[..i])
    {
      BodyStep(cmds, i);
      lines := lines + GenerateCommand(cmds[i]);
      i := i + 1;
    }
    assert cmds[..i] == cmds;
  }
}
