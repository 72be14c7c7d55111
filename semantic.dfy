/**
 * Semantic analysis (semantic.cpp): a symbol table from variable name to
 * type and pin/PWM flags, filled from the declarations and then updated,
 * command by command, by the checks of the "config" and "repita" blocks.
 * The first error ends the analysis.
 *
 * The functions below are the specification: one step function per check,
 * `Step` for the dispatcher, `Register` and `CheckCommands` for the two
 * loops, `Analyze` for the whole pass. The class `SemanticAnalyzer` holds
 * the table as a mutable field and runs the same loops in place; each of its
 * methods is proved against the corresponding function.
 */
module Semantic {
  import opened Ast

  /** One entry of the symbol table (struct SymbolInfo). */
  datatype SymbolInfo = SymbolInfo(varType: VarType, isPin: bool, isPWM: bool, pinMode: string)

  type SymbolTable = map<string, SymbolInfo>

  /** One tag per error report of the source; the message text is not modelled. */
  datatype SemanticError =
    | DuplicateDeclaration(name: string)
    | UndeclaredVariable(name: string)
    | TextAssignedToInteger(name: string)
    | PwmNotConfigured(pin: string)
    | NotConfiguredAsPin(pin: string)
    | NotOutputPin(pin: string)
    | UndeclaredDestination(name: string)
    | UndeclaredPin(pin: string)
    | NotInputPin(pin: string)
    | NotAnalogInputPin(pin: string)

  datatype Result<T> = Ok(value: T) | Err(error: SemanticError)

  /** Success, or the first error found. */
  datatype Outcome = Pass | Fail(error: SemanticError)

  function OutcomeOf<T>(r: Result<T>): Outcome {
    if r.Ok? then Pass else Fail(r.error)
  }

  /** The table a check leaves behind: its new table, or the old one on failure. */
  function After(t: SymbolTable, r: Result<SymbolTable>): SymbolTable {
    if r.Ok? then r.value else t
  }

  // ---------------------------------------------------------------------
  // Registration of the declarations
  // ---------------------------------------------------------------------

  /** The entry registered for a declaration: its type and its flags, copied. */
  function InfoOf(d: VarDecl): (info: SymbolInfo)
    ensures info.varType == d.varType
    ensures HasDefaultFlags(d) <==> (!info.isPin && !info.isPWM && info.pinMode == "")
  {
    SymbolInfo(d.varType, d.isPin, d.isPWM, d.pinMode)
  }

  function Names(decls: seq<VarDecl>): set<string> {
    set i | 0 <= i < |decls| :: decls[i].name
  }

  predicate DistinctNames(decls: seq<VarDecl>) {
    forall i, j :: 0 <= i < j < |decls| ==> decls[i].name != decls[j].name
  }

  /** The name of declaration `i` is already taken: by the table, or by an earlier declaration. */
  predicate RepeatAt(t: SymbolTable, decls: seq<VarDecl>, i: nat)
    requires i < |decls|
  {
    decls[i].name in t || exists j :: 0 <= j < i && decls[j].name == decls[i].name
  }

  /**
   * The registration loop: adds the declarations in order, failing on the
   * first name that is already in the table.
   */
  function Register(t: SymbolTable, decls: seq<VarDecl>): (r: Result<SymbolTable>)
    ensures r.Ok? <==> DistinctNames(decls) && Names(decls) !! t.Keys
    ensures r.Ok? ==> r.value.Keys == t.Keys + Names(decls)
    ensures r.Ok? ==> forall k :: k in t ==> r.value[k] == t[k]
    ensures r.Ok? ==> forall i :: 0 <= i < |decls| ==> r.value[decls[i].name] == InfoOf(decls[i])
    ensures r.Err? ==> r.error.DuplicateDeclaration?
    ensures r.Err? ==> exists i :: 0 <= i < |decls| && decls[i].name == r.error.name && RepeatAt(t, decls, i)
    decreases |decls|
  {
    if decls == [] then Ok(t)
    else if decls[0].name in t then
      assert RepeatAt(t, decls, 0);
      Err(DuplicateDeclaration(decls[0].name))
    else
      var t' := t[decls[0].name := InfoOf(decls[0])];
      var r := Register(t', decls[1..]);
      NamesCons(decls);
      DistinctCons(decls);
      assert r.Err? ==> exists i :: 0 <= i < |decls| && decls[i].name == r.error.name && RepeatAt(t, decls, i) by {
        if r.Err? {
          var i' :| 0 <= i' < |decls[1..]| && decls[1..][i'].name == r.error.name && RepeatAt(t', decls[1..], i');
          RepeatShift(t, decls, i');
        }
      }
      r
  }

  lemma NamesCons(decls: seq<VarDecl>)
    requires decls != []
    ensures Names(decls) == {decls[0].name} + Names(decls[1..])
  {
    forall x | x in Names(decls) ensures x in {decls[0].name} + Names(decls[1..]) {
      var i :| 0 <= i < |decls| && decls[i].name == x;
      if i > 0 { assert decls[1..][i - 1].name == x; }
    }
  }

  lemma DistinctCons(decls: seq<VarDecl>)
    requires decls != []
    ensures DistinctNames(decls) <==> decls[0].name !in Names(decls[1..]) && DistinctNames(decls[1..])
  {
    if decls[0].name !in Names(decls[1..]) && DistinctNames(decls[1..]) {
      forall i, j | 0 <= i < j < |decls| ensures decls[i].name != decls[j].name {
        assert decls[j].name == decls[1..][j - 1].name;
        if i > 0 { assert decls[i].name == decls[1..][i - 1].name; }
      }
    }
  }

  /** A repeat after registering the first declaration is a repeat one position later. */
  lemma RepeatShift(t: SymbolTable, decls: seq<VarDecl>, i: nat)
    requires decls != [] && i < |decls| - 1
    requires RepeatAt(t[decls[0].name := InfoOf(decls[0])], decls[1..], i)
    ensures RepeatAt(t, decls, i + 1)
  {
    if decls[i + 1].name != decls[0].name && decls[i + 1].name !in t {
      var j :| 0 <= j < i && decls[1..][j].name == decls[1..][i].name;
      assert decls[j + 1].name == decls[i + 1].name;
    } else if decls[i + 1].name == decls[0].name {
      assert decls[0].name == decls[i + 1].name;
    }
  }

  // ---------------------------------------------------------------------
  // The per-command checks
  // ---------------------------------------------------------------------

  /** checkAssign: the target must be declared; an integer target must not get text. */
  function AssignStep(t: SymbolTable, cmd: Command): (r: Result<SymbolTable>)
    ensures r.Ok? ==> r.value == t
    ensures r == Err(UndeclaredVariable(cmd.varName)) <==> cmd.varName !in t
    ensures r.Err? ==> r.error in {UndeclaredVariable(cmd.varName), TextAssignedToInteger(cmd.varName)}
    ensures r == Err(TextAssignedToInteger(cmd.varName)) ==> cmd.varName in t && t[cmd.varName].varType == VarInteiro
  {
    if cmd.varName !in t then Err(UndeclaredVariable(cmd.varName))
    else if t[cmd.varName].varType == VarInteiro && |cmd.expr| > 0 && cmd.expr[0] == '"' then
      Err(TextAssignedToInteger(cmd.varName))
    else Ok(t)
  }

  /** checkConfigPin: the pin must be declared; it becomes a pin with the given mode. */
  function ConfigPinStep(t: SymbolTable, cmd: Command): (r: Result<SymbolTable>)
    ensures r.Ok? <==> cmd.pin in t
    ensures r.Err? ==> r.error == UndeclaredVariable(cmd.pin)
    ensures r.Ok? ==> r.value.Keys == t.Keys && forall k :: k in t && k != cmd.pin ==> r.value[k] == t[k]
    ensures r.Ok? ==> r.value[cmd.pin].isPin && r.value[cmd.pin].pinMode == cmd.pinMode
    ensures r.Ok? ==> r.value[cmd.pin].varType == t[cmd.pin].varType && r.value[cmd.pin].isPWM == t[cmd.pin].isPWM
  {
    if cmd.pin !in t then Err(UndeclaredVariable(cmd.pin))
    else Ok(t[cmd.pin := t[cmd.pin].(isPin := true, pinMode := cmd.pinMode)])
  }

  /** checkConfigPwm: the pin must be declared; it is marked as PWM. */
  function ConfigPwmStep(t: SymbolTable, cmd: Command): (r: Result<SymbolTable>)
    ensures r.Ok? <==> cmd.pin in t
    ensures r.Err? ==> r.error == UndeclaredVariable(cmd.pin)
    ensures r.Ok? ==> r.value.Keys == t.Keys && forall k :: k in t && k != cmd.pin ==> r.value[k] == t[k]
    ensures r.Ok? ==> r.value[cmd.pin].isPWM
    ensures r.Ok? ==> r.value[cmd.pin].varType == t[cmd.pin].varType
    ensures r.Ok? ==> r.value[cmd.pin].isPin == t[cmd.pin].isPin && r.value[cmd.pin].pinMode == t[cmd.pin].pinMode
  {
    if cmd.pin !in t then Err(UndeclaredVariable(cmd.pin))
    else Ok(t[cmd.pin := t[cmd.pin].(isPWM := true)])
  }

  /** checkPwmAdjust: the pin must be declared and already marked as PWM. */
  function PwmAdjustStep(t: SymbolTable, cmd: Command): (r: Result<SymbolTable>)
    ensures r.Ok? ==> r.value == t
    ensures r == Err(UndeclaredVariable(cmd.pin)) <==> cmd.pin !in t
    ensures r == Err(PwmNotConfigured(cmd.pin)) <==> (cmd.pin in t && !t[cmd.pin].isPWM)
    ensures r.Err? ==> r.error in {UndeclaredVariable(cmd.pin), PwmNotConfigured(cmd.pin)}
  {
    if cmd.pin !in t then Err(UndeclaredVariable(cmd.pin))
    else if !t[cmd.pin].isPWM then Err(PwmNotConfigured(cmd.pin))
    else Ok(t)
  }

  /** checkDigital (ligar/desligar): the pin must be declared, a pin, in mode "saida". */
  function DigitalStep(t: SymbolTable, cmd: Command): (r: Result<SymbolTable>)
    ensures r.Ok? ==> r.value == t
    ensures r == Err(UndeclaredVariable(cmd.digitalPin)) <==> cmd.digitalPin !in t
    ensures r == Err(NotConfiguredAsPin(cmd.digitalPin)) <==> (cmd.digitalPin in t && !t[cmd.digitalPin].isPin)
    ensures r.Err? ==> r.error in {UndeclaredVariable(cmd.digitalPin), NotConfiguredAsPin(cmd.digitalPin), NotOutputPin(cmd.digitalPin)}
  {
    if cmd.digitalPin !in t then Err(UndeclaredVariable(cmd.digitalPin))
    else if !t[cmd.digitalPin].isPin then Err(NotConfiguredAsPin(cmd.digitalPin))
    else if t[cmd.digitalPin].pinMode != "saida" then Err(NotOutputPin(cmd.digitalPin))
    else Ok(t)
  }

  /** checkLerDigital: declared destination, declared pin, a pin in mode "entrada". */
  function LerDigitalStep(t: SymbolTable, cmd: Command): (r: Result<SymbolTable>)
    ensures r.Ok? ==> r.value == t
    ensures r == Err(UndeclaredDestination(cmd.varName)) <==> cmd.varName !in t
    ensures r == Err(UndeclaredPin(cmd.pin)) <==> cmd.varName in t && cmd.pin !in t
    ensures r.Err? ==> r.error in {UndeclaredDestination(cmd.varName), UndeclaredPin(cmd.pin), NotInputPin(cmd.pin)}
  {
    if cmd.varName !in t then Err(UndeclaredDestination(cmd.varName))
    else if cmd.pin !in t then Err(UndeclaredPin(cmd.pin))
    else if !t[cmd.pin].isPin || t[cmd.pin].pinMode != "entrada" then Err(NotInputPin(cmd.pin))
    else Ok(t)
  }

  /** checkLerAnalogico: declared destination, declared pin, a pin (any mode). */
  function LerAnalogicoStep(t: SymbolTable, cmd: Command): (r: Result<SymbolTable>)
    ensures r.Ok? ==> r.value == t
    ensures r == Err(UndeclaredDestination(cmd.varName)) <==> cmd.varName !in t
    ensures r == Err(UndeclaredPin(cmd.pin)) <==> cmd.varName in t && cmd.pin !in t
    ensures r.Err? ==> r.error in {UndeclaredDestination(cmd.varName), UndeclaredPin(cmd.pin), NotAnalogInputPin(cmd.pin)}
  {
    if cmd.varName !in t then Err(UndeclaredDestination(cmd.varName))
    else if cmd.pin !in t then Err(UndeclaredPin(cmd.pin))
    else if !t[cmd.pin].isPin then Err(NotAnalogInputPin(cmd.pin))
    else Ok(t)
  }

  /** The declarations of two tables agree: same names, same types. */
  predicate SameDeclarations(t: SymbolTable, t': SymbolTable) {
    t'.Keys == t.Keys && forall k :: k in t ==> t'[k].varType == t[k].varType
  }

  /**
   * What a successful check of `cmd` may change in an entry: only a pin
   * configuration changes `isPin`/`pinMode`, of its own pin; only a PWM
   * configuration changes `isPWM`, of its own pin, and only to true.
   */
  predicate StepFrame(t: SymbolTable, t': SymbolTable, cmd: Command)
    requires t'.Keys == t.Keys
  {
    forall k :: k in t ==>
      && ((t'[k].isPin == t[k].isPin && t'[k].pinMode == t[k].pinMode)
          || (cmd.cmdType == CmdConfigPin && k == cmd.pin))
      && (t'[k].isPWM == t[k].isPWM || (cmd.cmdType == CmdConfigPwm && k == cmd.pin && t'[k].isPWM))
  }

  /** checkCommand: dispatch on the kind; kinds without a check pass unchanged. */
  function Step(t: SymbolTable, cmd: Command): (r: Result<SymbolTable>)
    ensures r.Ok? ==> SameDeclarations(t, r.value) && StepFrame(t, r.value, cmd)
    ensures r.Err? ==> !r.error.DuplicateDeclaration?
  {
    match cmd.cmdType
    case CmdAssign => AssignStep(t, cmd)
    case CmdConfigPin => ConfigPinStep(t, cmd)
    case CmdConfigPwm => ConfigPwmStep(t, cmd)
    case CmdPwmAdjust => PwmAdjustStep(t, cmd)
    case CmdLigar => DigitalStep(t, cmd)
    case CmdDesligar => DigitalStep(t, cmd)
    case CmdLerDigital => LerDigitalStep(t, cmd)
    case CmdLerAnalogico => LerAnalogicoStep(t, cmd)
    case _ => Ok(t)
  }

  /** The loop over one block: checks the commands in order, stopping at the first error. */
  function CheckCommands(t: SymbolTable, cmds: seq<Command>): (r: Result<SymbolTable>)
    ensures r.Ok? ==> SameDeclarations(t, r.value)
    ensures r.Err? ==> !r.error.DuplicateDeclaration?
    decreases |cmds|
  {
    if cmds == [] then Ok(t)
    else
      match Step(t, cmds[0])
      case Err(e) => Err(e)
      case Ok(t1) => CheckCommands(t1, cmds[1..])
  }

  /**
   * semanticAnalysis: a fresh table, the declarations, then every "config"
   * command, then every "repita" command.
   */
  function Analyze(p: AstProgram): (r: Result<SymbolTable>)
    ensures r.Err? && r.error.DuplicateDeclaration? <==> !DistinctNames(p.declarations)
    ensures r.Err? && r.error.DuplicateDeclaration? ==>
      exists i, j :: 0 <= j < i < |p.declarations|
        && p.declarations[j].name == p.declarations[i].name == r.error.name
    ensures r.Ok? ==> r.value.Keys == Names(p.declarations)
    ensures r.Ok? ==> forall i :: 0 <= i < |p.declarations| ==>
      r.value[p.declarations[i].name].varType == p.declarations[i].varType
  {
    match Register(map[], p.declarations)
    case Err(e) => Err(e)
    case Ok(t0) =>
      match CheckCommands(t0, p.configCommands)
      case Err(e) => Err(e)
      case Ok(t1) => CheckCommands(t1, p.repitaCommands)
  }

  // ---------------------------------------------------------------------
  // The analyzer with its mutable symbol table
  // ---------------------------------------------------------------------

  /**
   * The analyzer and its symbol table, a field the checks update in place
   * (the file-scope `symbolTable` of the source). Failure is returned as an
   * `Outcome` where the source prints a message and exits.
   */
  class SemanticAnalyzer {
    var symbolTable: SymbolTable

    constructor ()
      ensures symbolTable == map[]
    {
      symbolTable := map[];
    }

    /**
     * semanticAnalysis. The table is cleared first, so what it held before
     * has no influence on the outcome or on the final table.
     */
    method SemanticAnalysis(program: AstProgram) returns (outcome: Outcome)
      modifies this
      ensures outcome == OutcomeOf(Analyze(program))
      ensures outcome.Pass? ==> symbolTable == Analyze(program).value
    {
      symbolTable := map[];
      var decls := program.declarations;
      var i := 0;
      while i < |decls|
        invariant 0 <= i <= |decls|
        invariant Register(map[], decls) == Register(symbolTable, decls[i..])
      {
        var decl := decls[i];
        assert decls[i..][0] == decl && decls[i..][1..] == decls[i + 1..];
        if decl.name in symbolTable {
          return Fail(DuplicateDeclaration(decl.name));
        }
        symbolTable := symbolTable[decl.name := InfoOf(decl)];
        i := i + 1;
      }
      outcome := CheckBlock(program.configCommands);
      if outcome.Fail? {
        return;
      }
      outcome := CheckBlock(program.repitaCommands);
    }

    /** One of the two command loops of semanticAnalysis: stops at the first error. */
    method CheckBlock(cmds: seq<Command>) returns (outcome: Outcome)
      modifies this
      ensures outcome == OutcomeOf(CheckCommands(old(symbolTable), cmds))
      ensures outcome.Pass? ==> symbolTable == CheckCommands(old(symbolTable), cmds).value
    {
      var i := 0;
      while i < |cmds|
        invariant 0 <= i <= |cmds|
        invariant CheckCommands(old(symbolTable), cmds) == CheckCommands(symbolTable, cmds[i..])
      {
        assert cmds[i..][0] == cmds[i] && cmds[i..][1..] == cmds[i + 1..];
        outcome := CheckCommand(cmds[i]);
        if outcome.Fail? {
          return;
        }
        i := i + 1;
      }
      outcome := Pass;
    }

    /** checkCommand. */
    method CheckCommand(cmd: Command) returns (outcome: Outcome)
      modifies this
      ensures outcome == OutcomeOf(Step(old(symbolTable), cmd))
      ensures symbolTable == After(old(symbolTable), Step(old(symbolTable), cmd))
    {
      match cmd.cmdType {
        case CmdAssign => outcome := CheckAssign(cmd);
        case CmdConfigPin => outcome := CheckConfigPin(cmd);
        case CmdConfigPwm => outcome := CheckConfigPwm(cmd);
        case CmdPwmAdjust => outcome := CheckPwmAdjust(cmd);
        case CmdLigar => outcome := CheckDigital(cmd);
        case CmdDesligar => outcome := CheckDigital(cmd);
        case CmdLerDigital => outcome := CheckLerDigital(cmd);
        case CmdLerAnalogico => outcome := CheckLerAnalogico(cmd);
        case _ => outcome := Pass;
      }
    }

    /** checkAssign: reads the table, never changes it. */
    method CheckAssign(cmd: Command) returns (outcome: Outcome)
      ensures outcome.Pass? <==> (cmd.varName in symbolTable &&
        !(symbolTable[cmd.varName].varType == VarInteiro && |cmd.expr| > 0 && cmd.expr[0] == '"'))
      ensures outcome == OutcomeOf(AssignStep(symbolTable, cmd))
    {
      if cmd.varName !in symbolTable {
        return Fail(UndeclaredVariable(cmd.varName));
      }
      if symbolTable[cmd.varName].varType == VarInteiro {
        if |cmd.expr| > 0 && cmd.expr[0] == '"' {
          return Fail(TextAssignedToInteger(cmd.varName));
        }
      }
      outcome := Pass;
    }

    /** checkConfigPin: marks a declared pin and overwrites its mode. */
    method CheckConfigPin(cmd: Command) returns (outcome: Outcome)
      modifies this
      ensures outcome.Pass? <==> cmd.pin in old(symbolTable)
      ensures outcome == OutcomeOf(ConfigPinStep(old(symbolTable), cmd))
      ensures symbolTable == After(old(symbolTable), ConfigPinStep(old(symbolTable), cmd))
    {
      if cmd.pin !in symbolTable {
        return Fail(UndeclaredVariable(cmd.pin));
      }
      var info := symbolTable[cmd.pin];
      info := info.(isPin := true);
      info := info.(pinMode := cmd.pinMode);
      symbolTable := symbolTable[cmd.pin := info];
      outcome := Pass;
    }

    /** checkConfigPwm: marks a declared pin as PWM. */
    method CheckConfigPwm(cmd: Command) returns (outcome: Outcome)
      modifies this
      ensures outcome.Pass? <==> cmd.pin in old(symbolTable)
      ensures outcome == OutcomeOf(ConfigPwmStep(old(symbolTable), cmd))
      ensures symbolTable == After(old(symbolTable), ConfigPwmStep(old(symbolTable), cmd))
    {
      if cmd.pin !in symbolTable {
        return Fail(UndeclaredVariable(cmd.pin));
      }
      symbolTable := symbolTable[cmd.pin := symbolTable[cmd.pin].(isPWM := true)];
      outcome := Pass;
    }

    /** checkPwmAdjust: reads the table, never changes it. */
    method CheckPwmAdjust(cmd: Command) returns (outcome: Outcome)
      ensures outcome.Pass? <==> cmd.pin in symbolTable && symbolTable[cmd.pin].isPWM
      ensures outcome == OutcomeOf(PwmAdjustStep(symbolTable, cmd))
    {
      if cmd.pin !in symbolTable {
        return Fail(UndeclaredVariable(cmd.pin));
      }
      if !symbolTable[cmd.pin].isPWM {
        return Fail(PwmNotConfigured(cmd.pin));
      }
      outcome := Pass;
    }

    /** checkDigital (ligar/desligar): reads the table, never changes it. */
    method CheckDigital(cmd: Command) returns (outcome: Outcome)
      ensures outcome.Pass? <==> (cmd.digitalPin in symbolTable &&
        symbolTable[cmd.digitalPin].isPin && symbolTable[cmd.digitalPin].pinMode == "saida")
      ensures outcome == OutcomeOf(DigitalStep(symbolTable, cmd))
    {
      if cmd.digitalPin !in symbolTable {
        return Fail(UndeclaredVariable(cmd.digitalPin));
      }
      if !symbolTable[cmd.digitalPin].isPin {
        return Fail(NotConfiguredAsPin(cmd.digitalPin));
      }
      if symbolTable[cmd.digitalPin].pinMode != "saida" {
        return Fail(NotOutputPin(cmd.digitalPin));
      }
      outcome := Pass;
    }

    /** checkLerDigital: reads the table, never changes it. */
    method CheckLerDigital(cmd: Command) returns (outcome: Outcome)
      ensures outcome.Pass? <==> (cmd.varName in symbolTable && cmd.pin in symbolTable &&
        symbolTable[cmd.pin].isPin && symbolTable[cmd.pin].pinMode == "entrada")
      ensures outcome == OutcomeOf(LerDigitalStep(symbolTable, cmd))
    {
      if cmd.varName !in symbolTable {
        return Fail(UndeclaredDestination(cmd.varName));
      }
      if cmd.pin !in symbolTable {
        return Fail(UndeclaredPin(cmd.pin));
      }
      if !symbolTable[cmd.pin].isPin || symbolTable[cmd.pin].pinMode != "entrada" {
        return Fail(NotInputPin(cmd.pin));
      }
      outcome := Pass;
    }

    /** checkLerAnalogico: like checkLerDigital, but the mode is not checked. */
    method CheckLerAnalogico(cmd: Command) returns (outcome: Outcome)
      ensures outcome.Pass? <==> (cmd.varName in symbolTable && cmd.pin in symbolTable &&
        symbolTable[cmd.pin].isPin)
      ensures outcome == OutcomeOf(LerAnalogicoStep(symbolTable, cmd))
    {
      if cmd.varName !in symbolTable {
        return Fail(UndeclaredDestination(cmd.varName));
      }
      if cmd.pin !in symbolTable {
        return Fail(UndeclaredPin(cmd.pin));
      }
      if !symbolTable[cmd.pin].isPin {
        return Fail(NotAnalogInputPin(cmd.pin));
      }
      outcome := Pass;
    }
  }
}
