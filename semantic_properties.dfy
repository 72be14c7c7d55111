/**
 * Properties of the semantic analysis: the rule each command kind obeys,
 * the order in which commands are checked, fail-fast behaviour, and what an
 * accepted program guarantees about configuration before use.
 */
module SemanticProperties {
  import opened Ast
  import opened Semantic

  // ---------------------------------------------------------------------
  // The rule of each command kind, as the dispatcher applies it
  // ---------------------------------------------------------------------

  /** An assignment fails exactly for an undeclared target or text into an integer; it never changes the table. */
  lemma AssignRule(t: SymbolTable, cmd: Command)
    requires cmd.cmdType == CmdAssign
    ensures Step(t, cmd).Ok? <==> (cmd.varName in t &&
      !(t[cmd.varName].varType == VarInteiro && |cmd.expr| > 0 && cmd.expr[0] == '"'))
    ensures Step(t, cmd).Ok? ==> Step(t, cmd).value == t
    ensures cmd.varName !in t ==> Step(t, cmd) == Err(UndeclaredVariable(cmd.varName))
  {
  }

  /** Configuring a declared pin sets `isPin` and overwrites the mode; nothing else changes. */
  lemma ConfigPinRule(t: SymbolTable, cmd: Command)
    requires cmd.cmdType == CmdConfigPin
    ensures Step(t, cmd).Ok? <==> cmd.pin in t
    ensures cmd.pin in t ==>
      Step(t, cmd).value == t[cmd.pin := SymbolInfo(t[cmd.pin].varType, true, t[cmd.pin].isPWM, cmd.pinMode)]
    ensures cmd.pin !in t ==> Step(t, cmd) == Err(UndeclaredVariable(cmd.pin))
  {
  }

  /** Configuring PWM on a declared pin sets only `isPWM`. */
  lemma ConfigPwmRule(t: SymbolTable, cmd: Command)
    requires cmd.cmdType == CmdConfigPwm
    ensures Step(t, cmd).Ok? <==> cmd.pin in t
    ensures cmd.pin in t ==>
      Step(t, cmd).value == t[cmd.pin := SymbolInfo(t[cmd.pin].varType, t[cmd.pin].isPin, true, t[cmd.pin].pinMode)]
    ensures cmd.pin !in t ==> Step(t, cmd) == Err(UndeclaredVariable(cmd.pin))
  {
  }

  /** ajustarPWM passes exactly on a declared pin already marked as PWM. */
  lemma PwmAdjustRule(t: SymbolTable, cmd: Command)
    requires cmd.cmdType == CmdPwmAdjust
    ensures Step(t, cmd).Ok? <==> (cmd.pin in t && t[cmd.pin].isPWM)
    ensures Step(t, cmd).Ok? ==> Step(t, cmd).value == t
    ensures cmd.pin in t && !t[cmd.pin].isPWM ==> Step(t, cmd) == Err(PwmNotConfigured(cmd.pin))
  {
  }

  /** ligar/desligar pass exactly on a declared pin configured in mode "saida". */
  lemma DigitalRule(t: SymbolTable, cmd: Command)
    requires cmd.cmdType == CmdLigar || cmd.cmdType == CmdDesligar
    ensures Step(t, cmd).Ok? <==> (cmd.digitalPin in t &&
      t[cmd.digitalPin].isPin && t[cmd.digitalPin].pinMode == "saida")
    ensures Step(t, cmd).Ok? ==> Step(t, cmd).value == t
  {
  }

  /** lerDigital needs a declared destination and a declared pin in mode "entrada". */
  lemma LerDigitalRule(t: SymbolTable, cmd: Command)
    requires cmd.cmdType == CmdLerDigital
    ensures Step(t, cmd).Ok? <==> (cmd.varName in t && cmd.pin in t &&
      t[cmd.pin].isPin && t[cmd.pin].pinMode == "entrada")
    ensures Step(t, cmd).Ok? ==> Step(t, cmd).value == t
  {
  }

  /** lerAnalogico needs the same, except that the pin's mode is not looked at. */
  lemma LerAnalogicoRule(t: SymbolTable, cmd: Command)
    requires cmd.cmdType == CmdLerAnalogico
    ensures Step(t, cmd).Ok? <==> (cmd.varName in t && cmd.pin in t && t[cmd.pin].isPin)
    ensures Step(t, cmd).Ok? ==> Step(t, cmd).value == t
  {
  }

  /** Every other kind passes and leaves the table as it was. */
  lemma UncheckedKindsPass(t: SymbolTable, cmd: Command)
    requires cmd.cmdType in {CmdWifiConnect, CmdWait, CmdEnviarHttp, CmdEscreverSerial,
                             CmdLerSerial, CmdIf, CmdWhile, CmdUndefined}
    ensures Step(t, cmd) == Ok(t)
  {
  }

  /** A default-constructed command is accepted in any state and changes nothing. */
  lemma DefaultCommandPasses(t: SymbolTable)
    ensures Step(t, DefaultCommand()) == Ok(t)
  {
  }

  // ---------------------------------------------------------------------
  // Order of checking and fail-fast
  // ---------------------------------------------------------------------

  /** Continues a partial check with more commands, propagating an error unchanged. */
  function Then(r: Result<SymbolTable>, cmds: seq<Command>): Result<SymbolTable> {
    if r.Ok? then CheckCommands(r.value, cmds) else r
  }

  /** Checking `a + b` is checking `a`, then `b` from the table `a` left. */
  lemma {:induction false} CheckCommandsAppend(t: SymbolTable, a: seq<Command>, b: seq<Command>)
    ensures CheckCommands(t, a + b) == Then(CheckCommands(t, a), b)
    decreases |a|
  {
    if a == [] {
      assert a + b == b;
    } else {
      assert (a + b)[0] == a[0] && (a + b)[1..] == a[1..] + b;
      if Step(t, a[0]).Ok? {
        CheckCommandsAppend(Step(t, a[0]).value, a[1..], b);
      }
    }
  }

  /**
   * The whole analysis is registration followed by one pass over the
   * "config" commands and then the "repita" commands, in order.
   */
  lemma AnalyzeChecksConfigThenRepita(p: AstProgram)
    ensures Analyze(p) == Then(Register(map[], p.declarations), p.configCommands + p.repitaCommands)
  {
    var r := Register(map[], p.declarations);
    if r.Ok? {
      CheckCommandsAppend(r.value, p.configCommands, p.repitaCommands);
    }
  }

  /**
   * Registration stops at the first declaration whose name is taken: every
   * declaration before it registers, and the reported name is its name.
   */
  lemma {:induction false} RegisterStopsAtFirstRepeat(t: SymbolTable, decls: seq<VarDecl>) returns (i: nat)
    requires Register(t, decls).Err?
    ensures i < |decls| && RepeatAt(t, decls, i)
    ensures Register(t, decls[..i]).Ok?
    ensures Register(t, decls).error == DuplicateDeclaration(decls[i].name)
    decreases |decls|
  {
    if decls[0].name in t {
      i := 0;
      assert decls[..0] == [];
    } else {
      var t' := t[decls[0].name := InfoOf(decls[0])];
      var i' := RegisterStopsAtFirstRepeat(t', decls[1..]);
      i := i' + 1;
      RepeatShift(t, decls, i');
      assert decls[..i][0] == decls[0] && decls[..i][1..] == decls[1..][..i'];
    }
  }

  /**
   * A duplicate declaration fails the analysis during registration: the
   * commands play no part in the outcome.
   */
  lemma DuplicateFailsBeforeCommands(p: AstProgram, config: seq<Command>, repita: seq<Command>)
    requires !DistinctNames(p.declarations)
    ensures Analyze(p) == Analyze(AstProgram(p.declarations, config, repita))
    ensures Analyze(p) == Register(map[], p.declarations)
  {
  }

  /**
   * Fail-fast: a failing block fails at some command `i`, with the error of
   * that command's check, after all commands before it passed.
   */
  lemma {:induction false} FailFast(t: SymbolTable, cmds: seq<Command>) returns (i: nat, ti: SymbolTable)
    requires CheckCommands(t, cmds).Err?
    ensures i < |cmds|
    ensures CheckCommands(t, cmds[..i]) == Ok(ti)
    ensures Step(ti, cmds[i]) == Err(CheckCommands(t, cmds).error)
    decreases |cmds|
  {
    if Step(t, cmds[0]).Err? {
      i, ti := 0, t;
      assert cmds[..0] == [];
    } else {
      var t1 := Step(t, cmds[0]).value;
      var j, tj := FailFast(t1, cmds[1..]);
      i, ti := j + 1, tj;
      assert cmds[..i] == [cmds[0]] + cmds[1..][..j];
      CheckCommandsAppend(t, [cmds[0]], cmds[1..][..j]);
      assert cmds[1..][j] == cmds[i];
    }
  }

  // ---------------------------------------------------------------------
  // Flags across a block
  // ---------------------------------------------------------------------

  /** `isPWM` is only ever set: once true for a pin, it stays true. */
  lemma {:induction false} PwmFlagNeverCleared(t: SymbolTable, cmds: seq<Command>, p: string)
    requires CheckCommands(t, cmds).Ok?
    requires p in t && t[p].isPWM
    ensures p in CheckCommands(t, cmds).value && CheckCommands(t, cmds).value[p].isPWM
    decreases |cmds|
  {
    if cmds != [] {
      PwmFlagNeverCleared(Step(t, cmds[0]).value, cmds[1..], p);
    }
  }

  /**
   * A configurarPWM anywhere in an accepted block is enough for an
   * ajustarPWM of the same pin appended after the block: it passes and the
   * table stays as the block left it.
   */
  lemma {:induction false} ConfigPwmEnablesAdjust(t: SymbolTable, cmds: seq<Command>, i: nat, adjust: Command)
    requires CheckCommands(t, cmds).Ok?
    requires i < |cmds| && cmds[i].cmdType == CmdConfigPwm
    requires adjust.cmdType == CmdPwmAdjust && adjust.pin == cmds[i].pin
    ensures CheckCommands(t, cmds + [adjust]) == CheckCommands(t, cmds)
  {
    var p := cmds[i].pin;
    assert cmds == cmds[..i] + [cmds[i]] + cmds[i + 1..];
    CheckCommandsAppend(t, cmds[..i] + [cmds[i]], cmds[i + 1..]);
    CheckCommandsAppend(t, cmds[..i], [cmds[i]]);
    var ti := CheckCommands(t, cmds[..i]).value;
    var tc := Step(ti, cmds[i]).value;
    CheckSingle(ti, cmds[i]);
    PwmFlagNeverCleared(tc, cmds[i + 1..], p);
    var tEnd := CheckCommands(t, cmds).value;
    CheckCommandsAppend(t, cmds, [adjust]);
    CheckSingle(tEnd, adjust);
  }

  predicate IsPinConfigOf(c: Command, p: string) {
    c.cmdType == CmdConfigPin && c.pin == p
  }

  predicate IsOutputConfigOf(c: Command, p: string) {
    IsPinConfigOf(c, p) && c.pinMode == "saida"
  }

  predicate IsPwmConfigOf(c: Command, p: string) {
    c.cmdType == CmdConfigPwm && c.pin == p
  }

  /** A table in which no entry has been configured in any way. */
  predicate Unconfigured(t: SymbolTable) {
    forall k :: k in t ==> !t[k].isPin && !t[k].isPWM && t[k].pinMode == ""
  }

  /** Checking a one-command block is checking that command. */
  lemma CheckSingle(t: SymbolTable, c: Command)
    ensures CheckCommands(t, [c]) == Step(t, c)
  {
    assert [c][1..] == [];
  }

  /** The last command of a non-empty accepted block, split off. */
  lemma SplitLast(t: SymbolTable, cmds: seq<Command>)
    requires CheckCommands(t, cmds).Ok? && cmds != []
    ensures var front := cmds[..|cmds| - 1];
      && CheckCommands(t, front).Ok?
      && Step(CheckCommands(t, front).value, cmds[|cmds| - 1]) == CheckCommands(t, cmds)
  {
    var n := |cmds|;
    assert cmds == cmds[..n - 1] + [cmds[n - 1]];
    CheckCommandsAppend(t, cmds[..n - 1], [cmds[n - 1]]);
    if CheckCommands(t, cmds[..n - 1]).Ok? {
      CheckSingle(CheckCommands(t, cmds[..n - 1]).value, cmds[n - 1]);
    }
  }

  /**
   * The pin state of `p` after one accepted command: set by a configuration
   * of `p`, otherwise unchanged.
   */
  lemma PinStateAfterStep(t: SymbolTable, c: Command, p: string)
    requires Step(t, c).Ok? && p in t
    ensures p in Step(t, c).value
    ensures var t' := Step(t, c).value;
      if IsPinConfigOf(c, p) then t'[p].isPin && t'[p].pinMode == c.pinMode
      else t'[p].isPin == t[p].isPin && t'[p].pinMode == t[p].pinMode
  {
  }

  /** A block that ends with a configuration of `p` leaves `p` in that configuration's mode. */
  lemma OutputAtLast(t: SymbolTable, cmds: seq<Command>, p: string)
    requires CheckCommands(t, cmds).Ok? && cmds != [] && p in t
    requires IsPinConfigOf(cmds[|cmds| - 1], p)
    requires CheckCommands(t, cmds).value[p].pinMode == "saida"
    ensures IsOutputConfigOf(cmds[|cmds| - 1], p)
  {
    SplitLast(t, cmds);
    PinStateAfterStep(CheckCommands(t, cmds[..|cmds| - 1]).value, cmds[|cmds| - 1], p);
  }

  /**
   * When the last command of an accepted block does not configure `p`, the
   * pin state of `p` at the end is already its state before that command.
   */
  lemma OutputBeforeLast(t: SymbolTable, cmds: seq<Command>, p: string)
    requires CheckCommands(t, cmds).Ok? && cmds != [] && p in t
    requires !IsPinConfigOf(cmds[|cmds| - 1], p)
    ensures CheckCommands(t, cmds[..|cmds| - 1]).Ok?
    ensures var t1 := CheckCommands(t, cmds[..|cmds| - 1]).value;
      p in t1 && p in CheckCommands(t, cmds).value &&
      t1[p].isPin == CheckCommands(t, cmds).value[p].isPin &&
      t1[p].pinMode == CheckCommands(t, cmds).value[p].pinMode
  {
    SplitLast(t, cmds);
    PinStateAfterStep(CheckCommands(t, cmds[..|cmds| - 1]).value, cmds[|cmds| - 1], p);
  }

  /** A pin that ends a block as PWM without starting so was PWM-configured in the block, at `i`. */
  lemma {:induction false} PwmConfigWitness(t: SymbolTable, cmds: seq<Command>, p: string) returns (i: nat)
    requires CheckCommands(t, cmds).Ok?
    requires p in t && !t[p].isPWM
    requires CheckCommands(t, cmds).value[p].isPWM
    ensures i < |cmds| && IsPwmConfigOf(cmds[i], p)
    decreases |cmds|
  {
    if cmds == [] {
      assert false;
    }
    var n := |cmds|;
    SplitLast(t, cmds);
    var front := cmds[..n - 1];
    if IsPwmConfigOf(cmds[n - 1], p) {
      i := n - 1;
    } else {
      i := PwmConfigWitness(t, front, p);
      assert cmds[i] == front[i];
    }
  }

  /**
   * A pin that ends a block configured as an output without starting so was
   * configured as "saida" at `i`, and not reconfigured after `i`.
   */
  lemma {:induction false} OutputConfigWitness(t: SymbolTable, cmds: seq<Command>, p: string) returns (i: nat)
    requires CheckCommands(t, cmds).Ok?
    requires p in t && !(t[p].isPin && t[p].pinMode == "saida")
    requires CheckCommands(t, cmds).value[p].isPin && CheckCommands(t, cmds).value[p].pinMode == "saida"
    ensures i < |cmds| && IsOutputConfigOf(cmds[i], p)
    ensures forall k :: i < k < |cmds| ==> !IsPinConfigOf(cmds[k], p)
    decreases |cmds|
  {
    if cmds == [] {
      assert false;
    }
    var n := |cmds|;
    var front := cmds[..n - 1];
    if IsPinConfigOf(cmds[n - 1], p) {
      OutputAtLast(t, cmds, p);
      i := n - 1;
    } else {
      OutputBeforeLast(t, cmds, p);
      i := OutputConfigWitness(t, front, p);
      assert cmds[i] == front[i];
      forall k | i < k < |cmds| ensures !IsPinConfigOf(cmds[k], p) {
        if k < n - 1 { assert cmds[k] == front[k]; }
      }
    }
  }

  /** In an accepted block, every ajustarPWM follows a configurarPWM of the same pin. */
  lemma AdjustFollowsPwmConfig(t: SymbolTable, cmds: seq<Command>, j: nat)
    requires CheckCommands(t, cmds).Ok? && Unconfigured(t)
    requires j < |cmds| && cmds[j].cmdType == CmdPwmAdjust
    ensures exists i :: 0 <= i < j && IsPwmConfigOf(cmds[i], cmds[j].pin)
  {
    var p := cmds[j].pin;
    PrefixAccepted(t, cmds, j);
    var i := PwmConfigWitness(t, cmds[..j], p);
    assert cmds[i] == cmds[..j][i];
  }

  /** In an accepted block, the commands before `j` are accepted and command `j` passes after them. */
  lemma PrefixAccepted(t: SymbolTable, cmds: seq<Command>, j: nat)
    requires CheckCommands(t, cmds).Ok? && j < |cmds|
    ensures CheckCommands(t, cmds[..j]).Ok?
    ensures Step(CheckCommands(t, cmds[..j]).value, cmds[j]).Ok?
  {
    assert cmds == cmds[..j] + cmds[j..];
    CheckCommandsAppend(t, cmds[..j], cmds[j..]);
    assert cmds[j..][0] == cmds[j];
  }

  /**
   * In an accepted block, every ligar/desligar follows a configuration of
   * its pin as "saida", with no reconfiguration of that pin in between.
   */
  lemma DigitalFollowsOutputConfig(t: SymbolTable, cmds: seq<Command>, j: nat)
    requires CheckCommands(t, cmds).Ok? && Unconfigured(t)
    requires j < |cmds| && (cmds[j].cmdType == CmdLigar || cmds[j].cmdType == CmdDesligar)
    ensures exists i ::
      0 <= i < j && IsOutputConfigOf(cmds[i], cmds[j].digitalPin) &&
      forall k :: i < k < j ==> !IsPinConfigOf(cmds[k], cmds[j].digitalPin)
  {
    var p := cmds[j].digitalPin;
    PrefixAccepted(t, cmds, j);
    var i := OutputConfigWitness(t, cmds[..j], p);
    assert cmds[i] == cmds[..j][i];
    assert forall k :: i < k < j ==> cmds[k] == cmds[..j][k];
  }

  /** Registering declarations that carry default flags gives an unconfigured table. */
  lemma RegisteredUnconfigured(decls: seq<VarDecl>)
    requires Register(map[], decls).Ok?
    requires forall i :: 0 <= i < |decls| ==> HasDefaultFlags(decls[i])
    ensures Unconfigured(Register(map[], decls).value)
  {
    var t := Register(map[], decls).value;
    forall k | k in t ensures !t[k].isPin && !t[k].isPWM && t[k].pinMode == "" {
      var i :| 0 <= i < |decls| && decls[i].name == k;
    }
  }

  /**
   * For an accepted program whose declarations carry default flags, across
   * the "config" block followed by the "repita" block: every ajustarPWM comes
   * after a configurarPWM of its pin, and every ligar/desligar after a
   * configuration of its pin as "saida" not overridden in between.
   */
  lemma AcceptedProgramConfiguresBeforeUse(p: AstProgram, j: nat)
    requires Analyze(p).Ok?
    requires forall i :: 0 <= i < |p.declarations| ==> HasDefaultFlags(p.declarations[i])
    requires j < |p.configCommands + p.repitaCommands|
    ensures var cmds := p.configCommands + p.repitaCommands;
      cmds[j].cmdType == CmdPwmAdjust ==> exists i :: 0 <= i < j && IsPwmConfigOf(cmds[i], cmds[j].pin)
    ensures var cmds := p.configCommands + p.repitaCommands;
      (cmds[j].cmdType == CmdLigar || cmds[j].cmdType == CmdDesligar) ==>
        exists i :: 0 <= i < j && IsOutputConfigOf(cmds[i], cmds[j].digitalPin) &&
          forall k :: i < k < j ==> !IsPinConfigOf(cmds[k], cmds[j].digitalPin)
  {
    var cmds := p.configCommands + p.repitaCommands;
    AnalyzeChecksConfigThenRepita(p);
    var t0 := Register(map[], p.declarations).value;
    RegisteredUnconfigured(p.declarations);
    if cmds[j].cmdType == CmdPwmAdjust {
      AdjustFollowsPwmConfig(t0, cmds, j);
    }
    if cmds[j].cmdType == CmdLigar || cmds[j].cmdType == CmdDesligar {
      DigitalFollowsOutputConfig(t0, cmds, j);
    }
  }
}
