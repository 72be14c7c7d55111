/**
 * Properties of the generated sketch: its layout, the fact that the setup()
 * and loop() bodies can be read back from the text, and what the template of
 * each command kind writes.
 */
module CodegenProperties {
  import opened Wrappers
  import opened Ast
  import Decimal
  import opened Codegen

  // ---------------------------------------------------------------------
  // Layout
  // ---------------------------------------------------------------------

  /**
   * The sketch begins with the preamble (the two include lines, a blank line
   * and the heading), followed by one "<type> <name>;" line per declaration,
   * in declaration order.
   */
  lemma SketchStartsWithPreambleAndGlobals(p: AstProgram)
    ensures |Sketch(p)| > 4 + |p.declarations|
    ensures Sketch(p)[..4] == Preamble()
    ensures forall i :: 0 <= i < |p.declarations| ==>
      Sketch(p)[4 + i] == GlobalLine(p.declarations[i])
  {
    var head := Head(p.declarations);
    var setup := Block(SetupHeader, p.configCommands);
    var loop := Block(LoopHeader, p.repitaCommands);
    PrefixOfConcat(head, setup, loop);
    assert head[..4] == Preamble();
  }

  /** The first `|a|` elements of `a + b + c` are those of `a`. */
  lemma PrefixOfConcat<T>(a: seq<T>, b: seq<T>, c: seq<T>)
    ensures |a + b + c| >= |a| + |b|
    ensures (a + b + c)[..|a|] == a
  {
    assert (a + b + c)[..|a|] == a;
  }

  /** A command's translation is the same wherever it stands in a block. */
  lemma TranslationIsLocal(before: seq<Command>, cmd: Command, after: seq<Command>)
    ensures Body(before + [cmd] + after) == Body(before) + GenerateCommand(cmd) + Body(after)
  {
    BodyAppend(before + [cmd], after);
    BodySnoc(before, cmd);
  }

  // ---------------------------------------------------------------------
  // Reading the bodies back
  // ---------------------------------------------------------------------

  /** The lines up to (not including) the first closing brace line. */
  function UntilClose(lines: seq<string>): seq<string>
    decreases |lines|
  {
    if lines == [] || lines[0] == Close then [] else [lines[0]] + UntilClose(lines[1..])
  }

  /** The body that follows the first occurrence of `header`, if any. */
  function BlockAfter(lines: seq<string>, header: string): Option<seq<string>>
    decreases |lines|
  {
    if lines == [] then None
    else if lines[0] == header then Some(UntilClose(lines[1..]))
    else BlockAfter(lines[1..], header)
  }

  /** An indented body is read back up to its closing brace exactly. */
  lemma {:induction false} UntilCloseOfBody(body: seq<string>, rest: seq<string>)
    requires forall k :: 0 <= k < |body| ==> Indented(body[k])
    ensures UntilClose(body + [Close] + rest) == body
    decreases |body|
  {
    if body == [] {
      assert (body + [Close] + rest)[0] == Close;
    } else {
      var s := body + [Close] + rest;
      assert s[0] == body[0] && s[0] != Close;
      assert s[1..] == body[1..] + [Close] + rest;
      UntilCloseOfBody(body[1..], rest);
    }
  }

  /** The block is found after the first occurrence of the header. */
  lemma {:induction false} BlockAfterFirstHeader(pre: seq<string>, header: string, rest: seq<string>)
    requires header !in pre
    ensures BlockAfter(pre + [header] + rest, header) == Some(UntilClose(rest))
    decreases |pre|
  {
    var s := pre + [header] + rest;
    if pre == [] {
      assert s[0] == header && s[1..] == rest;
    } else {
      assert s[0] == pre[0] && s[1..] == pre[1..] + [header] + rest;
      BlockAfterFirstHeader(pre[1..], header, rest);
    }
  }

  /** A block is read back from whatever precedes and follows it, if its header is not met before. */
  lemma BlockRecovered(head: seq<string>, header: string, cmds: seq<Command>, after: seq<string>)
    requires header !in head + [""]
    ensures BlockAfter(head + Block(header, cmds) + after, header) == Some(Body(cmds))
  {
    var rest := Body(cmds) + [Close] + after;
    assert head + Block(header, cmds) + after == (head + [""]) + [header] + rest;
    BlockAfterFirstHeader(head + [""], header, rest);
    UntilCloseOfBody(Body(cmds), after);
  }

  /** Neither function header is a line of the preamble, a global or the blank line. */
  lemma HeaderNotInHead(decls: seq<VarDecl>, header: string)
    requires header == SetupHeader || header == LoopHeader
    ensures header !in Head(decls) + [""]
  {
    assert forall i :: 0 <= i < |decls| ==> Globals(decls)[i][|Globals(decls)[i]| - 1] == ';';
  }

  /** The setup() body read back from the sketch is the translation of the "config" block. */
  lemma SetupBodyRecovered(p: AstProgram)
    ensures BlockAfter(Sketch(p), SetupHeader) == Some(Body(p.configCommands))
  {
    HeaderNotInHead(p.declarations, SetupHeader);
    BlockRecovered(Head(p.declarations), SetupHeader, p.configCommands, Block(LoopHeader, p.repitaCommands));
  }

  /** The loop() header is none of the lines of the setup() block. */
  lemma LoopHeaderNotInSetupBlock(cmds: seq<Command>)
    ensures LoopHeader !in Block(SetupHeader, cmds) + [""]
  {
    var body := Body(cmds);
    assert Block(SetupHeader, cmds) + [""] == ["", SetupHeader] + body + [Close, ""];
    assert LoopHeader !in body;
  }

  /** The loop() body read back from the sketch is the translation of the "repita" block. */
  lemma LoopBodyRecovered(p: AstProgram)
    ensures BlockAfter(Sketch(p), LoopHeader) == Some(Body(p.repitaCommands))
  {
    var setup := Block(SetupHeader, p.configCommands);
    var head := Head(p.declarations) + setup;
    HeaderNotInHead(p.declarations, LoopHeader);
    LoopHeaderNotInSetupBlock(p.configCommands);
    assert head + [""] == Head(p.declarations) + (setup + [""]);
    assert head + Block(LoopHeader, p.repitaCommands) + [] == Sketch(p);
    BlockRecovered(head, LoopHeader, p.repitaCommands, []);
  }

  // ---------------------------------------------------------------------
  // Templates
  // ---------------------------------------------------------------------

  /** Pin configuration writes INPUT exactly for mode "entrada", and OUTPUT for every other mode text. */
  lemma PinModeTemplate(cmd: Command)
    requires cmd.cmdType == CmdConfigPin
    ensures GenerateCommand(cmd) == [PinModeLine(cmd.pin, "INPUT")] <==> cmd.pinMode == "entrada"
    ensures GenerateCommand(cmd) == [PinModeLine(cmd.pin, "OUTPUT")] <==> cmd.pinMode != "entrada"
  {
    assert PinModeLine(cmd.pin, "INPUT") != PinModeLine(cmd.pin, "OUTPUT");
  }

  /**
   * PWM configuration sets up channel 0 with the command's frequency and
   * resolution, and attaches the pin to channel 0.
   */
  lemma PwmSetupUsesChannelZero(cmd: Command)
    requires cmd.cmdType == CmdConfigPwm
    ensures |GenerateCommand(cmd)| == 2
    ensures GenerateCommand(cmd)[0] == SetupLine(cmd.freq, cmd.resol)
    ensures GenerateCommand(cmd)[1] == Line("ledcAttachPin(" + cmd.pin + ", 0);")
  {
  }

  /**
   * Adjusting PWM writes to the channel named by the pin: the write goes to
   * channel 0, the only one ever set up, exactly when the pin is named "0".
   */
  lemma PwmWriteChannelIsPin(cmd: Command)
    requires cmd.cmdType == CmdPwmAdjust
    ensures GenerateCommand(cmd) == [Line("ledcWrite(" + cmd.pin + ", " + cmd.valueExpr + ");")]
    ensures GenerateCommand(cmd) == [Line("ledcWrite(0, " + cmd.valueExpr + ");")] <==> cmd.pin == "0"
  {
    var post := ", " + cmd.valueExpr + ");";
    var written := Line("ledcWrite(" + cmd.pin + ", " + cmd.valueExpr + ");");
    var zero := Line("ledcWrite(0, " + cmd.valueExpr + ");");
    assert GenerateCommand(cmd) == [written];
    assert written[2..] == "ledcWrite(" + cmd.pin + post;
    assert zero[2..] == "ledcWrite(" + "0" + post;
    if written == zero {
      StripAround("ledcWrite(", cmd.pin, "0", post);
    }
  }

  /** ligar and desligar of the same pin write different levels: HIGH and LOW. */
  lemma SwitchLevels(c1: Command, c2: Command)
    requires c1.cmdType in {CmdLigar, CmdDesligar} && c2.cmdType in {CmdLigar, CmdDesligar}
    requires c1.digitalPin == c2.digitalPin
    ensures GenerateCommand(c1) == GenerateCommand(c2) <==> c1.cmdType == c2.cmdType
    ensures c1.cmdType == CmdLigar ==> GenerateCommand(c1) == [Line("digitalWrite(" + c1.digitalPin + ", HIGH);")]
    ensures c1.cmdType == CmdDesligar ==> GenerateCommand(c1) == [Line("digitalWrite(" + c1.digitalPin + ", LOW);")]
  {
    assert |DigitalWriteLine(c1.digitalPin, true)| != |DigitalWriteLine(c1.digitalPin, false)|;
  }

  /** Every conditional and loop writes the same placeholder comment, whatever its condition. */
  lemma IfWhileIgnoreCondition(c1: Command, c2: Command)
    requires c1.cmdType in {CmdIf, CmdWhile} && c2.cmdType in {CmdIf, CmdWhile}
    ensures GenerateCommand(c1) == GenerateCommand(c2) == [Line("// (IF/WHILE) Comandos não expandidos")]
  {
  }

  /** An assignment writes "<var> = <expr>;". */
  lemma AssignTemplate(cmd: Command)
    requires cmd.cmdType == CmdAssign
    ensures GenerateCommand(cmd) == [Line(cmd.varName + " = " + cmd.expr + ";")]
  {
  }

  /** A wait writes a delay of its time expression. */
  lemma WaitTemplate(cmd: Command)
    requires cmd.cmdType == CmdWait
    ensures GenerateCommand(cmd) == [Line("delay(" + cmd.waitTime + ");")]
  {
  }

  /** A serial write prints its message expression with Serial.println. */
  lemma SerialPrintTemplate(cmd: Command)
    requires cmd.cmdType == CmdEscreverSerial
    ensures GenerateCommand(cmd) == [Line("Serial.println(" + cmd.serialMsg + ");")]
  {
  }

  /** A WiFi connection begins with the SSID and password, then polls every 500 ms until connected. */
  lemma WifiConnectTemplate(cmd: Command)
    requires cmd.cmdType == CmdWifiConnect
    ensures GenerateCommand(cmd) ==
      [Line("WiFi.begin(" + cmd.ssid + ".c_str(), " + cmd.password + ".c_str());"),
       Line("while(WiFi.status() != WL_CONNECTED) {"),
       Line("  delay(500);"),
       Line("}")]
  {
  }

  /** An HTTP send POSTs the data to the URL, form-encoded, inside its own braced block. */
  lemma HttpPostTemplate(cmd: Command)
    requires cmd.cmdType == CmdEnviarHttp
    ensures GenerateCommand(cmd) ==
      [Line("{"),
       Line("  HTTPClient http;"),
       Line("  http.begin(" + cmd.httpUrl + ");"),
       Line("  http.addHeader(\"Content-Type\", \"application/x-www-form-urlencoded\");"),
       Line("  int httpCode = http.POST(" + cmd.httpData + ");"),
       Line("  http.end();"),
       Line("}")]
  {
  }

  /** A serial read reads a String into a local `valor` inside its own braced block. */
  lemma SerialReadTemplate(cmd: Command)
    requires cmd.cmdType == CmdLerSerial
    ensures GenerateCommand(cmd) ==
      [Line("{"),
       Line("  String valor = Serial.readString();"),
       Line("  // se quiser fazer algo com 'valor'"),
       Line("}")]
  {
  }

  /** A default-constructed command writes nothing. */
  lemma DefaultCommandWritesNothing()
    ensures GenerateCommand(DefaultCommand()) == []
  {
    EmitsNothingExactly(DefaultCommand());
  }

  /** Decimal texts contain no comma. */
  lemma DecimalHasNoComma(n: int)
    ensures forall k :: 0 <= k < |Decimal.IntToDecimal(n)| ==> Decimal.IntToDecimal(n)[k] != ','
  {
    var s := Decimal.IntToDecimal(n);
    forall k | 0 <= k < |s| ensures s[k] != ',' {
      if n < 0 && k > 0 {
        assert s[k] == s[1..][k - 1];
      }
    }
  }

  /** Two texts without commas, each followed by ", ", split a concatenation in one way only. */
  lemma SplitAtComma(a: string, b: string, c: string, d: string)
    requires forall k :: 0 <= k < |a| ==> a[k] != ','
    requires forall k :: 0 <= k < |c| ==> c[k] != ','
    requires a + ", " + b == c + ", " + d
    ensures a == c && b == d
  {
    var l := a + ", " + b;
    var r := c + ", " + d;
    CommaFollows(a, b);
    CommaFollows(c, d);
    assert |a| == |c|;
    assert a == l[..|a|] == r[..|c|] == c;
    assert b == l[|a| + 2..] == r[|c| + 2..] == d;
  }

  lemma CommaFollows(a: string, b: string)
    ensures (a + ", " + b)[|a|] == ','
    ensures forall k :: 0 <= k < |a| ==> (a + ", " + b)[k] == a[k]
  {
  }

  /** Equal texts with a common prefix and suffix have equal middles. */
  lemma StripAround(pre: string, x: string, y: string, post: string)
    requires pre + x + post == pre + y + post
    ensures x == y
  {
    var l := pre + x + post;
    var r := pre + y + post;
    assert x == l[|pre|..|l| - |post|];
    assert y == r[|pre|..|r| - |post|];
  }

  /**
   * The ledcSetup line of a PWM configuration determines its frequency and
   * resolution, and does not depend on the pin: every pin shares channel 0.
   */
  lemma LedcSetupLineDeterminesSettings(c1: Command, c2: Command)
    requires c1.cmdType == CmdConfigPwm && c2.cmdType == CmdConfigPwm
    ensures GenerateCommand(c1)[0] == GenerateCommand(c2)[0] <==> (c1.freq == c2.freq && c1.resol == c2.resol)
  {
    PwmSetupUsesChannelZero(c1);
    PwmSetupUsesChannelZero(c2);
    if SetupLine(c1.freq, c1.resol) == SetupLine(c2.freq, c2.resol) {
      SetupLineInjective(c1.freq, c1.resol, c2.freq, c2.resol);
    }
  }

  lemma SetupLineInjective(f1: Int32, r1: Int32, f2: Int32, r2: Int32)
    requires SetupLine(f1, r1) == SetupLine(f2, r2)
    ensures f1 == f2 && r1 == r2
  {
    var a, b := Decimal.IntToDecimal(f1 as int), Decimal.IntToDecimal(r1 as int);
    var c, d := Decimal.IntToDecimal(f2 as int), Decimal.IntToDecimal(r2 as int);
    var m1, m2 := a + ", " + b, c + ", " + d;
    assert Line("ledcSetup(0, " + m1 + ");")[2..] == Line("ledcSetup(0, " + m2 + ");")[2..];
    StripAround("ledcSetup(0, ", m1, m2, ");");
    DecimalHasNoComma(f1 as int);
    DecimalHasNoComma(f2 as int);
    SplitAtComma(a, b, c, d);
    Decimal.IntToDecimalInjective(f1 as int, f2 as int);
    Decimal.IntToDecimalInjective(r1 as int, r2 as int);
  }
}
