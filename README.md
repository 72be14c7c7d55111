# DSL-to-ESP32 compiler: semantic analyzer and code generator

This project models the back end of a small compiler. The compiler translates
a Portuguese-keyword DSL for microcontrollers into an Arduino/ESP32 C++ sketch.
Three parts of that compiler are modelled.

- **The AST** (`ast.h`), in `ast.dfy`:
  - `VarType`, `VarDecl`, `CmdType`, `Command` and `AstProgram` as datatypes.
  - The default constructors of the source.
  - `Command` stays the source's flat record: a kind tag plus every field any
    kind uses.
  - `freq`/`resol` are C++ `int`s, modelled as the 32-bit `Int32` newtype.
- **The semantic analyzer** (`semantic.cpp`), in `semantic.dfy`:
  - The class `SemanticAnalyzer` holds the symbol table as a `map` field.
    Its methods update it in place, as the source updates its file-scope
    `unordered_map`.
  - Each method is proved against a specification function:
    - `Register`: the registration loop.
    - `Step`: `checkCommand` and the per-kind checks.
    - `CheckCommands`: one command loop.
    - `Analyze`: the whole analysis.
  - The source prints a message and exits on failure. The model returns an
    `Outcome` that carries an error tag saying which check failed.
  - `semantic_properties.dfy` proves the rules about these functions, and
    their consequences for whole programs.
- **The code generator** (`codegen.cpp`), in `codegen.dfy`:
  - The output file is modelled as the sequence of lines written to it. Each
    line stands for one newline-terminated piece of the stream.
  - `GenerateCommand` is the stateless per-command template.
  - `Sketch` is the complete text.
  - The method `GenerateCode` builds that text with the source's loops.
  - `int` values are written through `Decimal.IntToDecimal` (`decimal.dfy`),
    which is proved to round-trip with its parser.
  - `codegen_properties.dfy` proves the layout of the sketch, shows that the
    `setup()` and `loop()` bodies can be read back from the sequence of
    lines, and proves what each template writes.

The model follows the code as written:
- Registration copies the declaration's `isPin`/`isPWM`/`pinMode` into the
  table. It does not start them fresh.
- The only type check on assignments is the leading-quote test.
- There is no PWM channel allocator: `ledcSetup`/`ledcAttachPin` always use
  channel 0.
- `ledcWrite` is given the pin name as its channel.

## Model

| member | source | states |
|---|---|---|
| Ast.DefaultVarDecl | ast.h:20-31 | The default declaration has type undefined, an empty name, `isPin`/`isPWM` false and an empty `pinMode`. |
| Ast.DefaultCommand | ast.h:57-97 | The default command has kind undefined, `freq == resol == 0`, and every string field empty. |
| Ast.EmptyProgram | ast.h:102-118 | The default program has empty declarations, config and repita sequences. |
| Decimal.NatToDecimal | codegen.cpp:97-104 | The decimal text of a natural is digits only, with no leading zero, and starts with '0' exactly for 0. |
| Decimal.NatToDecimalValue | codegen.cpp:97-104 | The digits of a natural's decimal text denote that natural. |
| Decimal.ParseDecimal | codegen.cpp:97-104 | Any text the parser accepts is exactly the decimal text of the value it returns. |
| Decimal.CanonicalDigitsRoundTrip | codegen.cpp:97-104 | Canonical digits are the decimal text of their own value. |
| Decimal.IntToDecimal | codegen.cpp:97-104 | The decimal text of an int starts with '-' exactly for negatives and is otherwise canonical digits. |
| Decimal.IntToDecimalRoundTrip | codegen.cpp:97-104 | Parsing the decimal text of any int gives that int back. |
| Decimal.IntToDecimalInjective | codegen.cpp:97-104 | Distinct ints have distinct decimal texts. |
| Semantic.InfoOf | semantic.cpp:55-59 | A table entry keeps its declaration's type, and has no pin, no PWM and an empty mode exactly when the declaration carries default flags. |
| Semantic.Register | semantic.cpp:46-62 | Registration succeeds iff the names are distinct and new. On success the keys are the old keys plus the declared names, old entries are kept, and each name maps to its declaration's entry. On failure the error is a duplicate declaration of a name that is already in the table or was declared earlier in the list. |
| Semantic.AssignStep | semantic.cpp:118-142 | An accepted assignment leaves the table unchanged. The error is UndeclaredVariable exactly when the target is undeclared, and TextAssignedToInteger only for a declared integer target. |
| Semantic.ConfigPinStep | semantic.cpp:149-159 | Accepted iff the pin is declared, otherwise UndeclaredVariable. On success the keys and every other entry are kept; the pin gets `isPin` and the command's mode, and keeps its type and `isPWM`. |
| Semantic.ConfigPwmStep | semantic.cpp:166-174 | Accepted iff the pin is declared, otherwise UndeclaredVariable. On success the keys and every other entry are kept; the pin gets `isPWM` and keeps its type, `isPin` and mode. |
| Semantic.PwmAdjustStep | semantic.cpp:181-193 | An accepted adjustment leaves the table unchanged. UndeclaredVariable exactly for an undeclared pin, PwmNotConfigured exactly for a declared pin without `isPWM`, and no other error. |
| Semantic.DigitalStep | semantic.cpp:200-217 | An accepted ligar/desligar leaves the table unchanged. UndeclaredVariable exactly for an undeclared pin, NotConfiguredAsPin exactly for a declared non-pin, otherwise only NotOutputPin. |
| Semantic.LerDigitalStep | semantic.cpp:219-238 | An accepted lerDigital leaves the table unchanged. UndeclaredDestination exactly for an undeclared destination; UndeclaredPin exactly for a declared destination and an undeclared pin; otherwise only NotInputPin. |
| Semantic.LerAnalogicoStep | semantic.cpp:240-259 | An accepted lerAnalogico leaves the table unchanged. UndeclaredDestination exactly for an undeclared destination; UndeclaredPin exactly for a declared destination and an undeclared pin; otherwise only NotAnalogInputPin. |
| Semantic.Step | semantic.cpp:79-111 | A successful check keeps the declared names and their types. Only a pin configuration changes `isPin`/`pinMode`, and only of its own pin. Only a PWM configuration changes `isPWM`, only of its own pin, and only to true. A check never reports a duplicate declaration. |
| Semantic.CheckCommands | semantic.cpp:65-71 | Checking a block in order keeps the declared names and types, and never reports a duplicate declaration. |
| Semantic.Analyze | semantic.cpp:42-74 | Analysis fails with a duplicate declaration iff two declarations share a name, and the reported name is one declared twice. On success the table's keys are exactly the declared names, each with its declared type. |
| Semantic.SemanticAnalyzer.constructor | semantic.cpp:25 | The symbol table starts empty. |
| Semantic.SemanticAnalyzer.SemanticAnalysis | semantic.cpp:42-74 | After clearing the table and running the registration and command loops, the outcome is that of `Analyze`, so the previous table has no influence. On success the table is `Analyze`'s table. |
| Semantic.SemanticAnalyzer.CheckBlock | semantic.cpp:65-71 | The loop over one block gives the outcome and final table of `CheckCommands` from the table it started with. |
| Semantic.SemanticAnalyzer.CheckCommand | semantic.cpp:79-111 | Dispatching one command gives `Step`'s outcome, and leaves the table `Step` produces, or leaves it unchanged on failure. |
| Semantic.SemanticAnalyzer.CheckAssign | semantic.cpp:118-142 | Passes iff the target is declared and is not an integer given a text literal starting with a quote. |
| Semantic.SemanticAnalyzer.CheckConfigPin | semantic.cpp:149-159 | Passes iff the pin is declared. The new table sets `isPin` and overwrites `pinMode` of that pin. |
| Semantic.SemanticAnalyzer.CheckConfigPwm | semantic.cpp:166-174 | Passes iff the pin is declared. The new table sets `isPWM` of that pin. |
| Semantic.SemanticAnalyzer.CheckPwmAdjust | semantic.cpp:181-193 | Passes iff the pin is declared and already has `isPWM`. |
| Semantic.SemanticAnalyzer.CheckDigital | semantic.cpp:200-217 | Passes iff the digital pin is declared, `isPin` holds and its mode is "saida". |
| Semantic.SemanticAnalyzer.CheckLerDigital | semantic.cpp:219-238 | Passes iff the destination and the pin are declared, `isPin` holds and the mode is "entrada". |
| Semantic.SemanticAnalyzer.CheckLerAnalogico | semantic.cpp:240-259 | Passes iff the destination and the pin are declared and `isPin` holds; the mode is not checked. |
| SemanticProperties.AssignRule | semantic.cpp:118-142 | An assignment passes iff its target is declared and it is not a quoted text given to an integer. A pass leaves the table unchanged. An undeclared target gives UndeclaredVariable. |
| SemanticProperties.ConfigPinRule | semantic.cpp:149-159 | A pin configuration passes iff the pin is declared. It sets `isPin` and the new mode, keeping the type and `isPWM`. An undeclared pin gives UndeclaredVariable. |
| SemanticProperties.ConfigPwmRule | semantic.cpp:166-174 | A PWM configuration passes iff the pin is declared, and it sets only `isPWM`. An undeclared pin gives UndeclaredVariable. |
| SemanticProperties.PwmAdjustRule | semantic.cpp:181-193 | A PWM adjustment passes iff the pin is declared with `isPWM`, and leaves the table unchanged. A declared pin without PWM gives PwmNotConfigured. |
| SemanticProperties.DigitalRule | semantic.cpp:200-217 | ligar/desligar pass iff the pin is declared, is a pin and is in mode "saida", and leave the table unchanged. |
| SemanticProperties.LerDigitalRule | semantic.cpp:219-238 | lerDigital passes iff the destination and pin are declared, the pin is a pin and the mode is "entrada". It leaves the table unchanged. |
| SemanticProperties.LerAnalogicoRule | semantic.cpp:240-259 | lerAnalogico passes iff the destination and pin are declared and the pin is a pin. It leaves the table unchanged. |
| SemanticProperties.UncheckedKindsPass | semantic.cpp:107-109 | Every kind without a check passes and leaves the table unchanged. |
| SemanticProperties.DefaultCommandPasses | semantic.cpp:107-109 | A default-constructed command passes any table unchanged. |
| SemanticProperties.CheckCommandsAppend | semantic.cpp:65-71 | Checking `a + b` is checking `a`, then `b` from the resulting table, unless `a` failed. |
| SemanticProperties.AnalyzeChecksConfigThenRepita | semantic.cpp:42-74 | Analysis is registration from an empty table followed by one in-order pass over the config commands and then the repita commands. |
| SemanticProperties.RegisterStopsAtFirstRepeat | semantic.cpp:46-52 | A failed registration reports the first repeated declaration: every declaration before it registers, and the error names it. |
| SemanticProperties.DuplicateFailsBeforeCommands | semantic.cpp:46-52 | With a duplicate name the result is registration's failure, the same whatever commands the program has: no command is checked. |
| SemanticProperties.FailFast | semantic.cpp:65-71 | A failing block has a first failing command. Every command before it passes, and its error is the block's error. |
| SemanticProperties.PwmFlagNeverCleared | semantic.cpp:166-174 | Once a pin has `isPWM`, every later successful check keeps it. |
| SemanticProperties.ConfigPwmEnablesAdjust | semantic.cpp:181-193 | After an accepted block containing a PWM configuration of a pin, a PWM adjustment of that pin is also accepted and changes nothing. |
| SemanticProperties.PwmConfigWitness | semantic.cpp:166-174 | If an accepted block turns `isPWM` on for a pin, some command in it configures PWM on that pin. |
| SemanticProperties.OutputConfigWitness | semantic.cpp:149-159 | If an accepted block leaves a pin in output mode that was not before, some command configures it as "saida", and no later command reconfigures it. |
| SemanticProperties.AdjustFollowsPwmConfig | semantic.cpp:181-193 | In an accepted block that starts unconfigured, each PWM adjustment is preceded by a PWM configuration of the same pin. |
| SemanticProperties.DigitalFollowsOutputConfig | semantic.cpp:200-217 | In an accepted block that starts unconfigured, each ligar/desligar is preceded by a configuration of its pin as "saida". |
| SemanticProperties.RegisteredUnconfigured | semantic.cpp:55-61 | Declarations with default flags are registered with no pin, no PWM and an empty mode. |
| SemanticProperties.AcceptedProgramConfiguresBeforeUse | semantic.cpp:42-74 | In an accepted program whose declarations have default flags, across config then repita, every PWM adjustment follows a PWM configuration of its pin. Every ligar/desligar follows an output configuration of its pin. |
| Codegen.VarTypeToCpp | codegen.cpp:8-20 | Integer and undefined map to "int", text to "String", boolean to "bool", and nothing else is produced. |
| Codegen.Line | codegen.cpp:78-176 | A body line is the text indented by two spaces. |
| Codegen.GenerateCommand | codegen.cpp:78-176 | Every line in the sequence a command writes is indented. |
| Codegen.EmitsNothingExactly | codegen.cpp:165-174 | A command writes nothing exactly when its kind is lerDigital, lerAnalogico or undefined. |
| Codegen.AssignLine | codegen.cpp:80-84 | An assignment writes an indented line. |
| Codegen.PinModeLine | codegen.cpp:86-95 | The pinMode line is indented, and its length is fixed by the lengths of the pin and the constant, so on the same pin INPUT and OUTPUT give different lines. |
| Codegen.PwmWriteLine | codegen.cpp:106-110 | A PWM adjustment writes an indented line. |
| Codegen.DigitalWriteLine | codegen.cpp:112-120 | ligar/desligar write an indented line. |
| Codegen.DelayLine | codegen.cpp:133-136 | A wait writes an indented line. |
| Codegen.SerialPrintLine | codegen.cpp:152-155 | A serial print writes an indented line. |
| Codegen.IfWhilePlaceholder | codegen.cpp:165-170 | The placeholder for if and while is an indented line. |
| Codegen.SetupLine | codegen.cpp:97-104 | The ledcSetup line is an indented body line. |
| Codegen.PinModeConstant | codegen.cpp:86-95 | The constant is INPUT iff the mode is "entrada", and OUTPUT for every other mode text. |
| Codegen.PwmSetupLines | codegen.cpp:97-104 | PWM configuration writes two indented lines. |
| Codegen.WifiConnectLines | codegen.cpp:122-131 | WiFi connection writes four indented lines. |
| Codegen.HttpPostLines | codegen.cpp:138-150 | An HTTP POST writes seven indented lines, opening with "  {" and closing with "  }". |
| Codegen.SerialReadLines | codegen.cpp:157-163 | A serial read writes four indented lines, opening with "  {" and closing with "  }". |
| Codegen.Body | codegen.cpp:56-58 | The translation of a block is made of indented lines only. |
| Codegen.Globals | codegen.cpp:44-48 | There is one global line per declaration, in declaration order. |
| Codegen.GlobalLine | codegen.cpp:44-48 | A global declaration line ends with ';'. |
| Codegen.BodyAppend | codegen.cpp:56-58 | The translation of `a + b` is the translation of `a` followed by that of `b`. |
| Codegen.BodySnoc | codegen.cpp:56-58 | Translating one more command appends exactly its translation. |
| Codegen.BodyStep | codegen.cpp:65-67 | The translation of the first k+1 commands extends that of the first k by command k's lines. |
| Codegen.Preamble | codegen.cpp:37-42 | The preamble has four lines, none of which is a function header or a closing brace. |
| Codegen.Block | codegen.cpp:50-69 | A function block is a blank line, its header, exactly the translated body and a closing brace. |
| Codegen.Sketch | codegen.cpp:30-73 | The sketch has ten lines besides the globals and the two bodies, and ends with a closing brace. |
| Codegen.GenerateCode | codegen.cpp:30-73 | The text written is exactly the sketch: preamble, globals, then setup() over config, then loop() over repita. |
| Codegen.GenerateBlock | codegen.cpp:56-58 | The loop over a block writes exactly the concatenated translations of its commands in order. |
| CodegenProperties.SketchStartsWithPreambleAndGlobals | codegen.cpp:38-48 | The sketch starts with the Arduino.h and WiFi.h includes, a blank line and the heading, then one "<type> <name>;" per declaration, in order. |
| CodegenProperties.TranslationIsLocal | codegen.cpp:78-176 | A command's translation is the same wherever it stands in a block. |
| CodegenProperties.UntilCloseOfBody | codegen.cpp:51-60 | Reading up to the first closing brace returns exactly an indented body. |
| CodegenProperties.BlockAfterFirstHeader | codegen.cpp:51-69 | The block after a header is found at the header's first occurrence. |
| CodegenProperties.BlockRecovered | codegen.cpp:51-69 | A header, a body and "}" placed after text without that header can be read back to the body. |
| CodegenProperties.HeaderNotInHead | codegen.cpp:38-48 | Neither function header occurs among the includes, the globals and the blank line. |
| CodegenProperties.SetupBodyRecovered | codegen.cpp:51-60 | The body read after "void setup() {" is exactly the translation of the config commands. |
| CodegenProperties.LoopHeaderNotInSetupBlock | codegen.cpp:51-60 | "void loop() {" is not a line of the setup() block. |
| CodegenProperties.LoopBodyRecovered | codegen.cpp:63-69 | The body read after "void loop() {" is exactly the translation of the repita commands. |
| CodegenProperties.PinModeTemplate | codegen.cpp:86-95 | Pin configuration writes `pinMode(pin, INPUT)` iff the mode is "entrada", and `pinMode(pin, OUTPUT)` iff it is not. |
| CodegenProperties.PwmSetupUsesChannelZero | codegen.cpp:97-104 | PWM configuration writes the ledcSetup line for channel 0 with its settings, then attaches the pin to channel 0. |
| CodegenProperties.PwmWriteChannelIsPin | codegen.cpp:106-110 | A PWM adjustment writes the single line "  ledcWrite(<pin>, <valueExpr>);", with the pin name in the channel position. So it writes to channel 0, the only one set up, iff the pin is named "0". |
| CodegenProperties.SwitchLevels | codegen.cpp:112-120 | ligar writes digitalWrite(pin, HIGH), desligar writes digitalWrite(pin, LOW). On the same pin the two translate differently. |
| CodegenProperties.IfWhileIgnoreCondition | codegen.cpp:165-170 | Every if and while writes the same single placeholder comment, whatever its condition. |
| CodegenProperties.AssignTemplate | codegen.cpp:80-84 | An assignment writes the single line "  <var> = <expr>;". |
| CodegenProperties.WaitTemplate | codegen.cpp:133-136 | A wait writes the single line "  delay(<time>);". |
| CodegenProperties.SerialPrintTemplate | codegen.cpp:152-155 | A serial write writes the single line "  Serial.println(<msg>);". |
| CodegenProperties.WifiConnectTemplate | codegen.cpp:122-131 | A WiFi connection writes WiFi.begin with the SSID and password as C strings, then a loop polling WiFi.status() with delay(500). |
| CodegenProperties.HttpPostTemplate | codegen.cpp:138-150 | An HTTP send writes a braced block that begins an HTTPClient on the URL, sets the form-encoded Content-Type header, POSTs the data and ends the client. |
| CodegenProperties.SerialReadTemplate | codegen.cpp:157-163 | A serial read writes a braced block that reads a String into `valor`, followed by the comment line. |
| CodegenProperties.DefaultCommandWritesNothing | codegen.cpp:172-174 | A default-constructed command writes nothing. |
| CodegenProperties.LedcSetupLineDeterminesSettings | codegen.cpp:97-104 | Two PWM configurations write the same ledcSetup line iff they have the same frequency and resolution, whatever their pins. |
| CodegenProperties.SetupLineInjective | codegen.cpp:97-104 | Equal ledcSetup lines come from equal frequencies and resolutions. |

## Left out

- File I/O in `generateCode` is not modelled: opening the output stream, its failure message and early return, `close()` and the success message (codegen.cpp:31-35, 71-72). The output is the returned sequence of lines.
- Console messages and `exit(1)` in the semantic analyzer are not modelled. A failure is an `Outcome` with an error tag; the message text is not kept.
- The lexer's token codes and the parser (`tokens.h`) are not part of this model. The AST is taken as given.
- `codegen.h` and `semantic.h` only declare the entry points.
- `output.cpp` is a sample sketch from a different generator version, and is not part of this model.
- A PWM channel allocator, `canal_`/`freq_`/`resol_` constants and an expression type inferencer are not modelled, because the code has none of them.
- The meaning of the emitted Arduino/ESP32 calls (WiFi, HTTPClient, Serial, ledc) is not modelled. Each template is literal text.
- String fields (names, expressions, messages, URLs) are assumed to hold no newline character. A field containing one would write extra lines into the stream, so the read-back of the bodies and the indentation of every line are proved about the sequence of lines, not about the text re-split at newlines.
- Lines are sequences of characters, not bytes. The source writes the bytes of its literals, so the non-ASCII characters in "Variáveis" (codegen.cpp:42) and "não" (codegen.cpp:169) occupy several bytes each in the output file. The model does not capture that encoding.
- Each `\n`-terminated write is modelled as one line. The blank line before the globals heading, `setup()` and `loop()` is a separate empty line.
- Semantic.SemanticAnalyzer.SemanticAnalysis: the source returns normally on success, and the model reports `Pass`. The table contents after a failure are left unspecified, because the source exits the process at that point.
