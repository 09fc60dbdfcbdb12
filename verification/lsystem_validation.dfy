/**
 * The L-system validator: the individual checks on the axiom, angles, length, iteration
 * count and rule lines, and the alphabet-closure checks over axiom and rule bodies.
 */
module LSystemValidation {
  import opened Outcomes
  import opened LSystemModel

  /** The validator's errors; the rule-carrying ones hold the 1-based rule number they report. */
  datatype ValidationError =
    | AxiomIsEmpty
    | BadAngleValue
    | BadLengthValue
    | BadIterationsValue
    | WrongRuleSyntax(rule: nat)
    | RuleConstantIsEmpty(rule: nat)
    | RuleConstantIsNotValidChar(rule: nat)
    | RuleConditionIsEmpty(rule: nat)
    | NonAlphabetSymbolCondition(rule: nat, symbol: char)
    | NonAlphabetSymbolAxiom(symbol: char)

  /** The errors that carry a rule number. */
  predicate NamesRule(e: ValidationError)
  {
    e.WrongRuleSyntax? || e.RuleConstantIsEmpty? || e.RuleConstantIsNotValidChar?
    || e.RuleConditionIsEmpty? || e.NonAlphabetSymbolCondition?
  }

  // ---------------------------------------------------------------------------
  // Text helpers

  /** `char::is_whitespace`: the Unicode White_Space property. */
  predicate IsWhitespace(c: char)
  {
    var n := c as int;
    || 0x09 <= n <= 0x0D || n == 0x20 || n == 0x85 || n == 0xA0 || n == 0x1680
    || 0x2000 <= n <= 0x200A || n == 0x2028 || n == 0x2029 || n == 0x202F || n == 0x205F || n == 0x3000
  }

  /** Every character is whitespace (true of the empty string). */
  predicate IsBlank(s: string)
  {
    forall i :: 0 <= i < |s| ==> IsWhitespace(s[i])
  }

  function TrimStart(s: string): string
  {
    if s != [] && IsWhitespace(s[0]) then TrimStart(s[1..]) else s
  }

  function TrimEnd(s: string): string
  {
    if s != [] && IsWhitespace(s[|s| - 1]) then TrimEnd(s[..|s| - 1]) else s
  }

  /** `str::trim`. */
  function Trim(s: string): string
  {
    TrimEnd(TrimStart(s))
  }

  lemma {:induction false} TrimStartEmptyIffBlank(s: string)
    ensures TrimStart(s) == [] <==> IsBlank(s)
    ensures TrimStart(s) != [] ==> !IsWhitespace(TrimStart(s)[0])
    decreases |s|
  {
    if s != [] && IsWhitespace(s[0]) {
      TrimStartEmptyIffBlank(s[1..]);
      if IsBlank(s[1..]) {
        forall i | 0 <= i < |s| ensures IsWhitespace(s[i]) {
          if i > 0 { assert s[i] == s[1..][i - 1]; }
        }
      }
    }
  }

  lemma {:induction false} TrimEndKeepsHead(s: string)
    requires s != [] && !IsWhitespace(s[0])
    ensures TrimEnd(s) != [] && TrimEnd(s)[0] == s[0]
    decreases |s|
  {
    if IsWhitespace(s[|s| - 1]) {
      TrimEndKeepsHead(s[..|s| - 1]);
    }
  }

  /** A string trims to nothing exactly when it is all whitespace. */
  lemma TrimEmptyIffBlank(s: string)
    ensures Trim(s) == [] <==> IsBlank(s)
  {
    TrimStartEmptyIffBlank(s);
    if TrimStart(s) != [] {
      TrimEndKeepsHead(TrimStart(s));
    }
  }

  function DigitChar(d: nat): char
    requires d < 10
  {
    ('0' as int + d) as char
  }

  /** The decimal text of `n`, as `format!("{}", n)` writes it. */
  function Decimal(n: nat): (s: string)
    ensures |s| >= 1
    ensures forall i :: 0 <= i < |s| ==> '0' <= s[i] <= '9'
  {
    if n < 10 then [DigitChar(n)] else Decimal(n / 10) + [DigitChar(n % 10)]
  }

  /** The value of a string of decimal digits. */
  function DecimalValue(s: string): nat
    requires forall i :: 0 <= i < |s| ==> '0' <= s[i] <= '9'
  {
    if s == [] then 0 else 10 * DecimalValue(s[..|s| - 1]) + (s[|s| - 1] as int - '0' as int)
  }

  /** Reading back the rendered rule number gives the number. */
  lemma {:induction false} DecimalRoundTrip(n: nat)
    ensures DecimalValue(Decimal(n)) == n
  {
    if n >= 10 {
      var s := Decimal(n);
      assert s[..|s| - 1] == Decimal(n / 10);
      DecimalRoundTrip(n / 10);
    }
  }

  // ---------------------------------------------------------------------------
  // The checks

  /** `axiom_is_not_empty`. */
  function AxiomIsNotEmpty(axiom: string): (r: Outcome<ValidationError>)
    ensures r.Fail? <==> axiom == []
    ensures r.Fail? ==> r.error == AxiomIsEmpty
  {
    if axiom == [] then Fail(AxiomIsEmpty) else Pass
  }

  /** `angle_range`: the closed interval [0, 360]. */
  function AngleRange(angle: real): (r: Outcome<ValidationError>)
    ensures r.Pass? <==> 0.0 <= angle <= 360.0
    ensures r.Fail? ==> r.error == BadAngleValue
  {
    if !(0.0 <= angle <= 360.0) then Fail(BadAngleValue) else Pass
  }

  /** `length_range`: negative lengths are rejected. */
  function LengthRange(length: real): (r: Outcome<ValidationError>)
    ensures r.Pass? <==> length >= 0.0
    ensures r.Fail? ==> r.error == BadLengthValue
  {
    if length < 0.0 then Fail(BadLengthValue) else Pass
  }

  /** `iterations_range`: exactly zero is rejected. */
  function IterationsRange(iterations: nat): (r: Outcome<ValidationError>)
    ensures r.Fail? <==> iterations == 0
    ensures r.Fail? ==> r.error == BadIterationsValue
  {
    if iterations < 1 then Fail(BadIterationsValue) else Pass
  }

  /** `right_syntax`: at least five symbols, and symbols 1..=4 spell the delimiter. */
  function RightSyntax(rawRule: string, index: nat): (r: Outcome<ValidationError>)
    ensures r.Pass? <==> |rawRule| >= 5 && rawRule[1..5] == RULE_DELIMITER
    ensures r.Fail? ==> r.error == WrongRuleSyntax(index + 1)
  {
    if |rawRule| < 5 || rawRule[1..5] != RULE_DELIMITER then Fail(WrongRuleSyntax(index + 1)) else Pass
  }

  /** `rule_constant_is_not_empty`: the left-hand side must not trim to nothing. */
  function RuleConstantIsNotEmpty(letter: string, index: nat): (r: Outcome<ValidationError>)
    ensures r.Fail? <==> IsBlank(letter)
    ensures r.Fail? ==> r.error == RuleConstantIsEmpty(index + 1)
  {
    TrimEmptyIffBlank(letter);
    if Trim(letter) == [] then Fail(RuleConstantIsEmpty(index + 1)) else Pass
  }

  /** `is_valid_char`: the first character of the left-hand side. */
  function IsValidChar(letter: string, index: nat): (r: Result<char, ValidationError>)
    ensures r.Success? <==> letter != []
    ensures r.Success? ==> r.value == letter[0]
    ensures r.Failure? ==> r.error == RuleConstantIsNotValidChar(index + 1)
  {
    if letter == [] then Failure(RuleConstantIsNotValidChar(index + 1)) else Success(letter[0])
  }

  /** `rule_condition_is_not_empty`: only the empty body is rejected; a blank body passes. */
  function RuleConditionIsNotEmpty(condition: string, index: nat): (r: Outcome<ValidationError>)
    ensures r.Fail? <==> condition == []
    ensures r.Fail? ==> r.error == RuleConditionIsEmpty(index + 1)
  {
    if condition == [] then Fail(RuleConditionIsEmpty(index + 1)) else Pass
  }

  /** A symbol is allowed when it is declared in the alphabet or is a terminal. */
  predicate InAlphabet(alphabet: seq<char>, symbol: char)
  {
    symbol in alphabet || symbol in TERMINAL_SYMBOLS
  }

  /** Every symbol of `s` is allowed. */
  predicate Closed(alphabet: seq<char>, s: string)
  {
    forall i :: 0 <= i < |s| ==> InAlphabet(alphabet, s[i])
  }

  /** The position of the first symbol of `s` that is not allowed, or `|s|`. */
  function FirstForeign(alphabet: seq<char>, s: string): (k: nat)
    ensures k <= |s|
    ensures forall j :: 0 <= j < k ==> InAlphabet(alphabet, s[j])
    ensures k < |s| ==> !InAlphabet(alphabet, s[k])
  {
    if s == [] then 0
    else if !InAlphabet(alphabet, s[0]) then 0
    else 1 + FirstForeign(alphabet, s[1..])
  }

  /** The index of the first rule body that is not closed, or `|conditions|`. */
  function FirstOpenCondition(alphabet: seq<char>, conditions: seq<string>): (k: nat)
    ensures k <= |conditions|
    ensures forall j :: 0 <= j < k ==> Closed(alphabet, conditions[j])
    ensures k < |conditions| ==> !Closed(alphabet, conditions[k])
  {
    if conditions == [] then 0
    else if FirstForeign(alphabet, conditions[0]) < |conditions[0]| then 0
    else 1 + FirstOpenCondition(alphabet, conditions[1..])
  }

  /**
   * `ensure_axiom_symbols_in_alphabet`: passes exactly when the axiom is closed, and
   * otherwise reports the first offending symbol.
   */
  function EnsureAxiomSymbolsInAlphabet(alphabet: seq<char>, axiom: string): (r: Outcome<ValidationError>)
    ensures r.Pass? <==> Closed(alphabet, axiom)
    ensures r.Fail? ==>
      exists k ::
        && 0 <= k < |axiom|
        && r.error == NonAlphabetSymbolAxiom(axiom[k])
        && !InAlphabet(alphabet, axiom[k])
        && (forall j :: 0 <= j < k ==> InAlphabet(alphabet, axiom[j]))
  {
    var k := FirstForeign(alphabet, axiom);
    if k < |axiom| then Fail(NonAlphabetSymbolAxiom(axiom[k])) else Pass
  }

  /**
   * `ensure_condition_symbols_in_alphabet`: passes exactly when every body is closed, and
   * otherwise reports the first open body (by 1-based rule number) and its first offending symbol.
   */
  function EnsureConditionSymbolsInAlphabet(alphabet: seq<char>, conditions: seq<string>): (r: Outcome<ValidationError>)
    ensures r.Pass? <==> forall i :: 0 <= i < |conditions| ==> Closed(alphabet, conditions[i])
    ensures r.Fail? ==>
      exists i, k ::
        && 0 <= i < |conditions| && 0 <= k < |conditions[i]|
        && r.error == NonAlphabetSymbolCondition(i + 1, conditions[i][k])
        && !InAlphabet(alphabet, conditions[i][k])
        && (forall j :: 0 <= j < i ==> Closed(alphabet, conditions[j]))
        && (forall j :: 0 <= j < k ==> InAlphabet(alphabet, conditions[i][j]))
  {
    var i := FirstOpenCondition(alphabet, conditions);
    if i < |conditions| then
      var k := FirstForeign(alphabet, conditions[i]);
      Fail(NonAlphabetSymbolCondition(i + 1, conditions[i][k]))
    else Pass
  }

  /** `ValidationError::additional_info`: the payload text of the six variants that carry one. */
  function AdditionalInfo(e: ValidationError): (info: Option<string>)
    ensures info.Some? <==> !(e.AxiomIsEmpty? || e.BadAngleValue? || e.BadLengthValue? || e.BadIterationsValue?)
  {
    match e
    case WrongRuleSyntax(rule) => Some("Rule: " + Decimal(rule))
    case RuleConstantIsEmpty(rule) => Some("Rule: " + Decimal(rule))
    case RuleConstantIsNotValidChar(rule) => Some("Rule: " + Decimal(rule))
    case RuleConditionIsEmpty(rule) => Some("Rule: " + Decimal(rule))
    case NonAlphabetSymbolCondition(rule, symbol) => Some("Rule: " + Decimal(rule) + "\nSymbol: " + [symbol])
    case NonAlphabetSymbolAxiom(symbol) => Some("Symbol: " + [symbol])
    case _ => None
  }

  // ---------------------------------------------------------------------------
  // Rule lines, as `LSystemState::initialize` walks them

  /** A rule line the per-line checks accept: `<c> -> <body>` with a non-blank `c` and a non-empty body. */
  predicate RuleLineIsWellFormed(line: string)
  {
    |line| > 5 && line[1..5] == RULE_DELIMITER && !IsWhitespace(line[0])
  }

  /** Every rule line is well formed. */
  predicate AllWellFormed(rules: seq<string>)
  {
    forall i :: 0 <= i < |rules| ==> RuleLineIsWellFormed(rules[i])
  }

  /** The symbol a rule line rewrites and its replacement text. */
  datatype ParsedRule = ParsedRule(symbol: char, body: string)

  /** The alphabet and the rule bodies gathered from the rule lines, in order. */
  datatype ParsedRules = ParsedRules(alphabet: seq<char>, conditions: seq<string>)

  /**
   * The four per-line checks in the order `initialize` runs them: syntax, constant, character,
   * condition. The first that fails decides the error.
   */
  function ParseRule(line: string, index: nat): (r: Result<ParsedRule, ValidationError>)
    ensures r.Success? <==> RuleLineIsWellFormed(line)
    ensures r.Success? ==> r.value == ParsedRule(line[0], line[5..])
    ensures !(|line| >= 5 && line[1..5] == RULE_DELIMITER) ==> r == Failure(WrongRuleSyntax(index + 1))
    ensures |line| >= 5 && line[1..5] == RULE_DELIMITER && IsWhitespace(line[0]) ==>
              r == Failure(RuleConstantIsEmpty(index + 1))
    ensures |line| == 5 && line[1..5] == RULE_DELIMITER && !IsWhitespace(line[0]) ==>
              r == Failure(RuleConditionIsEmpty(index + 1))
  {
    if RightSyntax(line, index).Fail? then Failure(RightSyntax(line, index).error)
    else
      var letter := line[0..1];
      assert IsBlank(letter) <==> IsWhitespace(line[0]);
      if RuleConstantIsNotEmpty(letter, index).Fail? then Failure(RuleConstantIsNotEmpty(letter, index).error)
      else match IsValidChar(letter, index)
        case Failure(e) => Failure(e)
        case Success(symbol) =>
          var condition := line[5..];
          if RuleConditionIsNotEmpty(condition, index).Fail? then Failure(RuleConditionIsEmpty(index + 1))
          else Success(ParsedRule(symbol, condition))
  }

  /** All rule lines, gathered in order; the first line that fails stops the walk. */
  function ParseRules(rules: seq<string>): (r: Result<ParsedRules, ValidationError>)
    ensures r.Success? ==> |r.value.alphabet| == |r.value.conditions| == |rules|
  {
    if rules == [] then Success(ParsedRules([], []))
    else
      match ParseRules(rules[..|rules| - 1])
      case Failure(e) => Failure(e)
      case Success(parsed) =>
        match ParseRule(rules[|rules| - 1], |rules| - 1)
        case Failure(e) => Failure(e)
        case Success(rule) => Success(ParsedRules(parsed.alphabet + [rule.symbol], parsed.conditions + [rule.body]))
  }

  /**
   * The walk succeeds exactly when every line is well formed, and then gathers each line's first
   * symbol and its text from position 5 on; otherwise it reports the first malformed line's error.
   */
  lemma {:induction false} ParseRulesMeaning(rules: seq<string>)
    ensures ParseRules(rules).Success? <==> AllWellFormed(rules)
    ensures ParseRules(rules).Success? ==>
              && |ParseRules(rules).value.alphabet| == |rules|
              && |ParseRules(rules).value.conditions| == |rules|
              && forall i :: 0 <= i < |rules| ==>
                   ParseRules(rules).value.alphabet[i] == rules[i][0] && ParseRules(rules).value.conditions[i] == rules[i][5..]
    ensures ParseRules(rules).Failure? ==>
              exists i :: 0 <= i < |rules| && !RuleLineIsWellFormed(rules[i])
                && (forall j :: 0 <= j < i ==> RuleLineIsWellFormed(rules[j]))
                && ParseRules(rules) == Failure(ParseRule(rules[i], i).error)
  {
    if rules != [] {
      var init := rules[..|rules| - 1];
      ParseRulesMeaning(init);
      assert forall i :: 0 <= i < |init| ==> init[i] == rules[i];
      if ParseRules(init).Failure? {
        var i :| 0 <= i < |init| && !RuleLineIsWellFormed(init[i])
                && (forall j :: 0 <= j < i ==> RuleLineIsWellFormed(init[j]))
                && ParseRules(init) == Failure(ParseRule(init[i], i).error);
        assert ParseRules(rules) == Failure(ParseRule(rules[i], i).error);
      }
    }
  }

  /** Once a prefix of the rule lines fails, the whole list fails with the same error. */
  lemma {:induction false} ParseRulesFailurePersists(rules: seq<string>, n: nat)
    requires n <= |rules|
    requires ParseRules(rules[..n]).Failure?
    ensures ParseRules(rules) == ParseRules(rules[..n])
    decreases |rules| - n
  {
    if n < |rules| {
      assert rules[..n + 1][..n] == rules[..n];
      ParseRulesFailurePersists(rules, n + 1);
    } else {
      assert rules[..n] == rules;
    }
  }

  /**
   * The compiled rule map: each symbol is bound to its body, and a later line with the same
   * left-hand side overwrites an earlier one.
   */
  function CompileRules(alphabet: seq<char>, conditions: seq<string>): map<char, string>
    requires |alphabet| == |conditions|
  {
    if alphabet == [] then map[]
    else
      var n := |alphabet| - 1;
      CompileRules(alphabet[..n], conditions[..n])[alphabet[n] := conditions[n]]
  }

  /**
   * The keys are exactly the declared symbols, and each symbol maps to the body of its last
   * declaring line.
   */
  lemma {:induction false} CompileRulesMeaning(alphabet: seq<char>, conditions: seq<string>)
    requires |alphabet| == |conditions|
    ensures CompileRules(alphabet, conditions).Keys == set i | 0 <= i < |alphabet| :: alphabet[i]
    ensures forall i :: 0 <= i < |alphabet| && (forall j :: i < j < |alphabet| ==> alphabet[j] != alphabet[i]) ==>
              CompileRules(alphabet, conditions)[alphabet[i]] == conditions[i]
  {
    if alphabet != [] {
      var n := |alphabet| - 1;
      CompileRulesMeaning(alphabet[..n], conditions[..n]);
      var m := CompileRules(alphabet, conditions);
      var heads := set i | 0 <= i < |alphabet| :: alphabet[i];
      assert m.Keys == (set i | 0 <= i < n :: alphabet[..n][i]) + {alphabet[n]};
      assert (set i | 0 <= i < n :: alphabet[..n][i]) + {alphabet[n]} == heads by {
        forall c | c in heads
          ensures c in (set i | 0 <= i < n :: alphabet[..n][i]) + {alphabet[n]}
        {
          var i :| 0 <= i < |alphabet| && alphabet[i] == c;
          if i < n { assert alphabet[..n][i] == c; }
        }
      }
      forall i | 0 <= i < |alphabet| && (forall j :: i < j < |alphabet| ==> alphabet[j] != alphabet[i])
        ensures m[alphabet[i]] == conditions[i]
      {
        if i < n {
          assert alphabet[..n][i] == alphabet[i];
          assert forall j :: i < j < n ==> alphabet[..n][j] != alphabet[..n][i];
        }
      }
    }
  }

  // ---------------------------------------------------------------------------
  // The whole validation chain of `LSystemState::initialize`

  /** The five field checks that run before the rule lines, all passing. */
  predicate FieldsInRange(axiom: string, angle: real, initialAngle: real, length: real, iterations: nat)
  {
    axiom != [] && 0.0 <= angle <= 360.0 && 0.0 <= initialAngle <= 360.0 && length >= 0.0 && iterations >= 1
  }

  /** The five field checks of `initialize`, in its order; the first failure is returned. */
  function ValidateFields(axiom: string, angle: real, initialAngle: real, length: real, iterations: nat)
    : (r: Outcome<ValidationError>)
    ensures r.Pass? <==> FieldsInRange(axiom, angle, initialAngle, length, iterations)
  {
    if AxiomIsNotEmpty(axiom).Fail? then AxiomIsNotEmpty(axiom)
    else if AngleRange(angle).Fail? then AngleRange(angle)
    else if AngleRange(initialAngle).Fail? then AngleRange(initialAngle)
    else if LengthRange(length).Fail? then LengthRange(length)
    else IterationsRange(iterations)
  }

  /**
   * The checks of `initialize` that follow the field checks: the rule lines in order, then the
   * axiom closure, then the body closure; on success, the compiled rule map.
   */
  function ValidateRules(axiom: string, rules: seq<string>): (r: Result<map<char, string>, ValidationError>)
  {
    match ParseRules(rules)
    case Failure(e) => Failure(e)
    case Success(parsed) =>
      var axiomCheck := EnsureAxiomSymbolsInAlphabet(parsed.alphabet, axiom);
      var conditionCheck := EnsureConditionSymbolsInAlphabet(parsed.alphabet, parsed.conditions);
      if axiomCheck.Fail? then Failure(axiomCheck.error)
      else if conditionCheck.Fail? then Failure(conditionCheck.error)
      else Success(CompileRules(parsed.alphabet, parsed.conditions))
  }

  /** Every check of `initialize` in its order; on success, the compiled rule map. */
  function Validate(axiom: string, angle: real, initialAngle: real, length: real, iterations: nat,
                    rules: seq<string>): (r: Result<map<char, string>, ValidationError>)
  {
    var fields := ValidateFields(axiom, angle, initialAngle, length, iterations);
    if fields.Fail? then Failure(fields.error) else ValidateRules(axiom, rules)
  }

  /** `c` is a terminal or the left-hand side of some rule line. */
  predicate Declared(rules: seq<string>, c: char)
  {
    c in TERMINAL_SYMBOLS || exists i :: 0 <= i < |rules| && rules[i] != [] && rules[i][0] == c
  }

  /**
   * Acceptable rule lines for an axiom, stated without the checks: every line well formed, and
   * every symbol of the axiom and of every rule body declared.
   */
  predicate RulesAcceptable(axiom: string, rules: seq<string>)
  {
    && AllWellFormed(rules)
    && (forall k :: 0 <= k < |axiom| ==> Declared(rules, axiom[k]))
    && (forall i, k :: 0 <= i < |rules| && 5 <= k < |rules[i]| ==> Declared(rules, rules[i][k]))
  }

  /** What an acceptable L-system is: the fields in range and acceptable rule lines. */
  predicate Acceptable(axiom: string, angle: real, initialAngle: real, length: real, iterations: nat,
                       rules: seq<string>)
  {
    FieldsInRange(axiom, angle, initialAngle, length, iterations) && RulesAcceptable(axiom, rules)
  }

  /** With every line well formed, the gathered alphabet declares exactly what the lines declare. */
  lemma AlphabetDeclares(rules: seq<string>, parsed: ParsedRules, c: char)
    requires AllWellFormed(rules)
    requires |parsed.alphabet| == |rules|
    requires forall i :: 0 <= i < |rules| ==> parsed.alphabet[i] == rules[i][0]
    ensures InAlphabet(parsed.alphabet, c) <==> Declared(rules, c)
  {
    if c in parsed.alphabet {
      var i :| 0 <= i < |parsed.alphabet| && parsed.alphabet[i] == c;
      assert rules[i] != [] && rules[i][0] == c;
    }
    if exists i :: 0 <= i < |rules| && rules[i] != [] && rules[i][0] == c {
      var i :| 0 <= i < |rules| && rules[i] != [] && rules[i][0] == c;
      assert parsed.alphabet[i] == c;
    }
  }

  /** The rule stage succeeds exactly on acceptable rule lines. */
  lemma ValidateRulesAcceptsExactly(axiom: string, rules: seq<string>)
    ensures ValidateRules(axiom, rules).Success? <==> RulesAcceptable(axiom, rules)
  {
    ParseRulesMeaning(rules);
    if AllWellFormed(rules) {
      var parsed := ParseRules(rules).value;
      forall c { AlphabetDeclares(rules, parsed, c); }
      var axiomClosed := forall k :: 0 <= k < |axiom| ==> Declared(rules, axiom[k]);
      assert axiomClosed <==> Closed(parsed.alphabet, axiom);
      assert (forall i :: 0 <= i < |rules| ==> Closed(parsed.alphabet, parsed.conditions[i]))
             <==> (forall i, k :: 0 <= i < |rules| && 5 <= k < |rules[i]| ==> Declared(rules, rules[i][k])) by {
        forall i | 0 <= i < |rules|
          ensures Closed(parsed.alphabet, parsed.conditions[i])
                  <==> (forall k :: 5 <= k < |rules[i]| ==> Declared(rules, rules[i][k]))
        {
          assert forall k :: 5 <= k < |rules[i]| ==> rules[i][k] == parsed.conditions[i][k - 5];
        }
      }
    }
  }

  /** `initialize`'s checks succeed exactly on acceptable L-systems. */
  lemma ValidateAcceptsExactlyAcceptable(axiom: string, angle: real, initialAngle: real, length: real,
                                         iterations: nat, rules: seq<string>)
    ensures Validate(axiom, angle, initialAngle, length, iterations, rules).Success?
            <==> Acceptable(axiom, angle, initialAngle, length, iterations, rules)
  {
    ValidateRulesAcceptsExactly(axiom, rules);
  }

  /** The heads of well-formed lines are the gathered alphabet, as a set. */
  lemma HeadsAreAlphabet(rules: seq<string>, alphabet: seq<char>)
    requires AllWellFormed(rules)
    requires |alphabet| == |rules|
    requires forall i :: 0 <= i < |rules| ==> alphabet[i] == rules[i][0]
    ensures (set i | 0 <= i < |rules| :: rules[i][0]) == (set i | 0 <= i < |alphabet| :: alphabet[i])
  {
    var heads := set i | 0 <= i < |rules| :: rules[i][0];
    var declared := set i | 0 <= i < |alphabet| :: alphabet[i];
    forall c | c in heads ensures c in declared {
      var i :| 0 <= i < |rules| && rules[i][0] == c;
      assert alphabet[i] == c;
    }
    forall c | c in declared ensures c in heads {
      var i :| 0 <= i < |alphabet| && alphabet[i] == c;
      assert rules[i][0] == c;
    }
  }

  /** Compiling heads and bodies taken line by line binds each head to its last line's body. */
  lemma CompiledFromLines(rules: seq<string>, alphabet: seq<char>, conditions: seq<string>)
    requires AllWellFormed(rules)
    requires |alphabet| == |rules| && |conditions| == |rules|
    requires forall i :: 0 <= i < |rules| ==> alphabet[i] == rules[i][0] && conditions[i] == rules[i][5..]
    ensures var m := CompileRules(alphabet, conditions);
      && m.Keys == (set i | 0 <= i < |rules| :: rules[i][0])
      && forall i :: 0 <= i < |rules| && (forall j :: i < j < |rules| ==> rules[j][0] != rules[i][0]) ==>
           m[rules[i][0]] == rules[i][5..]
  {
    CompileRulesMeaning(alphabet, conditions);
    HeadsAreAlphabet(rules, alphabet);
    var m := CompileRules(alphabet, conditions);
    forall i | 0 <= i < |rules| && (forall j :: i < j < |rules| ==> rules[j][0] != rules[i][0])
      ensures m[rules[i][0]] == rules[i][5..]
    {
      assert forall j :: i < j < |alphabet| ==> alphabet[j] != alphabet[i];
    }
  }

  /** With every line well formed, the compiled map binds each head to its last line's body. */
  lemma CompiledRulesOfLines(rules: seq<string>)
    requires AllWellFormed(rules)
    ensures ParseRules(rules).Success?
    ensures var m := CompileRules(ParseRules(rules).value.alphabet, ParseRules(rules).value.conditions);
      && m.Keys == (set i | 0 <= i < |rules| :: rules[i][0])
      && forall i :: 0 <= i < |rules| && (forall j :: i < j < |rules| ==> rules[j][0] != rules[i][0]) ==>
           m[rules[i][0]] == rules[i][5..]
  {
    ParseRulesMeaning(rules);
    var parsed := ParseRules(rules).value;
    CompiledFromLines(rules, parsed.alphabet, parsed.conditions);
  }

  /**
   * On success the rule map binds each declared symbol to the text after the delimiter of its
   * last rule line, and has no other keys.
   */
  lemma ValidatedRuleMap(axiom: string, angle: real, initialAngle: real, length: real, iterations: nat,
                         rules: seq<string>)
    requires Acceptable(axiom, angle, initialAngle, length, iterations, rules)
    ensures Validate(axiom, angle, initialAngle, length, iterations, rules).Success?
    ensures var m := Validate(axiom, angle, initialAngle, length, iterations, rules).value;
      && m.Keys == (set i | 0 <= i < |rules| :: rules[i][0])
      && forall i :: 0 <= i < |rules| && (forall j :: i < j < |rules| ==> rules[j][0] != rules[i][0]) ==>
           m[rules[i][0]] == rules[i][5..]
  {
    ValidateRulesAcceptsExactly(axiom, rules);
    CompiledRulesOfLines(rules);
    var parsed := ParseRules(rules).value;
    assert ValidateRules(axiom, rules) == Success(CompileRules(parsed.alphabet, parsed.conditions));
    assert Validate(axiom, angle, initialAngle, length, iterations, rules) == ValidateRules(axiom, rules);
  }

  /** With well-formed lines, the first undeclared axiom symbol is the one the rule stage reports. */
  lemma AxiomClosureFailure(axiom: string, rules: seq<string>, k: nat)
    requires AllWellFormed(rules)
    requires k < |axiom| && !Declared(rules, axiom[k])
    requires forall j :: 0 <= j < k ==> Declared(rules, axiom[j])
    ensures ValidateRules(axiom, rules) == Failure(NonAlphabetSymbolAxiom(axiom[k]))
  {
    ParseRulesMeaning(rules);
    var parsed := ParseRules(rules).value;
    forall c { AlphabetDeclares(rules, parsed, c); }
    var axiomCheck := EnsureAxiomSymbolsInAlphabet(parsed.alphabet, axiom);
    assert !Closed(parsed.alphabet, axiom);
    var k' :| && 0 <= k' < |axiom| && axiomCheck.error == NonAlphabetSymbolAxiom(axiom[k'])
              && !InAlphabet(parsed.alphabet, axiom[k'])
              && (forall j :: 0 <= j < k' ==> InAlphabet(parsed.alphabet, axiom[j]));
    assert k' == k;
  }

  /** The first foreign symbol of the first open body is the one the body check reports. */
  lemma FirstOpenBodyReported(alphabet: seq<char>, conditions: seq<string>, i: nat, k: nat)
    requires i < |conditions| && k < |conditions[i]| && !InAlphabet(alphabet, conditions[i][k])
    requires forall j :: 0 <= j < i ==> Closed(alphabet, conditions[j])
    requires forall m :: 0 <= m < k ==> InAlphabet(alphabet, conditions[i][m])
    ensures EnsureConditionSymbolsInAlphabet(alphabet, conditions) == Fail(NonAlphabetSymbolCondition(i + 1, conditions[i][k]))
  {
    var r := EnsureConditionSymbolsInAlphabet(alphabet, conditions);
    var i', k' :| && 0 <= i' < |conditions| && 0 <= k' < |conditions[i']|
                  && r.error == NonAlphabetSymbolCondition(i' + 1, conditions[i'][k'])
                  && !InAlphabet(alphabet, conditions[i'][k'])
                  && (forall j :: 0 <= j < i' ==> Closed(alphabet, conditions[j]))
                  && (forall j :: 0 <= j < k' ==> InAlphabet(alphabet, conditions[i'][j]));
    assert i' == i;
    assert k' == k;
  }

  /**
   * With well-formed lines and a closed axiom, the first undeclared symbol of the first open
   * body is the one the rule stage reports, with the body's 1-based rule number.
   */
  lemma ConditionClosureFailure(axiom: string, rules: seq<string>, i: nat, k: nat)
    requires AllWellFormed(rules)
    requires forall m :: 0 <= m < |axiom| ==> Declared(rules, axiom[m])
    requires i < |rules| && 5 <= k < |rules[i]| && !Declared(rules, rules[i][k])
    requires forall j, m :: 0 <= j < i && 5 <= m < |rules[j]| ==> Declared(rules, rules[j][m])
    requires forall m :: 5 <= m < k ==> Declared(rules, rules[i][m])
    ensures ValidateRules(axiom, rules) == Failure(NonAlphabetSymbolCondition(i + 1, rules[i][k]))
  {
    ParseRulesMeaning(rules);
    var parsed := ParseRules(rules).value;
    forall c { AlphabetDeclares(rules, parsed, c); }
    assert Closed(parsed.alphabet, axiom);
    forall j | 0 <= j < i
      ensures Closed(parsed.alphabet, parsed.conditions[j])
    {
      assert forall m :: 0 <= m < |parsed.conditions[j]| ==> parsed.conditions[j][m] == rules[j][m + 5];
    }
    assert forall m :: 0 <= m < k - 5 ==> parsed.conditions[i][m] == rules[i][m + 5];
    assert parsed.conditions[i][k - 5] == rules[i][k];
    FirstOpenBodyReported(parsed.alphabet, parsed.conditions, i, k - 5);
  }

  /**
   * First failure wins: the field checks come first in their order, then the rule lines in
   * order, then the axiom closure (naming its first undeclared symbol), and only then the body
   * closure (naming the first open rule, 1-based, and its first undeclared symbol).
   */
  lemma FirstFailureWins(axiom: string, angle: real, initialAngle: real, length: real, iterations: nat,
                         rules: seq<string>)
    ensures axiom == [] ==> Validate(axiom, angle, initialAngle, length, iterations, rules) == Failure(AxiomIsEmpty)
    ensures axiom != [] && !(0.0 <= angle <= 360.0) ==>
              Validate(axiom, angle, initialAngle, length, iterations, rules) == Failure(BadAngleValue)
    ensures axiom != [] && 0.0 <= angle <= 360.0 && !(0.0 <= initialAngle <= 360.0) ==>
              Validate(axiom, angle, initialAngle, length, iterations, rules) == Failure(BadAngleValue)
    ensures axiom != [] && 0.0 <= angle <= 360.0 && 0.0 <= initialAngle <= 360.0 && length < 0.0 ==>
              Validate(axiom, angle, initialAngle, length, iterations, rules) == Failure(BadLengthValue)
    ensures axiom != [] && 0.0 <= angle <= 360.0 && 0.0 <= initialAngle <= 360.0 && length >= 0.0 && iterations == 0 ==>
              Validate(axiom, angle, initialAngle, length, iterations, rules) == Failure(BadIterationsValue)
    ensures forall i ::
              (&& FieldsInRange(axiom, angle, initialAngle, length, iterations)
               && 0 <= i < |rules| && !RuleLineIsWellFormed(rules[i])
               && (forall j :: 0 <= j < i ==> RuleLineIsWellFormed(rules[j])))
              ==> Validate(axiom, angle, initialAngle, length, iterations, rules) == Failure(ParseRule(rules[i], i).error)
    ensures (&& FieldsInRange(axiom, angle, initialAngle, length, iterations)
             && AllWellFormed(rules)
             && !(forall k :: 0 <= k < |axiom| ==> Declared(rules, axiom[k])))
            ==> (&& Validate(axiom, angle, initialAngle, length, iterations, rules).Failure?
                 && Validate(axiom, angle, initialAngle, length, iterations, rules).error.NonAlphabetSymbolAxiom?)
    ensures forall k ::
              (&& FieldsInRange(axiom, angle, initialAngle, length, iterations)
               && AllWellFormed(rules)
               && 0 <= k < |axiom| && !Declared(rules, axiom[k])
               && (forall j :: 0 <= j < k ==> Declared(rules, axiom[j])))
              ==> Validate(axiom, angle, initialAngle, length, iterations, rules) == Failure(NonAlphabetSymbolAxiom(axiom[k]))
    ensures forall i, k ::
              (&& FieldsInRange(axiom, angle, initialAngle, length, iterations)
               && AllWellFormed(rules)
               && (forall m :: 0 <= m < |axiom| ==> Declared(rules, axiom[m]))
               && 0 <= i < |rules| && 5 <= k < |rules[i]| && !Declared(rules, rules[i][k])
               && (forall j, m :: 0 <= j < i && 5 <= m < |rules[j]| ==> Declared(rules, rules[j][m]))
               && (forall m :: 5 <= m < k ==> Declared(rules, rules[i][m])))
              ==> Validate(axiom, angle, initialAngle, length, iterations, rules)
                  == Failure(NonAlphabetSymbolCondition(i + 1, rules[i][k]))
  {
    ParseRulesMeaning(rules);
    if AllWellFormed(rules) {
      var parsed := ParseRules(rules).value;
      forall c { AlphabetDeclares(rules, parsed, c); }
      if FieldsInRange(axiom, angle, initialAngle, length, iterations) {
        forall k | 0 <= k < |axiom| && !Declared(rules, axiom[k]) && (forall j :: 0 <= j < k ==> Declared(rules, axiom[j]))
          ensures ValidateRules(axiom, rules) == Failure(NonAlphabetSymbolAxiom(axiom[k]))
        {
          AxiomClosureFailure(axiom, rules, k);
        }
        forall i, k | && (forall m :: 0 <= m < |axiom| ==> Declared(rules, axiom[m]))
                      && 0 <= i < |rules| && 5 <= k < |rules[i]| && !Declared(rules, rules[i][k])
                      && (forall j, m :: 0 <= j < i && 5 <= m < |rules[j]| ==> Declared(rules, rules[j][m]))
                      && (forall m :: 5 <= m < k ==> Declared(rules, rules[i][m]))
          ensures ValidateRules(axiom, rules) == Failure(NonAlphabetSymbolCondition(i + 1, rules[i][k]))
        {
          ConditionClosureFailure(axiom, rules, i, k);
        }
      }
    } else {
      forall i | 0 <= i < |rules| && !RuleLineIsWellFormed(rules[i]) && (forall j :: 0 <= j < i ==> RuleLineIsWellFormed(rules[j]))
        ensures ParseRules(rules) == Failure(ParseRule(rules[i], i).error)
      {
        var i' :| 0 <= i' < |rules| && !RuleLineIsWellFormed(rules[i'])
                && (forall j :: 0 <= j < i' ==> RuleLineIsWellFormed(rules[j]))
                && ParseRules(rules) == Failure(ParseRule(rules[i'], i').error);
        assert i' == i;
      }
    }
  }

  /**
   * Once a rule line has passed the syntax and constant checks its first character exists, so the
   * validation chain never reports `RuleConstantIsNotValidChar`; every rule-numbered error names
   * a line that exists.
   */
  lemma RuleConstantIsNotValidCharUnreachable(axiom: string, angle: real, initialAngle: real, length: real,
                                               iterations: nat, rules: seq<string>)
    ensures var r := Validate(axiom, angle, initialAngle, length, iterations, rules);
      r.Failure? ==> !r.error.RuleConstantIsNotValidChar?
    ensures var r := Validate(axiom, angle, initialAngle, length, iterations, rules);
      r.Failure? && NamesRule(r.error) ==> 1 <= r.error.rule <= |rules|
  {
    ParseRulesMeaning(rules);
    if ParseRules(rules).Success? {
      var parsed := ParseRules(rules).value;
      var _ := EnsureConditionSymbolsInAlphabet(parsed.alphabet, parsed.conditions);
    }
  }
}
