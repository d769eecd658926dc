/**
 * Concrete scenarios: the sample beans of ExcelFieldLengthValidatorTest, and two edge cases:
 * the label is not the key that matched, and shadowed fields are both checked.
 */
module ValidatorExamples {
  import opened Wrappers
  import opened JavaText
  import opened Annotations
  import opened Reflection
  import opened ExcelFieldLengthValidator

  /** A bean whose class declares one field, extending Object. */
  function SingleFieldBean(f: FieldDecl, v: Value): (b: Bean) {
    Bean(UserClass(f.declaringClass, [f], Some(ObjectClass)), map[KeyOf(f) := v])
  }

  lemma SingleFieldErrors(f: FieldDecl, v: Value, config: Config)
    ensures BeanErrors(Some(SingleFieldBean(f, v)), config)
         == match CheckField(SingleFieldBean(f, v), f, config)
            case Err(e) => Err(e)
            case Ok(None) => Ok([])
            case Ok(Some(m)) => Ok([m])
  {
    var b := SingleFieldBean(f, v);
    assert AllFields(Some(b.cls)) == [f] + AllFields(Some(ObjectClass)) == [f];
    FieldsErrorsSnoc(b, [], f, config);
    assert [] + [f] == [f];
    match CheckField(b, f, config)
    case Ok(Some(m)) => assert [] + [m] == [m];
    case _ =>
  }

  lemma SmallDecimals()
    ensures DecimalString(3) == "3" && DecimalString(4) == "4"
    ensures DecimalString(5) == "5" && DecimalString(6) == "6"
  {
  }

  // ---------------------------------------------------------------------------
  // AnnotatedSample: @ExcelFieldLength(value = 5, fieldName = "字段A") String name
  // ---------------------------------------------------------------------------

  const AnnotatedName: FieldDecl :=
    FieldDecl("AnnotatedSample", "name", false, Some(ExcelFieldLength(5, "字段A", "")), None)

  const AnnotatedMessage: string := "字段【字段A】长度不能超过 5 个字符，当前长度为 6"

  lemma AnnotatedMessagePieces()
    ensures BuildMessage(AnnotatedName.lengthAnnotation, "字段A", 5, 6)
         == Ok("字段【" + "字段A" + "】长度不能超过 " + DecimalString(5) + " 个字符，当前长度为 " + DecimalString(6))
  {
    DefaultMessage(AnnotatedName.lengthAnnotation, "字段A", 5, 6);
  }

  lemma AnnotatedMessageJoined()
    ensures "字段【" + "字段A" + "】长度不能超过 " + DecimalString(5) + " 个字符，当前长度为 " + DecimalString(6)
         == AnnotatedMessage
  {
    SmallDecimals();
  }

  lemma AnnotatedNameRules(config: Config)
    ensures LimitOf(AnnotatedName, config) == Some(5)
    ensures ResolveFieldLabel(AnnotatedName) == "字段A"
    ensures BuildMessage(AnnotatedName.lengthAnnotation, "字段A", 5, 6) == Ok(AnnotatedMessage)
  {
    assert !IsBlankChar("字段A"[0]);
    AnnotatedMessagePieces();
    AnnotatedMessageJoined();
  }

  lemma PassWhenValueWithinLimit()
    ensures BeanErrors(Some(SingleFieldBean(AnnotatedName, Str("12345"))), map[]) == Ok([])
  {
    SingleFieldErrors(AnnotatedName, Str("12345"), map[]);
    AnnotatedNameRules(map[]);
  }

  lemma FailWhenValueExceedsLimit(config: Config)
    ensures BeanErrors(Some(SingleFieldBean(AnnotatedName, Str("123456"))), config) == Ok([AnnotatedMessage])
  {
    SingleFieldErrors(AnnotatedName, Str("123456"), config);
    AnnotatedNameRules(config);
    assert CheckField(SingleFieldBean(AnnotatedName, Str("123456")), AnnotatedName, config) == Ok(Some(AnnotatedMessage));
  }

  // ---------------------------------------------------------------------------
  // ConfigSample: @ExcelProperty("配置字段") String title, limited through the map {"配置字段": 3}
  // ---------------------------------------------------------------------------

  const ConfigTitle: FieldDecl :=
    FieldDecl("ConfigSample", "title", false, None, Some(ExcelProperty(["配置字段"])))

  const HeaderConfig: Config := map["配置字段" := Some(3)]

  const ConfigMessage: string := "字段【配置字段】长度不能超过 3 个字符，当前长度为 4"

  lemma ConfigHeaderIsNotBlank()
    ensures IsNotBlank("配置字段")
  {
    assert !IsBlankChar("配置字段"[0]);
  }

  lemma ConfigTitleRaw()
    ensures RawCandidates(ConfigTitle) == ["title", "配置字段"]
  {
    ConfigHeaderIsNotBlank();
    var hs: seq<string> := ["配置字段"];
    assert hs[..0] == [];
  }

  lemma ConfigTitleKeys()
    ensures CandidateKeys(ConfigTitle) == ["title", "配置字段"]
  {
    ConfigTitleRaw();
    var h := "配置字段";
    DedupSnoc([], "title");
    assert Dedup(["title"]) == ["title"] by { assert [] + ["title"] == ["title"]; }
    assert h != "title" by { assert h[0] != "title"[0]; }
    DedupSnoc(["title"], h);
    assert ["title"] + [h] == ["title", h];
  }

  lemma ConfigTitleLimit()
    ensures LimitOf(ConfigTitle, HeaderConfig) == Some(3)
  {
    ConfigTitleKeys();
    assert !PositiveEntry(HeaderConfig, "title");
    FirstPositiveFinds(["title", "配置字段"], HeaderConfig, 1);
  }

  lemma ConfigTitleLabel()
    ensures ResolveFieldLabel(ConfigTitle) == "配置字段"
  {
    ConfigHeaderIsNotBlank();
    assert FirstNonBlank(["配置字段"]) == Some("配置字段");
  }

  lemma ConfigMessagePieces()
    ensures BuildMessage(None, "配置字段", 3, 4)
         == Ok("字段【" + "配置字段" + "】长度不能超过 " + DecimalString(3) + " 个字符，当前长度为 " + DecimalString(4))
  {
    DefaultMessage(None, "配置字段", 3, 4);
  }

  lemma ConfigMessageJoined()
    ensures "字段【" + "配置字段" + "】长度不能超过 " + DecimalString(3) + " 个字符，当前长度为 " + DecimalString(4)
         == ConfigMessage
  {
    SmallDecimals();
  }

  lemma ConfigMessageText()
    ensures BuildMessage(None, "配置字段", 3, 4) == Ok(ConfigMessage)
  {
    ConfigMessagePieces();
    ConfigMessageJoined();
  }

  lemma ConfigTitleRules()
    ensures LimitOf(ConfigTitle, HeaderConfig) == Some(3)
    ensures ResolveFieldLabel(ConfigTitle) == "配置字段"
    ensures BuildMessage(None, "配置字段", 3, 4) == Ok(ConfigMessage)
  {
    ConfigTitleLimit();
    ConfigTitleLabel();
    ConfigMessageText();
  }

  lemma UseExcelHeaderWhenConfiguredByMap()
    ensures BeanErrors(Some(SingleFieldBean(ConfigTitle, Str("abcd"))), HeaderConfig) == Ok([ConfigMessage])
  {
    SingleFieldErrors(ConfigTitle, Str("abcd"), HeaderConfig);
    ConfigTitleRules();
    assert CheckField(SingleFieldBean(ConfigTitle, Str("abcd")), ConfigTitle, HeaderConfig) == Ok(Some(ConfigMessage));
  }

  /** Both samples in one collection: one message each, in collection order. */
  lemma AggregateCollectionValidationErrors()
    ensures CollectionErrors(Some([Some(SingleFieldBean(AnnotatedName, Str("123456"))),
                                   Some(SingleFieldBean(ConfigTitle, Str("abcd")))]), HeaderConfig)
         == Ok([AnnotatedMessage, ConfigMessage])
  {
    var beans := [Some(SingleFieldBean(AnnotatedName, Str("123456"))), Some(SingleFieldBean(ConfigTitle, Str("abcd")))];
    FailWhenValueExceedsLimit(HeaderConfig);
    UseExcelHeaderWhenConfiguredByMap();
    var lists := [[AnnotatedMessage], [ConfigMessage]];
    BatchIsConcatenation(beans, HeaderConfig, lists);
    ConcatTwo(AnnotatedMessage, ConfigMessage);
  }

  lemma ConcatTwo(a: string, b: string)
    ensures Concat([[a], [b]]) == [a, b]
  {
    var lists := [[a], [b]];
    assert lists[..1] == [[a]] && lists[..1][..0] == [];
    assert Concat([[a]]) == [] + [a] == [a];
    assert Concat(lists) == Concat([[a]]) + [b];
  }

  // ---------------------------------------------------------------------------
  // NumericSample: numbers are measured by their decimal form
  // ---------------------------------------------------------------------------

  lemma ValidateNumericTypes()
    ensures CalculateLength(Num(123)) == 3 && CalculateLength(Num(1234)) == 4
    ensures CalculateLength(Num(12345)) == 5 && CalculateLength(Num(123456)) == 6
    ensures CalculateLength(Num(-5)) == 2
  {
    NumberLength(123, 3);
    NumberLength(1234, 4);
    NumberLength(12345, 5);
    NumberLength(123456, 6);
    NumberLength(-5, 1);
  }

  const NumericNumber: FieldDecl :=
    FieldDecl("NumericSample", "number", false, Some(ExcelFieldLength(3, "编号", "")), None)
  const NumericCode: FieldDecl :=
    FieldDecl("NumericSample", "code", false, Some(ExcelFieldLength(5, "编码", "")), None)

  /** A NumericSample bean: Integer number, then Long code. */
  function NumericBean(number: int, code: int): (b: Bean) {
    Bean(UserClass("NumericSample", [NumericNumber, NumericCode], Some(ObjectClass)),
         map[KeyOf(NumericNumber) := Num(number), KeyOf(NumericCode) := Num(code)])
  }

  const NumberMessage: string := "字段【编号】长度不能超过 3 个字符，当前长度为 4"
  const CodeMessage: string := "字段【编码】长度不能超过 5 个字符，当前长度为 6"

  /** The bean's messages are those of its two fields, in declaration order. */
  lemma NumericFields(number: int, code: int, o1: Option<string>, o2: Option<string>)
    requires CheckField(NumericBean(number, code), NumericNumber, map[]) == Ok(o1)
    requires CheckField(NumericBean(number, code), NumericCode, map[]) == Ok(o2)
    ensures BeanErrors(Some(NumericBean(number, code)), map[])
         == Ok((if o1.Some? then [o1.value] else []) + (if o2.Some? then [o2.value] else []))
  {
    var b := NumericBean(number, code);
    var e1: seq<string> := if o1.Some? then [o1.value] else [];
    var e2: seq<string> := if o2.Some? then [o2.value] else [];
    assert AllFields(Some(b.cls)) == [NumericNumber, NumericCode] + AllFields(Some(ObjectClass));
    FieldsErrorsSnoc(b, [], NumericNumber, map[]);
    assert [] + [NumericNumber] == [NumericNumber] && [] + e1 == e1;
    assert FieldsErrors(b, [NumericNumber], map[]) == Ok(e1);
    FieldsErrorsSnoc(b, [NumericNumber], NumericCode, map[]);
    assert [NumericNumber] + [NumericCode] == [NumericNumber, NumericCode];
    assert AllFields(Some(b.cls)) == [NumericNumber, NumericCode];
    assert e1 + [] == e1;
    assert FieldsErrors(b, [NumericNumber, NumericCode], map[]) == Ok(e1 + e2);
  }

  lemma NumericLabels()
    ensures ResolveFieldLabel(NumericNumber) == "编号" && ResolveFieldLabel(NumericCode) == "编码"
  {
    assert !IsBlankChar("编号"[0]) && !IsBlankChar("编码"[0]);
  }

  lemma NumberMessageJoined()
    ensures "字段【" + "编号" + "】长度不能超过 " + DecimalString(3) + " 个字符，当前长度为 " + DecimalString(4)
         == NumberMessage
  {
    SmallDecimals();
  }

  lemma NumberMessageText()
    ensures BuildMessage(NumericNumber.lengthAnnotation, "编号", 3, 4) == Ok(NumberMessage)
  {
    DefaultMessage(NumericNumber.lengthAnnotation, "编号", 3, 4);
    NumberMessageJoined();
  }

  lemma CodeMessageJoined()
    ensures "字段【" + "编码" + "】长度不能超过 " + DecimalString(5) + " 个字符，当前长度为 " + DecimalString(6)
         == CodeMessage
  {
    SmallDecimals();
  }

  lemma CodeMessageText()
    ensures BuildMessage(NumericCode.lengthAnnotation, "编码", 5, 6) == Ok(CodeMessage)
  {
    DefaultMessage(NumericCode.lengthAnnotation, "编码", 5, 6);
    CodeMessageJoined();
  }

  /** NumericSample(123, 12345L): both numbers fit, nothing is reported. */
  lemma NumericWithinLimit()
    ensures BeanErrors(Some(NumericBean(123, 12345)), map[]) == Ok([])
  {
    NumberLength(123, 3);
    NumberLength(12345, 5);
    NumericFields(123, 12345, None, None);
  }

  lemma NumberReported()
    ensures CheckField(NumericBean(1234, 123456), NumericNumber, map[]) == Ok(Some(NumberMessage))
  {
    NumberLength(1234, 4);
    NumericLabels();
    NumberMessageText();
  }

  lemma CodeReported()
    ensures CheckField(NumericBean(1234, 123456), NumericCode, map[]) == Ok(Some(CodeMessage))
  {
    NumberLength(123456, 6);
    NumericLabels();
    CodeMessageText();
  }

  /** NumericSample(1234, 123456L): both numbers are one digit too long, two messages. */
  lemma NumericExceedsLimit()
    ensures BeanErrors(Some(NumericBean(1234, 123456)), map[]) == Ok([NumberMessage, CodeMessage])
  {
    NumberReported();
    CodeReported();
    NumericFields(1234, 123456, Some(NumberMessage), Some(CodeMessage));
    assert [NumberMessage] + [CodeMessage] == [NumberMessage, CodeMessage];
  }

  // ---------------------------------------------------------------------------
  // CustomMessageSample: message = "字段: %s, 限制: %d, 实际: %d"
  // ---------------------------------------------------------------------------

  const CustomContent: FieldDecl :=
    FieldDecl("CustomMessageSample", "content", false,
              Some(ExcelFieldLength(5, "自定义", "字段: %s, 限制: %d, 实际: %d")), None)

  lemma CustomTemplateShape()
    ensures CustomContent.lengthAnnotation.value.message == "字段: " + "%s" + ", 限制: " + "%d" + ", 实际: " + "%d" + ""
  {
  }

  lemma CustomLabel()
    ensures ResolveFieldLabel(CustomContent) == "自定义"
  {
    assert !IsBlankChar("自定义"[0]);
  }

  lemma CustomMessagePieces()
    ensures BuildMessage(CustomContent.lengthAnnotation, "自定义", 5, 6)
         == Ok("字段: " + "自定义" + ", 限制: " + DecimalString(5) + ", 实际: " + DecimalString(6) + "")
  {
    CustomTemplateShape();
    CustomMessage(CustomContent.lengthAnnotation.value, "自定义", 5, 6, "字段: ", ", 限制: ", ", 实际: ", "");
  }

  lemma CustomMessageJoined()
    ensures "字段: " + "自定义" + ", 限制: " + DecimalString(5) + ", 实际: " + DecimalString(6) + ""
         == "字段: 自定义, 限制: 5, 实际: 6"
  {
    SmallDecimals();
  }

  lemma CustomMessageText()
    ensures BuildMessage(CustomContent.lengthAnnotation, "自定义", 5, 6) == Ok("字段: 自定义, 限制: 5, 实际: 6")
  {
    CustomMessagePieces();
    CustomMessageJoined();
  }

  lemma CustomContentRules()
    ensures LimitOf(CustomContent, map[]) == Some(5)
    ensures ResolveFieldLabel(CustomContent) == "自定义"
    ensures BuildMessage(CustomContent.lengthAnnotation, "自定义", 5, 6) == Ok("字段: 自定义, 限制: 5, 实际: 6")
  {
    CustomLabel();
    CustomMessageText();
  }

  lemma SupportCustomErrorMessage()
    ensures BeanErrors(Some(SingleFieldBean(CustomContent, Str("abcdef"))), map[])
         == Ok(["字段: 自定义, 限制: 5, 实际: 6"])
  {
    SingleFieldErrors(CustomContent, Str("abcdef"), map[]);
    CustomContentRules();
    assert CheckField(SingleFieldBean(CustomContent, Str("abcdef")), CustomContent, map[])
        == Ok(Some("字段: 自定义, 限制: 5, 实际: 6"));
  }

  /** A custom message whose first conversion is %d: the label is a string, so String.format throws. */
  lemma DecimalConversionOfLabel()
    ensures BuildMessage(Some(ExcelFieldLength(5, "", "%d")), "content", 5, 6)
         == Err(IllegalFormat("%d", ConversionMismatch))
  {
    assert !IsBlankChar("%d"[0]);
    assert "%d"[2..] == [];
  }

  /** A custom message with a fourth conversion: only three arguments are passed, so String.format throws. */
  lemma FourthConversionMissing()
    ensures BuildMessage(Some(ExcelFieldLength(5, "", "%s%d%d%s")), "content", 5, 6)
         == Err(IllegalFormat("%s%d%d%s", MissingArgument))
  {
    var t := "%s%d%d%s";
    assert !IsBlankChar(t[0]);
    assert t[2..] == "%d%d%s" && t[2..][2..] == "%d%s" && t[2..][2..][2..] == "%s" && "%s"[2..] == [];
    var args := [StrArg("content"), IntArg(5), IntArg(6)];
    assert args[1..] == [IntArg(5), IntArg(6)] && args[1..][1..] == [IntArg(6)] && args[1..][1..][1..] == [];
    assert Substitute("%s", []) == Err(MissingArgument);
  }

  // ---------------------------------------------------------------------------
  // Headers ["H1", "H2"] and the map {"H2": 3}: the limit comes from H2, the label is H1.
  // ---------------------------------------------------------------------------

  const TwoHeaders: FieldDecl := FieldDecl("Sample", "f", false, None, Some(ExcelProperty(["H1", "H2"])))

  lemma TwoHeadersNonBlank()
    ensures NonBlankHeaders(["H1", "H2"]) == ["H1", "H2"]
  {
    var hs: seq<string> := ["H1", "H2"];
    assert !IsBlankChar("H1"[0]) && !IsBlankChar("H2"[0]);
    assert hs[..1] == ["H1"] && hs[..1][..0] == [];
    assert NonBlankHeaders(["H1"]) == ["H1"];
  }

  lemma TwoHeadersRaw()
    ensures RawCandidates(TwoHeaders) == ["f", "H1", "H2"]
  {
    TwoHeadersNonBlank();
    assert RawCandidates(TwoHeaders) == ["f"] + [] + ["H1", "H2"];
  }

  lemma DedupThree(a: string, b: string, c: string)
    requires a != b && a != c && b != c
    ensures Dedup([a, b, c]) == [a, b, c]
  {
    DedupSnoc([], a);
    assert [] + [a] == [a];
    DedupSnoc([a], b);
    assert [a] + [b] == [a, b];
    DedupSnoc([a, b], c);
    assert [a, b] + [c] == [a, b, c];
  }

  lemma TwoHeadersKeys()
    ensures CandidateKeys(TwoHeaders) == ["f", "H1", "H2"]
  {
    TwoHeadersRaw();
    assert "H2" != "H1" by { assert "H2"[1] != "H1"[1]; }
    DedupThree("f", "H1", "H2");
  }

  lemma LabelIsNotTheMatchedKey()
    ensures LimitOf(TwoHeaders, map["H2" := Some(3)]) == Some(3)
    ensures ResolveFieldLabel(TwoHeaders) == "H1"
  {
    TwoHeadersKeys();
    FirstPositiveFinds(["f", "H1", "H2"], map["H2" := Some(3)], 2);
    assert !IsBlankChar("H1"[0]);
  }

  // ---------------------------------------------------------------------------
  // A field shadowed by a subclass field of the same name: both are listed, subclass first.
  // ---------------------------------------------------------------------------

  const ChildCode: FieldDecl := FieldDecl("Child", "code", false, Some(WithValue(2)), None)
  const ParentCode: FieldDecl := FieldDecl("Parent", "code", false, Some(WithValue(3)), None)
  const Parent: JClass := UserClass("Parent", [ParentCode], Some(ObjectClass))
  const Child: JClass := UserClass("Child", [ChildCode], Some(Parent))

  lemma ShadowedFieldsAreBothVisited()
    ensures AllFields(Some(Child)) == [ChildCode, ParentCode]
  {
    assert AllFields(Some(Parent)) == [ParentCode] + AllFields(Some(ObjectClass)) == [ParentCode];
    assert AllFields(Some(Child)) == [ChildCode] + AllFields(Some(Parent));
  }
}
