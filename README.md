# ExcelFieldLengthValidator, modelled in Dafny

This project models the Excel import length check of the yudao-cloud Excel starter,
`ExcelFieldLengthValidator`, and its `@ExcelFieldLength` annotation.

For a bean, the validator walks the runtime class and every superclass up to `Object`. It checks
each non-static field against a maximum length. The limit comes from a positive
`@ExcelFieldLength.value`. Otherwise, and only when the caller's map is non-empty, it is the
first non-null positive entry of that map, looked up under these keys in order (each key once):

1. the field name;
2. the annotation's `fieldName`, if it is not blank;
3. the field's `@ExcelProperty` headers that are not blank, in array order.

Each field whose non-null value is longer than its limit yields one message. The field's label
is the annotation's non-blank `fieldName`, else its first non-blank header, else the field name.
Both annotation elements default to `""`, which counts as blank. The message uses the
annotation's `String.format` template when that template is not blank, and hutool's
`StrUtil.format` default text otherwise. Collections are validated bean by bean and the lists
joined.

Files:

- `wrappers.dfy`: `Option` and `Result`.
- `annotations.dfy`: `@ExcelFieldLength` and `@ExcelProperty` as values. `fieldName` and
  `message` default to `""` (`WithValue` builds an annotation with only `value` given).
- `reflection.dfy`: what reflection supplies, made explicit. This covers classes with their
  declared fields and superclass, field descriptors with modifiers and annotations, beans as maps
  from (declaring class, field name) to a value, and values by the type the length rule
  distinguishes.
- `java_text.dfy`: the library behaviour the validator depends on:
  - hutool's `isBlank` and `StrUtil.format` with `{}` placeholders;
  - `Integer.toString` / `Long.toString`;
  - `String.format` for `%s`, `%d` and `%%`.
- `validator.dfy`: the validator.
  - `getAllFields`, `buildCandidateKeys`, `resolveMaxLength` and both `validate` overloads loop in
    the original. Here they are methods with loop invariants, each proved equal to a
    specification function (`AllFields`, `CandidateKeys`, `LimitOf`, `BeanErrors`,
    `CollectionErrors`).
  - Lemmas about those functions state what the source promises.
  - `resolveFieldLabel`, `calculateLength` and `buildMessage` only compute, so they are functions.
  - `validate` throws instead of returning in two cases, both modelled as `Err` of `ValidationError`:
    an unreadable field (`IllegalStateException`) and a custom message that `String.format` rejects.
- `validator_examples.dfy`: the sample beans of the unit test and two edge cases, proved against
  the model.

Behaviour worth noting:

- `validate` returns plain message strings. There is no structured violation record and no
  row index for a collection; the collection overload only concatenates per-bean lists.
- The default message is the Chinese text `字段【{}】长度不能超过 {} 个字符，当前长度为 {}`.
- With headers `["H1", "H2"]` and the map `{"H2": 3}`, the limit comes from `H2`, but the label is
  `H1`. `resolveFieldLabel` never looks at which key matched (`LabelIsNotTheMatchedKey`).
- `getAllFields` does not drop shadowed fields: a subclass field and the superclass field it
  shadows are both checked (`ShadowedFieldsAreBothVisited`).
- A malformed custom template is not passed through silently: `String.format` throws, and
  `validate` propagates the exception (`CustomMessageFailure`).

## Model

| member | source | states |
|---|---|---|
| ExcelFieldLengthValidator.GetAllFields | yudao-framework/yudao-spring-boot-starter-excel/src/main/java/cn/iocoder/yudao/framework/excel/core/util/ExcelFieldLengthValidator.java:104-113 | The list is the declared fields of the runtime class, then those of each superclass in turn, up to but excluding `Object` (`AllFields`). |
| ExcelFieldLengthValidator.AllFieldsCoversLineage | yudao-framework/yudao-spring-boot-starter-excel/src/main/java/cn/iocoder/yudao/framework/excel/core/util/ExcelFieldLengthValidator.java:104-113 | A field is listed exactly when some visited class declares it. Fields that share a name across levels are all listed. |
| ExcelFieldLengthValidator.AllFieldsStartWithOwnFields | yudao-framework/yudao-spring-boot-starter-excel/src/main/java/cn/iocoder/yudao/framework/excel/core/util/ExcelFieldLengthValidator.java:107-110 | The runtime class's own declared fields come first, in declaration order. |
| ExcelFieldLengthValidator.BuildCandidateKeys | yudao-framework/yudao-spring-boot-starter-excel/src/main/java/cn/iocoder/yudao/framework/excel/core/util/ExcelFieldLengthValidator.java:132-150 | The `LinkedHashSet` the loop builds equals `CandidateKeys`: the raw additions in order, with repeats dropped. |
| ExcelFieldLengthValidator.CandidateKeysSpec | yudao-framework/yudao-spring-boot-starter-excel/src/main/java/cn/iocoder/yudao/framework/excel/core/util/ExcelFieldLengthValidator.java:132-150 | The first key is the field name and no key appears twice. A key is present iff it is the field name, the annotation's non-blank `fieldName`, or a non-blank header. Keys are ordered by first addition. |
| ExcelFieldLengthValidator.DedupSpec | yudao-framework/yudao-spring-boot-starter-excel/src/main/java/cn/iocoder/yudao/framework/excel/core/util/ExcelFieldLengthValidator.java:133 | Insertion-ordered set semantics: the same members as the input, no duplicates, first-occurrence order. |
| ExcelFieldLengthValidator.DedupHead | yudao-framework/yudao-spring-boot-starter-excel/src/main/java/cn/iocoder/yudao/framework/excel/core/util/ExcelFieldLengthValidator.java:133-134 | The first element added stays first. |
| ExcelFieldLengthValidator.NonBlankHeadersSpec | yudao-framework/yudao-spring-boot-starter-excel/src/main/java/cn/iocoder/yudao/framework/excel/core/util/ExcelFieldLengthValidator.java:138-147 | A header is a candidate iff it is one of the `@ExcelProperty` headers and is not blank. |
| ExcelFieldLengthValidator.FirstPositive | yudao-framework/yudao-spring-boot-starter-excel/src/main/java/cn/iocoder/yudao/framework/excel/core/util/ExcelFieldLengthValidator.java:123-129 | A limit found in the map is positive. |
| ExcelFieldLengthValidator.FirstPositiveFinds | yudao-framework/yudao-spring-boot-starter-excel/src/main/java/cn/iocoder/yudao/framework/excel/core/util/ExcelFieldLengthValidator.java:123-127 | The limit is the entry of the first key whose entry is non-null and positive. Missing, null and non-positive entries are skipped. |
| ExcelFieldLengthValidator.FirstPositiveNone | yudao-framework/yudao-spring-boot-starter-excel/src/main/java/cn/iocoder/yudao/framework/excel/core/util/ExcelFieldLengthValidator.java:123-129 | No limit is found iff no candidate key has a non-null positive entry. |
| ExcelFieldLengthValidator.ResolveMaxLength | yudao-framework/yudao-spring-boot-starter-excel/src/main/java/cn/iocoder/yudao/framework/excel/core/util/ExcelFieldLengthValidator.java:115-130 | The method returns exactly `LimitOf`: a positive annotation value, else nothing for an empty map, else the first positive entry among the candidate keys. |
| ExcelFieldLengthValidator.LimitSpec | yudao-framework/yudao-spring-boot-starter-excel/src/main/java/cn/iocoder/yudao/framework/excel/core/util/ExcelFieldLengthValidator.java:115-130 | A resolved limit is positive, and a positive annotation value wins over the map. Otherwise the limit is the first positive map entry; the `isEmpty` shortcut changes no result; with an empty map there is no limit. |
| ExcelFieldLengthValidator.FirstNonBlankSpec | yudao-framework/yudao-spring-boot-starter-excel/src/main/java/cn/iocoder/yudao/framework/excel/core/util/ExcelFieldLengthValidator.java:157-166 | Nothing is found iff every header is blank. Otherwise the first non-blank header is returned. |
| ExcelFieldLengthValidator.LabelSpec | yudao-framework/yudao-spring-boot-starter-excel/src/main/java/cn/iocoder/yudao/framework/excel/core/util/ExcelFieldLengthValidator.java:152-168 | The label is the annotation's non-blank `fieldName`, else the first non-blank header, else the field name. |
| ExcelFieldLengthValidator.NumberLength | yudao-framework/yudao-spring-boot-starter-excel/src/main/java/cn/iocoder/yudao/framework/excel/core/util/ExcelFieldLengthValidator.java:192-194 | A number of k digits has length k; a negative one has length k + 1 for the sign. |
| ExcelFieldLengthValidator.DefaultMessage | yudao-framework/yudao-spring-boot-starter-excel/src/main/java/cn/iocoder/yudao/framework/excel/core/util/ExcelFieldLengthValidator.java:174 | Without a non-blank custom message, the text is `字段【<label>】长度不能超过 <max> 个字符，当前长度为 <actual>`, with both numbers in decimal. |
| ExcelFieldLengthValidator.CustomMessage | yudao-framework/yudao-spring-boot-starter-excel/src/main/java/cn/iocoder/yudao/framework/excel/core/util/ExcelFieldLengthValidator.java:171-172 | A custom message made of `%`-free text around `%s`, `%d`, `%d` gets the label, the limit and the length in those places. |
| ExcelFieldLengthValidator.CustomMessageFailure | yudao-framework/yudao-spring-boot-starter-excel/src/main/java/cn/iocoder/yudao/framework/excel/core/util/ExcelFieldLengthValidator.java:171-172 | A non-blank custom message returns what `String.format` returns, or throws what it throws; it never falls back to the default text. A message that `String.format` cannot parse always throws. |
| ExcelFieldLengthValidator.FieldsErrorsSticky | yudao-framework/yudao-spring-boot-starter-excel/src/main/java/cn/iocoder/yudao/framework/excel/core/util/ExcelFieldLengthValidator.java:49-70 | Once a field throws, validation ends with that exception; later fields change nothing. |
| ExcelFieldLengthValidator.ValidateBeanWith | yudao-framework/yudao-spring-boot-starter-excel/src/main/java/cn/iocoder/yudao/framework/excel/core/util/ExcelFieldLengthValidator.java:42-72 | The method returns exactly `BeanErrors`. A null bean gives an empty list and a null map acts as empty. Static fields, fields without a positive limit, null values and values within the limit are skipped. |
| ExcelFieldLengthValidator.ValidateBean | yudao-framework/yudao-spring-boot-starter-excel/src/main/java/cn/iocoder/yudao/framework/excel/core/util/ExcelFieldLengthValidator.java:31-33 | `validate(bean)` equals `validate(bean, emptyMap)`. |
| ExcelFieldLengthValidator.FieldsErrorsSpec | yudao-framework/yudao-spring-boot-starter-excel/src/main/java/cn/iocoder/yudao/framework/excel/core/util/ExcelFieldLengthValidator.java:49-71 | A returned list has exactly one message per reported field, in field order. A field is reported iff it is non-static, has a positive limit and a non-null value, and that value is longer than the limit. There are never more messages than non-static fields. |
| ExcelFieldLengthValidator.FieldsNeverFail | yudao-framework/yudao-spring-boot-starter-excel/src/main/java/cn/iocoder/yudao/framework/excel/core/util/ExcelFieldLengthValidator.java:49-70 | Validation returns a list unless a non-static field with a limit cannot be read, or a reported field has a custom message that `String.format` rejects. Static fields, fields without a limit and unreported fields never make it throw. |
| ExcelFieldLengthValidator.NoConfigNoLimit | yudao-framework/yudao-spring-boot-starter-excel/src/main/java/cn/iocoder/yudao/framework/excel/core/util/ExcelFieldLengthValidator.java:115-121 | With no external map, a field without a positive `@ExcelFieldLength` is neither read nor reported. |
| ExcelFieldLengthValidator.BatchErrorsSticky | yudao-framework/yudao-spring-boot-starter-excel/src/main/java/cn/iocoder/yudao/framework/excel/core/util/ExcelFieldLengthValidator.java:98-100 | Once a bean throws, the collection's validation ends with that exception. |
| ExcelFieldLengthValidator.ValidateBeansWith | yudao-framework/yudao-spring-boot-starter-excel/src/main/java/cn/iocoder/yudao/framework/excel/core/util/ExcelFieldLengthValidator.java:91-102 | The method returns exactly `CollectionErrors`: an empty list for a null or empty collection, else each bean's list, in iteration order, under the same normalised map. |
| ExcelFieldLengthValidator.ValidateBeans | yudao-framework/yudao-spring-boot-starter-excel/src/main/java/cn/iocoder/yudao/framework/excel/core/util/ExcelFieldLengthValidator.java:80-82 | `validate(beans)` equals `validate(beans, emptyMap)`. |
| ExcelFieldLengthValidator.BatchIsConcatenation | yudao-framework/yudao-spring-boot-starter-excel/src/main/java/cn/iocoder/yudao/framework/excel/core/util/ExcelFieldLengthValidator.java:97-101 | A collection's list is the concatenation of the per-bean lists, in order, with nothing added or reordered. A null element contributes nothing. |
| ExcelFieldLengthValidator.BatchFirstError | yudao-framework/yudao-spring-boot-starter-excel/src/main/java/cn/iocoder/yudao/framework/excel/core/util/ExcelFieldLengthValidator.java:98-100 | The first bean that throws decides the outcome of the whole collection. |
| ExcelFieldLengthValidator.NullBean | yudao-framework/yudao-spring-boot-starter-excel/src/main/java/cn/iocoder/yudao/framework/excel/core/util/ExcelFieldLengthValidator.java:42-46 | A null bean gives an empty list, and a null map is the empty map. |
| ExcelFieldLengthValidator.NullCollection | yudao-framework/yudao-spring-boot-starter-excel/src/main/java/cn/iocoder/yudao/framework/excel/core/util/ExcelFieldLengthValidator.java:91-94 | A null collection and an empty collection give an empty list. |
| JavaText.DigitsLength | yudao-framework/yudao-spring-boot-starter-excel/src/main/java/cn/iocoder/yudao/framework/excel/core/util/ExcelFieldLengthValidator.java:193 | `Integer.toString` of a k-digit natural number has k characters. |
| JavaText.DigitsRoundTrip | yudao-framework/yudao-spring-boot-starter-excel/src/main/java/cn/iocoder/yudao/framework/excel/core/util/ExcelFieldLengthValidator.java:193 | The decimal digits are non-empty, all digits, have no leading zero, and read back as the number. |
| JavaText.DecimalRoundTrip | yudao-framework/yudao-spring-boot-starter-excel/src/main/java/cn/iocoder/yudao/framework/excel/core/util/ExcelFieldLengthValidator.java:193 | The decimal rendering of an integer reads back as that integer: the rendering loses nothing. |
| JavaText.DecimalStringLength | yudao-framework/yudao-spring-boot-starter-excel/src/main/java/cn/iocoder/yudao/framework/excel/core/util/ExcelFieldLengthValidator.java:193 | The rendering's length is the digit count, plus one for a negative sign. |
| JavaText.FillThree | yudao-framework/yudao-spring-boot-starter-excel/src/main/java/cn/iocoder/yudao/framework/excel/core/util/ExcelFieldLengthValidator.java:174 | `StrUtil.format` over three `{}` between brace-free text puts the three arguments in those places. |
| JavaText.PositionalFormat | yudao-framework/yudao-spring-boot-starter-excel/src/main/java/cn/iocoder/yudao/framework/excel/core/util/ExcelFieldLengthValidator.java:172 | `String.format` of `%s`, `%d`, `%d` between `%`-free text, given a string and two integers, puts the string and the two decimals in place. |
| ValidatorExamples.PassWhenValueWithinLimit | yudao-framework/yudao-spring-boot-starter-excel/src/test/java/cn/iocoder/yudao/framework/excel/core/util/ExcelFieldLengthValidatorTest.java:18-25 | `AnnotatedSample("12345")` gives no message. |
| ValidatorExamples.FailWhenValueExceedsLimit | yudao-framework/yudao-spring-boot-starter-excel/src/test/java/cn/iocoder/yudao/framework/excel/core/util/ExcelFieldLengthValidatorTest.java:27-40 | `AnnotatedSample("123456")` gives exactly one message, `字段【字段A】长度不能超过 5 个字符，当前长度为 6`, whatever the map. |
| ValidatorExamples.UseExcelHeaderWhenConfiguredByMap | yudao-framework/yudao-spring-boot-starter-excel/src/test/java/cn/iocoder/yudao/framework/excel/core/util/ExcelFieldLengthValidatorTest.java:42-55 | `ConfigSample("abcd")` with `{"配置字段": 3}` gives exactly one message, with label `配置字段`, limit 3 and length 4. |
| ValidatorExamples.AggregateCollectionValidationErrors | yudao-framework/yudao-spring-boot-starter-excel/src/test/java/cn/iocoder/yudao/framework/excel/core/util/ExcelFieldLengthValidatorTest.java:57-67 | The two samples in one collection give their two messages, in collection order. |
| ValidatorExamples.ValidateNumericTypes | yudao-framework/yudao-spring-boot-starter-excel/src/main/java/cn/iocoder/yudao/framework/excel/core/util/ExcelFieldLengthValidator.java:192-194 | Integers 123, 1234, 12345 and 123456 have lengths 3, 4, 5 and 6; -5 has length 2. |
| ValidatorExamples.NumericWithinLimit | yudao-framework/yudao-spring-boot-starter-excel/src/test/java/cn/iocoder/yudao/framework/excel/core/util/ExcelFieldLengthValidatorTest.java:69-81 | `NumericSample(123, 12345L)` gives no message. |
| ValidatorExamples.NumericExceedsLimit | yudao-framework/yudao-spring-boot-starter-excel/src/test/java/cn/iocoder/yudao/framework/excel/core/util/ExcelFieldLengthValidatorTest.java:69-81 | `NumericSample(1234, 123456L)` gives two messages, labelled `编号` and `编码`, in field order. |
| ValidatorExamples.SupportCustomErrorMessage | yudao-framework/yudao-spring-boot-starter-excel/src/test/java/cn/iocoder/yudao/framework/excel/core/util/ExcelFieldLengthValidatorTest.java:83-93 | `CustomMessageSample("abcdef")` gives exactly `字段: 自定义, 限制: 5, 实际: 6`. |
| ValidatorExamples.DecimalConversionOfLabel | yudao-framework/yudao-spring-boot-starter-excel/src/main/java/cn/iocoder/yudao/framework/excel/core/util/ExcelFieldLengthValidator.java:172 | A custom message `%d` throws: the first argument, the label, is a string. |
| ValidatorExamples.FourthConversionMissing | yudao-framework/yudao-spring-boot-starter-excel/src/main/java/cn/iocoder/yudao/framework/excel/core/util/ExcelFieldLengthValidator.java:172 | A custom message with four conversions throws: only three arguments are passed. |
| ValidatorExamples.LabelIsNotTheMatchedKey | yudao-framework/yudao-spring-boot-starter-excel/src/main/java/cn/iocoder/yudao/framework/excel/core/util/ExcelFieldLengthValidator.java:115-168 | With headers `["H1", "H2"]` and the map `{"H2": 3}`, the limit 3 comes from `H2` but the label is `H1`. |
| ValidatorExamples.ShadowedFieldsAreBothVisited | yudao-framework/yudao-spring-boot-starter-excel/src/main/java/cn/iocoder/yudao/framework/excel/core/util/ExcelFieldLengthValidator.java:104-113 | A subclass field that shadows a superclass field of the same name is listed, and the superclass field after it. |

## Left out

- Reflection.FieldDecl: `declaringClass` is not tied to the name of the `UserClass` that lists
  the field. The model does not forbid an ill-formed class chain in which two levels share one
  state slot; the JVM guarantees this cannot happen.
- Reflection itself is not modelled. `getDeclaredFields`, `getSuperclass`, `getAnnotation`,
  `setAccessible` and `Field.get` are replaced by the explicit `JClass`, `FieldDecl` and `Bean`
  values. The order of `getDeclaredFields` is taken as the order of `declaredFields`.
- `getFieldValue`'s `IllegalAccessException` is modelled as the field's key being absent from the
  bean's state. The exception becomes `Err(UnreadableField(name))`, without the message text or the
  cause.
- A value's Java type is reduced to one `Value` variant, chosen by the first rule of
  `calculateLength` that applies. Objects that implement several of the tested interfaces are
  therefore not modelled separately.
- `Num` covers integral `Number`s only. Non-integral `Number` types (`Float`, `Double`,
  `BigDecimal`) are left out, together with their `toString` renderings (fractions, exponents).
- Lengths count characters of the model string, not UTF-16 code units. Outside the Basic
  Multilingual Plane, Java's `length()` counts two per character.
- `Other` carries the text of the value's `toString()` as given; running it is not modelled.
- Java `int` limits and lengths are unbounded integers here. Values beyond 2^31 − 1 cannot occur
  in the source, so no wrap-around is modelled.
- `@ExcelProperty` is reduced to its `value` header array. Its other elements are not read by the
  validator. The `headers != null` check has no model case, because an annotation array is never null.
- JavaText.JavaFormat: only `%s`, `%d` and `%%` are modelled. Every other conversion (`%x`,
  `%n`, widths, flags, argument indices) is reported as `UnsupportedConversion`, although Java
  accepts many of them.
- JavaText.Convert: `%d` always renders ASCII digits and an ASCII `-`. `String.format(String,
  Object...)` uses the default format locale, which can render other digits or minus signs.
  Locale-dependent rendering is not modelled.
- JavaText.StrFormat: hutool's escape `\{}` and the handling of `null` arguments are not
  modelled; all three arguments are always non-null here. The hutool and JDK sources are not part
  of this model; their behaviour is stated from their documented contracts.
- JavaText.IsBlankChar: it follows hutool's list of blank characters. `Character.isWhitespace` and
  `Character.isSpaceChar` are written out as the characters they accept, without locale or
  Unicode-version differences.
- The message text of `IllegalStateException` (`无法读取字段[{}]进行校验`) is not modelled; only
  the field name is kept.
- Excel reading, the import framework that calls the validator, and the JUnit/AssertJ harness are
  not part of this model. The tests' assertions are restated as lemmas about fixed sample beans.
