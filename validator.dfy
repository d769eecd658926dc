/**
 * ExcelFieldLengthValidator: checks that every instance field of a bean (declared in its class or
 * any superclass) is no longer than its limit, taken from @ExcelFieldLength or from a caller's
 * key-to-limit map, and returns one message per field that is too long.
 *
 * The operations that loop in the original (getAllFields, buildCandidateKeys, resolveMaxLength
 * and the two validate overloads) are methods, each proved equal to a specification function;
 * calculateLength, resolveFieldLabel and buildMessage are functions.
 */
module ExcelFieldLengthValidator {
  import opened Wrappers
  import opened JavaText
  import opened Annotations
  import opened Reflection

  /** Map<String, Integer>: a key may be present with a null value. */
  type Config = map<string, Option<int>>

  /** What validate throws instead of returning its list. */
  datatype ValidationError =
    | UnreadableField(fieldName: string)                   // IllegalStateException over IllegalAccessException
    | IllegalFormat(template: string, cause: FormatError)  // String.format rejected a custom message

  /** `fieldLengthMap != null ? fieldLengthMap : Collections.emptyMap()` */
  function NormalizeConfig(fieldLengthMap: Option<Config>): (config: Config) {
    match fieldLengthMap
    case Some(m) => m
    case None => map[]
  }

  // ---------------------------------------------------------------------------
  // getAllFields
  // ---------------------------------------------------------------------------

  /** The declared fields of the class, then of each superclass in turn, stopping at Object. */
  function AllFields(c: Option<JClass>): (fields: seq<FieldDecl>)
    decreases c
  {
    match c
    case None => []
    case Some(ObjectClass) => []
    case Some(UserClass(_, declared, sup)) => declared + AllFields(sup)
  }

  /** The classes getAllFields visits, most derived first. */
  function Lineage(c: Option<JClass>): (classes: seq<JClass>)
    decreases c
  {
    match c
    case None => []
    case Some(ObjectClass) => []
    case Some(k) => [k] + Lineage(k.superclass)
  }

  method GetAllFields(clazz: JClass) returns (fields: seq<FieldDecl>)
    ensures fields == AllFields(Some(clazz))
  {
    fields := [];
    var current := Some(clazz);
    while current.Some? && current.value.UserClass?
      invariant fields + AllFields(current) == AllFields(Some(clazz))
      decreases current
    {
      fields := fields + current.value.declaredFields;
      current := current.value.superclass;
    }
    assert AllFields(current) == [];
    assert fields + [] == fields;
  }

  /** Every field declared by a visited class is listed, shadowed ones included, and nothing else is. */
  lemma {:induction false} AllFieldsCoversLineage(c: Option<JClass>)
    ensures forall k | k in Lineage(c) :: k.UserClass?
    ensures forall k, f | k in Lineage(c) && k.UserClass? && f in k.declaredFields :: f in AllFields(c)
    ensures forall f | f in AllFields(c) :: exists k | k in Lineage(c) && k.UserClass? :: f in k.declaredFields
  {
    match c
    case None =>
    case Some(ObjectClass) =>
    case Some(UserClass(_, declared, sup)) =>
      AllFieldsCoversLineage(sup);
      var k := c.value;
      assert Lineage(c) == [k] + Lineage(sup);
      forall f | f in AllFields(c) ensures exists k' | k' in Lineage(c) && k'.UserClass? :: f in k'.declaredFields {
        if f in declared {
          assert k in Lineage(c);
        } else {
          assert f in AllFields(sup);
        }
      }
  }

  /** The fields of the runtime class come first: they are the first entries of the list. */
  lemma AllFieldsStartWithOwnFields(k: JClass)
    requires k.UserClass?
    ensures |AllFields(Some(k))| >= |k.declaredFields|
    ensures AllFields(Some(k))[..|k.declaredFields|] == k.declaredFields
  {
  }

  // ---------------------------------------------------------------------------
  // buildCandidateKeys
  // ---------------------------------------------------------------------------

  function HeadersOf(f: FieldDecl): (headers: seq<string>) {
    match f.property
    case Some(p) => p.value
    case None => []
  }

  /** The annotation's fieldName when it is present and non-blank. */
  predicate HasLabel(f: FieldDecl) {
    f.lengthAnnotation.Some? && IsNotBlank(f.lengthAnnotation.value.fieldName)
  }

  /** The non-blank headers, in order. */
  function NonBlankHeaders(hs: seq<string>): (kept: seq<string>)
    decreases |hs|
  {
    if hs == [] then []
    else NonBlankHeaders(hs[..|hs| - 1]) + (if IsNotBlank(hs[|hs| - 1]) then [hs[|hs| - 1]] else [])
  }

  /** The keys buildCandidateKeys adds, in the order it adds them, before the set drops repeats. */
  function RawCandidates(f: FieldDecl): (keys: seq<string>) {
    [f.name]
    + (if HasLabel(f) then [f.lengthAnnotation.value.fieldName] else [])
    + NonBlankHeaders(HeadersOf(f))
  }

  /** An insertion-ordered set built by adding the elements of s one by one (LinkedHashSet.add). */
  function Dedup(s: seq<string>): (d: seq<string>)
    decreases |s|
  {
    if s == [] then []
    else
      var d := Dedup(s[..|s| - 1]);
      if s[|s| - 1] in d then d else d + [s[|s| - 1]]
  }

  function CandidateKeys(f: FieldDecl): (keys: seq<string>) {
    Dedup(RawCandidates(f))
  }

  method BuildCandidateKeys(field: FieldDecl) returns (candidates: seq<string>)
    ensures candidates == CandidateKeys(field)
  {
    candidates := [field.name];
    if HasLabel(field) {
      var fieldName := field.lengthAnnotation.value.fieldName;
      if fieldName !in candidates {
        candidates := candidates + [fieldName];
      }
    }
    ghost var base := RawCandidates(field)[..|RawCandidates(field)| - |NonBlankHeaders(HeadersOf(field))|];
    BaseCandidates(field, candidates);
    var headers := HeadersOf(field);
    for i := 0 to |headers|
      invariant candidates == Dedup(base + NonBlankHeaders(headers[..i]))
    {
      var header := headers[i];
      CandidateStep(base, headers, i);
      if IsNotBlank(header) {
        if header !in candidates {
          candidates := candidates + [header];
        }
      }
    }
    assert headers[..|headers|] == headers;
    assert base + NonBlankHeaders(headers) == RawCandidates(field);
  }

  /** The keys added before the header loop: the field name and, if any, the annotation's fieldName. */
  lemma BaseCandidates(f: FieldDecl, candidates: seq<string>)
    requires candidates == if HasLabel(f) && f.lengthAnnotation.value.fieldName != f.name
                           then [f.name, f.lengthAnnotation.value.fieldName] else [f.name]
    ensures var raw := RawCandidates(f);
            var base := raw[..|raw| - |NonBlankHeaders(HeadersOf(f))|];
            candidates == Dedup(base + NonBlankHeaders(HeadersOf(f)[..0]))
  {
    var raw := RawCandidates(f);
    var base := raw[..|raw| - |NonBlankHeaders(HeadersOf(f))|];
    assert HeadersOf(f)[..0] == [];
    assert base + NonBlankHeaders(HeadersOf(f)[..0]) == base;
    assert [f.name][..0] == [];
    if HasLabel(f) {
      var n := f.lengthAnnotation.value.fieldName;
      assert base == [f.name] + [n];
      assert [f.name][..0] == [];
      DedupSnoc([], f.name);
      DedupSnoc([f.name], n);
    } else {
      assert base == [f.name];
    }
  }

  /** One pass of the header loop adds the header to the set when it is non-blank. */
  lemma CandidateStep(base: seq<string>, headers: seq<string>, i: nat)
    requires i < |headers|
    ensures Dedup(base + NonBlankHeaders(headers[..i + 1]))
         == var d := Dedup(base + NonBlankHeaders(headers[..i]));
            if IsNotBlank(headers[i]) && headers[i] !in d then d + [headers[i]] else d
  {
    assert headers[..i + 1][..i] == headers[..i];
    var s := base + NonBlankHeaders(headers[..i]);
    if IsNotBlank(headers[i]) {
      assert base + NonBlankHeaders(headers[..i + 1]) == s + [headers[i]];
      DedupSnoc(s, headers[i]);
    } else {
      assert base + NonBlankHeaders(headers[..i + 1]) == s;
    }
  }

  lemma DedupSnoc(s: seq<string>, x: string)
    ensures Dedup(s + [x]) == if x in Dedup(s) then Dedup(s) else Dedup(s) + [x]
  {
    assert (s + [x])[..|s|] == s;
  }

  predicate NoDuplicates(s: seq<string>) {
    forall i, j | 0 <= i < j < |s| :: s[i] != s[j]
  }

  /** The position of the first occurrence of x in s. */
  function FirstIndex(s: seq<string>, x: string): (k: nat)
    requires x in s
    ensures k < |s| && s[k] == x
    ensures forall j | 0 <= j < k :: s[j] != x
  {
    if s[0] == x then 0 else 1 + FirstIndex(s[1..], x)
  }

  lemma {:induction false} FirstIndexSnoc(s: seq<string>, x: string, y: string)
    requires y in s
    ensures FirstIndex(s + [x], y) == FirstIndex(s, y)
  {
    if s[0] != y {
      assert (s + [x])[1..] == s[1..] + [x];
      FirstIndexSnoc(s[1..], x, y);
    }
  }

  /** Dedup keeps each element of s exactly once, ordered by first occurrence. */
  lemma {:induction false} DedupSpec(s: seq<string>)
    ensures forall x :: x in Dedup(s) <==> x in s
    ensures NoDuplicates(Dedup(s))
    ensures forall i, j | 0 <= i < j < |Dedup(s)| :: FirstIndex(s, Dedup(s)[i]) < FirstIndex(s, Dedup(s)[j])
  {
    if s != [] {
      var p, x := s[..|s| - 1], s[|s| - 1];
      assert s == p + [x];
      DedupSpec(p);
      var d := Dedup(p);
      forall y | y in p ensures FirstIndex(s, y) == FirstIndex(p, y) {
        FirstIndexSnoc(p, x, y);
      }
      if x !in p {
        assert FirstIndex(s, x) == |p|;
      }
    }
  }

  /** Dedup keeps the first element first. */
  lemma {:induction false} DedupHead(s: seq<string>)
    requires s != []
    ensures Dedup(s) != [] && Dedup(s)[0] == s[0]
  {
    if |s| > 1 {
      var p := s[..|s| - 1];
      DedupHead(p);
    } else {
      assert s[..0] == [];
    }
  }

  lemma {:induction false} NonBlankHeadersSpec(hs: seq<string>)
    ensures forall h :: h in NonBlankHeaders(hs) <==> h in hs && IsNotBlank(h)
  {
    if hs != [] {
      var p := hs[..|hs| - 1];
      NonBlankHeadersSpec(p);
      assert hs == p + [hs[|hs| - 1]];
    }
  }

  /** The candidate keys: the field name first, then the annotation's non-blank fieldName, then the
      non-blank headers; each key once, at the place of its first occurrence. */
  lemma CandidateKeysSpec(f: FieldDecl)
    ensures |CandidateKeys(f)| >= 1 && CandidateKeys(f)[0] == f.name
    ensures NoDuplicates(CandidateKeys(f))
    ensures forall k :: k in CandidateKeys(f) <==> k in RawCandidates(f)
    ensures forall k :: k in CandidateKeys(f) <==>
      k == f.name || (HasLabel(f) && k == f.lengthAnnotation.value.fieldName) || (k in HeadersOf(f) && IsNotBlank(k))
    ensures forall i, j | 0 <= i < j < |CandidateKeys(f)| ::
      FirstIndex(RawCandidates(f), CandidateKeys(f)[i]) < FirstIndex(RawCandidates(f), CandidateKeys(f)[j])
  {
    DedupHead(RawCandidates(f));
    DedupSpec(RawCandidates(f));
    NonBlankHeadersSpec(HeadersOf(f));
  }

  // ---------------------------------------------------------------------------
  // resolveMaxLength
  // ---------------------------------------------------------------------------

  /** `config.get(key)` is non-null and positive. */
  predicate PositiveEntry(config: Config, key: string) {
    key in config && config[key].Some? && config[key].value > 0
  }

  /** The limit of the first key with a positive entry. */
  function FirstPositive(keys: seq<string>, config: Config): (r: Option<int>)
    ensures r.Some? ==> r.value > 0
    decreases |keys|
  {
    if keys == [] then None
    else if PositiveEntry(config, keys[0]) then Some(config[keys[0]].value)
    else FirstPositive(keys[1..], config)
  }

  predicate HasPositiveAnnotation(f: FieldDecl) {
    f.lengthAnnotation.Some? && f.lengthAnnotation.value.value > 0
  }

  function LimitOf(f: FieldDecl, config: Config): (maxLength: Option<int>) {
    if HasPositiveAnnotation(f) then Some(f.lengthAnnotation.value.value)
    else if |config| == 0 then None
    else FirstPositive(CandidateKeys(f), config)
  }

  method ResolveMaxLength(field: FieldDecl, config: Config) returns (maxLength: Option<int>)
    ensures maxLength == LimitOf(field, config)
  {
    if HasPositiveAnnotation(field) {
      return Some(field.lengthAnnotation.value.value);
    }
    if |config| == 0 {
      return None;
    }
    var candidates := BuildCandidateKeys(field);
    for i := 0 to |candidates|
      invariant FirstPositive(candidates[i..], config) == FirstPositive(candidates, config)
    {
      var length := if candidates[i] in config then config[candidates[i]] else None;
      if length.Some? && length.value > 0 {
        return length;
      }
      assert candidates[i..][1..] == candidates[i + 1..];
    }
    return None;
  }

  /** FirstPositive finds the first key whose entry is positive and skips null and non-positive ones. */
  lemma {:induction false} FirstPositiveFinds(keys: seq<string>, config: Config, i: nat)
    requires i < |keys| && PositiveEntry(config, keys[i])
    requires forall j | 0 <= j < i :: !PositiveEntry(config, keys[j])
    ensures FirstPositive(keys, config) == Some(config[keys[i]].value)
  {
    if i > 0 {
      assert !PositiveEntry(config, keys[0]);
      FirstPositiveFinds(keys[1..], config, i - 1);
    }
  }

  /** FirstPositive finds nothing exactly when no key has a positive entry. */
  lemma {:induction false} FirstPositiveNone(keys: seq<string>, config: Config)
    ensures FirstPositive(keys, config) == None <==> forall i | 0 <= i < |keys| :: !PositiveEntry(config, keys[i])
  {
    if keys != [] {
      FirstPositiveNone(keys[1..], config);
      assert forall i | 1 <= i < |keys| :: keys[i] == keys[1..][i - 1];
    }
  }

  /** Precedence of the limit sources. */
  lemma LimitSpec(f: FieldDecl, config: Config)
    ensures LimitOf(f, config).Some? ==> LimitOf(f, config).value > 0
    ensures HasPositiveAnnotation(f) ==> LimitOf(f, config) == Some(f.lengthAnnotation.value.value)
    ensures !HasPositiveAnnotation(f) ==> LimitOf(f, config) == FirstPositive(CandidateKeys(f), config)
    ensures !HasPositiveAnnotation(f) && config == map[] ==> LimitOf(f, config) == None
  {
    if !HasPositiveAnnotation(f) && |config| == 0 {
      FirstPositiveNone(CandidateKeys(f), config);
    }
  }

  // ---------------------------------------------------------------------------
  // resolveFieldLabel
  // ---------------------------------------------------------------------------

  function FirstNonBlank(hs: seq<string>): (h: Option<string>)
    decreases |hs|
  {
    if hs == [] then None
    else if IsNotBlank(hs[0]) then Some(hs[0])
    else FirstNonBlank(hs[1..])
  }

  function ResolveFieldLabel(f: FieldDecl): (fieldLabel: string) {
    if HasLabel(f) then f.lengthAnnotation.value.fieldName
    else match FirstNonBlank(HeadersOf(f))
      case Some(h) => h
      case None => f.name
  }

  lemma {:induction false} FirstNonBlankSpec(hs: seq<string>)
    ensures FirstNonBlank(hs) == None <==> forall i | 0 <= i < |hs| :: IsBlank(hs[i])
    ensures forall i | 0 <= i < |hs| && IsNotBlank(hs[i]) && (forall j | 0 <= j < i :: IsBlank(hs[j])) ::
      FirstNonBlank(hs) == Some(hs[i])
  {
    if hs != [] {
      FirstNonBlankSpec(hs[1..]);
      assert forall i | 1 <= i < |hs| :: hs[i] == hs[1..][i - 1];
      forall i | 1 <= i < |hs| && IsNotBlank(hs[i]) && (forall j | 0 <= j < i :: IsBlank(hs[j]))
        ensures FirstNonBlank(hs) == Some(hs[i])
      {
        assert IsBlank(hs[0]);
        assert forall j | 0 <= j < i - 1 :: hs[1..][j] == hs[j + 1];
      }
    }
  }

  /** The label: the annotation's non-blank fieldName, else the first non-blank header, else the
      field name. It does not depend on which key supplied the limit. */
  lemma LabelSpec(f: FieldDecl)
    ensures HasLabel(f) ==> ResolveFieldLabel(f) == f.lengthAnnotation.value.fieldName
    ensures !HasLabel(f) ==>
      forall i | 0 <= i < |HeadersOf(f)| && IsNotBlank(HeadersOf(f)[i])
          && (forall j | 0 <= j < i :: IsBlank(HeadersOf(f)[j])) ::
        ResolveFieldLabel(f) == HeadersOf(f)[i]
    ensures !HasLabel(f) && (forall i | 0 <= i < |HeadersOf(f)| :: IsBlank(HeadersOf(f)[i])) ==>
      ResolveFieldLabel(f) == f.name
  {
    FirstNonBlankSpec(HeadersOf(f));
  }

  // ---------------------------------------------------------------------------
  // calculateLength
  // ---------------------------------------------------------------------------

  /** The length of a non-null value, by the first rule that applies to its type. */
  function CalculateLength(v: Value): (length: nat)
    requires !v.Null?
  {
    match v
    case Str(s) => |s|
    case Num(n) => |DecimalString(n)|
    case Arr(n) => n
    case Coll(n) => n
    case MapV(n) => n
    case Other(text) => |text|
  }

  /** A number's length is its count of decimal digits, plus one for a minus sign. */
  lemma NumberLength(n: int, k: nat)
    requires 1 <= k
    requires if n < 0 then -n < Pow10(k) && (k == 1 || Pow10(k - 1) <= -n)
             else n < Pow10(k) && (k == 1 || Pow10(k - 1) <= n)
    ensures CalculateLength(Num(n)) == if n < 0 then k + 1 else k
  {
    DecimalStringLength(n, k);
  }

  // ---------------------------------------------------------------------------
  // buildMessage
  // ---------------------------------------------------------------------------

  /** The default message, "字段【{}】长度不能超过 {} 个字符，当前长度为 {}", around its three placeholders. */
  const DefaultPrefix: string := "字段【"
  const DefaultMiddle: string := "】长度不能超过 "
  const DefaultSuffix: string := " 个字符，当前长度为 "
  const DefaultTemplate: string := DefaultPrefix + "{}" + DefaultMiddle + "{}" + DefaultSuffix + "{}"

  /** String.format(annotation.message(), fieldLabel, maxLength, actualLength). */
  function FormatOutcome(annotation: ExcelFieldLength, fieldLabel: string, maxLength: int, actualLength: int)
    : (r: Result<string, FormatError>)
  {
    JavaFormat(annotation.message, [StrArg(fieldLabel), IntArg(maxLength), IntArg(actualLength)])
  }

  function BuildMessage(annotation: Option<ExcelFieldLength>, fieldLabel: string, maxLength: int, actualLength: int)
    : (message: Result<string, ValidationError>)
  {
    if annotation.Some? && IsNotBlank(annotation.value.message) then
      match FormatOutcome(annotation.value, fieldLabel, maxLength, actualLength)
      case Ok(m) => Ok(m)
      case Err(e) => Err(IllegalFormat(annotation.value.message, e))
    else
      Ok(StrFormat(DefaultTemplate, [fieldLabel, DecimalString(maxLength), DecimalString(actualLength)]))
  }

  /** Without a custom message the label, the limit and the length fill the fixed default text. */
  lemma DefaultMessage(annotation: Option<ExcelFieldLength>, fieldLabel: string, maxLength: int, actualLength: int)
    requires annotation.None? || IsBlank(annotation.value.message)
    ensures BuildMessage(annotation, fieldLabel, maxLength, actualLength)
         == Ok("字段【" + fieldLabel + "】长度不能超过 " + DecimalString(maxLength)
               + " 个字符，当前长度为 " + DecimalString(actualLength))
  {
    assert !IsBlankChar(DefaultTemplate[0]);
    FillThree(DefaultPrefix, DefaultMiddle, DefaultSuffix,
              fieldLabel, DecimalString(maxLength), DecimalString(actualLength));
  }

  /** A custom message with one %s and two %d between '%'-free text gets the label, the limit and
      the length in those places. */
  lemma CustomMessage(annotation: ExcelFieldLength, fieldLabel: string, maxLength: int, actualLength: int,
                      p0: string, p1: string, p2: string, p3: string)
    requires '%' !in p0 && '%' !in p1 && '%' !in p2 && '%' !in p3
    requires annotation.message == p0 + "%s" + p1 + "%d" + p2 + "%d" + p3
    ensures BuildMessage(Some(annotation), fieldLabel, maxLength, actualLength)
         == Ok(p0 + fieldLabel + p1 + DecimalString(maxLength) + p2 + DecimalString(actualLength) + p3)
  {
    assert annotation.message[|p0|] == '%';
    PositionalFormat(p0, p1, p2, p3, fieldLabel, maxLength, actualLength);
  }

  /** A non-blank custom message goes through String.format with (label, maximum, actual); when
      String.format throws, so does buildMessage, and the default text is never used instead. */
  lemma CustomMessageFailure(annotation: ExcelFieldLength, fieldLabel: string, maxLength: int, actualLength: int)
    requires IsNotBlank(annotation.message)
    ensures FormatOutcome(annotation, fieldLabel, maxLength, actualLength).Ok? ==>
      (BuildMessage(Some(annotation), fieldLabel, maxLength, actualLength)
       == Ok(FormatOutcome(annotation, fieldLabel, maxLength, actualLength).value))
    ensures FormatOutcome(annotation, fieldLabel, maxLength, actualLength).Err? ==>
      (BuildMessage(Some(annotation), fieldLabel, maxLength, actualLength)
       == Err(IllegalFormat(annotation.message, FormatOutcome(annotation, fieldLabel, maxLength, actualLength).error)))
    ensures !Parses(annotation.message) ==>
      (BuildMessage(Some(annotation), fieldLabel, maxLength, actualLength)
       == Err(IllegalFormat(annotation.message, UnsupportedConversion)))
  {
  }

  // ---------------------------------------------------------------------------
  // validate(Object, Map)
  // ---------------------------------------------------------------------------

  /** getFieldValue: Field.get, or the exception that reports the unreadable field. */
  function ReadField(bean: Bean, f: FieldDecl): (r: Result<Value, ValidationError>) {
    if KeyOf(f) in bean.state then Ok(bean.state[KeyOf(f)]) else Err(UnreadableField(f.name))
  }

  /** One pass of the loop body: Ok(None) for a `continue`, Ok(Some(m)) for a reported field. */
  function CheckField(bean: Bean, f: FieldDecl, config: Config): (r: Result<Option<string>, ValidationError>) {
    if f.isStatic then Ok(None)
    else
      var maxLength := LimitOf(f, config);
      if maxLength.None? || maxLength.value <= 0 then Ok(None)
      else match ReadField(bean, f)
        case Err(e) => Err(e)
        case Ok(value) =>
          if value.Null? then Ok(None)
          else
            var actualLength := CalculateLength(value);
            if actualLength <= maxLength.value then Ok(None)
            else match BuildMessage(f.lengthAnnotation, ResolveFieldLabel(f), maxLength.value, actualLength)
              case Err(e) => Err(e)
              case Ok(m) => Ok(Some(m))
  }

  /** The loop over a list of fields: messages in field order, the first exception ends it. */
  function FieldsErrors(bean: Bean, fields: seq<FieldDecl>, config: Config): (r: Result<seq<string>, ValidationError>)
    decreases |fields|
  {
    if fields == [] then Ok([])
    else match FieldsErrors(bean, fields[..|fields| - 1], config)
      case Err(e) => Err(e)
      case Ok(errors) =>
        match CheckField(bean, fields[|fields| - 1], config)
        case Err(e) => Err(e)
        case Ok(None) => Ok(errors)
        case Ok(Some(m)) => Ok(errors + [m])
  }

  function BeanErrors(bean: Option<Bean>, config: Config): (r: Result<seq<string>, ValidationError>) {
    match bean
    case None => Ok([])
    case Some(b) => FieldsErrors(b, AllFields(Some(b.cls)), config)
  }

  lemma FieldsErrorsSnoc(bean: Bean, fields: seq<FieldDecl>, f: FieldDecl, config: Config)
    ensures FieldsErrors(bean, fields + [f], config)
         == match FieldsErrors(bean, fields, config)
            case Err(e) => Err(e)
            case Ok(errors) =>
              match CheckField(bean, f, config)
              case Err(e) => Err(e)
              case Ok(None) => Ok(errors)
              case Ok(Some(m)) => Ok(errors + [m])
  {
    assert (fields + [f])[..|fields|] == fields;
  }

  /** Once a field has thrown, the later fields change nothing. */
  lemma {:induction false} FieldsErrorsSticky(bean: Bean, fields: seq<FieldDecl>, config: Config, k: nat)
    requires k <= |fields| && FieldsErrors(bean, fields[..k], config).Err?
    ensures FieldsErrors(bean, fields, config) == FieldsErrors(bean, fields[..k], config)
    decreases |fields| - k
  {
    if k < |fields| {
      var p := fields[..|fields| - 1];
      assert p[..k] == fields[..k];
      FieldsErrorsSticky(bean, p, config, k);
    } else {
      assert fields[..k] == fields;
    }
  }

  method ValidateBeanWith(bean: Option<Bean>, fieldLengthMap: Option<Config>)
    returns (r: Result<seq<string>, ValidationError>)
    ensures r == BeanErrors(bean, NormalizeConfig(fieldLengthMap))
  {
    if bean.None? {
      return Ok([]);
    }
    var b := bean.value;
    var config := NormalizeConfig(fieldLengthMap);
    var errors: seq<string> := [];
    var fields := GetAllFields(b.cls);
    for i := 0 to |fields|
      invariant FieldsErrors(b, fields[..i], config) == Ok(errors)
    {
      var field := fields[i];
      assert fields[..i + 1] == fields[..i] + [field];
      FieldsErrorsSnoc(b, fields[..i], field, config);
      if field.isStatic {
        continue;
      }
      var maxLength := ResolveMaxLength(field, config);
      if maxLength.None? || maxLength.value <= 0 {
        continue;
      }
      var value := ReadField(b, field);
      if value.Err? {
        FieldsErrorsSticky(b, fields, config, i + 1);
        return Err(value.error);
      }
      if value.value.Null? {
        continue;
      }
      var actualLength := CalculateLength(value.value);
      if actualLength <= maxLength.value {
        continue;
      }
      var fieldLabel := ResolveFieldLabel(field);
      var message := BuildMessage(field.lengthAnnotation, fieldLabel, maxLength.value, actualLength);
      if message.Err? {
        FieldsErrorsSticky(b, fields, config, i + 1);
        return Err(message.error);
      }
      errors := errors + [message.value];
    }
    assert fields[..|fields|] == fields;
    return Ok(errors);
  }

  /** validate(Object): no external limits. */
  method ValidateBean(bean: Option<Bean>) returns (r: Result<seq<string>, ValidationError>)
    ensures r == BeanErrors(bean, map[])
  {
    r := ValidateBeanWith(bean, Some(map[]));
  }

  // ---------------------------------------------------------------------------
  // What a bean's messages are
  // ---------------------------------------------------------------------------

  /** A field is reported exactly when it is non-static, has a positive limit, holds a readable
      non-null value, and that value is longer than the limit. */
  ghost predicate Reported(bean: Bean, f: FieldDecl, config: Config) {
    && !f.isStatic
    && LimitOf(f, config).Some? && LimitOf(f, config).value > 0
    && KeyOf(f) in bean.state && !bean.state[KeyOf(f)].Null?
    && CalculateLength(bean.state[KeyOf(f)]) > LimitOf(f, config).value
  }

  /** The message of a reported field: its label, limit and length through its message rule. */
  ghost function ReportedMessage(bean: Bean, f: FieldDecl, config: Config): (message: string)
    requires Reported(bean, f, config)
  {
    match BuildMessage(f.lengthAnnotation, ResolveFieldLabel(f), LimitOf(f, config).value,
                       CalculateLength(bean.state[KeyOf(f)]))
    case Ok(m) => m
    case Err(_) => ""
  }

  /** One message per reported field, in field order. */
  ghost function ExpectedMessages(bean: Bean, fields: seq<FieldDecl>, config: Config): (messages: seq<string>)
    decreases |fields|
  {
    if fields == [] then []
    else
      var f := fields[|fields| - 1];
      ExpectedMessages(bean, fields[..|fields| - 1], config)
      + (if Reported(bean, f, config) then [ReportedMessage(bean, f, config)] else [])
  }

  ghost function NonStaticCount(fields: seq<FieldDecl>): (count: nat)
    decreases |fields|
  {
    if fields == [] then 0
    else NonStaticCount(fields[..|fields| - 1]) + (if fields[|fields| - 1].isStatic then 0 else 1)
  }

  /** When validation returns, its list holds exactly the messages of the reported fields, in
      field order, so never more than there are non-static fields. */
  lemma {:induction false} FieldsErrorsSpec(bean: Bean, fields: seq<FieldDecl>, config: Config)
    requires FieldsErrors(bean, fields, config).Ok?
    ensures FieldsErrors(bean, fields, config).value == ExpectedMessages(bean, fields, config)
    ensures |ExpectedMessages(bean, fields, config)| <= NonStaticCount(fields)
    decreases |fields|
  {
    if fields != [] {
      var p, f := fields[..|fields| - 1], fields[|fields| - 1];
      FieldsErrorsSpec(bean, p, config);
      LimitSpec(f, config);
    }
  }

  /** Validation throws only for an unreadable field that needed reading (a non-static field
      with a limit) or for a reported field whose custom message String.format rejects: when
      neither happens it returns, whatever the other fields hold. */
  lemma {:induction false} FieldsNeverFail(bean: Bean, fields: seq<FieldDecl>, config: Config)
    requires forall i | 0 <= i < |fields| ::
      !fields[i].isStatic && LimitOf(fields[i], config).Some? ==> KeyOf(fields[i]) in bean.state
    requires forall i | 0 <= i < |fields| ::
      Reported(bean, fields[i], config) ==>
        BuildMessage(fields[i].lengthAnnotation, ResolveFieldLabel(fields[i]), LimitOf(fields[i], config).value,
                     CalculateLength(bean.state[KeyOf(fields[i])])).Ok?
    ensures FieldsErrors(bean, fields, config).Ok?
    decreases |fields|
  {
    if fields != [] {
      var p := fields[..|fields| - 1];
      assert forall i | 0 <= i < |p| :: p[i] == fields[i];
      FieldsNeverFail(bean, p, config);
      LimitSpec(fields[|fields| - 1], config);
    }
  }

  /** With no external limits, a field without a positive @ExcelFieldLength is never reported and never read. */
  lemma NoConfigNoLimit(bean: Bean, f: FieldDecl)
    requires !HasPositiveAnnotation(f)
    ensures CheckField(bean, f, map[]) == Ok(None)
  {
  }

  // ---------------------------------------------------------------------------
  // validate(Collection, Map)
  // ---------------------------------------------------------------------------

  /** The loop over the beans: their lists, concatenated in iteration order; the first exception ends it. */
  function BatchErrors(beans: seq<Option<Bean>>, config: Config): (r: Result<seq<string>, ValidationError>)
    decreases |beans|
  {
    if beans == [] then Ok([])
    else match BatchErrors(beans[..|beans| - 1], config)
      case Err(e) => Err(e)
      case Ok(errors) =>
        match BeanErrors(beans[|beans| - 1], config)
        case Err(e) => Err(e)
        case Ok(more) => Ok(errors + more)
  }

  function CollectionErrors(beans: Option<seq<Option<Bean>>>, config: Config): (r: Result<seq<string>, ValidationError>) {
    if beans.None? || |beans.value| == 0 then Ok([]) else BatchErrors(beans.value, config)
  }

  function Concat(lists: seq<seq<string>>): (joined: seq<string>)
    decreases |lists|
  {
    if lists == [] then [] else Concat(lists[..|lists| - 1]) + lists[|lists| - 1]
  }

  lemma {:induction false} BatchErrorsSticky(beans: seq<Option<Bean>>, config: Config, k: nat)
    requires k <= |beans| && BatchErrors(beans[..k], config).Err?
    ensures BatchErrors(beans, config) == BatchErrors(beans[..k], config)
    decreases |beans| - k
  {
    if k < |beans| {
      var p := beans[..|beans| - 1];
      assert p[..k] == beans[..k];
      BatchErrorsSticky(p, config, k);
    } else {
      assert beans[..k] == beans;
    }
  }

  method ValidateBeansWith(beans: Option<seq<Option<Bean>>>, fieldLengthMap: Option<Config>)
    returns (r: Result<seq<string>, ValidationError>)
    ensures r == CollectionErrors(beans, NormalizeConfig(fieldLengthMap))
  {
    if beans.None? || |beans.value| == 0 {
      return Ok([]);
    }
    var config := NormalizeConfig(fieldLengthMap);
    var bs := beans.value;
    var errors: seq<string> := [];
    for i := 0 to |bs|
      invariant BatchErrors(bs[..i], config) == Ok(errors)
    {
      var beanErrors := ValidateBeanWith(bs[i], Some(config));
      assert bs[..i + 1][..i] == bs[..i];
      if beanErrors.Err? {
        BatchErrorsSticky(bs, config, i + 1);
        return Err(beanErrors.error);
      }
      errors := errors + beanErrors.value;
    }
    assert bs[..|bs|] == bs;
    return Ok(errors);
  }

  /** validate(Collection): no external limits. */
  method ValidateBeans(beans: Option<seq<Option<Bean>>>) returns (r: Result<seq<string>, ValidationError>)
    ensures r == CollectionErrors(beans, map[])
  {
    r := ValidateBeansWith(beans, Some(map[]));
  }

  /** A collection's result is the per-bean results joined in order, with nothing added: a null
      bean adds nothing, and a null or empty collection gives an empty list. */
  lemma {:induction false} BatchIsConcatenation(beans: seq<Option<Bean>>, config: Config, perBean: seq<seq<string>>)
    requires |perBean| == |beans|
    requires forall i | 0 <= i < |beans| :: BeanErrors(beans[i], config) == Ok(perBean[i])
    ensures BatchErrors(beans, config) == Ok(Concat(perBean))
    ensures CollectionErrors(Some(beans), config) == Ok(Concat(perBean))
    decreases |beans|
  {
    if beans != [] {
      var n := |beans| - 1;
      assert forall i | 0 <= i < n :: beans[..n][i] == beans[i];
      BatchIsConcatenation(beans[..n], config, perBean[..n]);
    }
  }

  /** The first bean that throws decides the outcome of the whole collection. */
  lemma {:induction false} BatchFirstError(beans: seq<Option<Bean>>, config: Config, k: nat)
    requires k < |beans| && BeanErrors(beans[k], config).Err?
    requires forall i | 0 <= i < k :: BeanErrors(beans[i], config).Ok?
    ensures BatchErrors(beans, config) == BeanErrors(beans[k], config)
  {
    var prefix := beans[..k];
    var perBean := seq(k, i requires 0 <= i < k => BeanErrors(beans[i], config).value);
    BatchIsConcatenation(prefix, config, perBean);
    assert beans[..k + 1][..k] == prefix;
    BatchErrorsSticky(beans, config, k + 1);
  }

  /** A null bean gives an empty list, and a null map behaves as an empty one. */
  lemma NullBean(config: Config)
    ensures BeanErrors(None, config) == Ok([])
    ensures NormalizeConfig(None) == map[]
  {
  }

  /** A null collection and an empty collection both give an empty list. */
  lemma NullCollection(config: Config)
    ensures CollectionErrors(None, config) == Ok([])
    ensures CollectionErrors(Some([]), config) == Ok([])
  {
  }
}
