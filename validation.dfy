/**
 * `validateProfile` of src/utils/recommender.ts: checks a partly filled
 * profile and reports one error per faulty field, in field order.
 */
module Validation {
  import opened Types
  import opened Sequences

  /** A profile as the form hands it over: any field may be missing (`undefined` or `null`). */
  datatype ProfileInput = ProfileInput(
    state: Option<string>,
    age: Option<int>,
    annualIncome: Option<int>,
    category: Option<string>)

  datatype Field = StateField | AgeField | AnnualIncomeField | CategoryField

  /**
   * Rendering helper: the `field` string the source puts in an error
   * record. The model's errors carry the `Field` itself.
   */
  function FieldName(f: Field): string
  {
    match f
    case StateField => "state"
    case AgeField => "age"
    case AnnualIncomeField => "annualIncome"
    case CategoryField => "category"
  }

  function FieldRank(f: Field): nat
  {
    match f
    case StateField => 0
    case AgeField => 1
    case AnnualIncomeField => 2
    case CategoryField => 3
  }

  datatype FieldError = FieldError(field: Field, message: string)

  datatype ValidationResult = ValidationResult(isValid: bool, errors: seq<FieldError>)

  /**
   * The characters `String.prototype.trim` removes: WhiteSpace and
   * LineTerminator of ECMA-262 (sections 11.2 and 11.3 of ECMAScript 2019),
   * with the space separators of Unicode category Zs written out.
   */
  predicate IsWhitespace(ch: char)
  {
    ch == '\U{0009}' || ch == '\U{000B}' || ch == '\U{000C}' || ch == ' ' || ch == '\U{00A0}' || ch == '\U{FEFF}'
    || ch == '\U{1680}' || ('\U{2000}' <= ch <= '\U{200A}') || ch == '\U{202F}' || ch == '\U{205F}' || ch == '\U{3000}'
    || ch == '\n' || ch == '\r' || ch == '\U{2028}' || ch == '\U{2029}'
  }

  function TrimStart(s: string): (t: string)
    ensures |t| <= |s|
    ensures t != [] ==> !IsWhitespace(t[0])
  {
    if s != [] && IsWhitespace(s[0]) then TrimStart(s[1..]) else s
  }

  function TrimEnd(s: string): (t: string)
    ensures |t| <= |s|
    ensures t != [] ==> !IsWhitespace(t[|t| - 1])
  {
    if s != [] && IsWhitespace(s[|s| - 1]) then TrimEnd(s[..|s| - 1]) else s
  }

  /** `s.trim()` */
  function Trim(s: string): string
  {
    TrimEnd(TrimStart(s))
  }

  /** A trimmed string is empty exactly when every character is whitespace. */
  lemma {:induction false} TrimEmpty(s: string)
    ensures Trim(s) == "" <==> forall i :: 0 <= i < |s| ==> IsWhitespace(s[i])
  {
    TrimStartEmpty(s);
    var t := TrimStart(s);
    if t != [] {
      TrimEndKeepsFirst(t);
    }
  }

  lemma {:induction false} TrimStartEmpty(s: string)
    ensures TrimStart(s) == "" <==> forall i :: 0 <= i < |s| ==> IsWhitespace(s[i])
  {
    if s != [] && IsWhitespace(s[0]) {
      TrimStartEmpty(s[1..]);
      assert forall i :: 0 < i < |s| ==> s[i] == s[1..][i - 1];
    }
  }

  /** Trimming the end of a string that starts with a non-whitespace character leaves it non-empty. */
  lemma {:induction false} TrimEndKeepsFirst(s: string)
    requires s != [] && !IsWhitespace(s[0])
    ensures TrimEnd(s) != ""
  {
    if IsWhitespace(s[|s| - 1]) {
      assert |s| > 1;
      TrimEndKeepsFirst(s[..|s| - 1]);
    }
  }

  /** `!value || value.trim() === ''`: missing, empty or all whitespace. */
  predicate Blank(value: Option<string>)
  {
    value.None? || value.value == "" || Trim(value.value) == ""
  }

  const StateMissing := "Please select your state"
  const AgeMissing := "Please enter your age"
  const AgeOutOfRange := "Please enter a valid age (0-120)"
  const IncomeMissing := "Please enter your annual income"
  const IncomeNegative := "Income cannot be negative"
  const CategoryMissing := "Please select a category"

  function StateErrors(input: ProfileInput): (e: seq<FieldError>)
    ensures |e| <= 1 && (e != [] ==> e[0].field == StateField)
  {
    if Blank(input.state) then [FieldError(StateField, StateMissing)] else []
  }

  function AgeErrors(input: ProfileInput): (e: seq<FieldError>)
    ensures |e| <= 1 && (e != [] ==> e[0].field == AgeField)
  {
    if input.age.None? then [FieldError(AgeField, AgeMissing)]
    else if input.age.value < 0 || input.age.value > 120 then [FieldError(AgeField, AgeOutOfRange)]
    else []
  }

  function IncomeErrors(input: ProfileInput): (e: seq<FieldError>)
    ensures |e| <= 1 && (e != [] ==> e[0].field == AnnualIncomeField)
  {
    if input.annualIncome.None? then [FieldError(AnnualIncomeField, IncomeMissing)]
    else if input.annualIncome.value < 0 then [FieldError(AnnualIncomeField, IncomeNegative)]
    else []
  }

  function CategoryErrors(input: ProfileInput): (e: seq<FieldError>)
    ensures |e| <= 1 && (e != [] ==> e[0].field == CategoryField)
  {
    if Blank(input.category) then [FieldError(CategoryField, CategoryMissing)] else []
  }

  /** The errors of a profile, in field order. */
  function Errors(input: ProfileInput): seq<FieldError>
  {
    StateErrors(input) + AgeErrors(input) + IncomeErrors(input) + CategoryErrors(input)
  }

  /** The conditions a complete profile meets. */
  predicate WellFormed(input: ProfileInput)
  {
    && input.state.Some? && HasText(input.state.value)
    && input.age.Some? && 0 <= input.age.value <= 120
    && input.annualIncome.Some? && input.annualIncome.value >= 0
    && input.category.Some? && HasText(input.category.value)
  }

  /** Some character is not whitespace. */
  predicate HasText(s: string)
  {
    exists i :: 0 <= i < |s| && !IsWhitespace(s[i])
  }

  /** No errors exactly for a well-formed profile: a non-blank state and category, an age in 0..120, a non-negative income. */
  lemma ErrorsEmptyIff(input: ProfileInput)
    ensures Errors(input) == [] <==> WellFormed(input)
  {
    if input.state.Some? {
      TrimEmpty(input.state.value);
    }
    if input.category.Some? {
      TrimEmpty(input.category.value);
    }
  }

  /** An error's place in the list: the position of its field in the form. */
  function ErrorRank(e: FieldError): int
  {
    FieldRank(e.field)
  }

  lemma SingleError(e: seq<FieldError>, f: Field)
    requires |e| <= 1 && (e != [] ==> e[0].field == f)
    ensures Ascending(e, ErrorRank) && RanksWithin(e, ErrorRank, FieldRank(f), FieldRank(f))
  {
  }

  /** The errors come in the order state, age, annual income, category, at most one per field. */
  lemma ErrorsOrder(input: ProfileInput)
    ensures |Errors(input)| <= 4
    ensures Ascending(Errors(input), ErrorRank)
  {
    FieldsInOrder(StateErrors(input), AgeErrors(input), IncomeErrors(input), CategoryErrors(input));
  }

  lemma FieldsInOrder(st: seq<FieldError>, ag: seq<FieldError>, inc: seq<FieldError>, cat: seq<FieldError>)
    requires |st| <= 1 && (st != [] ==> st[0].field == StateField)
    requires |ag| <= 1 && (ag != [] ==> ag[0].field == AgeField)
    requires |inc| <= 1 && (inc != [] ==> inc[0].field == AnnualIncomeField)
    requires |cat| <= 1 && (cat != [] ==> cat[0].field == CategoryField)
    ensures |st + ag + inc + cat| <= 4
    ensures Ascending(st + ag + inc + cat, ErrorRank)
  {
    assert Ascending(st + ag, ErrorRank) && RanksWithin(st + ag, ErrorRank, 0, 1) by {
      SingleError(st, StateField);
      SingleError(ag, AgeField);
      AscendingConcat(st, ag, ErrorRank, 0, 0, 1);
    }
    assert Ascending(st + ag + inc, ErrorRank) && RanksWithin(st + ag + inc, ErrorRank, 0, 2) by {
      SingleError(inc, AnnualIncomeField);
      AscendingConcat(st + ag, inc, ErrorRank, 0, 1, 2);
    }
    SingleError(cat, CategoryField);
    AscendingConcat(st + ag + inc, cat, ErrorRank, 0, 2, 3);
  }

  /** An error is in the list exactly when it is the error of its own field. */
  lemma ErrorOfField(input: ProfileInput, x: FieldError)
    ensures x in Errors(input) <==>
      match x.field
      case StateField => x in StateErrors(input)
      case AgeField => x in AgeErrors(input)
      case AnnualIncomeField => x in IncomeErrors(input)
      case CategoryField => x in CategoryErrors(input)
  {
    var st, ag, inc, cat := StateErrors(input), AgeErrors(input), IncomeErrors(input), CategoryErrors(input);
    assert x in st + ag + inc + cat <==> x in st || x in ag || x in inc || x in cat;
  }

  /** The state and category messages are present exactly when the field is blank. */
  lemma ErrorsContentText(input: ProfileInput)
    ensures FieldError(StateField, StateMissing) in Errors(input) <==> Blank(input.state)
    ensures FieldError(CategoryField, CategoryMissing) in Errors(input) <==> Blank(input.category)
  {
    ErrorOfField(input, FieldError(StateField, StateMissing));
    ErrorOfField(input, FieldError(CategoryField, CategoryMissing));
  }

  /** Each age and income message is present exactly when the condition that calls for it holds. */
  lemma ErrorsContentNumbers(input: ProfileInput)
    ensures FieldError(AgeField, AgeMissing) in Errors(input) <==> input.age.None?
    ensures FieldError(AgeField, AgeOutOfRange) in Errors(input) <==> input.age.Some? && (input.age.value < 0 || input.age.value > 120)
    ensures FieldError(AnnualIncomeField, IncomeMissing) in Errors(input) <==> input.annualIncome.None?
    ensures FieldError(AnnualIncomeField, IncomeNegative) in Errors(input) <==> input.annualIncome.Some? && input.annualIncome.value < 0
  {
    assert AgeMissing != AgeOutOfRange && IncomeMissing != IncomeNegative;
    ErrorOfField(input, FieldError(AgeField, AgeMissing));
    ErrorOfField(input, FieldError(AgeField, AgeOutOfRange));
    ErrorOfField(input, FieldError(AnnualIncomeField, IncomeMissing));
    ErrorOfField(input, FieldError(AnnualIncomeField, IncomeNegative));
  }

  /** The source's procedure: push an error per failed check, then report validity. */
  method ValidateProfile(input: ProfileInput) returns (result: ValidationResult)
    ensures result.errors == Errors(input)
    ensures result.isValid <==> result.errors == []
  {
    var errors: seq<FieldError> := [];
    if input.state.None? || input.state.value == "" || Trim(input.state.value) == "" {
      errors := errors + [FieldError(StateField, StateMissing)];
    }
    if input.age.None? {
      errors := errors + [FieldError(AgeField, AgeMissing)];
    } else if input.age.value < 0 || input.age.value > 120 {
      errors := errors + [FieldError(AgeField, AgeOutOfRange)];
    }
    assert errors == StateErrors(input) + AgeErrors(input);
    if input.annualIncome.None? {
      errors := errors + [FieldError(AnnualIncomeField, IncomeMissing)];
    } else if input.annualIncome.value < 0 {
      errors := errors + [FieldError(AnnualIncomeField, IncomeNegative)];
    }
    assert errors == StateErrors(input) + AgeErrors(input) + IncomeErrors(input);
    if input.category.None? || input.category.value == "" || Trim(input.category.value) == "" {
      errors := errors + [FieldError(CategoryField, CategoryMissing)];
    }
    result := ValidationResult(|errors| == 0, errors);
  }
}
