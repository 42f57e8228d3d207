/** The two-step lead form around the calculation: the form's fields and
    their initial values, the gates that let the visitor advance, and the
    component state (the step shown, the form, the stored results) with the
    handlers that change it. */
module LeadForm {
  import opened Wrappers
  import opened RoiEngine
  import opened RoiSimulation
  import opened RoiResults

  /** The keys of the form object. */
  datatype Field =
    | Name | Email | Phone | Address | ZipCode
    | MonthlyBill | ElectricityRate | AnnualUsage | SystemSize | SystemCost | DownPayment
    | FinancingRate | Location | RoofType | TimeFrame | UtilityRateIncrease

  /** The form object: every field holds the text typed into its input. */
  type FormData = map<Field, string>

  /** Every field of the form has a value. */
  predicate Complete(f: FormData)
  {
    forall k: Field :: k in f
  }

  // ---------------------------------------------------------------------------
  // JavaScript's String.prototype.trim

  /** The characters `trim` removes: the ECMAScript white space and line
      terminators (tab, line feed, vertical tab, form feed, carriage return,
      space, no-break space, the Unicode space separators, line and paragraph
      separator, byte order mark). */
  predicate IsWhitespace(c: char)
  {
    var n := c as int;
    n == 0x09 || n == 0x0A || n == 0x0B || n == 0x0C || n == 0x0D || n == 0x20 || n == 0xA0
    || n == 0x1680 || (0x2000 <= n <= 0x200A) || n == 0x2028 || n == 0x2029 || n == 0x202F
    || n == 0x205F || n == 0x3000 || n == 0xFEFF
  }

  /** The string without its leading white space. */
  function TrimStart(s: string): (t: string)
    ensures |t| <= |s| && t == s[|s| - |t|..]
    ensures forall i :: 0 <= i < |s| - |t| ==> IsWhitespace(s[i])
    ensures t == [] || !IsWhitespace(t[0])
  {
    if |s| > 0 && IsWhitespace(s[0]) then TrimStart(s[1..]) else s
  }

  /** The string without its trailing white space. */
  function TrimEnd(s: string): (t: string)
    ensures |t| <= |s| && t == s[..|t|]
    ensures forall i :: |t| <= i < |s| ==> IsWhitespace(s[i])
    ensures t == [] || !IsWhitespace(t[|t| - 1])
  {
    if |s| > 0 && IsWhitespace(s[|s| - 1]) then TrimEnd(s[..|s| - 1]) else s
  }

  /** `trim`: the string without white space at either end. What is left is
      no longer than the string, and it is empty or starts and ends with a
      character that is not white space. */
  function Trim(s: string): (t: string)
    ensures |t| <= |s|
    ensures t == [] || (!IsWhitespace(t[0]) && !IsWhitespace(t[|t| - 1]))
  {
    var u := TrimStart(s);
    assert TrimEnd(u) != [] ==> TrimEnd(u)[0] == u[0];
    TrimEnd(u)
  }

  /** A trimmed string is empty exactly when the string is all white space. */
  lemma TrimEmpty(s: string)
    ensures Trim(s) == [] <==> forall i :: 0 <= i < |s| ==> IsWhitespace(s[i])
  {
    var u := TrimStart(s);
    assert |u| > 0 ==> u[0] == s[|s| - |u|] && !IsWhitespace(u[0]);
  }

  /** Trimming twice trims nothing more. */
  lemma TrimIdempotent(s: string)
    ensures Trim(Trim(s)) == Trim(s)
  {
    var t := Trim(s);
    TrimEmpty(s);
    assert TrimStart(t) == t;
    assert TrimEnd(t) == t;
  }

  // ---------------------------------------------------------------------------
  // The gates

  /** Step 1 may be left when every contact field is filled in with more than
      white space: each of the five has a character other than white space. */
  predicate Step1Ready(f: FormData)
    requires Complete(f)
    ensures Step1Ready(f) <==>
      HasText(f[Name]) && HasText(f[Email]) && HasText(f[Phone]) && HasText(f[Address]) && HasText(f[ZipCode])
  {
    TrimEmpty(f[Name]);
    TrimEmpty(f[Email]);
    TrimEmpty(f[Phone]);
    TrimEmpty(f[Address]);
    TrimEmpty(f[ZipCode]);
    Trim(f[Name]) != [] && Trim(f[Email]) != [] && Trim(f[Phone]) != []
    && Trim(f[Address]) != [] && Trim(f[ZipCode]) != []
  }

  /** The calculation may run when the monthly bill and the system cost are
      not empty. Any text with a character other than white space passes;
      white space alone passes too, as these two are not trimmed. */
  predicate Step2Ready(f: FormData)
    requires Complete(f)
    ensures HasText(f[MonthlyBill]) && HasText(f[SystemCost]) ==> Step2Ready(f)
  {
    f[MonthlyBill] != [] && f[SystemCost] != []
  }

  /** A form whose bill and cost are a single space passes the step 2 gate
      although neither has any text. This is about the gate's test of the
      stored text: the page's bill and cost inputs are number inputs, which a
      browser does not fill with white space alone. */
  lemma Step2AcceptsBlank()
    ensures var f := InitialFormData()[MonthlyBill := " "][SystemCost := " "];
      Complete(f) && Step2Ready(f) && !HasText(f[MonthlyBill]) && !HasText(f[SystemCost])
  {
  }

  /** Whether a field has a character that is not white space. */
  predicate HasText(s: string)
  {
    exists i :: 0 <= i < |s| && !IsWhitespace(s[i])
  }

  /** A field's value when the form is first shown: the contact and cost
      fields empty, the rest at their defaults. */
  function Default(k: Field): string
  {
    match k
    case ElectricityRate => "0.12"
    case FinancingRate => "6.5"
    case Location => "average"
    case RoofType => "south"
    case TimeFrame => "20"
    case UtilityRateIncrease => "3.0"
    case _ => ""
  }

  /** The form as first shown: every field has its initial value. */
  function InitialFormData(): (f: FormData)
    ensures Complete(f)
  {
    map k: Field :: Default(k)
  }

  /** Neither step is ready on the form as first shown: the contact fields and
      the monthly bill are empty. */
  lemma InitialNotReady()
    ensures !Step1Ready(InitialFormData()) && !Step2Ready(InitialFormData())
  {
    var f := InitialFormData();
    assert f[Name] == Default(Name) == [];
    assert f[MonthlyBill] == Default(MonthlyBill) == [];
  }

  /** The step shown after "next" is pressed: the second once step 1 is ready,
      otherwise unchanged. */
  function NextStep(step: nat, f: FormData): (n: nat)
    requires Complete(f)
    ensures n == 1 || n == 2 || n == step
    ensures n != step <==> step == 1 && Step1Ready(f)
  {
    if step == 1 && Step1Ready(f) then 2 else step
  }

  /** Whether "next" runs the calculation: on step 2, with its fields ready. */
  predicate Calculates(step: nat, f: FormData)
    requires Complete(f)
  {
    step == 2 && Step2Ready(f)
  }

  /** "Next" never both advances and calculates, and from step 1 it never
      calculates. */
  lemma NextStepExclusive(step: nat, f: FormData)
    requires Complete(f)
    ensures !(NextStep(step, f) != step && Calculates(step, f))
    ensures step == 1 ==> !Calculates(step, f)
  {
  }

  // ---------------------------------------------------------------------------
  // The component state

  class SolarCalculator {
    var step: nat
    var formData: FormData
    var results: Option<Results>
    var showResults: bool

    /** One of the two steps is shown, every field has a value, and results are
        shown exactly when there are some. */
    ghost predicate Valid()
      reads this
    {
      (step == 1 || step == 2) && Complete(formData) && (showResults <==> results.Some?)
    }

    constructor()
      ensures Valid()
      ensures step == 1 && formData == InitialFormData()
      ensures results == None && !showResults
    {
      step := 1;
      formData := InitialFormData();
      results := None;
      showResults := false;
    }

    /** Typing into a field replaces that field's text and nothing else. */
    method HandleInputChange(field: Field, value: string)
      requires Valid()
      modifies this
      ensures Valid()
      ensures formData == old(formData)[field := value]
      ensures formData[field] == value
      ensures forall k :: k != field ==> formData[k] == old(formData)[k]
      ensures step == old(step) && results == old(results) && showResults == old(showResults)
    {
      formData := formData[field := value];
    }

    /** "Next": from a ready step 1 go to step 2; on a ready step 2 run the
        calculation on the parsed form `inp` and show its rounded results;
        otherwise nothing changes. */
    method HandleNextStep(inp: RoiInput)
      requires Valid()
      requires Calculates(step, formData) ==> WellFormed(inp)
      modifies this
      ensures Valid()
      ensures formData == old(formData)
      ensures step == NextStep(old(step), old(formData))
      ensures Calculates(old(step), old(formData)) ==> results == Some(Present(Project(inp))) && showResults
      ensures !Calculates(old(step), old(formData)) ==>
        results == old(results) && showResults == old(showResults)
    {
      if step == 1 && Step1Ready(formData) {
        step := 2;
      } else if step == 2 && Step2Ready(formData) {
        var p := CalculateSolarROI(inp);
        results := Some(Present(p));
        showResults := true;
      }
    }

    /** "Back" on step 2: return to step 1, keeping the form and the results. */
    method Back()
      requires Valid()
      modifies this
      ensures Valid()
      ensures step == 1
      ensures formData == old(formData) && results == old(results) && showResults == old(showResults)
    {
      step := 1;
    }
  }
}
